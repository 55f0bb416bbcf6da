/** Exactly when selecting a track without playing it can make a listen count twice. */
module SessionLimits {
  import opened Rows
  import D = Deck
  import L = DeckLaws
  import P = PlayOrder
  import R = PlayRecords
  import opened PlayerSession
  import opened SessionLaws

  /** `t` can follow from `s` with every further selected track played. */
  ghost predicate Reaches(s: Session, t: Session) {
    exists states, inputs, steps ::
      && Run(states, inputs, steps) && states[0] == s && states[|steps|] == t
      && forall k | 0 <= k < |steps| :: !Separates(steps[k])
  }

  lemma ReachStay(s: Session)
    ensures Reaches(s, s)
  {
    assert Run([s], [], []);
  }

  lemma RunExtends(states: seq<Session>, inputs: seq<Input>, steps: seq<Step>, i: Input, step: Step)
    requires Run(states, inputs, steps) && Enabled(states[|steps|], step)
    ensures Run(states + [Next(states[|steps|], i, step)], inputs + [i], steps + [step])
  {
    var states', inputs', steps' := states + [Next(states[|steps|], i, step)], inputs + [i], steps + [step];
    forall k | 0 <= k < |steps'|
      ensures Enabled(states'[k], steps'[k]) && states'[k + 1] == Next(states'[k], inputs'[k], steps'[k])
    {
      if k < |steps| {
        assert states'[k] == states[k] && states'[k + 1] == states[k + 1];
        assert inputs'[k] == inputs[k] && steps'[k] == steps[k];
      } else {
        assert states'[k] == states[|steps|] && inputs'[k] == i && steps'[k] == step;
      }
    }
  }

  lemma ReachStep(s: Session, t: Session, i: Input, step: Step)
    requires Reaches(s, t) && Enabled(t, step) && !Separates(step)
    ensures Reaches(s, Next(t, i, step))
  {
    var states, inputs, steps :|
      && Run(states, inputs, steps) && states[0] == s && states[|steps|] == t
      && forall k | 0 <= k < |steps| :: !Separates(steps[k]);
    RunExtends(states, inputs, steps, i, step);
    var steps' := steps + [step];
    forall k | 0 <= k < |steps'| ensures !Separates(steps'[k]) {
      if k < |steps| { assert steps'[k] == steps[k]; }
    }
    assert (states + [Next(t, i, step)])[|steps'|] == Next(t, i, step);
  }

  /** A state to go on from: reachable, with a deck at work. */
  ghost predicate Live(s: Session, t: Session) {
    Reaches(s, t) && L.Inv(t.world) && !t.world.deck.destroyed
  }

  // ---- the scripted steps ----

  const ROLLING := D.Clock(40.0, Some(100.0), false, true, true)

  /** Both elements at 40 of 100 seconds, buffered; gapless on; a session that may record. */
  const INPUT := Input(D.Env(D.Pair(ROLLING, ROLLING), D.Prefs(true, 0.0, false), false), true)

  /** The play of a countable shown track that its guard lets through. */
  lemma RecordNow(s: Session, t: Session) returns (u: Session)
    requires Live(s, t) && t.Shown().Some? && !t.Shown().value.episode
    requires t.rec.playId != Some(t.Shown().value.id)
    ensures Live(s, u) && u == t.(world := t.world.(log := t.world.log + [D.TimeAt(40.0, 100.0)]), rec := u.rec)
    ensures u.rec == t.rec.(playId := Some(t.Shown().value.id),
                            plays := t.rec.plays + [R.Play(t.rec.listen, t.Shown().value.id, R.Millis(40.0), false)])
  {
    var e := D.TimeUpdate(t.world.deck.active);
    var n := D.TimeAt(40.0, 100.0);
    var h := D.Next(t.world, INPUT.env, e);
    L.NextKeeps(t.world, INPUT.env, e);
    assert h == D.Say(t.world, n) && News(t.world, h) == [n];
    HearOne(t.(world := h), n, true);
    ReachStep(s, t, INPUT, Happens(e));
    u := Next(t, INPUT, Happens(e));
  }

  lemma NotOnce(u: Session, i: nat, j: nat)
    requires i < j < |u.rec.plays| && u.rec.plays[i].listen == u.rec.plays[j].listen
    ensures !Once(u)
  {
  }

  /** What parking leaves armed, by item and index. */
  ghost predicate ArmsParked(d: D.Deck, h: D.Deck) {
    if d.pendingPreload.None? then h.preloaded == d.preloaded
    else && h.preloaded.Some? && h.preloaded.value.item == d.pendingPreload.value.item
         && h.preloaded.value.index == d.pendingPreload.value.index
  }

  lemma ParkedIsArmed(w: D.World)
    requires w.deck.retiring.None? && !w.deck.destroyed && w.deck.preloaded.None?
    ensures var h := D.ApplyParked(w);
            && ArmsParked(w.deck, h.deck) && h.deck.current == w.deck.current && !h.deck.destroyed
  {
  }

  lemma RetiringTick(w: D.World, env: D.Env)
    requires L.Inv(w) && w.deck.retiring.Some? && !w.deck.destroyed
    ensures var h := D.Next(w, env, D.Tick(w.deck.retiring.value.el, 1.0));
            && L.Inv(h) && h.deck.retiring.None? && !h.deck.destroyed && h.deck.current == w.deck.current
            && ArmsParked(w.deck, h.deck)
  {
    var r := w.deck.retiring.value;
    L.NextKeeps(w, env, D.Tick(r.el, 1.0));
    L.RetirementEnds(w, env, 1.0);
    var w0 := D.CancelRamp(D.SetFade(w, r.el, D.Falling(1.0)), r.el);
    ParkedIsArmed(L.Retire(w0, env));
  }

  /** A reported retirement leaves the present listen and its guard as they are. */
  lemma {:induction false} HearRetired(t: Session, h: D.World, news: seq<D.Note>)
    requires news == [] || (|news| == 1 && news[0].Retired?)
    ensures var u := HearAll(t.(world := h), news, true);
            && u == t.(world := h, rec := u.rec)
            && u.rec == t.rec.(retiringId := u.rec.retiringId, plays := u.rec.plays)
            && |t.rec.plays| <= |u.rec.plays| && u.rec.plays[..|t.rec.plays|] == t.rec.plays
  {
    if news != [] {
      HearOne(t.(world := h), news[0], true);
      assert news == [news[0]];
    }
  }

  /** Ends the fade-out under way, if any: what was parked is armed, and the present listen, its
      plays so far and its guard are as before. */
  lemma FinishRetiring(s: Session, t: Session) returns (u: Session)
    requires Live(s, t)
    ensures Live(s, u) && u.world.deck.retiring.None? && u == t.(world := u.world, rec := u.rec)
    ensures u.world.deck.current == t.world.deck.current && L.Started(u.world.log) == L.Started(t.world.log)
    ensures u.rec == t.rec.(retiringId := u.rec.retiringId, plays := u.rec.plays)
    ensures |t.rec.plays| <= |u.rec.plays| && u.rec.plays[..|t.rec.plays|] == t.rec.plays
    ensures ArmsParked(t.world.deck, u.world.deck)
  {
    if t.world.deck.retiring.None? {
      u := t;
    } else {
      var r := t.world.deck.retiring.value;
      var e := D.Tick(r.el, 1.0);
      var h := D.Next(t.world, INPUT.env, e);
      RetiringTick(t.world, INPUT.env);
      RetiringNews(t.world, INPUT.env);
      HearRetired(t, h, News(t.world, h));
      ReachStep(s, t, INPUT, Happens(e));
      u := Next(t, INPUT, Happens(e));
    }
  }

  lemma RetiringNews(w: D.World, env: D.Env)
    requires L.Inv(w) && w.deck.retiring.Some?
    ensures var h := D.Next(w, env, D.Tick(w.deck.retiring.value.el, 1.0));
            && (News(w, h) == [] || (|News(w, h)| == 1 && News(w, h)[0].Retired?))
            && L.Started(h.log) == L.Started(w.log)
  {
    var r := w.deck.retiring.value;
    var c := env.clocks.Get(r.el);
    L.RetirementEnds(w, env, 1.0);
    var n := D.Retired(r.item, c.time, c.ReachedEnd());
    L.Said(w.log, n);
    assert (w.log + [n])[|w.log|..] == [n];
    assert (w.log + [])[|w.log|..] == [] && w.log + [] == w.log;
  }

  /** Cycling the repeat mode while a track shows leaves the armed slot alone. */
  lemma CycleToOne(s: Session, t: Session) returns (u: Session)
    requires Live(s, t) && t.Shown().Some?
    ensures Live(s, u) && u == t.(repeat := P.One)
  {
    u := t;
    if u.repeat.Off? {
      ReachStep(s, u, INPUT, CycleRepeat);
      u := Next(u, INPUT, CycleRepeat);
    }
    if u.repeat.All? {
      ReachStep(s, u, INPUT, CycleRepeat);
      u := Next(u, INPUT, CycleRepeat);
    }
  }

  /** The track that is next is armed. */
  lemma ArmNext(s: Session, t: Session, k: nat) returns (u: Session)
    requires Live(s, t) && t.world.deck.retiring.None? && t.world.deck.preloaded.None?
    requires k < |t.queue| && k == P.NextIndexFor(|t.queue|, t.index, t.repeat)
    ensures Live(s, u) && u == t.(world := u.world)
    ensures u.world.deck.preloaded.Some? && u.world.deck.preloaded.value.item == t.queue[k]
            && u.world.deck.preloaded.value.index == k
    ensures u.world.deck.retiring.None? && u.world.deck.current == t.world.deck.current && u.world.log == t.world.log
  {
    var step, e := Arm(t.queue[k], k, ""), D.DoSyncPreload(Some(t.queue[k]), k, Some(""));
    L.NextKeeps(t.world, INPUT.env, e);
    assert News(t.world, D.Next(t.world, INPUT.env, e)) == [];
    ReachStep(s, t, INPUT, step);
    u := Next(t, INPUT, step);
  }

  /** Something is armed: what was already, or the shown track under repeat-one. */
  lemma ArmSomething(s: Session, t: Session) returns (u: Session)
    requires Live(s, t) && t.world.deck.retiring.None? && t.Shown().Some?
    ensures Live(s, u) && u.world.deck.preloaded.Some? && u.world.deck.retiring.None?
    ensures u.queue == t.queue && u.index == t.index && u.rec == t.rec && u.world.log == t.world.log
    ensures u.world.deck.current == t.world.deck.current
  {
    if t.world.deck.preloaded.Some? {
      u := t;
    } else {
      var v := CycleToOne(s, t);
      u := ArmNext(s, v, v.index);
    }
  }

  lemma {:induction false} HearOne(t: Session, a: D.Note, bearer: bool)
    ensures HearAll(t, [a], bearer) == Hear(t, a, bearer)
  {
    assert HearAll(Hear(t, a, bearer), [], bearer) == Hear(t, a, bearer);
  }

  lemma {:induction false} HearTwo(t: Session, a: D.Note, b: D.Note, bearer: bool)
    ensures HearAll(t, [a, b], bearer) == Hear(Hear(t, a, bearer), b, bearer)
  {
    assert [a, b][1..] == [b];
    HearOne(Hear(t, a, bearer), b, bearer);
  }

  lemma EndedSwaps(w: D.World, cur: D.Slot, pre: D.Slot)
    requires L.Inv(w) && !w.deck.destroyed && w.deck.current == Some(cur) && w.deck.preloaded == Some(pre)
    ensures var h := D.Next(w, INPUT.env, D.Ended(w.deck.active));
            && L.Inv(h) && h.log == w.log + News(w, h) && L.Started(h.log) == Some(pre.item)
            && News(w, h) == [D.Swapped(cur.item, pre), D.Retired(cur.item, 100.0, true)]
            && !h.deck.destroyed && h.deck.current == Some(pre) && h.deck.preloaded.None? && h.deck.retiring.None?
  {
    var h := D.GaplessSwap(w, INPUT.env, cur, pre);
    L.NextKeeps(w, INPUT.env, D.Ended(w.deck.active));
    L.GaplessSwapLogs(w, INPUT.env, cur, pre);
    assert h.log == w.log + [D.Swapped(cur.item, pre), D.Retired(cur.item, 100.0, true)];
  }

  /** The active element ends and the armed slot is swapped in. */
  lemma SwapNow(s: Session, t: Session) returns (u: Session)
    requires Live(s, t) && t.world.deck.preloaded.Some? && t.world.deck.current.Some?
    ensures var cur, pre := t.world.deck.current.value, t.world.deck.preloaded.value;
            && Live(s, u) && u.queue == t.queue && u.index == R.SwappedIndex(t.queue, pre.index, pre.item)
            && u.rec == R.OnRetired(R.OnSwapped(t.rec), cur.item, 100.0, true, true)
            && u.world.deck.current == Some(pre) && L.Started(u.world.log) == Some(pre.item)
            && u.world.deck.preloaded.None? && u.world.deck.retiring.None?
  {
    var cur, pre := t.world.deck.current.value, t.world.deck.preloaded.value;
    var e := D.Ended(t.world.deck.active);
    var h := D.Next(t.world, INPUT.env, e);
    EndedSwaps(t.world, cur, pre);
    HearTwo(t.(world := h), D.Swapped(cur.item, pre), D.Retired(cur.item, 100.0, true), true);
    ReachStep(s, t, INPUT, Happens(e));
    u := Next(t, INPUT, Happens(e));
  }

  /** A submitted listen whose track may yet retire unguarded is submitted again: its fade-in done,
      it is swapped out at its natural end. */
  lemma SwapOutCountsTwice(s: Session, t: Session) returns (u: Session)
    requires Live(s, t) && t.Shown().Some? && R.Submitted(t.rec, t.rec.listen)
    requires Retirable(t.world.log).Some? && t.rec.playId != Some(Retirable(t.world.log).value.id)
    ensures Reaches(s, u) && !Once(u)
  {
    var v := FinishRetiring(s, t);
    var i :| 0 <= i < |t.rec.plays| && t.rec.plays[i].listen == t.rec.listen;
    assert v.rec.plays[i] == t.rec.plays[i];
    var w := ArmSomething(s, v);
    u := SwapNow(s, w);
    NotOnce(u, i, |w.rec.plays|);
  }

  // ---- a slot that has left the queue ----

  /** This slot, swapped in, may leave the store showing another track that counts. */
  ghost predicate Stale(t: Session, item: D.Item, k: int, y: D.Item) {
    && !R.Queued(t.queue, item.id) && !item.episode && !y.episode && MayStand(t.queue, t.index, k, y)
  }

  lemma MovedTo<T(!new)>(rest: seq<T>, k: nat, y: T) returns (tail: seq<T>)
    requires k < |rest| && y in rest
    ensures |tail| == |rest| && multiset(tail) == multiset(rest) && tail[k] == y
  {
    var j :| 0 <= j < |rest| && rest[j] == y;
    tail := P.Swap(rest, j, k);
  }

  /** Random choices that bring a given other track behind the pinned one to a given position. */
  lemma BringTo(queue: seq<D.Item>, index: int, k: int, y: D.Item) returns (picks: seq<nat>)
    requires 0 < index < |queue| && 0 <= k < |queue|
    requires if k == 0 then y == queue[index] else y in P.Others(queue, index)
    ensures P.Picks(picks, |P.Others(queue, index)|) && P.Shuffled(queue, true, index, picks)[k] == y
  {
    var rest := P.Others(queue, index);
    var tail := rest;
    if k > 0 { tail := MovedTo(rest, k - 1, y); }
    Without(queue, index);
    assert multiset([queue[index]] + tail) == multiset{queue[index]} + multiset(tail);
    picks := P.EveryShuffleIsReachable(queue, index, tail);
  }

  lemma ToggleNow(s: Session, t: Session, picks: seq<nat>) returns (u: Session)
    requires Live(s, t) && t.Shown().Some? && t.repeat.One? && Enabled(t, ToggleShuffle(picks))
    ensures Live(s, u) && u == Toggle(t, picks)
  {
    ToggledQueue(t, picks);
    ReachStep(s, t, INPUT, ToggleShuffle(picks));
    u := Next(t, INPUT, ToggleShuffle(picks));
  }

  /** Brings the track to the slot's position, shuffling if need be. */
  lemma Bring(s: Session, t: Session, k: int, y: D.Item) returns (u: Session)
    requires Live(s, t) && MayStand(t.queue, t.index, k, y)
    ensures Live(s, u) && P.TrackAt(u.queue, k) == Some(y) && multiset(u.queue) == multiset(t.queue)
    ensures u.world == t.world && u.rec == t.rec
  {
    if P.TrackAt(t.queue, k) == Some(y) {
      u := t;
    } else {
      u := CycleToOne(s, t);
      if u.shuffle { u := ToggleNow(s, u, []); }
      var picks := BringTo(u.queue, u.index, k, y);
      ToggledQueue(u, picks);
      u := ToggleNow(s, u, picks);
    }
  }

  /** A stale armed slot: swapped in, its listen is submitted for the other track, and swapped out
      it is submitted again. */
  lemma StaleSlotCountsTwice(s: Session, t: Session, y: D.Item) returns (u: Session)
    requires Live(s, t) && t.world.deck.preloaded.Some? && t.world.deck.current.Some?
    requires Stale(t, t.world.deck.preloaded.value.item, t.world.deck.preloaded.value.index, y)
    ensures Reaches(s, u) && !Once(u)
  {
    var pre := t.world.deck.preloaded.value;
    var a := Bring(s, t, pre.index, y);
    PermutedQueue(t.queue, a.queue, pre.item.id);
    R.SwapShowsItemIffQueued(a.queue, pre.index, pre.item);
    var b := SwapNow(s, a);
    assert b.Shown() == Some(y) && b.rec.playId.None?;
    assert a.queue[pre.index] == y;
    var c := RecordNow(s, b);
    assert c.rec.plays[|b.rec.plays|].listen == c.rec.listen;
    L.Said(b.world.log, D.TimeAt(40.0, 100.0));
    u := SwapOutCountsTwice(s, c);
  }

  lemma StaleParkedCountsTwice(s: Session, t: Session, y: D.Item) returns (u: Session)
    requires Live(s, t) && t.world.deck.pendingPreload.Some? && t.world.deck.current.Some?
    requires Stale(t, t.world.deck.pendingPreload.value.item, t.world.deck.pendingPreload.value.index, y)
    ensures Reaches(s, u) && !Once(u)
  {
    var v := FinishRetiring(s, t);
    u := StaleSlotCountsTwice(s, v, y);
  }

  // ---- the exact condition ----

  /** A state that is not safe can go on to count a listen twice. */
  lemma UnsafeCountsTwice(s: Session) returns (u: Session)
    requires L.Inv(s.world) && !Safe(s) && s.Shown().Some? && s.rec.playId.None?
    ensures Reaches(s, u) && !Once(u)
  {
    ReachStay(s);
    var r, out := s.rec, Retirable(s.world.log);
    if !SlotsOk(s.world, s.queue, s.index) {
      u := BadSlotCountsTwice(s);
    } else if R.Submitted(r, r.listen) && out.Some? {
      u := SwapOutCountsTwice(s, s);
    } else {
      var v := RecordNow(s, s);
      assert v.rec.plays[|r.plays|].listen == r.listen;
      L.Said(s.world.log, D.TimeAt(40.0, 100.0));
      if R.Submitted(r, r.listen) {
        var i :| 0 <= i < |r.plays| && r.plays[i].listen == r.listen;
        u := v;
        NotOnce(u, i, |r.plays|);
      } else {
        u := SwapOutCountsTwice(s, v);
      }
    }
  }

  lemma BadSlotCountsTwice(s: Session) returns (u: Session)
    requires Reaches(s, s) && L.Inv(s.world) && !s.world.deck.destroyed && !SlotsOk(s.world, s.queue, s.index)
    ensures Reaches(s, u) && !Once(u)
  {
    var d := s.world.deck;
    if d.preloaded.Some? && !SlotOk(s.queue, s.index, d.preloaded.value.item, d.preloaded.value.index) {
      var y :| MayStand(s.queue, s.index, d.preloaded.value.index, y) && !y.episode;
      u := StaleSlotCountsTwice(s, s, y);
    } else {
      var y :| MayStand(s.queue, s.index, d.pendingPreload.value.index, y) && !y.episode;
      u := StaleParkedCountsTwice(s, s, y);
    }
  }

  /** A step that selects a track without playing it is harmless exactly when no run from there on,
      in which every further selected track is played, submits a listen twice. */
  lemma ExactlyHarmless(s: Session, i: Input, step: Step)
    requires Inv(s) && Enabled(s, step) && Separates(step)
    ensures HarmlessStep(s, step) <==> forall t :: Reaches(Next(s, i, step), t) ==> Once(t)
  {
    var h := Next(s, i, step);
    SeparateKeeps(s, i, step);
    if HarmlessStep(s, step) {
      forall t | Reaches(h, t) ensures Once(t) {
        var states, inputs, steps :|
          && Run(states, inputs, steps) && states[0] == h && states[|steps|] == t
          && forall k | 0 <= k < |steps| :: !Separates(steps[k]);
        RunKeepsInv(states, inputs, steps);
      }
    } else {
      var t := UnsafeCountsTwice(h);
    }
  }

  // ---- two runs that count twice ----

  lemma FirstPlay(el: D.El, item: D.Item, url: string)
    ensures var h := D.Next(D.Initial(el), INPUT.env, D.DoPlayNow(item, 0, url, 0.0));
            && h.log == News(D.Initial(el), h) == [D.Loaded(item)] && L.Inv(h) && !h.deck.destroyed
            && h.deck.current.Some? && h.deck.preloaded.None? && h.deck.retiring.None?
  {
    L.NextKeeps(D.Initial(el), INPUT.env, D.DoPlayNow(item, 0, url, 0.0));
  }

  /** The player once it plays the first track of a new queue. */
  lemma StartQueue(el: D.El, tracks: seq<D.Item>, url: string) returns (s: Session)
    requires tracks != []
    ensures Live(Launch([], -1, false, P.Off, el), s) && s.queue == tracks && s.index == 0
    ensures !s.shuffle && s.repeat.Off? && s.rec == R.START.(listen := 1) && L.Started(s.world.log) == Some(tracks[0])
    ensures s.world.deck.preloaded.None? && s.world.deck.retiring.None? && s.world.deck.current.Some?
  {
    var launch := Launch([], -1, false, P.Off, el);
    var step, play := PlayQueue(tracks, 0, [], url), D.DoPlayNow(tracks[0], 0, url, 0.0);
    ReachStay(launch);
    ReachStep(launch, launch, INPUT, step);
    FirstPlay(el, tracks[0], url);
    var t, h := launch.(queue := tracks, index := 0), D.Next(launch.world, INPUT.env, play);
    s := Next(launch, INPUT, step);
    FirstSelected(el, tracks);
    assert s == Load(launch.(queue := tracks), INPUT, 0, url, 0.0) == Act(t, INPUT, play);
    HearOne(t.(world := h), D.Loaded(tracks[0]), true);
    assert s == Hear(t.(world := h), D.Loaded(tracks[0]), true);
  }

  lemma FirstSelected(el: D.El, tracks: seq<D.Item>)
    requires tracks != []
    ensures var launch := Launch([], -1, false, P.Off, el);
            && Replace(launch, tracks, 0, []) == launch.(queue := tracks) && P.PlayIndex(false, 0, |tracks|) == 0
            && Select(launch.(queue := tracks), 0) == launch.(queue := tracks, index := 0)
  {
  }

  /** Reselecting the current track after its threshold, the lookup being refused: the same listen
      is submitted again. */
  lemma RefusedLookupCountsTwice(el: D.El, x: D.Item, url: string) returns (s: Session, t: Session)
    requires !x.episode
    ensures Reaches(Launch([], -1, false, P.Off, el), s) && s.Shown() == Some(x)
    ensures Reaches(Next(s, INPUT, LoadLater(0, 0.0)), t) && !Once(t)
  {
    var launch := Launch([], -1, false, P.Off, el);
    var a := StartQueue(el, [x], url);
    s := RecordNow(launch, a);
    assert s.rec.plays[|a.rec.plays|].listen == s.rec.listen;
    var h := Next(s, INPUT, LoadLater(0, 0.0));
    L.Said(a.world.log, D.TimeAt(40.0, 100.0));
    ReachStay(h);
    t := RecordNow(h, h);
    NotOnce(t, |a.rec.plays|, |h.rec.plays|);
  }

  /** A queue replaced while `x` is armed, its first lookup refused: `x` is swapped in, shows as the
      track now standing at its index, and is submitted twice. */
  lemma StaleIndexCountsTwice(el: D.El, a: D.Item, x: D.Item, b: D.Item, c: D.Item, url: string)
    returns (s: Session, t: Session)
    requires !x.episode && !c.episode && x.id != b.id && x.id != c.id
    ensures Reaches(Launch([], -1, false, P.Off, el), s) && s.queue == [a, x] && !s.shuffle
    ensures Reaches(Next(s, INPUT, PlayQueueLater([b, c], 0, [])), t) && !Once(t)
  {
    var launch := Launch([], -1, false, P.Off, el);
    var s0 := StartQueue(el, [a, x], url);
    s := ArmNext(launch, s0, 1);
    var h := Next(s, INPUT, PlayQueueLater([b, c], 0, []));
    ReachStay(h);
    assert P.Shuffled([b, c], false, 0, []) == [b, c] && P.TrackAt(h.queue, 1) == Some(c);
    t := StaleSlotCountsTwice(h, h, c);
  }
}

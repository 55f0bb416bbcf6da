/** A source lookup that succeeds late: exactly when the listen it begins can still be submitted. */
module LateLookups {
  import opened Rows
  import D = Deck
  import L = DeckLaws
  import P = PlayOrder
  import R = PlayRecords
  import opened PlayerSession
  import opened SessionLaws
  import opened SessionGuards
  import opened SessionLimits

  // ---- a listen that cannot be submitted ----

  /** The guard lets neither the shown track nor the one being heard through. */
  ghost predicate Closed(r: R.Recorder, shown: Option<D.Item>, log: seq<D.Note>) {
    var out := Retirable(log);
    && (Countable(shown) ==> r.playId == Some(shown.value.id))
    && (out.Some? ==> r.playId == Some(out.value.id))
  }

  /** Listen `n` has not been submitted and will not be by the retirement that is owed. */
  ghost predicate Silent(r: R.Recorder, log: seq<D.Note>, n: nat) {
    && Bounded(r, log) && n <= r.listen && !R.Submitted(r, n)
    && (L.Owed(log).Some? && r.owed == n
        ==> L.Owed(log).value.episode || r.retiringId == Some(L.Owed(log).value.id))
  }

  ghost predicate Barred(s: Session, n: nat) {
    && Tidy(s) && Silent(s.rec, s.world.log, n)
    && (n == s.rec.listen && !s.world.deck.destroyed ==> Closed(s.rec, s.Shown(), s.world.log))
  }

  lemma {:induction false} NoteBarred(r: R.Recorder, shown: Option<D.Item>, bearer: bool, x: D.Note,
                                      log: seq<D.Note>, n: nat)
    requires Silent(r, log, n) && (n == r.listen ==> Closed(r, shown, log)) && Names(r.playId, shown)
    requires L.Matched(log + [x]) && !x.Swapped? && !x.Loaded?
    ensures var h := R.Handle(r, x, R.View(shown, bearer));
            && Silent(h, log + [x], n) && (n == h.listen ==> Closed(h, shown, log + [x])) && Names(h.playId, shown)
  {
    L.Said(log, x);
    NoteHolds(r, shown, bearer, x, log);
    match x
    case Retired(item, posSec, reachedEnd) => RetireTells(r, item, posSec, reachedEnd, bearer);
    case TimeAt(posSec, _) => RecordTells(r, shown, posSec, false, bearer);
    case Fallback(posSec) => RecordTells(r, shown, posSec, true, bearer);
    case _ =>
  }

  lemma {:induction false} NotesBarred(s: Session, notes: seq<D.Note>, bearer: bool, log: seq<D.Note>, n: nat)
    requires Silent(s.rec, log, n) && (n == s.rec.listen ==> Closed(s.rec, s.Shown(), log))
    requires Names(s.rec.playId, s.Shown()) && L.Matched(log + notes) && Quiet(notes)
    ensures var t := HearAll(s, notes, bearer);
            && t == s.(rec := t.rec) && Silent(t.rec, log + notes, n)
            && (n == t.rec.listen ==> Closed(t.rec, t.Shown(), log + notes))
    decreases |notes|
  {
    if notes == [] {
      assert log + notes == log;
    } else {
      var x, rest := notes[0], notes[1..];
      assert log + notes == (log + [x]) + rest;
      MatchedPrefix(log + [x], rest);
      NoteBarred(s.rec, s.Shown(), bearer, x, log, n);
      var s1 := Hear(s, x, bearer);
      assert s1 == s.(rec := s1.rec) && s1.Shown() == s.Shown();
      NotesBarred(s1, rest, bearer, log + [x], n);
    }
  }

  /** A load or a swap leaves the listen behind. */
  lemma {:induction false} FirstBarred(s: Session, x: D.Note, bearer: bool, log: seq<D.Note>, n: nat)
    requires Silent(s.rec, log, n) && (x.Loaded? || x.Swapped?) && L.Matched(log + [x])
    requires x.Swapped? && n == s.rec.listen ==> Closed(s.rec, s.Shown(), log)
    ensures var s1 := Hear(s, x, bearer); Silent(s1.rec, log + [x], n) && n < s1.rec.listen
  {
    L.Said(log, x);
    var s1 := Hear(s, x, bearer);
    assert forall l :: R.Submitted(s1.rec, l) <==> R.Submitted(s.rec, l);
  }

  /** The listen stays barred over the news of a step, which may be a `playNow` that ends it. */
  lemma {:induction false} NewsBarred(s: Session, h: D.World, e: D.Step, news: seq<D.Note>, bearer: bool, n: nat)
    requires Tidy(s) && Silent(s.rec, s.world.log, n) && h.log == s.world.log + news && L.Matched(h.log)
    requires Brief(news) && Heralded(s.world, e, news)
    requires (news != [] && news[0].Loaded?) || s.world.deck.destroyed || Barred(s, n)
    ensures var t := HearAll(s.(world := h), news, bearer);
            && Silent(t.rec, h.log, n)
            && (n == t.rec.listen && !s.world.deck.destroyed ==> Closed(t.rec, t.Shown(), h.log))
  {
    var log := s.world.log;
    if news == [] {
      assert h.log == log;
    } else {
      TailIsQuiet(s.world, e, news);
      if s.world.deck.destroyed {
        InertIdle(s.(world := h), news, bearer, log);
      } else if news[0].Loaded? || news[0].Swapped? {
        var x, rest := news[0], news[1..];
        assert news == [x] + rest && log + news == (log + [x]) + rest;
        MatchedPrefix(log + [x], rest);
        FirstBarred(s.(world := h), x, bearer, log, n);
        FirstNames(s.(world := h), x, bearer);
        NotesBarred(Hear(s.(world := h), x, bearer), rest, bearer, log + [x], n);
      } else {
        NotesBarred(s.(world := h), news, bearer, log, n);
      }
    }
  }

  lemma FirstNames(s: Session, x: D.Note, bearer: bool)
    requires Names(s.rec.playId, s.Shown()) && (x.Loaded? || x.Swapped?)
    ensures var s1 := Hear(s, x, bearer); Names(s1.rec.playId, s1.Shown())
  {
  }

  /** The part of `Barred` that a step of the deck decides. */
  ghost predicate StaysBarred(t: Session, n: nat) {
    && Silent(t.rec, t.world.log, n)
    && (n == t.rec.listen && !t.world.deck.destroyed ==> Closed(t.rec, t.Shown(), t.world.log))
  }

  lemma {:induction false} ActBarred(s: Session, i: Input, e: D.Step, n: nat)
    requires Tidy(s) && Silent(s.rec, s.world.log, n) && D.Enabled(s.world, e) && (e.DoPlayNow? || Barred(s, n))
    ensures StaysBarred(Act(s, i, e), n)
  {
    var h := D.Next(s.world, i.env, e);
    NewsOfStep(s.world, i.env, e);
    if e.DoPlayNow? { PlayNowReports(s.world, i.env, e); }
    WorldStays(s.(world := h), News(s.world, h), i.bearer);
    NewsBarred(s, h, e, News(s.world, h), i.bearer, n);
  }

  /** `loadAndPlay` with its `playNow`, from the store `s1` that shows the new queue. */
  lemma LoadBarred(s: Session, i: Input, s1: Session, index: int, url: string, fadeSec: real, n: nat)
    requires Barred(s, n) && s1 == s.(queue := s1.queue)
    requires !CanLoad(s1, index) ==> s.world.deck.destroyed || s1.Shown() in {s.Shown(), None}
    ensures StaysBarred(Load(s1, i, index, url, fadeSec), n)
  {
    if CanLoad(s1, index) {
      var bare := s.(queue := s1.queue, index := index, rec := R.OnSelected(s.rec));
      assert Select(s1, index) == bare == Select(s, index).(queue := s1.queue);
      SelectTold(s, index);
      assert forall l :: R.Submitted(bare.rec, l) <==> R.Submitted(s.rec, l);
      ActBarred(bare, i, D.DoPlayNow(s1.queue[index], index, url, fadeSec), n);
    }
  }

  lemma SeparateBarred(s: Session, i: Input, step: Step, n: nat)
    requires Barred(s, n) && Enabled(s, step) && Separates(step) && n != s.rec.listen
    ensures StaysBarred(Next(s, i, step), n)
  {
    var t := Next(s, i, step);
    assert forall l :: R.Submitted(t.rec, l) <==> R.Submitted(s.rec, l);
  }

  lemma ClearBarred(s: Session, i: Input, n: nat)
    requires Barred(s, n)
    ensures StaysBarred(Next(s, i, ClearQueue), n)
  {
    if !s.world.deck.destroyed {
      ClearIs(s, i);
      L.Said(s.world.log, D.Dropped);
    }
  }

  lemma SyncBarred(s: Session, i: Input, s1: Session, item: Option<D.Item>, k: int, url: Option<string>, n: nat)
    requires Barred(s, n) && s1.world == s.world && s1.rec == s.rec && s1.Shown() == s.Shown()
    ensures StaysBarred(Act(s1, i, D.DoSyncPreload(item, k, url)), n) && StaysBarred(s1, n)
  {
    SyncTold(s1, i, item, k, url);
    NewsOfStep(s.world, i.env, D.DoSyncPreload(item, k, url));
  }

  /** A barred listen stays barred, unless a track is selected and not played while it lasts. */
  lemma NextBarred(s: Session, i: Input, step: Step, n: nat)
    requires Barred(s, n) && Enabled(s, step) && (Separates(step) ==> n != s.rec.listen)
    ensures Barred(Next(s, i, step), n)
  {
    NextTold(s, i, step);
    match step
    case Happens(e) => ActBarred(s, i, e, n);
    case LoadNow(index, url, fadeSec) => LoadBarred(s, i, s, index, url, fadeSec, n);
    case LookupDone(l, url) =>
      var s0 := s.(lookups := s.lookups - multiset{l});
      if s.Shown().Some? && s.Shown().value.id == l.item.id {
        ActBarred(s0, i, D.DoPlayNow(l.item, l.index, url, l.fadeSec), n);
      }
    case PlayQueue(tracks, start, picks, url) =>
      ReplacedShows(s, tracks, start, picks);
      LoadBarred(s, i, Replace(s, tracks, start, picks), P.PlayIndex(s.shuffle, start, |tracks|), url, 0.0, n);
    case ToggleShuffle(picks) =>
      ToggledQueue(s, picks);
      SyncBarred(s, i, Toggle(s, picks), None, -1, None, n);
    case CycleRepeat => SyncBarred(s, i, s.(repeat := Cycled(s.repeat)), None, -1, None, n);
    case ClearQueue => ClearBarred(s, i, n);
    case Arm(item, k, url) => SyncBarred(s, i, s, Some(item), k, Some(url), n);
    case Disarm => SyncBarred(s, i, s, None, -1, None, n);
    case _ => SeparateBarred(s, i, step, n);
  }

  // ---- from a late lookup on ----

  /** While listen `n` is the present one, every selected track is played. */
  ghost predicate Within(states: seq<Session>, steps: seq<Step>, n: nat)
    requires |states| == |steps| + 1
  {
    forall k | 0 <= k < |steps| :: Separates(steps[k]) ==> states[k].rec.listen != n
  }

  /** Some run leads from `s`, while listen `n` lasts without another separate selection, to a state
      in which that listen has been submitted. */
  ghost predicate ComesToCount(s: Session, n: nat) {
    exists states: seq<Session>, inputs: seq<Input>, steps: seq<Step> ::
      Run(states, inputs, steps) && states[0] == s && Within(states, steps, n) && R.Submitted(states[|steps|].rec, n)
  }

  lemma {:induction false} BarredRun(states: seq<Session>, inputs: seq<Input>, steps: seq<Step>, n: nat, j: nat)
    requires Run(states, inputs, steps) && Within(states, steps, n) && Barred(states[0], n) && j <= |steps|
    ensures Barred(states[j], n)
    decreases j
  {
    if j == 0 {
    } else {
      BarredRun(states, inputs, steps, n, j - 1);
      NextBarred(states[j - 1], inputs[j - 1], steps[j - 1], n);
    }
  }

  lemma ReachedCounts(s: Session, t: Session, n: nat)
    requires Reaches(s, t) && R.Submitted(t.rec, n)
    ensures ComesToCount(s, n)
  {
    var states, inputs, steps :|
      && Run(states, inputs, steps) && states[0] == s && states[|steps|] == t
      && forall k | 0 <= k < |steps| :: !Separates(steps[k]);
    assert Within(states, steps, n);
  }

  lemma PlayedWorld(w: D.World, env: D.Env, e: D.Step)
    requires L.Inv(w) && e.DoPlayNow? && !w.deck.destroyed
    ensures var h := D.Next(w, env, e);
            && L.Inv(h) && !h.deck.destroyed && L.Started(h.log) == Some(e.item)
            && h.deck.current.Some? && h.deck.current.value.item == e.item
  {
    L.NextKeeps(w, env, e);
    L.PlayNowStarts(w, env, e.item, e.index, e.url, e.fadeSec);
  }

  lemma PlayShows(s: Session, i: Input, e: D.Step)
    requires L.Inv(s.world) && e.DoPlayNow? && !s.world.deck.destroyed
    ensures Act(s, i, e).Shown() == s.Shown() && Act(s, i, e).world == D.Next(s.world, i.env, e)
  {
    var h := D.Next(s.world, i.env, e);
    PlayNowReports(s.world, i.env, e);
    WorldStays(s.(world := h), News(s.world, h), i.bearer);
    TailIsQuiet(s.world, e, News(s.world, h));
    LoadStays(s.(world := h), News(s.world, h), i.bearer);
  }

  /** What a late lookup finds and leaves. */
  ghost predicate Begun(s: Session, h: Session, item: D.Item) {
    && Tidy(h) && h.rec.listen == s.rec.listen + 1 && !R.Submitted(h.rec, h.rec.listen)
    && (h.rec.playId.Some? <==> s.rec.playId.Some?) && h.Shown() == s.Shown()
    && !h.world.deck.destroyed && L.Started(h.world.log) == Some(item)
    && h.world.deck.current.Some? && h.world.deck.current.value.item == item
  }

  lemma ArrivalStarts(s: Session, i: Input, l: Lookup, url: string)
    requires Tidy(s) && l in s.lookups && Arrives(s, LookupDone(l, url))
    ensures Begun(s, Next(s, i, LookupDone(l, url)), l.item)
  {
    var s0, e := s.(lookups := s.lookups - multiset{l}), D.DoPlayNow(l.item, l.index, url, l.fadeSec);
    assert Next(s, i, LookupDone(l, url)) == Act(s0, i, e);
    PlayTold(s0, i, e);
    PlayShows(s0, i, e);
    PlayedWorld(s.world, i.env, e);
  }

  lemma {:induction false} LoadStays(s: Session, notes: seq<D.Note>, bearer: bool)
    requires forall k | 0 <= k < |notes| :: !notes[k].Swapped?
    ensures HearAll(s, notes, bearer).index == s.index && HearAll(s, notes, bearer).queue == s.queue
    decreases |notes|
  {
    if notes == [] {
    } else {
      assert forall k | 0 <= k < |notes[1..]| :: notes[1..][k] == notes[k + 1];
      LoadStays(Hear(s, notes[0], bearer), notes[1..], bearer);
    }
  }

  /** A late lookup that finds the guard set finds it set for its own track. The listen it begins can
      then not be submitted, by whatever run, until another track is selected and not played; and
      otherwise it can, unless it is of an episode. */
  lemma ArrivalDecides(s: Session, i: Input, l: Lookup, url: string)
    requires Tidy(s) && l in s.lookups && Arrives(s, LookupDone(l, url))
    ensures s.rec.playId.Some? <==> s.rec.playId == Some(l.item.id)
    ensures var h := Next(s, i, LookupDone(l, url));
            ComesToCount(h, h.rec.listen)
            <==> s.rec.playId.None? && (!s.Shown().value.episode || !l.item.episode)
  {
    var h := Next(s, i, LookupDone(l, url));
    var n := h.rec.listen;
    ArrivalStarts(s, i, l, url);
    if s.rec.playId.Some? || (s.Shown().value.episode && l.item.episode) {
      assert Barred(h, n);
      if ComesToCount(h, n) {
        var states: seq<Session>, inputs: seq<Input>, steps: seq<Step> :|
          Run(states, inputs, steps) && states[0] == h && Within(states, steps, n)
          && R.Submitted(states[|steps|].rec, n);
        BarredRun(states, inputs, steps, n, |steps|);
      }
    } else {
      OpenCounts(h, l.item);
    }
  }

  /** On every run from launch that ends with a late lookup: the listen this begins can still be
      submitted exactly if nothing countable has crossed the threshold since the last selection or
      swap, episodes aside. */
  lemma LateListenOnEveryRun(states: seq<Session>, inputs: seq<Input>, steps: seq<Step>,
                             queue: seq<D.Item>, index: int, shuffle: bool, repeat: P.Repeat, el: D.El,
                             i: Input, l: Lookup, url: string)
    requires Run(states, inputs, steps) && states[0] == Launch(queue, index, shuffle, repeat, el)
    requires l in states[|steps|].lookups && Arrives(states[|steps|], LookupDone(l, url))
    ensures var s := states[|steps|];
            var h := Next(s, i, LookupDone(l, url));
            ComesToCount(h, h.rec.listen)
            <==> !GuardHeld(states, inputs, steps, |steps|) && (!s.Shown().value.episode || !l.item.episode)
  {
    LaunchIsSound(queue, index, shuffle, repeat, el);
    GuardsOverEveryRun(states, inputs, steps, |steps|);
    ArrivalDecides(states[|steps|], i, l, url);
  }

  /** With the guard open, the threshold or the swap out submits the listen. */
  lemma OpenCounts(h: Session, item: D.Item)
    requires L.Inv(h.world) && !h.world.deck.destroyed && h.rec.playId.None? && h.Shown().Some?
    requires h.world.deck.current.Some? && h.world.deck.current.value.item == item
    requires !h.Shown().value.episode || !item.episode
    ensures ComesToCount(h, h.rec.listen)
  {
    ReachStay(h);
    if !h.Shown().value.episode {
      var u := RecordNow(h, h);
      assert u.rec.plays[|h.rec.plays|].listen == h.rec.listen;
      ReachedCounts(h, u, h.rec.listen);
    } else {
      var v := FinishRetiring(h, h);
      var w := ArmSomething(h, v);
      var u := SwapNow(h, w);
      assert u.rec.plays[|w.rec.plays|].listen == h.rec.listen;
      ReachedCounts(h, u, h.rec.listen);
    }
  }

  /** A run from launch of harmless steps: the playing track is reselected, crosses the threshold
      before its lookup succeeds, and starts anew. The new listen never comes to count. */
  lemma LateLookupShutsOut(el: D.El, x: D.Item, url: string) returns (s: Session, t: Session)
    requires !x.episode
    ensures Reaches(Launch([], -1, false, P.Off, el), s) && s.Shown() == Some(x)
    ensures HarmlessStep(s, LoadLater(0, 0.0)) && Reaches(Next(s, INPUT, LoadLater(0, 0.0)), t)
    ensures var done := LookupDone(Lookup(x, 0, 0.0), url);
            && Enabled(t, done) && Arrives(t, done) && R.Submitted(t.rec, t.rec.listen)
            && !ComesToCount(Next(t, INPUT, done), Next(t, INPUT, done).rec.listen)
  {
    var launch := Launch([], -1, false, P.Off, el);
    s := StartQueue(el, [x], url);
    ReachedTidy(launch, s);
    ReachStay(s);
    t := CrossAfterReselect(s, x);
    ArrivalDecides(t, INPUT, Lookup(x, 0, 0.0), url);
  }

  lemma CrossAfterReselect(s: Session, x: D.Item) returns (t: Session)
    requires Live(s, s) && Tidy(s) && s.queue == [x] && s.index == 0 && !x.episode && s.rec == R.START.(listen := 1)
    requires s.world.deck.preloaded.None? && s.world.deck.retiring.None? && L.Started(s.world.log) == Some(x)
    ensures HarmlessStep(s, LoadLater(0, 0.0)) && Reaches(Next(s, INPUT, LoadLater(0, 0.0)), t) && Tidy(t)
    ensures Lookup(x, 0, 0.0) in t.lookups && !t.world.deck.destroyed && t.Shown() == Some(x)
    ensures t.rec.playId.Some? && R.Submitted(t.rec, t.rec.listen)
  {
    var a := Next(s, INPUT, LoadLater(0, 0.0));
    ReachStay(a);
    t := RecordNow(a, a);
    assert t.rec.plays[|a.rec.plays|].listen == t.rec.listen;
    NextTold(s, INPUT, LoadLater(0, 0.0));
    ReachedTidy(a, t);
  }

  lemma {:induction false} TidyRun(states: seq<Session>, inputs: seq<Input>, steps: seq<Step>, j: nat)
    requires Run(states, inputs, steps) && Tidy(states[0]) && j <= |steps|
    ensures Tidy(states[j])
    decreases j
  {
    if j == 0 {
    } else {
      TidyRun(states, inputs, steps, j - 1);
      NextTold(states[j - 1], inputs[j - 1], steps[j - 1]);
    }
  }

  lemma ReachedTidy(s: Session, t: Session)
    requires Tidy(s) && Reaches(s, t)
    ensures Tidy(t)
  {
    var states, inputs, steps :|
      && Run(states, inputs, steps) && states[0] == s && states[|steps|] == t
      && forall k | 0 <= k < |steps| :: !Separates(steps[k]);
    TidyRun(states, inputs, steps, |steps|);
  }
}

/** How often a listen is submitted to the play history, over whole runs of the player. */
module SessionLaws {
  import opened Rows
  import D = Deck
  import L = DeckLaws
  import P = PlayOrder
  import R = PlayRecords
  import opened PlayerSession

  // ---- what the deck's steps say ----

  /** Only the first callback of a step can be a load or a swap, and a swap is of the armed slot. */
  ghost predicate Heralded(w: D.World, step: D.Step, news: seq<D.Note>) {
    forall k | 0 <= k < |news| ::
      && (news[k].Swapped? ==> k == 0 && w.deck.preloaded == Some(news[k].slot))
      && (news[k].Loaded? ==> k == 0 && step.DoPlayNow? && news[k].item == step.item)
      && (w.deck.destroyed ==> news[k].PlayRejected? || news[k].Dropped?)
  }

  /** The step only adds callbacks to the log. */
  ghost predicate Extends(w: D.World, h: D.World) {
    |w.log| <= |h.log| && h.log[..|w.log|] == w.log
  }

  /** The armed or parked slot of `h` was armed or parked in `w`. */
  ghost predicate SlotsFrom(w: D.World, h: D.World) {
    && (h.deck.preloaded.Some? ==>
          || w.deck.preloaded == h.deck.preloaded
          || (w.deck.pendingPreload.Some? && w.deck.pendingPreload.value.item == h.deck.preloaded.value.item
              && w.deck.pendingPreload.value.index == h.deck.preloaded.value.index))
    && (h.deck.pendingPreload.Some? ==> w.deck.pendingPreload == h.deck.pendingPreload)
  }

  /** No slot is armed or parked. */
  predicate Bare(w: D.World) { w.deck.preloaded.None? && w.deck.pendingPreload.None? }

  /** At most one callback, or the end of the listen before after a load or a swap. */
  predicate Brief(news: seq<D.Note>) {
    |news| <= 1 || (|news| == 2 && (news[0].Swapped? || news[0].Loaded?) && news[1].Retired?)
  }

  /** What the laws below need to know of a step of the deck. */
  ghost predicate Reported(w: D.World, h: D.World, step: D.Step) {
    && Extends(w, h) && Heralded(w, step, News(w, h)) && Brief(News(w, h))
    && (w.deck.destroyed ==> h.deck.destroyed)
    && (!step.DoSyncPreload? ==> SlotsFrom(w, h))
    && (News(w, h) != [] && (News(w, h)[0].Swapped? || News(w, h)[0].Loaded?) ==> Bare(h))
  }

  lemma OneNews(w: D.World, h: D.World, step: D.Step, n: D.Note)
    requires h.log == w.log + [n] && !n.Swapped? && !n.Loaded?
    requires w.deck.destroyed ==> h.deck.destroyed && (n.PlayRejected? || n.Dropped?)
    requires !step.DoSyncPreload? ==> SlotsFrom(w, h)
    ensures Reported(w, h, step)
  {
    assert News(w, h) == [n];
  }

  lemma NoNews(w: D.World, h: D.World, step: D.Step)
    requires h.log == w.log && (w.deck.destroyed ==> h.deck.destroyed)
    requires !step.DoSyncPreload? ==> SlotsFrom(w, h)
    ensures Reported(w, h, step)
  {
    assert News(w, h) == [];
  }

  lemma ParkedSlots(w: D.World)
    ensures var h := D.ApplyParked(w); h.log == w.log && SlotsFrom(w, h) && h.deck.destroyed == w.deck.destroyed
  {
  }

  lemma FinalizeReports(w: D.World, env: D.Env, el: D.El, step: D.Step)
    requires L.Inv(w) && !step.DoSyncPreload?
    ensures Reported(w, D.Finalize(w, env, el), step)
  {
    var h, d := D.Finalize(w, env, el), w.deck;
    if d.retiring.Some? && d.retiring.value.el == el {
      var c := env.clocks.Get(el);
      var w1 := L.Retire(w, env);
      ParkedSlots(w1);
      assert h == D.ApplyParked(w1);
      if d.retiring.value.notify {
        OneNews(w, h, step, D.Retired(d.retiring.value.item, c.time, c.ReachedEnd()));
      } else {
        NoNews(w, h, step);
      }
    } else {
      NoNews(w, h, step);
    }
  }

  /** `playNow` announces its load, and after that at most the end of a fade-out. */
  lemma PlayNowSays(w: D.World, env: D.Env, item: D.Item, index: int, url: string, fadeSec: real)
    requires !w.deck.destroyed
    ensures var h := D.PlayNow(w, env, item, index, url, fadeSec);
            || h.log == w.log + [D.Loaded(item)]
            || exists n: D.Note :: n.Retired? && h.log == w.log + [D.Loaded(item), n]
  {
    var h := D.PlayNow(w, env, item, index, url, fadeSec);
    var w1 := D.Unarm(D.Say(w, D.Loaded(item)));
    var w2 := D.FinalizeNow(w1, env);
    assert h.log == w2.log;
    if w2.log != w1.log {
      var n: D.Note :| n.Retired? && w2.log == w1.log + [n];
      assert h.log == w.log + [D.Loaded(item), n];
    }
  }

  lemma PlayNowReports(w: D.World, env: D.Env, step: D.Step)
    requires L.Inv(w) && step.DoPlayNow?
    ensures var h := D.Next(w, env, step);
            && Reported(w, h, step) && h.log == w.log + News(w, h) && (w.deck.destroyed ==> h == w)
            && (!w.deck.destroyed ==> Bare(h) && News(w, h) != [] && News(w, h)[0] == D.Loaded(step.item))
  {
    var h := D.PlayNow(w, env, step.item, step.index, step.url, step.fadeSec);
    if w.deck.destroyed {
      NoNews(w, h, step);
    } else {
      L.PlayNowStarts(w, env, step.item, step.index, step.url, step.fadeSec);
      PlayNowSays(w, env, step.item, step.index, step.url, step.fadeSec);
      if h.log == w.log + [D.Loaded(step.item)] {
        assert News(w, h) == [D.Loaded(step.item)];
      } else {
        var n: D.Note :| n.Retired? && h.log == w.log + [D.Loaded(step.item), n];
        assert News(w, h) == [D.Loaded(step.item), n];
      }
    }
  }

  lemma SwapReports(w: D.World, env: D.Env, step: D.Step)
    requires L.Inv(w) && w.deck.current.Some? && w.deck.preloaded.Some? && !step.DoSyncPreload?
    ensures Reported(w, D.GaplessSwap(w, env, w.deck.current.value, w.deck.preloaded.value), step)
  {
    var h := D.GaplessSwap(w, env, w.deck.current.value, w.deck.preloaded.value);
    var c := env.clocks.Get(w.deck.active);
    assert News(w, h) == [D.Swapped(w.deck.current.value.item, w.deck.preloaded.value),
                          D.Retired(w.deck.current.value.item,
                                    if c.Seconds() != 0.0 then c.Seconds() else c.time, true)];
  }

  lemma PromiseReports(w: D.World, env: D.Env, p: D.Promise, ok: bool)
    requires L.Inv(w) && D.Enabled(w, D.Settled(p, ok))
    ensures Reported(w, D.Next(w, env, D.Settled(p, ok)), D.Settled(p, ok))
  {
    var step := D.Settled(p, ok);
    var h := D.Next(w, env, step);
    var w0 := w.(promises := w.promises - multiset{p});
    if p.CrossfadePlay? && ok && !w.deck.destroyed && w.deck.preloaded == Some(p.pre) && w.deck.active == p.outEl {
      assert D.FinalizeNow(w0, env) == w0;
      assert News(w, h) == [D.Swapped(p.cur.item, p.pre)];
    } else if h.log == w.log {
      NoNews(w, h, step);
    } else {
      OneNews(w, h, step, if p.SwapPlay? then D.Recover else D.PlayRejected);
    }
  }

  lemma StepReports(w: D.World, env: D.Env, step: D.Step)
    requires L.Inv(w) && D.Enabled(w, step)
    ensures Reported(w, D.Next(w, env, step), step)
  {
    var h := D.Next(w, env, step);
    match step
    case DoPlayNow(_, _, _, _) => PlayNowReports(w, env, step);
    case DoSyncPreload(_, _, _) => NoNews(w, h, step);
    case DoPause =>
      if w.deck.retiring.Some? { FinalizeReports(w, env, w.deck.retiring.value.el, step); }
      else { NoNews(w, h, step); }
    case DoResume => NoNews(w, h, step);
    case DoReset => OneNews(w, h, step, D.Dropped);
    case DoDestroy => OneNews(w, h, step, D.Dropped);
    case TimeUpdate(el) =>
      if el != w.deck.active { NoNews(w, h, step); }
      else { OneNews(w, h, step, D.TimeAt(env.clocks.Get(el).time, env.clocks.Get(el).Seconds())); }
    case Ended(el) =>
      if el != w.deck.active { FinalizeReports(w, env, el, step); }
      else if w.deck.current.Some? && w.deck.preloaded.Some? && D.StandbyReady(w, env) && env.prefs.gapless {
        SwapReports(w, env, step);
      } else { OneNews(w, h, step, D.Fallback(env.clocks.Get(el).time)); }
    case Failed(el) =>
      if el == w.deck.active { OneNews(w, h, step, D.ActiveError); }
      else if w.deck.retiring.Some? && w.deck.retiring.value.el == el { FinalizeReports(w, env, el, step); }
      else { NoNews(w, h, step); }
    case CanPlay(_) => NoNews(w, h, step);
    case Tick(el, t) => TickReports(w, env, el, t);
    case Settled(p, ok) => PromiseReports(w, env, p, ok);
  }

  lemma TickReports(w: D.World, env: D.Env, el: D.El, t: real)
    requires L.Inv(w) && w.ramps.Get(el).Some?
    ensures Reported(w, D.OnTick(w, env, el, t), D.Tick(el, t))
  {
    var w1 := D.SetFade(w, el, D.Falling(t));
    if t >= 1.0 && !w.ramps.Get(el).value.rising {
      assert L.Inv(w1);
      FinalizeReports(w1, env, el, D.Tick(el, t));
      assert D.Finalize(D.CancelRamp(w1, el), env, el) == D.Finalize(w1, env, el);
      assert News(w, D.OnTick(w, env, el, t)) == News(w1, D.OnTick(w, env, el, t));
    } else {
      NoNews(w, D.OnTick(w, env, el, t), D.Tick(el, t));
    }
  }

  // ---- the invariant ----

  /** The item whose natural handoff could be submitted: the one started last, unless an episode. */
  function Retirable(log: seq<D.Note>): Option<D.Item> {
    var started := L.Started(log);
    if started.Some? && !started.value.episode then started else None
  }

  /** No listen has two plays; and a listen whose retirement is owed is guarded against it once it
      has been submitted, by a guard of its own track or none. */
  ghost predicate Counted(r: R.Recorder, log: seq<D.Note>) {
    && (forall i | 0 <= i < |r.plays| :: r.plays[i].listen <= r.listen)
    && (forall i, j | 0 <= i < j < |r.plays| :: r.plays[i].listen != r.plays[j].listen)
    && (L.Owed(log).Some? ==>
          && r.owed < r.listen
          && (R.Submitted(r, r.owed) || r.retiringId.Some?
              ==> L.Owed(log).value.episode || r.retiringId == Some(L.Owed(log).value.id)))
  }

  /** A set guard names the shown track. */
  predicate Names(playId: Option<string>, shown: Option<D.Item>) {
    playId.Some? && shown.Some? ==> playId == Some(shown.value.id)
  }

  /** The present listen can be submitted at most once more: if it has been already or the guard is
      set, the guard names both what the store shows and what would retire; if not, the two are one
      track. */
  ghost predicate Guarded(r: R.Recorder, shown: Option<D.Item>, log: seq<D.Note>) {
    var out := Retirable(log);
    var counts := shown.Some? && !shown.value.episode;
    && Names(r.playId, shown)
    && if R.Submitted(r, r.listen) || r.playId.Some? then
         (counts ==> r.playId == Some(shown.value.id)) && (out.Some? ==> r.playId == Some(out.value.id))
       else counts && out.Some? ==> shown.value.id == out.value.id
  }

  /** The track `t` may come to stand at position `k` before the index next moves to a new track:
      it is there, or shuffling can bring it there. */
  predicate MayStand(queue: seq<D.Item>, index: int, k: int, t: D.Item) {
    || P.TrackAt(queue, k) == Some(t)
    || (0 < index < |queue| && 0 <= k < |queue| && if k == 0 then t == queue[index] else t in P.Others(queue, index))
  }

  /** Swapping this slot in shows its own track, or nothing that counts beside it. */
  ghost predicate SlotOk(queue: seq<D.Item>, index: int, item: D.Item, k: int) {
    R.Queued(queue, item.id) || item.episode || forall t | MayStand(queue, index, k, t) :: t.episode
  }

  /** So it is with the armed and the parked slot, once anything has been started to swap out. */
  ghost predicate SlotsOk(w: D.World, queue: seq<D.Item>, index: int) {
    || L.Started(w.log).None?
    || (&& (w.deck.preloaded.Some? ==> SlotOk(queue, index, w.deck.preloaded.value.item, w.deck.preloaded.value.index))
        && (w.deck.pendingPreload.Some?
            ==> SlotOk(queue, index, w.deck.pendingPreload.value.item, w.deck.pendingPreload.value.index)))
  }

  /** What can no longer go wrong without another track being selected. */
  ghost predicate Safe(s: Session) {
    s.world.deck.destroyed || (Guarded(s.rec, s.Shown(), s.world.log) && SlotsOk(s.world, s.queue, s.index))
  }

  ghost predicate Sound(s: Session) {
    L.Inv(s.world) && Counted(s.rec, s.world.log)
  }

  ghost predicate Inv(s: Session) {
    Sound(s) && Safe(s)
  }

  // ---- one callback ----

  lemma SubmitExtends(r: R.Recorder, p: R.Play)
    ensures forall l :: R.Submitted(r.(plays := r.plays + [p]), l) <==> R.Submitted(r, l) || l == p.listen
  {
    var h := r.(plays := r.plays + [p]);
    assert h.plays[|r.plays|] == p;
    forall l | R.Submitted(r, l) ensures R.Submitted(h, l) {
      var i :| 0 <= i < |r.plays| && r.plays[i].listen == l;
      assert h.plays[i].listen == l;
    }
  }

  lemma RecordKeeps(r: R.Recorder, shown: Option<D.Item>, posSec: real, completed: bool, bearer: bool, log: seq<D.Note>)
    requires Counted(r, log) && Guarded(r, shown, log)
    ensures var h := R.RecordPlay(r, shown, posSec, completed, bearer);
            && Counted(h, log) && Guarded(h, shown, log)
            && (R.Submitted(h, r.listen)
                <==> R.Submitted(r, r.listen) || (shown.Some? && !shown.value.episode && bearer && r.playId.None?))
  {
    if shown.Some? {
      var p := R.Play(r.listen, shown.value.id, R.Millis(posSec), completed);
      SubmitExtends(r.(playId := Some(shown.value.id)), p);
      assert forall l :: R.Submitted(r.(playId := Some(shown.value.id)), l) <==> R.Submitted(r, l);
    }
  }

  /** A reported retirement submits its listen unless that has been submitted, may not count, or a
      guard is set for it or names it. */
  lemma {:induction false} RetireKeeps(r: R.Recorder, item: D.Item, posSec: real, reachedEnd: bool, bearer: bool,
                    shown: Option<D.Item>, log: seq<D.Note>)
    requires Counted(r, log) && L.Owed(log) == Some(item)
    ensures var n := D.Retired(item, posSec, reachedEnd);
            var h := R.OnRetired(r, item, posSec, reachedEnd, bearer);
            && Counted(h, log + [n]) && (Guarded(r, shown, log) ==> Guarded(h, shown, log + [n]))
            && (R.Submitted(h, r.owed)
                <==> || R.Submitted(r, r.owed)
                     || (!item.episode && bearer && r.playId != Some(item.id) && r.retiringId.None?))
  {
    L.Said(log, D.Retired(item, posSec, reachedEnd));
    var r1 := r.(retiringId := None);
    SubmitExtends(r1, R.Play(r.owed, item.id, R.Millis(posSec), reachedEnd));
    assert forall l :: R.Submitted(r1, l) <==> R.Submitted(r, l);
  }

  lemma NewListenIsOpen(r: R.Recorder, log: seq<D.Note>)
    requires Counted(r, log)
    ensures !R.Submitted(r, r.listen + 1)
  {
  }

  lemma {:induction false} SwapKeeps(r: R.Recorder, shown: Option<D.Item>, after: Option<D.Item>,
                                     from: D.Item, slot: D.Slot, log: seq<D.Note>)
    requires Counted(r, log) && Guarded(r, shown, log) && L.Started(log) == Some(from)
    requires after.Some? && !after.value.episode && !slot.item.episode ==> after.value.id == slot.item.id
    ensures Counted(R.OnSwapped(r), log + [D.Swapped(from, slot)])
    ensures Guarded(R.OnSwapped(r), after, log + [D.Swapped(from, slot)])
  {
    L.Said(log, D.Swapped(from, slot));
    NewListenIsOpen(r, log);
    var h := R.OnSwapped(r);
    assert forall l :: R.Submitted(h, l) <==> R.Submitted(r, l);
  }

  lemma LoadKeeps(r: R.Recorder, shown: Option<D.Item>, item: D.Item, log: seq<D.Note>)
    requires Counted(r, log) && shown.Some? && shown.value.id == item.id && Names(r.playId, shown)
    ensures var h := r.(listen := r.listen + 1);
            Counted(h, log + [D.Loaded(item)]) && Guarded(h, shown, log + [D.Loaded(item)])
  {
    L.Said(log, D.Loaded(item));
    NewListenIsOpen(r, log);
    var h := r.(listen := r.listen + 1);
    assert forall l :: R.Submitted(h, l) <==> R.Submitted(r, l);
  }

  /** A slot that is in order shows its own track after the swap, or nothing that counts. */
  lemma SlotShows(queue: seq<D.Item>, index: int, item: D.Item, k: int)
    requires SlotOk(queue, index, item, k)
    ensures var after := P.TrackAt(queue, R.SwappedIndex(queue, k, item));
            after.Some? && !after.value.episode && !item.episode ==> after.value.id == item.id
  {
    R.SwapShowsItemIffQueued(queue, k, item);
    if !R.Queued(queue, item.id) && P.TrackAt(queue, k).Some? {
      assert MayStand(queue, index, k, P.TrackAt(queue, k).value);
    }
  }

  lemma SilentKeeps(r: R.Recorder, shown: Option<D.Item>, n: D.Note, log: seq<D.Note>)
    requires Counted(r, log) && !n.Swapped? && !n.Loaded? && !n.Retired?
    ensures Counted(r, log + [n]) && Retirable(log + [n]) == Retirable(log)
  {
    L.Said(log, n);
  }

  /** Callbacks other than loads and swaps keep the guards right. */
  lemma {:induction false} QuietKeeps(r: R.Recorder, shown: Option<D.Item>, n: D.Note, bearer: bool, log: seq<D.Note>)
    requires Counted(r, log) && L.Matched(log + [n]) && !n.Swapped? && !n.Loaded?
    requires Guarded(r, shown, log) || n.PlayRejected? || n.Dropped?
    ensures var h := R.Handle(r, n, R.View(shown, bearer));
            Counted(h, log + [n]) && (Guarded(r, shown, log) ==> Guarded(h, shown, log + [n]))
  {
    match n
    case Retired(item, posSec, reachedEnd) =>
      L.Said(log, n);
      RetireKeeps(r, item, posSec, reachedEnd, bearer, shown, log);
    case TimeAt(posSec, durSec) =>
      RecordKeeps(r, shown, posSec, false, bearer, log);
      SilentKeeps(R.Handle(r, n, R.View(shown, bearer)), shown, n, log);
    case Fallback(posSec) =>
      RecordKeeps(r, shown, posSec, true, bearer, log);
      SilentKeeps(R.Handle(r, n, R.View(shown, bearer)), shown, n, log);
    case _ => SilentKeeps(r, shown, n, log);
  }

  // ---- one step of the deck ----

  lemma {:induction false} MatchedPrefix(log: seq<D.Note>, more: seq<D.Note>)
    requires L.Matched(log + more)
    ensures L.Matched(log)
    decreases |more|
  {
    if more == [] {
      assert log + more == log;
    } else {
      var all := log + more;
      assert all[..|all| - 1] == log + more[..|more| - 1];
      MatchedPrefix(log, more[..|more| - 1]);
    }
  }

  /** The callbacks after the first: none is a load or a swap. */
  ghost predicate Quiet(notes: seq<D.Note>) {
    forall k | 0 <= k < |notes| :: !notes[k].Swapped? && !notes[k].Loaded?
  }

  ghost predicate Inert(notes: seq<D.Note>) {
    forall k | 0 <= k < |notes| :: notes[k].PlayRejected? || notes[k].Dropped?
  }

  lemma {:induction false} QuietNotesKeep(s: Session, notes: seq<D.Note>, bearer: bool, log: seq<D.Note>)
    requires Counted(s.rec, log) && L.Matched(log + notes) && Quiet(notes)
    requires Guarded(s.rec, s.Shown(), log) || Inert(notes)
    ensures var h := HearAll(s, notes, bearer);
            && h == s.(rec := h.rec) && Counted(h.rec, log + notes)
            && (Guarded(s.rec, s.Shown(), log) ==> Guarded(h.rec, s.Shown(), log + notes))
            && (L.Started(log + notes) == L.Started(log))
    decreases |notes|
  {
    if notes == [] {
      assert log + notes == log;
    } else {
      var n, rest := notes[0], notes[1..];
      assert log + notes == (log + [n]) + rest;
      MatchedPrefix(log + [n], rest);
      QuietKeeps(s.rec, s.Shown(), n, bearer, log);
      L.Said(log, n);
      var s1 := Hear(s, n, bearer);
      assert s1 == s.(rec := s1.rec) && s1.Shown() == s.Shown();
      assert Inert(notes) ==> Inert(rest);
      QuietNotesKeep(s1, rest, bearer, log + [n]);
    }
  }

  lemma {:induction false} RestKeeps(s: Session, n: D.Note, rest: seq<D.Note>, bearer: bool, log: seq<D.Note>)
    requires Counted(Hear(s, n, bearer).rec, log + [n])
    requires Guarded(Hear(s, n, bearer).rec, Hear(s, n, bearer).Shown(), log + [n])
    requires L.Matched(log + ([n] + rest)) && Quiet(rest)
    ensures var h := HearAll(s, [n] + rest, bearer);
            && h == s.(rec := h.rec, index := h.index) && h.index == Hear(s, n, bearer).index
            && Counted(h.rec, log + ([n] + rest)) && Guarded(h.rec, h.Shown(), log + ([n] + rest))
  {
    assert log + ([n] + rest) == (log + [n]) + rest;
    assert ([n] + rest)[1..] == rest;
    QuietNotesKeep(Hear(s, n, bearer), rest, bearer, log + [n]);
  }

  lemma TailIsQuiet(w: D.World, step: D.Step, news: seq<D.Note>)
    requires Heralded(w, step, news) && news != []
    ensures Quiet(news[1..]) && (!news[0].Swapped? && !news[0].Loaded? ==> Quiet(news))
    ensures w.deck.destroyed ==> Inert(news) && Quiet(news)
  {
    forall k | 0 <= k < |news[1..]| ensures !news[1..][k].Swapped? && !news[1..][k].Loaded? {
      assert news[1..][k] == news[k + 1];
    }
  }

  lemma {:induction false} LoadedKeeps(s: Session, bearer: bool, item: D.Item, rest: seq<D.Note>, log: seq<D.Note>)
    requires Counted(s.rec, log) && s.Shown().Some? && s.Shown().value.id == item.id && Names(s.rec.playId, s.Shown())
    requires L.Matched(log + ([D.Loaded(item)] + rest)) && Quiet(rest)
    ensures var h := HearAll(s, [D.Loaded(item)] + rest, bearer);
            && h == s.(rec := h.rec) && Counted(h.rec, log + ([D.Loaded(item)] + rest))
            && Guarded(h.rec, h.Shown(), log + ([D.Loaded(item)] + rest))
  {
    LoadKeeps(s.rec, s.Shown(), item, log);
    var s1 := Hear(s, D.Loaded(item), bearer);
    assert s1.Shown() == s.Shown();
    RestKeeps(s, D.Loaded(item), rest, bearer, log);
  }

  lemma {:induction false} SwappedKeeps(s: Session, bearer: bool, from: D.Item, slot: D.Slot, rest: seq<D.Note>,
                                        log: seq<D.Note>)
    requires Counted(s.rec, log) && Guarded(s.rec, s.Shown(), log) && SlotOk(s.queue, s.index, slot.item, slot.index)
    requires L.Matched(log + ([D.Swapped(from, slot)] + rest)) && Quiet(rest)
    ensures var h := HearAll(s, [D.Swapped(from, slot)] + rest, bearer);
            && h == s.(rec := h.rec, index := h.index) && Counted(h.rec, log + ([D.Swapped(from, slot)] + rest))
            && Guarded(h.rec, h.Shown(), log + ([D.Swapped(from, slot)] + rest))
  {
    var n := D.Swapped(from, slot);
    assert log + ([n] + rest) == (log + [n]) + rest;
    MatchedPrefix(log + [n], rest);
    L.Said(log, n);
    SlotShows(s.queue, s.index, slot.item, slot.index);
    var s1 := Hear(s, n, bearer);
    SwapKeeps(s.rec, s.Shown(), s1.Shown(), from, slot, log);
    RestKeeps(s, n, rest, bearer, log);
  }

  /** Nothing but the index and the guards changes in the store, and the deck takes its step. */
  ghost predicate Reacts(s: Session, h: Session, w: D.World) {
    h == s.(world := w, rec := h.rec, index := h.index)
  }

  lemma SlotsStayOk(w: D.World, h: D.World, queue: seq<D.Item>, index: int)
    requires SlotsOk(w, queue, index) && SlotsFrom(w, h) && L.Started(h.log) == L.Started(w.log)
    ensures SlotsOk(h, queue, index)
  {
  }

  /** What a store is once it has heard the news of a step to `h`. */
  ghost predicate Heard(s: Session, h: D.World, news: seq<D.Note>, bearer: bool) {
    var t := HearAll(s.(world := h), news, bearer);
    Reacts(s, t, h) && Counted(t.rec, h.log) && (!h.deck.destroyed ==> Safe(t))
  }

  lemma HearsNothing(s: Session, h: D.World, bearer: bool)
    requires Counted(s.rec, s.world.log) && h.log == s.world.log && SlotsFrom(s.world, h)
    requires (s.world.deck.destroyed ==> h.deck.destroyed) && Safe(s)
    ensures Heard(s, h, [], bearer)
  {
    if !s.world.deck.destroyed { SlotsStayOk(s.world, h, s.queue, s.index); }
  }

  lemma HearsInert(s: Session, h: D.World, news: seq<D.Note>, bearer: bool)
    requires Counted(s.rec, s.world.log) && h.log == s.world.log + news && L.Matched(h.log)
    requires h.deck.destroyed && Inert(news) && Quiet(news)
    ensures Heard(s, h, news, bearer)
  {
    QuietNotesKeep(s.(world := h), news, bearer, s.world.log);
  }

  lemma HearsQuiet(s: Session, h: D.World, news: seq<D.Note>, bearer: bool)
    requires Counted(s.rec, s.world.log) && h.log == s.world.log + news && L.Matched(h.log)
    requires !s.world.deck.destroyed && Safe(s) && Quiet(news) && SlotsFrom(s.world, h)
    ensures Heard(s, h, news, bearer)
  {
    QuietNotesKeep(s.(world := h), news, bearer, s.world.log);
    SlotsStayOk(s.world, h, s.queue, s.index);
  }

  lemma HearsLoad(s: Session, h: D.World, news: seq<D.Note>, bearer: bool)
    requires Counted(s.rec, s.world.log) && h.log == s.world.log + news && L.Matched(h.log)
    requires news != [] && news[0].Loaded? && Quiet(news[1..]) && Bare(h)
    requires s.Shown().Some? && s.Shown().value.id == news[0].item.id && Names(s.rec.playId, s.Shown())
    ensures Heard(s, h, news, bearer)
  {
    assert news == [news[0]] + news[1..];
    LoadedKeeps(s.(world := h), bearer, news[0].item, news[1..], s.world.log);
  }

  lemma HearsSwap(s: Session, h: D.World, news: seq<D.Note>, bearer: bool)
    requires Counted(s.rec, s.world.log) && h.log == s.world.log + news && L.Matched(h.log)
    requires news != [] && news[0].Swapped? && Quiet(news[1..]) && Bare(h)
    requires !s.world.deck.destroyed && Safe(s) && s.world.deck.preloaded == Some(news[0].slot)
    ensures Heard(s, h, news, bearer)
  {
    var n, rest := news[0], news[1..];
    assert news == [n] + rest && s.world.log + news == (s.world.log + [n]) + rest;
    MatchedPrefix(s.world.log + [n], rest);
    L.Said(s.world.log, n);
    assert SlotOk(s.queue, s.index, n.slot.item, n.slot.index);
    SwappedKeeps(s.(world := h), bearer, n.from, n.slot, rest, s.world.log);
  }

  lemma {:induction false} ReportedKeeps(s: Session, h: D.World, step: D.Step, bearer: bool)
    requires Counted(s.rec, s.world.log) && L.Matched(h.log) && Reported(s.world, h, step)
    requires !step.DoPlayNow? && !step.DoSyncPreload? && Safe(s)
    ensures Heard(s, h, News(s.world, h), bearer)
  {
    var w, news := s.world, News(s.world, h);
    assert h.log == w.log + news;
    if news == [] {
      assert h.log == w.log;
      HearsNothing(s, h, bearer);
    } else {
      TailIsQuiet(w, step, news);
      if w.deck.destroyed { HearsInert(s, h, news, bearer); }
      else if news[0].Swapped? { HearsSwap(s, h, news, bearer); }
      else { HearsQuiet(s, h, news, bearer); }
    }
  }

  lemma {:induction false} ActKeeps(s: Session, i: Input, step: D.Step)
    requires Sound(s) && Safe(s) && D.Enabled(s.world, step) && !step.DoSyncPreload? && !step.DoPlayNow?
    ensures Inv(Act(s, i, step)) && Reacts(s, Act(s, i, step), D.Next(s.world, i.env, step))
  {
    L.NextKeeps(s.world, i.env, step);
    StepReports(s.world, i.env, step);
    ReportedKeeps(s, D.Next(s.world, i.env, step), step, i.bearer);
  }

  /** A `playNow` of the shown track begins a listen that meets the invariant, as long as a guard
      that has been set names that track. */
  lemma {:induction false} PlayKeeps(s: Session, i: Input, step: D.Step)
    requires Sound(s) && step.DoPlayNow? && s.Shown().Some? && s.Shown().value.id == step.item.id
    requires if s.world.deck.destroyed then Safe(s) else Names(s.rec.playId, s.Shown())
    ensures Inv(Act(s, i, step)) && Reacts(s, Act(s, i, step), D.Next(s.world, i.env, step))
  {
    var w, h := s.world, D.Next(s.world, i.env, step);
    L.NextKeeps(w, i.env, step);
    PlayNowReports(w, i.env, step);
    var news := News(w, h);
    if w.deck.destroyed {
      assert news == [];
    } else {
      TailIsQuiet(w, step, news);
      HearsLoad(s, h, news, i.bearer);
    }
  }

  // ---- the store's own steps ----

  lemma SyncKeeps(s: Session, i: Input, item: Option<D.Item>, k: int, url: Option<string>)
    requires Inv(s) && (item.Some? ==> R.Queued(s.queue, item.value.id))
    ensures Inv(Act(s, i, D.DoSyncPreload(item, k, url)))
  {
    var w, h := s.world, D.SyncPreload(s.world, item, k, url);
    L.SyncPreloadKeeps(w, item, k, url);
    L.NextKeeps(w, i.env, D.DoSyncPreload(item, k, url));
    assert h.log == w.log && News(w, h) == [];
    assert Guarded(s.rec, s.Shown(), w.log) ==> Guarded(s.rec, s.Shown(), h.log);
    if !w.deck.destroyed { assert SlotsOk(h, s.queue, s.index); }
  }

  lemma RearmKeeps(s: Session, i: Input)
    requires Inv(s)
    ensures Inv(Rearm(s, i))
  {
    SyncKeeps(s, i, None, -1, None);
  }

  lemma PermutedQueue(a: seq<D.Item>, b: seq<D.Item>, id: string)
    requires multiset(a) == multiset(b)
    ensures R.Queued(a, id) <==> R.Queued(b, id)
  {
    if R.Queued(a, id) {
      var i :| 0 <= i < |a| && a[i].id == id;
      assert a[i] in multiset(b);
      var j :| 0 <= j < |b| && b[j] == a[i];
    }
    if R.Queued(b, id) {
      var i :| 0 <= i < |b| && b[i].id == id;
      assert b[i] in multiset(a);
      var j :| 0 <= j < |a| && a[j] == b[i];
    }
  }

  /** Where shuffling can bring a track it could have brought before. */
  lemma ToggledStands(queue: seq<D.Item>, index: int, shuffle: bool, picks: seq<nat>, k: int, t: D.Item)
    requires !shuffle && queue != [] ==> P.Picks(picks, |P.Others(queue, index)|)
    ensures var (q, x) := P.Toggled(queue, index, shuffle, picks);
            MayStand(q, x, k, t) ==> MayStand(queue, index, k, t)
  {
    if !shuffle && 0 < index < |queue| {
      var rest := P.Others(queue, index);
      var r := P.FisherYates(rest, |rest|, picks);
      P.FisherYatesCounts(rest, |rest|, picks);
      if 0 < k < |queue| {
        assert r[k - 1] in multiset(rest);
      }
    }
  }

  function Toggle(s: Session, picks: seq<nat>): Session
    requires Enabled(s, ToggleShuffle(picks))
  {
    var (queue, index) := P.Toggled(s.queue, s.index, s.shuffle, picks);
    s.(queue := queue, index := index, shuffle := !s.shuffle)
  }

  lemma ToggleKeeps(s: Session, i: Input, picks: seq<nat>)
    requires Inv(s) && Enabled(s, ToggleShuffle(picks))
    ensures Inv(Next(s, i, ToggleShuffle(picks)))
  {
    var h := Toggle(s, picks);
    ToggledQueue(s, picks);
    forall item: D.Item, k | SlotOk(s.queue, s.index, item, k) ensures SlotOk(h.queue, h.index, item, k) {
      PermutedQueue(s.queue, h.queue, item.id);
      forall t | MayStand(h.queue, h.index, k, t) ensures MayStand(s.queue, s.index, k, t) {
        ToggledStands(s.queue, s.index, s.shuffle, picks, k, t);
      }
    }
    RearmKeeps(h, i);
  }

  lemma ToggledQueue(s: Session, picks: seq<nat>)
    requires Enabled(s, ToggleShuffle(picks))
    ensures var h := Toggle(s, picks);
            multiset(h.queue) == multiset(s.queue) && |h.queue| == |s.queue| && h.Shown() == s.Shown()
  {
    P.ShuffleKeepsTracks(s.queue, !s.shuffle, s.index, picks);
    assert |multiset(Toggle(s, picks).queue)| == |Toggle(s, picks).queue| && |multiset(s.queue)| == |s.queue|;
  }

  lemma LoadKeepsInv(s: Session, i: Input, index: int, url: string, fadeSec: real)
    requires Sound(s) && (!CanLoad(s, index) ==> Safe(s))
    ensures Inv(Load(s, i, index, url, fadeSec))
  {
    if CanLoad(s, index) {
      var s1 := Select(s, index);
      assert forall l :: R.Submitted(s1.rec, l) <==> R.Submitted(s.rec, l);
      PlayKeeps(s1, i, D.DoPlayNow(s.queue[index], index, url, fadeSec));
    }
  }

  lemma ReplacedIsSafe(s: Session, tracks: seq<D.Item>, start: int, picks: seq<nat>)
    requires Inv(s) && (s.shuffle && tracks != [] ==> P.Picks(picks, |P.Others(tracks, start)|))
    ensures var s1 := Replace(s, tracks, start, picks);
            && |s1.queue| == |tracks| && Sound(s1)
            && (!CanLoad(s1, P.PlayIndex(s.shuffle, start, |tracks|)) ==> Safe(s1))
  {
    var s1 := Replace(s, tracks, start, picks);
    P.ShuffleKeepsTracks(tracks, s.shuffle, start, picks);
    assert |multiset(s1.queue)| == |s1.queue| && |multiset(tracks)| == |tracks|;
  }

  lemma EmptyKeeps(s: Session)
    requires Inv(s) && (s.world.deck.destroyed || Bare(s.world))
    ensures Inv(s.(queue := [], index := -1))
  {
  }

  lemma ClearKeeps(s: Session, i: Input)
    requires Inv(s)
    ensures Inv(Next(s, i, ClearQueue))
  {
    if s.world.deck.destroyed {
      EmptyKeeps(s);
    } else {
      ActKeeps(s, i, D.DoReset);
      assert D.Next(s.world, i.env, D.DoReset) == D.Reset(s.world) && Bare(D.Reset(s.world));
      EmptyKeeps(Act(s, i, D.DoReset));
    }
  }

  /** Selecting a track without playing it does no harm, in terms of what is there before: nothing
      is selected; or it does not count or is the very track being heard, not yet submitted; no
      submitted listen is left to retire unguarded; and the armed slot stays in order. */
  ghost predicate Harmless(s: Session, queue: seq<D.Item>, index: int) {
    var y, out, done := P.TrackAt(queue, index), Retirable(s.world.log), R.Submitted(s.rec, s.rec.listen);
    || y.None? || s.world.deck.destroyed
    || (&& (y.value.episode || (!done && (out.Some? ==> y.value.id == out.value.id)))
        && (done ==> out.None?)
        && SlotsOk(s.world, queue, index))
  }

  ghost predicate HarmlessStep(s: Session, step: Step)
    requires Enabled(s, step)
  {
    match step
    case LoadLater(index, _) => Harmless(s, s.queue, index)
    case PlayQueueLater(tracks, start, picks) =>
      Harmless(s, P.Shuffled(tracks, s.shuffle, start, picks), P.PlayIndex(s.shuffle, start, |tracks|))
    case _ => true
  }

  /** Harmless exactly means safe afterwards. */
  lemma HarmlessIsSafe(s: Session, index: int, fadeSec: real)
    requires Sound(s) && CanLoad(s, index)
    ensures Sound(BeginLoad(s, index, fadeSec))
    ensures Safe(BeginLoad(s, index, fadeSec)) <==> Harmless(s, s.queue, index)
  {
    var h := BeginLoad(s, index, fadeSec);
    assert forall l :: R.Submitted(h.rec, l) <==> R.Submitted(s.rec, l);
  }

  lemma SeparateKeeps(s: Session, i: Input, step: Step)
    requires Inv(s) && Enabled(s, step) && Separates(step)
    ensures Sound(Next(s, i, step)) && (Safe(Next(s, i, step)) <==> HarmlessStep(s, step))
  {
    match step
    case LoadLater(index, fadeSec) =>
      if CanLoad(s, index) { HarmlessIsSafe(s, index, fadeSec); }
    case PlayQueueLater(tracks, start, picks) =>
      var s1, index := Replace(s, tracks, start, picks), P.PlayIndex(s.shuffle, start, |tracks|);
      ReplacedIsSafe(s, tracks, start, picks);
      if CanLoad(s1, index) { HarmlessIsSafe(s1, index, 0.0); }
  }

  /** Every step keeps the invariant, unless it selects a track without playing it; then it does
      exactly if that is harmless. */
  lemma NextKeeps(s: Session, i: Input, step: Step)
    requires Inv(s) && Enabled(s, step)
    ensures Sound(Next(s, i, step)) && (Inv(Next(s, i, step)) <==> HarmlessStep(s, step))
  {
    match step
    case Happens(e) => ActKeeps(s, i, e);
    case LoadNow(index, url, fadeSec) => LoadKeepsInv(s, i, index, url, fadeSec);
    case LookupDone(l, url) =>
      var s0 := s.(lookups := s.lookups - multiset{l});
      assert Inv(s0);
      if s.Shown().Some? && s.Shown().value.id == l.item.id {
        PlayKeeps(s0, i, D.DoPlayNow(l.item, l.index, url, l.fadeSec));
      }
    case PlayQueue(tracks, start, picks, url) =>
      ReplacedIsSafe(s, tracks, start, picks);
      LoadKeepsInv(Replace(s, tracks, start, picks), i, P.PlayIndex(s.shuffle, start, |tracks|), url, 0.0);
    case ToggleShuffle(picks) => ToggleKeeps(s, i, picks);
    case CycleRepeat => RearmKeeps(s.(repeat := Cycled(s.repeat)), i);
    case ClearQueue => ClearKeeps(s, i);
    case Arm(item, n, url) =>
      assert R.Queued(s.queue, item.id);
      SyncKeeps(s, i, Some(item), n, Some(url));
    case Disarm => SyncKeeps(s, i, None, -1, None);
    case _ => SeparateKeeps(s, i, step);
  }

  lemma LaunchIsSound(queue: seq<D.Item>, index: int, shuffle: bool, repeat: P.Repeat, el: D.El)
    ensures Inv(Launch(queue, index, shuffle, repeat, el))
  {
  }

  // ---- whole runs ----

  lemma {:induction false} RunKeepsInv(states: seq<Session>, inputs: seq<Input>, steps: seq<Step>)
    requires Run(states, inputs, steps) && Inv(states[0])
    requires forall k | 0 <= k < |steps| :: HarmlessStep(states[k], steps[k])
    ensures Inv(states[|steps|])
    decreases |steps|
  {
    if steps == [] {
    } else {
      var n := |steps| - 1;
      RunKeepsInv(states[..n + 1], inputs[..n], steps[..n]);
      NextKeeps(states[n], inputs[n], steps[n]);
    }
  }

  /** No listen has been submitted twice. */
  ghost predicate Once(s: Session) {
    forall i, j | 0 <= i < j < |s.rec.plays| :: s.rec.plays[i].listen != s.rec.plays[j].listen
  }

  /** At most one play is submitted per listen, on every run of the player in which each
      `loadAndPlay` comes with its `playNow` or does no harm without it: across the threshold, the
      guard migrated at a swap, and the retirement hook, whatever happens to the queue. */
  lemma AtMostOnePlayPerListen(queue: seq<D.Item>, index: int, shuffle: bool, repeat: P.Repeat, el: D.El,
                               states: seq<Session>, inputs: seq<Input>, steps: seq<Step>)
    requires Run(states, inputs, steps) && states[0] == Launch(queue, index, shuffle, repeat, el)
    requires forall k | 0 <= k < |steps| :: Separates(steps[k]) ==> HarmlessStep(states[k], steps[k])
    ensures Once(states[|steps|])
  {
    LaunchIsSound(queue, index, shuffle, repeat, el);
    forall k | 0 <= k < |steps| ensures HarmlessStep(states[k], steps[k]) {}
    RunKeepsInv(states, inputs, steps);
  }
}

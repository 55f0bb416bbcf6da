/** The play guard over every run: when it is set, which listens begin with it set, and which listens
    are therefore missing from the play history when they end. */
module SessionGuards {
  import opened Rows
  import D = Deck
  import L = DeckLaws
  import P = PlayOrder
  import R = PlayRecords
  import opened PlayerSession
  import opened SessionLaws

  // ---- steps as the guard sees them ----

  function StepNews(s: Session, i: Input, step: Step): seq<D.Note>
    requires Enabled(s, step)
  {
    News(s.world, Next(s, i, step).world)
  }

  /** A source lookup succeeds late, and its track is played. */
  predicate Arrives(s: Session, step: Step) {
    && step.LookupDone? && !s.world.deck.destroyed
    && s.Shown().Some? && s.Shown().value.id == step.lookup.item.id
  }

  /** A track is selected. */
  predicate Selects(s: Session, step: Step)
    requires Enabled(s, step)
  {
    match step
    case LoadNow(index, _, _) => CanLoad(s, index)
    case LoadLater(index, _) => CanLoad(s, index)
    case PlayQueue(tracks, start, picks, _) =>
      CanLoad(Replace(s, tracks, start, picks), P.PlayIndex(s.shuffle, start, |tracks|))
    case PlayQueueLater(tracks, start, picks) =>
      CanLoad(Replace(s, tracks, start, picks), P.PlayIndex(s.shuffle, start, |tracks|))
    case _ => false
  }

  predicate BeginsWithSwap(news: seq<D.Note>) { news != [] && news[0].Swapped? }

  predicate Swaps(s: Session, i: Input, step: Step)
    requires Enabled(s, step)
  {
    BeginsWithSwap(StepNews(s, i, step))
  }

  /** The guard is cleared. */
  predicate Opens(s: Session, i: Input, step: Step)
    requires Enabled(s, step)
  {
    Selects(s, step) || Swaps(s, i, step)
  }

  predicate Counting(n: D.Note) {
    n.Fallback? || (n.TimeAt? && R.Crossed(n.posSec, n.durSec))
  }

  predicate Countable(item: Option<D.Item>) { item.Some? && !item.value.episode }

  /** A position past the threshold, or the end without a standby, is met by a shown track and a
      session that count. */
  ghost predicate Records(shown: Option<D.Item>, bearer: bool, news: seq<D.Note>) {
    Countable(shown) && bearer && exists k :: 0 <= k < |news| && Counting(news[k])
  }

  // ---- the guard, note by note ----

  /** The guard is set although the present listen has not been submitted. */
  ghost predicate Shut(r: R.Recorder) {
    r.playId.Some? && !R.Submitted(r, r.listen)
  }

  /** So it was when the listen that is still owed its retirement was swapped out. */
  ghost predicate ShutOwed(r: R.Recorder, log: seq<D.Note>) {
    L.Owed(log).Some? && r.retiringId.Some? && !R.Submitted(r, r.owed)
  }

  ghost predicate Bounded(r: R.Recorder, log: seq<D.Note>) {
    && (forall i | 0 <= i < |r.plays| :: r.plays[i].listen <= r.listen)
    && (L.Owed(log).Some? ==> r.owed < r.listen)
  }

  /** What holds on every run, whatever is selected and never played. */
  ghost predicate Tidy(s: Session) {
    && L.Inv(s.world) && Bounded(s.rec, s.world.log)
    && (s.world.deck.destroyed || Names(s.rec.playId, s.Shown()))
  }

  lemma RecordTells(r: R.Recorder, shown: Option<D.Item>, posSec: real, completed: bool, bearer: bool)
    requires Names(r.playId, shown)
    ensures var h := R.RecordPlay(r, shown, posSec, completed, bearer);
            && Names(h.playId, shown) && h == r.(playId := h.playId, plays := h.plays)
            && (h.playId.Some? <==> r.playId.Some? || (Countable(shown) && bearer))
            && (forall l :: R.Submitted(h, l)
                  <==> R.Submitted(r, l) || (l == r.listen && Countable(shown) && bearer && r.playId.None?))
  {
    if Countable(shown) && bearer && r.playId.None? {
      var r1 := r.(playId := Some(shown.value.id));
      SubmitExtends(r1, R.Play(r.listen, shown.value.id, R.Millis(posSec), completed));
      assert forall l :: R.Submitted(r1, l) <==> R.Submitted(r, l);
    }
  }

  lemma RetireTells(r: R.Recorder, item: D.Item, posSec: real, reachedEnd: bool, bearer: bool)
    ensures var h := R.OnRetired(r, item, posSec, reachedEnd, bearer);
            && h == r.(retiringId := None, plays := h.plays)
            && (forall l :: R.Submitted(h, l)
                  <==> R.Submitted(r, l)
                       || (l == r.owed && !item.episode && bearer
                           && r.playId != Some(item.id) && r.retiringId != Some(item.id)))
  {
    var r1 := r.(retiringId := None);
    SubmitExtends(r1, R.Play(r.owed, item.id, R.Millis(posSec), reachedEnd));
    assert forall l :: R.Submitted(r1, l) <==> R.Submitted(r, l);
  }

  /** A callback that is no load or swap: who is submitted, who shut, and whether the guard is set. */
  ghost predicate Holds(r: R.Recorder, h: R.Recorder, shown: Option<D.Item>, bearer: bool, notes: seq<D.Note>,
                        log: seq<D.Note>)
  {
    && h.listen == r.listen && h.owed == r.owed && Bounded(h, log + notes) && Names(h.playId, shown)
    && (h.playId.Some? <==> r.playId.Some? || Records(shown, bearer, notes))
    && (Shut(h) <==> Shut(r))
    && (R.Submitted(h, h.listen) <==> R.Submitted(r, r.listen) || (r.playId.None? && Records(shown, bearer, notes)))
    && (L.Owed(log + notes).Some? ==>
          L.Owed(log + notes) == L.Owed(log) && (ShutOwed(h, log + notes) <==> ShutOwed(r, log)))
  }

  lemma {:induction false} NoteHolds(r: R.Recorder, shown: Option<D.Item>, bearer: bool, n: D.Note, log: seq<D.Note>)
    requires Bounded(r, log) && Names(r.playId, shown) && L.Matched(log + [n]) && !n.Swapped? && !n.Loaded?
    ensures Holds(r, R.Handle(r, n, R.View(shown, bearer)), shown, bearer, [n], log)
  {
    var h := R.Handle(r, n, R.View(shown, bearer));
    L.Said(log, n);
    assert Records(shown, bearer, [n]) <==> Countable(shown) && bearer && Counting(n) by {
      if Counting(n) { assert Counting([n][0]); }
    }
    match n
    case Retired(item, posSec, reachedEnd) => RetireTells(r, item, posSec, reachedEnd, bearer);
    case TimeAt(posSec, _) => RecordTells(r, shown, posSec, false, bearer);
    case Fallback(posSec) => RecordTells(r, shown, posSec, true, bearer);
    case _ =>
    PlaysBound(r, h);
  }

  lemma PlaysBound(r: R.Recorder, h: R.Recorder)
    requires forall i | 0 <= i < |r.plays| :: r.plays[i].listen <= r.listen
    requires forall l: nat | R.Submitted(h, l) :: R.Submitted(r, l) || l <= r.listen
    ensures forall i | 0 <= i < |h.plays| :: h.plays[i].listen <= r.listen
  {
    forall i | 0 <= i < |h.plays| ensures h.plays[i].listen <= r.listen {
      assert R.Submitted(h, h.plays[i].listen);
    }
  }

  lemma RecordsSplit(shown: Option<D.Item>, bearer: bool, n: D.Note, rest: seq<D.Note>)
    ensures Records(shown, bearer, [n] + rest) <==> Records(shown, bearer, [n]) || Records(shown, bearer, rest)
  {
    var all := [n] + rest;
    assert all[0] == n == [n][0];
    if k :| 0 <= k < |all| && Counting(all[k]) {
      if k > 0 { assert all[k] == rest[k - 1]; }
    }
    if k :| 0 <= k < |rest| && Counting(rest[k]) { assert Counting(all[k + 1]); }
  }

  lemma {:induction false} NotesHold(s: Session, notes: seq<D.Note>, bearer: bool, log: seq<D.Note>)
    requires Bounded(s.rec, log) && Names(s.rec.playId, s.Shown()) && L.Matched(log + notes) && Quiet(notes)
    ensures var h := HearAll(s, notes, bearer);
            h == s.(rec := h.rec) && Holds(s.rec, h.rec, s.Shown(), bearer, notes, log)
    decreases |notes|
  {
    if notes == [] {
      assert log + notes == log;
    } else {
      var n, rest := notes[0], notes[1..];
      assert notes == [n] + rest && log + notes == (log + [n]) + rest;
      MatchedPrefix(log + [n], rest);
      NoteHolds(s.rec, s.Shown(), bearer, n, log);
      var s1 := Hear(s, n, bearer);
      assert s1 == s.(rec := s1.rec) && s1.Shown() == s.Shown();
      NotesHold(s1, rest, bearer, log + [n]);
      RecordsSplit(s.Shown(), bearer, n, rest);
    }
  }

  // ---- the guard, step by step ----

  /** What a step of the deck does to the guards. `loads` says whether it is a `playNow`. */
  ghost predicate Told(s: Session, t: Session, news: seq<D.Note>, bearer: bool, loads: bool) {
    var swaps := BeginsWithSwap(news);
    && t.queue == s.queue && t.lookups == s.lookups
    && Bounded(t.rec, t.world.log) && (t.world.deck.destroyed || Names(t.rec.playId, t.Shown()))
    && (t.rec.playId.Some? <==> Records(s.Shown(), bearer, news) || (s.rec.playId.Some? && !swaps))
    && (Shut(t.rec) <==> if loads then s.rec.playId.Some? else Shut(s.rec) && !swaps)
    && (ShutOwed(t.rec, t.world.log)
        <==> L.Owed(t.world.log).Some? && if swaps then Shut(s.rec) else ShutOwed(s.rec, s.world.log))
    && (L.Owed(t.world.log).Some? && !swaps ==> L.Owed(s.world.log).Some?)
    && t.rec.listen == s.rec.listen + (if loads || swaps then 1 else 0)
    && (loads ==> !R.Submitted(t.rec, t.rec.listen))
  }

  lemma {:induction false} TellsInert(s: Session, h: D.World, news: seq<D.Note>, bearer: bool)
    requires Bounded(s.rec, s.world.log) && h.log == s.world.log + news && L.Matched(h.log)
    requires h.deck.destroyed && Inert(news)
    ensures Told(s, HearAll(s.(world := h), news, bearer), news, bearer, false)
    ensures HearAll(s.(world := h), news, bearer) == s.(world := h)
  {
    InertIdle(s.(world := h), news, bearer, s.world.log);
    assert !Records(s.Shown(), bearer, news);
  }

  lemma {:induction false} InertIdle(s: Session, notes: seq<D.Note>, bearer: bool, log: seq<D.Note>)
    requires Inert(notes)
    ensures HearAll(s, notes, bearer) == s
    ensures L.Owed(log + notes).Some? ==> L.Owed(log + notes) == L.Owed(log)
    decreases |notes|
  {
    if notes == [] {
      assert log + notes == log;
    } else {
      var n, rest := notes[0], notes[1..];
      assert log + notes == (log + [n]) + rest;
      L.Said(log, n);
      assert forall k | 0 <= k < |rest| :: rest[k] == notes[k + 1];
      InertIdle(s, rest, bearer, log + [n]);
    }
  }

  lemma {:induction false} TellsQuiet(s: Session, h: D.World, news: seq<D.Note>, bearer: bool)
    requires Bounded(s.rec, s.world.log) && h.log == s.world.log + news && L.Matched(h.log)
    requires Names(s.rec.playId, s.Shown()) && Quiet(news)
    ensures Told(s, HearAll(s.(world := h), news, bearer), news, bearer, false)
  {
    NotesHold(s.(world := h), news, bearer, s.world.log);
  }

  lemma SwappedTells(s: Session, h: D.World, n: D.Note, bearer: bool)
    requires Bounded(s.rec, s.world.log) && n.Swapped?
    ensures var s1, log := Hear(s.(world := h), n, bearer), s.world.log + [n];
            && Bounded(s1.rec, log) && s1.rec.playId.None? && !Shut(s1.rec)
            && (ShutOwed(s1.rec, log) <==> Shut(s.rec))
  {
    L.Said(s.world.log, n);
    var r1 := R.OnSwapped(s.rec);
    assert forall l :: R.Submitted(r1, l) <==> R.Submitted(s.rec, l);
  }

  lemma LoadedTells(s: Session, h: D.World, n: D.Note, bearer: bool)
    requires Bounded(s.rec, s.world.log) && n.Loaded?
    ensures var s1, log := Hear(s.(world := h), n, bearer), s.world.log + [n];
            && Bounded(s1.rec, log) && s1.rec.playId == s.rec.playId && s1.Shown() == s.Shown()
            && (Shut(s1.rec) <==> s.rec.playId.Some?) && !R.Submitted(s1.rec, s1.rec.listen)
            && L.Owed(log) == L.Owed(s.world.log) && (ShutOwed(s1.rec, log) <==> ShutOwed(s.rec, s.world.log))
  {
    L.Said(s.world.log, n);
    var r1 := s.rec.(listen := s.rec.listen + 1);
    assert forall l :: R.Submitted(r1, l) <==> R.Submitted(s.rec, l);
    assert !R.Submitted(s.rec, s.rec.listen + 1);
  }

  /** After a load or a swap at most a retirement is heard. */
  lemma {:induction false} AfterFirst(s: Session, news: seq<D.Note>, bearer: bool, log: seq<D.Note>)
    requires news != [] && (news[0].Swapped? || news[0].Loaded?) && Brief(news) && L.Matched(log + news)
    requires var s1 := Hear(s, news[0], bearer); Bounded(s1.rec, log + [news[0]]) && Names(s1.rec.playId, s1.Shown())
    ensures var s1, t := Hear(s, news[0], bearer), HearAll(s, news, bearer);
            && t == s1.(rec := t.rec) && !Records(s.Shown(), bearer, news)
            && log + news == (log + [news[0]]) + news[1..]
            && Holds(s1.rec, t.rec, s1.Shown(), bearer, news[1..], log + [news[0]])
            && (t.rec.playId.Some? <==> s1.rec.playId.Some?)
  {
    var n, rest := news[0], news[1..];
    assert news == [n] + rest && log + news == (log + [n]) + rest;
    NotesHold(Hear(s, n, bearer), rest, bearer, log + [n]);
  }

  lemma {:induction false} TellsSwap(s: Session, h: D.World, news: seq<D.Note>, bearer: bool)
    requires Bounded(s.rec, s.world.log) && h.log == s.world.log + news && L.Matched(h.log)
    requires BeginsWithSwap(news) && Brief(news)
    ensures Told(s, HearAll(s.(world := h), news, bearer), news, bearer, false)
  {
    SwappedTells(s, h, news[0], bearer);
    AfterFirst(s.(world := h), news, bearer, s.world.log);
  }

  lemma {:induction false} TellsLoad(s: Session, h: D.World, news: seq<D.Note>, bearer: bool)
    requires Bounded(s.rec, s.world.log) && h.log == s.world.log + news && L.Matched(h.log)
    requires news != [] && news[0].Loaded? && Brief(news) && Names(s.rec.playId, s.Shown())
    ensures Told(s, HearAll(s.(world := h), news, bearer), news, bearer, true)
  {
    LoadedTells(s, h, news[0], bearer);
    AfterFirst(s.(world := h), news, bearer, s.world.log);
  }

  lemma {:induction false} NewsTold(s: Session, h: D.World, step: D.Step, bearer: bool)
    requires Tidy(s) && L.Matched(h.log) && Reported(s.world, h, step)
    requires var news := News(s.world, h);
             (step.DoPlayNow? && !s.world.deck.destroyed) <==> (news != [] && news[0].Loaded?)
    ensures Told(s, HearAll(s.(world := h), News(s.world, h), bearer), News(s.world, h), bearer,
                 step.DoPlayNow? && !s.world.deck.destroyed)
  {
    var news := News(s.world, h);
    assert h.log == s.world.log + news;
    if news == [] {
      assert h.log == s.world.log;
      TellsNothing(s, h, bearer);
    } else {
      TailIsQuiet(s.world, step, news);
      if s.world.deck.destroyed { TellsInert(s, h, news, bearer); }
      else if news[0].Swapped? { TellsSwap(s, h, news, bearer); }
      else if news[0].Loaded? { TellsLoad(s, h, news, bearer); }
      else { TellsQuiet(s, h, news, bearer); }
    }
  }

  lemma NewsOfStep(w: D.World, env: D.Env, e: D.Step)
    requires L.Inv(w) && D.Enabled(w, e)
    ensures L.Inv(D.Next(w, env, e)) && Reported(w, D.Next(w, env, e), e)
    ensures NewsFit(w, D.Next(w, env, e), e)
  {
    L.NextKeeps(w, env, e);
    StepReports(w, env, e);
    ReportedFit(w, D.Next(w, env, e), e);
  }

  /** What a step of the deck says, put together. */
  ghost predicate NewsFit(w: D.World, h: D.World, e: D.Step) {
    && h.log == w.log + News(w, h) && L.Matched(h.log) && Brief(News(w, h)) && Heralded(w, e, News(w, h))
    && (w.deck.destroyed ==> h.deck.destroyed)
  }

  lemma ReportedFit(w: D.World, h: D.World, e: D.Step)
    requires Reported(w, h, e) && L.Matched(h.log)
    ensures NewsFit(w, h, e)
  {
  }

  lemma ActTold(s: Session, i: Input, step: D.Step)
    requires Tidy(s) && D.Enabled(s.world, step)
    ensures var h := D.Next(s.world, i.env, step);
            && Act(s, i, step).world == h && L.Inv(h)
            && Told(s, Act(s, i, step), News(s.world, h), i.bearer, step.DoPlayNow? && !s.world.deck.destroyed)
  {
    var h := D.Next(s.world, i.env, step);
    L.NextKeeps(s.world, i.env, step);
    StepReports(s.world, i.env, step);
    if step.DoPlayNow? { PlayNowReports(s.world, i.env, step); }
    WorldStays(s.(world := h), News(s.world, h), i.bearer);
    NewsTold(s, h, step, i.bearer);
  }

  lemma {:induction false} TellsNothing(s: Session, h: D.World, bearer: bool)
    requires Tidy(s) && h.log == s.world.log && (s.world.deck.destroyed ==> h.deck.destroyed)
    ensures Told(s, HearAll(s.(world := h), [], bearer), [], bearer, false)
  {
  }

  lemma {:induction false} WorldStays(s: Session, notes: seq<D.Note>, bearer: bool)
    ensures HearAll(s, notes, bearer).world == s.world
    decreases |notes|
  {
    if notes == [] {
    } else {
      WorldStays(Hear(s, notes[0], bearer), notes[1..], bearer);
    }
  }

  /** What any step does to the guards. */
  ghost predicate StepTold(s: Session, i: Input, step: Step)
    requires Enabled(s, step)
  {
    var t := Next(s, i, step);
    && Tidy(t)
    && (t.rec.playId.Some?
        <==> Records(s.Shown(), i.bearer, StepNews(s, i, step)) || (s.rec.playId.Some? && !Opens(s, i, step)))
    && (Shut(t.rec) <==> if Arrives(s, step) then s.rec.playId.Some? else Shut(s.rec) && !Opens(s, i, step))
    && (ShutOwed(t.rec, t.world.log)
        <==> L.Owed(t.world.log).Some?
             && if Swaps(s, i, step) then Shut(s.rec) else ShutOwed(s.rec, s.world.log))
    && (L.Owed(t.world.log).Some? && !Swaps(s, i, step) ==> L.Owed(s.world.log).Some?)
  }

  lemma ToldStep(s: Session, i: Input, step: Step, news: seq<D.Note>)
    requires Tidy(s) && Enabled(s, step) && !Selects(s, step) && !Arrives(s, step)
    requires L.Inv(Next(s, i, step).world) && news == StepNews(s, i, step)
    requires Told(s, Next(s, i, step), news, i.bearer, false)
    ensures StepTold(s, i, step)
  {
  }

  lemma ActStep(s: Session, i: Input, step: Step, e: D.Step)
    requires Tidy(s) && Enabled(s, step) && D.Enabled(s.world, e) && !e.DoPlayNow?
    requires Next(s, i, step) == Act(s, i, e) && !Selects(s, step) && !Arrives(s, step)
    ensures StepTold(s, i, step)
  {
    ActTold(s, i, e);
    ToldStep(s, i, step, News(s.world, D.Next(s.world, i.env, e)));
  }

  lemma SyncTold(s: Session, i: Input, item: Option<D.Item>, k: int, url: Option<string>)
    requires Tidy(s)
    ensures var t := Act(s, i, D.DoSyncPreload(item, k, url));
            t == s.(world := t.world) && t.world.log == s.world.log && Tidy(t)
  {
    var h := D.SyncPreload(s.world, item, k, url);
    L.NextKeeps(s.world, i.env, D.DoSyncPreload(item, k, url));
    assert h.log == s.world.log && News(s.world, h) == [];
  }

  /** A step that moves neither the log nor the guards. */
  lemma StillTold(s: Session, i: Input, step: Step)
    requires Tidy(s) && Enabled(s, step) && !Selects(s, step) && !Arrives(s, step)
    requires var t := Next(s, i, step); Tidy(t) && t.rec == s.rec && t.world.log == s.world.log
    ensures StepTold(s, i, step)
  {
    assert StepNews(s, i, step) == [];
  }

  lemma RearmTold(s: Session, i: Input, step: Step, s1: Session)
    requires Tidy(s) && Enabled(s, step) && (step.ToggleShuffle? || step.CycleRepeat?)
    requires Next(s, i, step) == Rearm(s1, i) && s1.world == s.world && s1.rec == s.rec && s1.Shown() == s.Shown()
    ensures StepTold(s, i, step)
  {
    SyncTold(s1, i, None, -1, None);
    StillTold(s, i, step);
  }

  /** A `playNow` records nothing. */
  lemma NoRecords(bearer: bool, news: seq<D.Note>)
    requires news != [] && !Counting(news[0]) && Brief(news)
    ensures forall shown :: !Records(shown, bearer, news)
  {
  }

  /** A `playNow` leaves the guard alone, and the listen it begins is shut exactly if that is set. */
  lemma PlayTold(s: Session, i: Input, e: D.Step)
    requires Tidy(s) && e.DoPlayNow? && !s.world.deck.destroyed
    ensures var t := Act(s, i, e);
            var news := News(s.world, t.world);
            && Tidy(t) && t.lookups == s.lookups && !BeginsWithSwap(news)
            && t.rec.listen == s.rec.listen + 1 && !R.Submitted(t.rec, t.rec.listen)
            && (forall shown :: !Records(shown, i.bearer, news))
            && (t.rec.playId.Some? <==> s.rec.playId.Some?) && (Shut(t.rec) <==> s.rec.playId.Some?)
            && (ShutOwed(t.rec, t.world.log) <==> L.Owed(t.world.log).Some? && ShutOwed(s.rec, s.world.log))
            && (L.Owed(t.world.log).Some? ==> L.Owed(s.world.log).Some?)
  {
    ActTold(s, i, e);
    PlayNowReports(s.world, i.env, e);
    NoRecords(i.bearer, News(s.world, D.Next(s.world, i.env, e)));
  }

  lemma SelectTold(s: Session, index: int)
    requires Tidy(s)
    ensures var t := Select(s, index);
            && Tidy(t) && t.rec.playId.None? && !Shut(t.rec) && t.world == s.world
            && (ShutOwed(t.rec, t.world.log) <==> ShutOwed(s.rec, s.world.log))
  {
    var t := Select(s, index);
    assert forall l :: R.Submitted(t.rec, l) <==> R.Submitted(s.rec, l);
  }

  /** `loadAndPlay` with its `playNow`, from the store `s1` that shows the new queue. */
  lemma LoadTold(s: Session, i: Input, step: Step, s1: Session, index: int, url: string, fadeSec: real)
    requires Tidy(s) && Enabled(s, step) && (step.LoadNow? || step.PlayQueue?) && s1 == s.(queue := s1.queue)
    requires !CanLoad(s1, index) ==> s.world.deck.destroyed || s1.Shown() in {s.Shown(), None}
    requires Next(s, i, step) == Load(s1, i, index, url, fadeSec) && (Selects(s, step) <==> CanLoad(s1, index))
    ensures StepTold(s, i, step)
  {
    if CanLoad(s1, index) {
      var bare := s.(queue := s1.queue, index := index, rec := R.OnSelected(s.rec));
      assert Select(s1, index) == bare == Select(s, index).(queue := s1.queue);
      SelectTold(s, index);
      PlayTold(bare, i, D.DoPlayNow(s1.queue[index], index, url, fadeSec));
    } else {
      StillTold(s, i, step);
    }
  }

  /** `loadAndPlay` without its `playNow`. */
  lemma BeginTold(s: Session, i: Input, step: Step, s1: Session, index: int, fadeSec: real)
    requires Tidy(s) && Enabled(s, step) && Separates(step) && s1 == s.(queue := s1.queue)
    requires !CanLoad(s1, index) ==> s.world.deck.destroyed || s1.Shown() in {s.Shown(), None}
    requires Next(s, i, step) == BeginLoad(s1, index, fadeSec) && (Selects(s, step) <==> CanLoad(s1, index))
    ensures StepTold(s, i, step)
  {
    assert StepNews(s, i, step) == [];
    if CanLoad(s1, index) {
      SelectTold(s, index);
      assert Next(s, i, step).rec == Select(s, index).rec;
    } else {
      StillTold(s, i, step);
    }
  }

  lemma LookupTold(s: Session, i: Input, l: Lookup, url: string)
    requires Tidy(s) && l in s.lookups
    ensures StepTold(s, i, LookupDone(l, url))
  {
    var s0, step := s.(lookups := s.lookups - multiset{l}), LookupDone(l, url);
    if Arrives(s, step) {
      PlayTold(s0, i, D.DoPlayNow(l.item, l.index, url, l.fadeSec));
    } else if s.Shown().Some? && s.Shown().value.id == l.item.id {
      GoneTold(s0, i, D.DoPlayNow(l.item, l.index, url, l.fadeSec));
      StillTold(s, i, step);
    } else {
      StillTold(s, i, step);
    }
  }

  lemma GoneTold(s: Session, i: Input, e: D.Step)
    requires e.DoPlayNow? && s.world.deck.destroyed
    ensures Act(s, i, e) == s
  {
    assert News(s.world, s.world) == [];
  }

  lemma ReplacedShows(s: Session, tracks: seq<D.Item>, start: int, picks: seq<nat>)
    requires s.shuffle && tracks != [] ==> P.Picks(picks, |P.Others(tracks, start)|)
    ensures var s1 := Replace(s, tracks, start, picks);
            !CanLoad(s1, P.PlayIndex(s.shuffle, start, |tracks|)) ==> s.world.deck.destroyed || s1.Shown().None?
  {
    P.ShuffleKeepsTracks(tracks, s.shuffle, start, picks);
    var s1 := Replace(s, tracks, start, picks);
    assert |multiset(s1.queue)| == |s1.queue| && |multiset(tracks)| == |tracks|;
  }

  lemma {:induction false} HearDropped(s: Session, bearer: bool)
    ensures HearAll(s, [D.Dropped], bearer) == s
  {
    assert HearAll(s, [], bearer) == s;
  }

  lemma ClearIs(s: Session, i: Input)
    requires !s.world.deck.destroyed
    ensures var h := D.Reset(s.world);
            && Next(s, i, ClearQueue) == s.(world := h, queue := [], index := -1)
            && h.log == s.world.log + [D.Dropped] && StepNews(s, i, ClearQueue) == [D.Dropped]
  {
    var h := D.Reset(s.world);
    assert h.log == s.world.log + [D.Dropped] && News(s.world, h) == [D.Dropped];
    HearDropped(s.(world := h), i.bearer);
  }

  lemma ClearTold(s: Session, i: Input)
    requires Tidy(s)
    ensures StepTold(s, i, ClearQueue)
  {
    if s.world.deck.destroyed {
      StillTold(s, i, ClearQueue);
    } else {
      ClearIs(s, i);
      L.NextKeeps(s.world, i.env, D.DoReset);
      L.Said(s.world.log, D.Dropped);
      NoRecords(i.bearer, [D.Dropped]);
    }
  }

  /** Every step: a guard is set exactly by a record and cleared exactly by a selection or a swap; a
      listen begins shut exactly when its lookup comes late and finds the guard set; and it stays
      shut, until it ends, unless another track is selected. */
  lemma NextTold(s: Session, i: Input, step: Step)
    requires Tidy(s) && Enabled(s, step)
    ensures StepTold(s, i, step)
  {
    match step
    case Happens(e) => ActStep(s, i, step, e);
    case LoadNow(index, url, fadeSec) => LoadTold(s, i, step, s, index, url, fadeSec);
    case LoadLater(index, fadeSec) => BeginTold(s, i, step, s, index, fadeSec);
    case LookupDone(l, url) => LookupTold(s, i, l, url);
    case PlayQueue(tracks, start, picks, url) =>
      ReplacedShows(s, tracks, start, picks);
      LoadTold(s, i, step, Replace(s, tracks, start, picks), P.PlayIndex(s.shuffle, start, |tracks|), url, 0.0);
    case PlayQueueLater(tracks, start, picks) =>
      ReplacedShows(s, tracks, start, picks);
      BeginTold(s, i, step, Replace(s, tracks, start, picks), P.PlayIndex(s.shuffle, start, |tracks|), 0.0);
    case ToggleShuffle(picks) =>
      ToggledQueue(s, picks);
      RearmTold(s, i, step, Toggle(s, picks));
    case CycleRepeat => RearmTold(s, i, step, s.(repeat := Cycled(s.repeat)));
    case ClearQueue => ClearTold(s, i);
    case Arm(item, n, url) =>
      SyncTold(s, i, Some(item), n, Some(url));
      StillTold(s, i, step);
    case Disarm =>
      SyncTold(s, i, None, -1, None);
      StillTold(s, i, step);
  }

  // ---- whole runs ----

  /** Before step `n`, something has happened that nothing has undone since. */
  ghost predicate Stands(happened: seq<bool>, undone: seq<bool>, n: nat)
    requires n <= |happened| == |undone|
  {
    exists k :: 0 <= k < n && happened[k] && forall j | k < j < n :: !undone[j]
  }

  lemma StandsExtends(happened: seq<bool>, undone: seq<bool>, n: nat)
    requires n < |happened| == |undone|
    ensures Stands(happened, undone, n + 1) <==> happened[n] || (Stands(happened, undone, n) && !undone[n])
  {
    if k :| 0 <= k < n && happened[k] && (forall j | k < j < n :: !undone[j]) && !undone[n] {
      assert forall j | k < j < n + 1 :: !undone[j];
    }
  }

  ghost function Recorded(states: seq<Session>, inputs: seq<Input>, steps: seq<Step>): (m: seq<bool>)
    requires Run(states, inputs, steps)
    ensures |m| == |steps|
  {
    seq(|steps|, k requires 0 <= k < |steps| && Run(states, inputs, steps) =>
      Records(states[k].Shown(), inputs[k].bearer, StepNews(states[k], inputs[k], steps[k])))
  }

  ghost function Opened(states: seq<Session>, inputs: seq<Input>, steps: seq<Step>): (m: seq<bool>)
    requires Run(states, inputs, steps)
    ensures |m| == |steps|
  {
    seq(|steps|, k requires 0 <= k < |steps| && Run(states, inputs, steps) => Opens(states[k], inputs[k], steps[k]))
  }

  /** A countable position or end has crossed the threshold since the last selection or swap. */
  ghost predicate GuardHeld(states: seq<Session>, inputs: seq<Input>, steps: seq<Step>, n: nat)
    requires n <= |steps| && Run(states, inputs, steps)
  {
    Stands(Recorded(states, inputs, steps), Opened(states, inputs, steps), n)
  }

  ghost function CameLate(states: seq<Session>, inputs: seq<Input>, steps: seq<Step>): (m: seq<bool>)
    requires Run(states, inputs, steps)
    ensures |m| == |steps|
  {
    seq(|steps|, k requires 0 <= k < |steps| && Run(states, inputs, steps) =>
      Arrives(states[k], steps[k]) && GuardHeld(states, inputs, steps, k))
  }

  ghost function Renewed(states: seq<Session>, inputs: seq<Input>, steps: seq<Step>): (m: seq<bool>)
    requires Run(states, inputs, steps)
    ensures |m| == |steps|
  {
    seq(|steps|, k requires 0 <= k < |steps| && Run(states, inputs, steps) =>
      Arrives(states[k], steps[k]) || Opens(states[k], inputs[k], steps[k]))
  }

  /** The present listen was begun by a late lookup while the guard was held, and no selection has
      cleared the guard since. */
  ghost predicate ShutOut(states: seq<Session>, inputs: seq<Input>, steps: seq<Step>, n: nat)
    requires n <= |steps| && Run(states, inputs, steps)
  {
    Stands(CameLate(states, inputs, steps), Renewed(states, inputs, steps), n)
  }

  ghost function SwappedShut(states: seq<Session>, inputs: seq<Input>, steps: seq<Step>): (m: seq<bool>)
    requires Run(states, inputs, steps)
    ensures |m| == |steps|
  {
    seq(|steps|, k requires 0 <= k < |steps| && Run(states, inputs, steps) =>
      Swaps(states[k], inputs[k], steps[k]) && ShutOut(states, inputs, steps, k))
  }

  ghost function Swapped(states: seq<Session>, inputs: seq<Input>, steps: seq<Step>): (m: seq<bool>)
    requires Run(states, inputs, steps)
    ensures |m| == |steps|
  {
    seq(|steps|, k requires 0 <= k < |steps| && Run(states, inputs, steps) => Swaps(states[k], inputs[k], steps[k]))
  }

  /** The listen last swapped out was shut out when it was. */
  ghost predicate SwappedOutShut(states: seq<Session>, inputs: seq<Input>, steps: seq<Step>, n: nat)
    requires n <= |steps| && Run(states, inputs, steps)
  {
    Stands(SwappedShut(states, inputs, steps), Swapped(states, inputs, steps), n)
  }

  lemma HeldExtends(states: seq<Session>, inputs: seq<Input>, steps: seq<Step>, n: nat)
    requires n < |steps| && Run(states, inputs, steps)
    ensures GuardHeld(states, inputs, steps, n + 1)
            <==> || Records(states[n].Shown(), inputs[n].bearer, StepNews(states[n], inputs[n], steps[n]))
                 || (GuardHeld(states, inputs, steps, n) && !Opens(states[n], inputs[n], steps[n]))
  {
    StandsExtends(Recorded(states, inputs, steps), Opened(states, inputs, steps), n);
  }

  lemma ShutExtends(states: seq<Session>, inputs: seq<Input>, steps: seq<Step>, n: nat)
    requires n < |steps| && Run(states, inputs, steps)
    ensures ShutOut(states, inputs, steps, n + 1)
            <==> if Arrives(states[n], steps[n]) then GuardHeld(states, inputs, steps, n)
                 else ShutOut(states, inputs, steps, n) && !Opens(states[n], inputs[n], steps[n])
  {
    StandsExtends(CameLate(states, inputs, steps), Renewed(states, inputs, steps), n);
  }

  lemma SwappedExtends(states: seq<Session>, inputs: seq<Input>, steps: seq<Step>, n: nat)
    requires n < |steps| && Run(states, inputs, steps)
    ensures SwappedOutShut(states, inputs, steps, n + 1)
            <==> if Swaps(states[n], inputs[n], steps[n]) then ShutOut(states, inputs, steps, n)
                 else SwappedOutShut(states, inputs, steps, n)
  {
    StandsExtends(SwappedShut(states, inputs, steps), Swapped(states, inputs, steps), n);
  }

  /** On every run, played or not: the guard is set exactly if some countable update or end has
      crossed the threshold since the last selection or swap; and a listen is shut exactly if a late
      lookup has begun it in that time. */
  lemma {:induction false} GuardsOverEveryRun(states: seq<Session>, inputs: seq<Input>, steps: seq<Step>, n: nat)
    requires Run(states, inputs, steps) && n <= |steps| && Tidy(states[0])
    requires states[0].rec.playId.None? && states[0].rec.retiringId.None?
    ensures Tidy(states[n])
    ensures states[n].rec.playId.Some? <==> GuardHeld(states, inputs, steps, n)
    ensures Shut(states[n].rec) <==> ShutOut(states, inputs, steps, n)
    ensures ShutOwed(states[n].rec, states[n].world.log)
            <==> L.Owed(states[n].world.log).Some? && SwappedOutShut(states, inputs, steps, n)
    decreases n
  {
    if n == 0 {
    } else {
      var k := n - 1;
      GuardsOverEveryRun(states, inputs, steps, k);
      NextTold(states[k], inputs[k], steps[k]);
      HeldExtends(states, inputs, steps, k);
      ShutExtends(states, inputs, steps, k);
      SwappedExtends(states, inputs, steps, k);
    }
  }

  // ---- the end of a listen ----

  /** Without a standby, the end submits the shown track's listen exactly if that may count and is
      not shut. */
  lemma FallbackListenCounts(s: Session, posSec: real, bearer: bool)
    requires Names(s.rec.playId, s.Shown())
    ensures R.Submitted(Hear(s, D.Fallback(posSec), bearer).rec, s.rec.listen)
            <==> || R.Submitted(s.rec, s.rec.listen)
                 || (Countable(s.Shown()) && bearer && !Shut(s.rec))
  {
    RecordTells(s.rec, s.Shown(), posSec, true, bearer);
  }

  /** A natural handoff submits its listen exactly if the item may count, the listen was not shut
      when it was swapped out, and the guard does not name its track for the listen under way. */
  lemma HandedOffListenCounts(s: Session, n: D.Note, bearer: bool)
    requires Counted(s.rec, s.world.log) && n.Retired? && L.Matched(s.world.log + [n])
    ensures R.Submitted(Hear(s, n, bearer).rec, s.rec.owed)
            <==> || R.Submitted(s.rec, s.rec.owed)
                 || (!n.item.episode && bearer && s.rec.playId != Some(n.item.id) && !ShutOwed(s.rec, s.world.log))
  {
    L.Said(s.world.log, n);
    RetireKeeps(s.rec, n.item, n.posSec, n.reachedEnd, bearer, s.Shown(), s.world.log);
  }
}

/** What the store shows is what is heard, and the guard tells whether it has been submitted, on
    every run in which each selected track is played. */
module SessionTruth {
  import opened Rows
  import D = Deck
  import L = DeckLaws
  import P = PlayOrder
  import R = PlayRecords
  import opened PlayerSession
  import opened SessionLaws
  import opened SessionGuards

  /** The item started last, or the one restored at launch. */
  function Playing(s: Session): Option<D.Item> {
    if L.Started(s.world.log).Some? then L.Started(s.world.log) else s.restored
  }

  predicate Shows(shown: Option<D.Item>, heard: Option<D.Item>) {
    shown.Some? ==> heard.Some? && heard.value.id == shown.value.id
  }

  predicate SlotsQueued(w: D.World, queue: seq<D.Item>) {
    && (w.deck.preloaded.Some? ==> R.Queued(queue, w.deck.preloaded.value.item.id))
    && (w.deck.pendingPreload.Some? ==> R.Queued(queue, w.deck.pendingPreload.value.item.id))
  }

  /** While a deck is bound: the store shows the track heard or nothing, the armed and the parked
      slot are of queued tracks, and the guard is set if the listen has been submitted. */
  ghost predicate Truthful(s: Session) {
    || s.world.deck.destroyed
    || (&& Shows(s.Shown(), Playing(s)) && (s.queue == [] || SlotsQueued(s.world, s.queue))
        && Exact(s.rec, s.world.log))
  }

  /** The recorder's part: a submitted listen is guarded. */
  ghost predicate Exact(r: R.Recorder, log: seq<D.Note>) {
    Bounded(r, log) && (R.Submitted(r, r.listen) ==> r.playId.Some?)
  }

  lemma {:induction false} ExactNote(r: R.Recorder, n: D.Note, v: R.View, log: seq<D.Note>)
    requires Bounded(r, log) && (Exact(r, log) || n.Loaded?) && L.Matched(log + [n])
    ensures Exact(R.Handle(r, n, v), log + [n])
  {
    L.Said(log, n);
    var h := R.Handle(r, n, v);
    if R.Submitted(h, h.listen) {
      var i :| 0 <= i < |h.plays| && h.plays[i].listen == h.listen;
      if i < |r.plays| { assert r.plays[i] == h.plays[i]; }
    }
  }

  lemma {:induction false} ExactNotes(s: Session, notes: seq<D.Note>, bearer: bool, log: seq<D.Note>)
    requires Exact(s.rec, log) || (Bounded(s.rec, log) && notes != [] && notes[0].Loaded?)
    requires L.Matched(log + notes)
    ensures Exact(HearAll(s, notes, bearer).rec, log + notes)
    decreases |notes|
  {
    if notes == [] {
      assert log + notes == log;
    } else {
      var n, rest := notes[0], notes[1..];
      assert log + notes == (log + [n]) + rest;
      MatchedPrefix(log + [n], rest);
      ExactNote(s.rec, n, R.View(s.Shown(), bearer), log);
      ExactNotes(Hear(s, n, bearer), rest, bearer, log + [n]);
    }
  }

  lemma {:induction false} HearingFrame(s: Session, notes: seq<D.Note>, bearer: bool)
    ensures var h := HearAll(s, notes, bearer);
            h == s.(rec := h.rec, index := h.index) && (Quiet(notes) ==> h.index == s.index)
    decreases |notes|
  {
    if notes == [] {
    } else {
      assert forall k | 0 <= k < |notes[1..]| :: notes[1..][k] == notes[k + 1];
      HearingFrame(Hear(s, notes[0], bearer), notes[1..], bearer);
    }
  }

  lemma {:induction false} QuietStarts(log: seq<D.Note>, notes: seq<D.Note>)
    requires Quiet(notes)
    ensures L.Started(log + notes) == L.Started(log)
    decreases |notes|
  {
    if notes == [] {
      assert log + notes == log;
    } else {
      var front, n := notes[..|notes| - 1], notes[|notes| - 1];
      assert log + notes == (log + front) + [n];
      L.Said(log + front, n);
      QuietStarts(log, front);
    }
  }

  /** What a step's news does to the index and to what is heard. */
  lemma {:induction false} NewsMoves(s: Session, h: D.World, news: seq<D.Note>, bearer: bool)
    requires h.log == s.world.log + news && (news != [] ==> Quiet(news[1..]))
    ensures var t := HearAll(s.(world := h), news, bearer);
            && t.queue == s.queue
            && t.index == (if news != [] && news[0].Swapped?
                           then R.SwappedIndex(s.queue, news[0].slot.index, news[0].slot.item) else s.index)
            && L.Started(h.log) == if news == [] then L.Started(s.world.log)
                                   else if news[0].Loaded? then Some(news[0].item)
                                   else if news[0].Swapped? then Some(news[0].slot.item)
                                   else L.Started(s.world.log)
  {
    if news == [] {
      assert h.log == s.world.log;
    } else {
      var n, rest := news[0], news[1..];
      assert news == [n] + rest && h.log == (s.world.log + [n]) + rest;
      HearingFrame(Hear(s.(world := h), n, bearer), rest, bearer);
      QuietStarts(s.world.log + [n], rest);
      L.Said(s.world.log, n);
    }
  }

  /** The store as it stands before a `playNow` of the shown track. */
  ghost predicate Ready(s: Session, step: D.Step) {
    step.DoPlayNow? && s.Shown().Some? && s.Shown().value.id == step.item.id && Bounded(s.rec, s.world.log)
  }

  lemma {:induction false} ReportedTells(s: Session, h: D.World, step: D.Step, bearer: bool)
    requires L.Matched(h.log) && Reported(s.world, h, step) && !step.DoSyncPreload?
    requires !s.world.deck.destroyed && (!step.DoPlayNow? ==> Truthful(s))
    requires step.DoPlayNow? ==>
      Ready(s, step) && News(s.world, h) != [] && News(s.world, h)[0] == D.Loaded(step.item)
    ensures Truthful(HearAll(s.(world := h), News(s.world, h), bearer))
  {
    var w, news := s.world, News(s.world, h);
    assert h.log == w.log + news;
    if news != [] { TailIsQuiet(w, step, news); }
    HearingFrame(s.(world := h), news, bearer);
    NewsMoves(s, h, news, bearer);
    ExactNotes(s.(world := h), news, bearer, w.log);
    if news != [] && news[0].Swapped? {
      R.SwapShowsItemIffQueued(s.queue, news[0].slot.index, news[0].slot.item);
    }
  }

  lemma {:induction false} ActTells(s: Session, i: Input, step: D.Step)
    requires L.Inv(s.world) && D.Enabled(s.world, step) && !step.DoSyncPreload?
    requires if step.DoPlayNow? then s.world.deck.destroyed || Ready(s, step) else Truthful(s)
    ensures Truthful(Act(s, i, step)) && L.Inv(Act(s, i, step).world)
  {
    var w, h := s.world, D.Next(s.world, i.env, step);
    L.NextKeeps(w, i.env, step);
    StepReports(w, i.env, step);
    HearingFrame(s.(world := h), News(w, h), i.bearer);
    if !w.deck.destroyed {
      if step.DoPlayNow? { PlayNowReports(w, i.env, step); }
      ReportedTells(s, h, step, i.bearer);
    }
  }

  lemma SyncTells(s: Session, i: Input, item: Option<D.Item>, k: int, url: Option<string>)
    requires L.Inv(s.world) && Truthful(s) && (item.Some? ==> R.Queued(s.queue, item.value.id))
    ensures Truthful(Act(s, i, D.DoSyncPreload(item, k, url))) && L.Inv(Act(s, i, D.DoSyncPreload(item, k, url)).world)
  {
    var w, h := s.world, D.SyncPreload(s.world, item, k, url);
    L.NextKeeps(w, i.env, D.DoSyncPreload(item, k, url));
    assert h.log == w.log && News(w, h) == [];
  }

  lemma RearmTells(s: Session, i: Input)
    requires L.Inv(s.world) && Truthful(s)
    ensures Truthful(Rearm(s, i)) && L.Inv(Rearm(s, i).world)
  {
    SyncTells(s, i, None, -1, None);
  }

  lemma ToggleTells(s: Session, i: Input, picks: seq<nat>)
    requires L.Inv(s.world) && Truthful(s) && Enabled(s, ToggleShuffle(picks))
    ensures var h := Next(s, i, ToggleShuffle(picks)); Truthful(h) && L.Inv(h.world)
  {
    var h := Toggle(s, picks);
    ToggledQueue(s, picks);
    forall id ensures R.Queued(s.queue, id) <==> R.Queued(h.queue, id) { PermutedQueue(s.queue, h.queue, id); }
    RearmTells(h, i);
  }

  lemma LoadTells(s: Session, i: Input, index: int, url: string, fadeSec: real)
    requires L.Inv(s.world) && Bounded(s.rec, s.world.log) && (!CanLoad(s, index) ==> Truthful(s))
    ensures var h := Load(s, i, index, url, fadeSec); Truthful(h) && L.Inv(h.world)
  {
    if CanLoad(s, index) {
      ActTells(Select(s, index), i, D.DoPlayNow(s.queue[index], index, url, fadeSec));
    }
  }

  lemma QueueTells(s: Session, i: Input, tracks: seq<D.Item>, start: int, picks: seq<nat>, url: string)
    requires L.Inv(s.world) && Truthful(s) && Enabled(s, PlayQueue(tracks, start, picks, url))
    ensures var h := Next(s, i, PlayQueue(tracks, start, picks, url)); Truthful(h) && L.Inv(h.world)
  {
    var s1 := Replace(s, tracks, start, picks);
    P.ShuffleKeepsTracks(tracks, s.shuffle, start, picks);
    assert |multiset(s1.queue)| == |s1.queue| && |multiset(tracks)| == |tracks|;
    if !s.world.deck.destroyed {
      LoadTells(s1, i, P.PlayIndex(s.shuffle, start, |tracks|), url, 0.0);
    }
  }

  lemma ClearTells(s: Session, i: Input)
    requires L.Inv(s.world) && Truthful(s)
    ensures Truthful(Next(s, i, ClearQueue)) && L.Inv(Next(s, i, ClearQueue).world)
  {
    if !s.world.deck.destroyed {
      var s1 := Act(s, i, D.DoReset);
      ActTells(s, i, D.DoReset);
      HearingFrame(s.(world := D.Reset(s.world)), News(s.world, D.Reset(s.world)), i.bearer);
    }
  }

  /** Every step that plays what it selects keeps the store truthful. */
  lemma NextTells(s: Session, i: Input, step: Step)
    requires L.Inv(s.world) && Truthful(s) && Enabled(s, step) && !Separates(step)
    ensures Truthful(Next(s, i, step)) && L.Inv(Next(s, i, step).world)
  {
    match step
    case Happens(e) => ActTells(s, i, e);
    case LoadNow(index, url, fadeSec) => if !s.world.deck.destroyed { LoadTells(s, i, index, url, fadeSec); }
    case LookupDone(l, url) =>
      var s0 := s.(lookups := s.lookups - multiset{l});
      if s.Shown().Some? && s.Shown().value.id == l.item.id {
        ActTells(s0, i, D.DoPlayNow(l.item, l.index, url, l.fadeSec));
      }
    case PlayQueue(tracks, start, picks, url) => QueueTells(s, i, tracks, start, picks, url);
    case ToggleShuffle(picks) => ToggleTells(s, i, picks);
    case CycleRepeat => RearmTells(s.(repeat := Cycled(s.repeat)), i);
    case ClearQueue => ClearTells(s, i);
    case Arm(item, n, url) =>
      assert R.Queued(s.queue, item.id);
      SyncTells(s, i, Some(item), n, Some(url));
    case Disarm => SyncTells(s, i, None, -1, None);
  }

  /** Without separate selections no lookup is ever late. */
  lemma {:induction false} NothingArrives(states: seq<Session>, inputs: seq<Input>, steps: seq<Step>, n: nat)
    requires Run(states, inputs, steps) && n <= |steps| && states[0].lookups == multiset{}
    requires forall k | 0 <= k < |steps| :: !Separates(steps[k])
    ensures states[n].lookups == multiset{}
    ensures forall k | 0 <= k < n :: !Arrives(states[k], steps[k])
    decreases n
  {
    if n == 0 {
    } else {
      NothingArrives(states, inputs, steps, n - 1);
      LookupsStay(states[n - 1], inputs[n - 1], steps[n - 1]);
    }
  }

  lemma ActKeepsLookups(s: Session, i: Input, step: D.Step)
    requires D.Enabled(s.world, step)
    ensures Act(s, i, step).lookups == s.lookups
  {
    var h := D.Next(s.world, i.env, step);
    HearingFrame(s.(world := h), News(s.world, h), i.bearer);
  }

  lemma LookupsStay(s: Session, i: Input, step: Step)
    requires Enabled(s, step) && !Separates(step) && s.lookups == multiset{}
    ensures Next(s, i, step).lookups == multiset{}
  {
    forall t: Session, e | D.Enabled(t.world, e) ensures Act(t, i, e).lookups == t.lookups {
      ActKeepsLookups(t, i, e);
    }
  }

  /** On every run in which each selected track is played, the store shows the track that is heard,
      or nothing; what is armed or parked is in the queue, unless that has been emptied; and the
      guard is set exactly when the present listen has been submitted. */
  lemma {:induction false} StoreShowsWhatIsHeard(states: seq<Session>, inputs: seq<Input>, steps: seq<Step>,
                                                 queue: seq<D.Item>, index: int, shuffle: bool, repeat: P.Repeat,
                                                 el: D.El)
    requires Run(states, inputs, steps) && states[0] == Launch(queue, index, shuffle, repeat, el)
    requires forall k | 0 <= k < |steps| :: !Separates(steps[k])
    ensures var s := states[|steps|];
            && Truthful(s) && L.Inv(s.world)
            && (!s.world.deck.destroyed ==> (s.rec.playId.Some? <==> R.Submitted(s.rec, s.rec.listen)))
  {
    LaunchIsSound(queue, index, shuffle, repeat, el);
    TruthfulRun(states, inputs, steps, |steps|);
    NothingArrives(states, inputs, steps, |steps|);
    GuardsOverEveryRun(states, inputs, steps, |steps|);
  }

  lemma {:induction false} TruthfulRun(states: seq<Session>, inputs: seq<Input>, steps: seq<Step>, n: nat)
    requires Run(states, inputs, steps) && n <= |steps| && Truthful(states[0]) && L.Inv(states[0].world)
    requires forall k | 0 <= k < |steps| :: !Separates(steps[k])
    ensures Truthful(states[n]) && L.Inv(states[n].world)
    decreases n
  {
    if n == 0 {
    } else {
      TruthfulRun(states, inputs, steps, n - 1);
      NextTells(states[n - 1], inputs[n - 1], steps[n - 1]);
    }
  }
}

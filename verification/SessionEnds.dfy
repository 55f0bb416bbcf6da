/** Which listens reach the play history: at their end, on every run, and after a late lookup, on
    every run from there on. */
module SessionEnds {
  import opened Rows
  import D = Deck
  import L = DeckLaws
  import P = PlayOrder
  import R = PlayRecords
  import opened PlayerSession
  import opened SessionLaws
  import opened SessionGuards
  import opened SessionLimits

  // ---- the end of a listen, over whole runs ----

  /** On every run from launch, a listen that ends without a standby has then been submitted, exactly
      if it was before, or the shown track and the session count and no late lookup shut it out. */
  lemma FallbackOnEveryRun(states: seq<Session>, inputs: seq<Input>, steps: seq<Step>,
                           queue: seq<D.Item>, index: int, shuffle: bool, repeat: P.Repeat, el: D.El,
                           i: Input, e: D.Step, posSec: real)
    requires Run(states, inputs, steps) && states[0] == Launch(queue, index, shuffle, repeat, el)
    requires Enabled(states[|steps|], Happens(e))
    requires StepNews(states[|steps|], i, Happens(e)) == [D.Fallback(posSec)]
    ensures var s, t := states[|steps|], Next(states[|steps|], i, Happens(e));
            R.Submitted(t.rec, s.rec.listen)
            <==> || R.Submitted(s.rec, s.rec.listen)
                 || (Countable(s.Shown()) && i.bearer && !ShutOut(states, inputs, steps, |steps|))
  {
    var s := states[|steps|];
    LaunchIsSound(queue, index, shuffle, repeat, el);
    GuardsOverEveryRun(states, inputs, steps, |steps|);
    var h := D.Next(s.world, i.env, e);
    ActTold(s, i, e);
    NewsOfStep(s.world, i.env, e);
    HearOne(s.(world := h), D.Fallback(posSec), i.bearer);
    FallbackListenCounts(s, posSec, i.bearer);
  }

  /** The step's last callback reports the natural end of a listen. */
  predicate Retires(news: seq<D.Note>) { news != [] && news[|news| - 1].Retired? }

  /** The listen whose end has been reported is submitted by then, exactly if it was before, or its
      item and the session count, it was not shut out when it was swapped out (`shut`), and the guard
      does not name its track for the listen under way. */
  ghost predicate EndCounts(s: Session, t: Session, item: D.Item, bearer: bool, shut: bool) {
    R.Submitted(t.rec, t.rec.owed)
    <==> || R.Submitted(s.rec, t.rec.owed)
         || (!item.episode && bearer && t.rec.playId != Some(item.id) && !shut)
  }

  lemma RetiredEnds(s: Session, h: D.World, n: D.Note, bearer: bool)
    requires Counted(s.rec, s.world.log) && n.Retired? && L.Matched(s.world.log + [n])
    ensures EndCounts(s, Hear(s.(world := h), n, bearer), n.item, bearer, ShutOwed(s.rec, s.world.log))
  {
    L.Said(s.world.log, n);
    HandedOffListenCounts(s, n, bearer);
  }

  /** The same after a load or a swap in the same step. */
  lemma SecondEnds(s: Session, h: D.World, a: D.Note, b: D.Note, bearer: bool)
    requires Bounded(s.rec, s.world.log) && (a.Swapped? || a.Loaded?) && b.Retired?
    requires Counted(Hear(s, a, bearer).rec, s.world.log + [a]) && L.Matched(s.world.log + [a, b])
    ensures EndCounts(s, Hear(Hear(s.(world := h), a, bearer), b, bearer), b.item, bearer,
                      if a.Swapped? then Shut(s.rec) else ShutOwed(s.rec, s.world.log))
  {
    var log := s.world.log;
    assert log + [a, b] == (log + [a]) + [b];
    L.Said(log + [a], b);
    if a.Swapped? { SwappedTells(s, h, a, bearer); } else { LoadedTells(s, h, a, bearer); }
    var s1 := Hear(s.(world := h), a, bearer);
    assert s1.rec == Hear(s, a, bearer).rec;
    HandedOffListenCounts(s1.(world := h.(log := log + [a])), b, bearer);
    assert forall l :: R.Submitted(s1.rec, l) <==> R.Submitted(s.rec, l);
  }

  /** A swap keeps what the guards owe the retirement it brings. */
  lemma SwapCounted(s: Session, n: D.Note, bearer: bool)
    requires Inv(s) && !s.world.deck.destroyed && n.Swapped? && s.world.deck.preloaded == Some(n.slot)
    requires L.Matched(s.world.log + [n])
    ensures Counted(Hear(s, n, bearer).rec, s.world.log + [n])
  {
    L.Said(s.world.log, n);
    SlotShows(s.queue, s.index, n.slot.item, n.slot.index);
    SwapKeeps(s.rec, s.Shown(), Hear(s, n, bearer).Shown(), n.from, n.slot, s.world.log);
  }

  lemma LoadCounted(s: Session, n: D.Note, bearer: bool)
    requires Counted(s.rec, s.world.log) && n.Loaded?
    ensures Counted(Hear(s, n, bearer).rec, s.world.log + [n])
  {
    L.Said(s.world.log, n);
    var h := s.rec.(listen := s.rec.listen + 1);
    assert forall l :: R.Submitted(h, l) <==> R.Submitted(s.rec, l);
  }

  lemma {:induction false} NewsEnds(s: Session, h: D.World, news: seq<D.Note>, e: D.Step, bearer: bool)
    requires Sound(s) && Bounded(s.rec, s.world.log) && h.log == s.world.log + news && L.Matched(h.log)
    requires Brief(news) && Heralded(s.world, e, news) && Retires(news) && (BeginsWithSwap(news) ==> Safe(s))
    ensures EndCounts(s, HearAll(s.(world := h), news, bearer), news[|news| - 1].item, bearer,
                      if BeginsWithSwap(news) then Shut(s.rec) else ShutOwed(s.rec, s.world.log))
    ensures !BeginsWithSwap(news) ==> L.Owed(s.world.log).Some?
  {
    var log := s.world.log;
    if |news| == 1 {
      var n := news[0];
      assert news == [n];
      L.Said(log, n);
      RetiredEnds(s, h, n, bearer);
      HearOne(s.(world := h), n, bearer);
    } else {
      var a, b := news[0], news[1];
      assert news == [a, b] && log + news == (log + [a]) + [b];
      MatchedPrefix(log + [a], [b]);
      L.Said(log, a);
      L.Said(log + [a], b);
      if a.Swapped? { SwapCounted(s, a, bearer); } else { LoadCounted(s, a, bearer); }
      SecondEnds(s, h, a, b, bearer);
      HearTwo(s.(world := h), a, b, bearer);
    }
  }

  /** One step of the deck whose news ends in a retirement. */
  lemma {:induction false} ActEnds(s: Session, i: Input, e: D.Step, h: D.World, news: seq<D.Note>)
    requires Sound(s) && Bounded(s.rec, s.world.log) && D.Enabled(s.world, e)
    requires h == D.Next(s.world, i.env, e) && news == News(s.world, h)
    requires Retires(news) && (BeginsWithSwap(news) ==> Safe(s))
    ensures EndCounts(s, HearAll(s.(world := h), news, i.bearer), news[|news| - 1].item, i.bearer,
                      if BeginsWithSwap(news) then Shut(s.rec) else ShutOwed(s.rec, s.world.log))
    ensures !BeginsWithSwap(news) ==> L.Owed(s.world.log).Some?
  {
    NewsOfStep(s.world, i.env, e);
    NewsEnds(s, h, news, e, i.bearer);
  }

  ghost predicate StepEnds(s: Session, i: Input, step: Step)
    requires Enabled(s, step) && Retires(StepNews(s, i, step))
  {
    var news := StepNews(s, i, step);
    && EndCounts(s, Next(s, i, step), news[|news| - 1].item, i.bearer,
                 if BeginsWithSwap(news) then Shut(s.rec) else ShutOwed(s.rec, s.world.log))
    && (!BeginsWithSwap(news) ==> L.Owed(s.world.log).Some?)
  }

  lemma EndsIsStep(s: Session, i: Input, step: Step, t: Session, news: seq<D.Note>)
    requires Enabled(s, step) && t == Next(s, i, step) && news == StepNews(s, i, step) && Retires(news)
    requires EndCounts(s, t, news[|news| - 1].item, i.bearer,
                       if BeginsWithSwap(news) then Shut(s.rec) else ShutOwed(s.rec, s.world.log))
    requires !BeginsWithSwap(news) ==> L.Owed(s.world.log).Some?
    ensures StepEnds(s, i, step)
  {
  }

  lemma ActEndsStep(s: Session, i: Input, step: Step, e: D.Step)
    requires Inv(s) && Tidy(s) && Enabled(s, step) && D.Enabled(s.world, e)
    requires Next(s, i, step) == Act(s, i, e) && Retires(StepNews(s, i, step))
    ensures StepEnds(s, i, step)
  {
    var h := D.Next(s.world, i.env, e);
    var news := News(s.world, h);
    WorldStays(s.(world := h), news, i.bearer);
    NewsOfStep(s.world, i.env, e);
    SwapsAlive(s.world, e, news);
    ActEnds(s, i, e, h, news);
    EndsIsStep(s, i, step, HearAll(s.(world := h), news, i.bearer), news);
  }

  lemma SwapsAlive(w: D.World, e: D.Step, news: seq<D.Note>)
    requires Heralded(w, e, news)
    ensures BeginsWithSwap(news) ==> !w.deck.destroyed
  {
  }

  /** A `playNow`, after its selection or late. */
  lemma PlayEndsStep(s: Session, i: Input, step: Step, s2: Session, e: D.Step)
    requires Inv(s) && Tidy(s) && Enabled(s, step) && e.DoPlayNow?
    requires s2.world == s.world && s2.rec == s.rec.(playId := s2.rec.playId)
    requires Next(s, i, step) == Act(s2, i, e) && Retires(StepNews(s, i, step))
    ensures StepEnds(s, i, step)
  {
    var h := D.Next(s.world, i.env, e);
    WorldStays(s2.(world := h), News(s.world, h), i.bearer);
    PlayNowReports(s.world, i.env, e);
    NewsOfStep(s.world, i.env, e);
    PlayEnds(s, s2, h, News(s.world, h), e, i.bearer);
  }

  lemma {:induction false} PlayEnds(s: Session, s2: Session, h: D.World, news: seq<D.Note>, e: D.Step, bearer: bool)
    requires Inv(s) && Tidy(s) && s2.world == s.world && s2.rec == s.rec.(playId := s2.rec.playId)
    requires h.log == s.world.log + news && L.Matched(h.log)
    requires Brief(news) && Heralded(s.world, e, news) && Retires(news) && !BeginsWithSwap(news)
    ensures EndCounts(s, HearAll(s2.(world := h), news, bearer), news[|news| - 1].item, bearer,
                      ShutOwed(s.rec, s.world.log))
    ensures L.Owed(s.world.log).Some?
  {
    assert forall l :: R.Submitted(s2.rec, l) <==> R.Submitted(s.rec, l);
    NewsEnds(s2, h, news, e, bearer);
  }

  lemma SyncSilent(s: Session, i: Input, item: Option<D.Item>, k: int, url: Option<string>)
    ensures Act(s, i, D.DoSyncPreload(item, k, url)).world.log == s.world.log
  {
    var h := D.SyncPreload(s.world, item, k, url);
    assert h.log == s.world.log && News(s.world, h) == [];
  }

  /** Every step whose last callback reports the end of a listen. */
  lemma EveryStepEnds(s: Session, i: Input, step: Step)
    requires Inv(s) && Tidy(s) && Enabled(s, step) && Retires(StepNews(s, i, step))
    ensures StepEnds(s, i, step)
  {
    match step
    case Happens(e) => ActEndsStep(s, i, step, e);
    case LoadNow(index, url, fadeSec) =>
      PlayEndsStep(s, i, step, Select(s, index), D.DoPlayNow(s.queue[index], index, url, fadeSec));
    case PlayQueue(tracks, start, picks, url) =>
      var s1, index := Replace(s, tracks, start, picks), P.PlayIndex(s.shuffle, start, |tracks|);
      PlayEndsStep(s, i, step, Select(s1, index), D.DoPlayNow(s1.queue[index], index, url, 0.0));
    case LookupDone(l, url) =>
      PlayEndsStep(s, i, step, s.(lookups := s.lookups - multiset{l}), D.DoPlayNow(l.item, l.index, url, l.fadeSec));
    case ToggleShuffle(picks) => SyncSilent(Toggle(s, picks), i, None, -1, None);
    case CycleRepeat => SyncSilent(s.(repeat := Cycled(s.repeat)), i, None, -1, None);
    case ClearQueue => if !s.world.deck.destroyed { ClearIs(s, i); }
    case Arm(item, n, url) => SyncSilent(s, i, Some(item), n, Some(url));
    case Disarm => SyncSilent(s, i, None, -1, None);
    case _ =>
  }

  /** On every run from launch, a listen whose natural end is reported has then been submitted,
      exactly if it was before, or its item and the session count, no late lookup had shut it out when
      it was swapped out, and the guard does not name its track for the listen under way. */
  lemma {:induction false} HandoffOnEveryRun(states: seq<Session>, inputs: seq<Input>, steps: seq<Step>,
                                             queue: seq<D.Item>, index: int, shuffle: bool, repeat: P.Repeat, el: D.El,
                                             i: Input, step: Step)
    requires Run(states, inputs, steps) && states[0] == Launch(queue, index, shuffle, repeat, el)
    requires forall k | 0 <= k < |steps| :: HarmlessStep(states[k], steps[k])
    requires Enabled(states[|steps|], step) && Retires(StepNews(states[|steps|], i, step))
    ensures var s, news := states[|steps|], StepNews(states[|steps|], i, step);
            EndCounts(s, Next(s, i, step), news[|news| - 1].item, i.bearer,
                      if BeginsWithSwap(news) then ShutOut(states, inputs, steps, |steps|)
                      else SwappedOutShut(states, inputs, steps, |steps|))
  {
    var s := states[|steps|];
    LaunchIsSound(queue, index, shuffle, repeat, el);
    RunKeepsInv(states, inputs, steps);
    GuardsOverEveryRun(states, inputs, steps, |steps|);
    EveryStepEnds(s, i, step);
  }
}

/** The deck's unstated invariants, kept by every step, and what follows for whole runs. */
module DeckLaws {
  import opened Rows
  import opened Deck

  // ---- the log of handoffs ----

  /** The item of a swap whose retirement has not been reported yet. */
  function Owed(log: seq<Note>): Option<Item> {
    if log == [] then None
    else
      match log[|log| - 1]
      case Swapped(from, _) => Some(from)
      case Retired(_, _, _) => None
      case Dropped => None
      case _ => Owed(log[..|log| - 1])
  }

  /** The item of the last load or swap. */
  function Started(log: seq<Note>): Option<Item> {
    if log == [] then None
    else
      match log[|log| - 1]
      case Loaded(item) => Some(item)
      case Swapped(_, slot) => Some(slot.item)
      case _ => Started(log[..|log| - 1])
  }

  /** Swaps and retirements alternate; a swap takes over from the item started last, and a
      retirement is that of the swap before it. */
  ghost predicate Matched(log: seq<Note>) {
    log == [] ||
    (var front := log[..|log| - 1];
     && Matched(front)
     && (log[|log| - 1].Swapped? ==> Owed(front).None? && Started(front) == Some(log[|log| - 1].from))
     && (log[|log| - 1].Retired? ==> Owed(front) == Some(log[|log| - 1].item)))
  }

  lemma {:induction false} Said(log: seq<Note>, n: Note)
    ensures Owed(log + [n]) == match n case Swapped(from, _) => Some(from)
                                       case Retired(_, _, _) => None
                                       case Dropped => None
                                       case _ => Owed(log)
    ensures Started(log + [n]) == match n case Loaded(item) => Some(item)
                                          case Swapped(_, slot) => Some(slot.item)
                                          case _ => Started(log)
    ensures Matched(log + [n]) <==> Matched(log) && (n.Swapped? ==> Owed(log).None? && Started(log) == Some(n.from))
                                    && (n.Retired? ==> Owed(log) == Some(n.item))
  {
    assert (log + [n])[..|log + [n]| - 1] == log;
  }

  // ---- invariants ----

  /** Who is who: the retiring element is the other one, never beside a preload; a parked preload
      waits for a retirement; a retirement always has its fade-out running, and no other element
      ever fades out. */
  ghost predicate Roles(w: World) {
    var d := w.deck;
    && (d.retiring.Some? ==> d.retiring.value.el == Other(d.active) && d.preloaded.None? && !d.destroyed
                             && w.ramps.Get(d.retiring.value.el) == Some(Ramp(false)))
    && (d.pendingPreload.Some? ==> d.retiring.Some?)
    && (w.ramps.a == Some(Ramp(false)) ==> d.retiring.Some? && d.retiring.value.el == A)
    && (w.ramps.b == Some(Ramp(false)) ==> d.retiring.Some? && d.retiring.value.el == B)
    && (d.preloaded.Some? ==> !d.destroyed)
    && (d.standbyReady && !d.destroyed ==> d.preloaded.Some?)
  }

  /** Slots are told apart by serial; a pending crossfade whose preload is still armed is about
      the present boundary. */
  ghost predicate Slots(w: World) {
    var d := w.deck;
    && (d.current.Some? ==> d.current.value.serial < d.nextSerial)
    && (d.preloaded.Some? ==> d.preloaded.value.serial < d.nextSerial)
    && (forall p | p in w.promises && p.CrossfadePlay? ::
          p.pre.serial < d.nextSerial
          && (d.preloaded == Some(p.pre) ==> d.current == Some(p.cur) && d.active == p.outEl))
  }

  /** Loudness: a preload is tuned in advance, and a sounding track carries its own gain. */
  ghost predicate Tuned(w: World) {
    var d := w.deck;
    && (d.preloaded.Some? ==> w.media.Get(Other(d.active)).tuned == Some(d.preloaded.value.item)
                              && w.media.Get(Other(d.active)).source.Some?)
    && (d.current.Some? && w.media.Get(d.active).source.Some?
        ==> w.media.Get(d.active).tuned == Some(d.current.value.item))
  }

  /** The log so far is well matched, owes just the notifying retirement, and never swapped in
      the slot that is armed now. */
  ghost predicate Logged(w: World) {
    var d := w.deck;
    && Matched(w.log)
    && Owed(w.log) == (if d.retiring.Some? && d.retiring.value.notify then Some(d.retiring.value.item) else None)
    && (forall i | 0 <= i < |w.log| && w.log[i].Swapped? ::
          w.log[i].slot.serial < d.nextSerial
          && (d.preloaded.Some? ==> w.log[i].slot.serial != d.preloaded.value.serial))
    && (forall i, j | 0 <= i < j < |w.log| && w.log[i].Swapped? && w.log[j].Swapped? ::
          w.log[i].slot.serial != w.log[j].slot.serial)
  }

  ghost predicate Core(w: World) {
    Roles(w) && Slots(w) && Tuned(w) && Logged(w)
  }

  /** The current item is the one the log started last; only inside `playNow` is this late. */
  ghost predicate InStep(w: World) {
    Started(w.log) == if w.deck.current.Some? then Some(w.deck.current.value.item) else None
  }

  ghost predicate Inv(w: World) {
    Core(w) && InStep(w)
  }

  /** Nothing the deck tells the active element changes; it stays active, with the same item. */
  ghost predicate ActiveAlone(w: World, h: World) {
    && h.deck.active == w.deck.active && h.media.Get(w.deck.active) == w.media.Get(w.deck.active)
    && h.deck.current == w.deck.current
  }

  ghost predicate SameActive(w: World, h: World) {
    ActiveAlone(w, h) && Started(h.log) == Started(w.log)
  }

  lemma SyncPreloadKeeps(w: World, item: Option<Item>, index: int, url: Option<string>)
    requires Core(w)
    ensures Core(SyncPreload(w, item, index, url)) && SameActive(w, SyncPreload(w, item, index, url))
    ensures SyncPreload(w, item, index, url).deck.retiring == w.deck.retiring
  {
  }

  /** `w` after the retiring element is silenced and reported. */
  function Retire(w: World, env: Env): World
    requires w.deck.retiring.Some?
  {
    var r := w.deck.retiring.value;
    var c := env.clocks.Get(r.el);
    var w1 := SetFade(Playing(CancelRamp(w.(deck := w.deck.(retiring := None)), r.el), r.el, false), r.el, Silent);
    if r.notify then Say(w1, Retired(r.item, c.time, c.ReachedEnd())) else w1
  }

  lemma RetireKeeps(w: World, env: Env)
    requires Core(w) && w.deck.retiring.Some?
    ensures Core(Retire(w, env).(deck := Retire(w, env).deck.(pendingPreload := None)))
    ensures SameActive(w, Retire(w, env))
  {
    var r := w.deck.retiring.value;
    Said(w.log, Retired(r.item, env.clocks.Get(r.el).time, env.clocks.Get(r.el).ReachedEnd()));
  }

  lemma FinalizeKeeps(w: World, env: Env, el: El)
    requires Core(w)
    ensures Core(Finalize(w, env, el)) && SameActive(w, Finalize(w, env, el))
    ensures w.deck.retiring.Some? && w.deck.retiring.value.el == el ==> Finalize(w, env, el).deck.retiring.None?
  {
    if w.deck.retiring.Some? && w.deck.retiring.value.el == el {
      RetireKeeps(w, env);
      var w1 := Retire(w, env);
      if w1.deck.pendingPreload.Some? {
        var p := w1.deck.pendingPreload.value;
        SyncPreloadKeeps(w1.(deck := w1.deck.(pendingPreload := None)), Some(p.item), p.index, Some(p.url));
      }
    }
  }

  lemma FinalizeNowKeeps(w: World, env: Env)
    requires Core(w)
    ensures var h := FinalizeNow(w, env);
            && Core(h) && SameActive(w, h) && h.deck.retiring.None?
            && (w.deck.pendingPreload.None? && w.deck.preloaded.None? ==>
                  h.deck.preloaded.None? && h.promises == w.promises && h.deck.destroyed == w.deck.destroyed)
  {
    if w.deck.retiring.Some? { FinalizeKeeps(w, env, w.deck.retiring.value.el); }
  }

  lemma CutToKeeps(w: World, env: Env, item: Item, index: int, url: string)
    requires Core(w) && w.deck.preloaded.None? && w.deck.pendingPreload.None? && Started(w.log) == Some(item)
    ensures Inv(CutTo(w, env, item, index, url))
  {
    FinalizeNowKeeps(w, env);
    var w1 := CancelRamp(FinalizeNow(w, env), w.deck.active);
    assert Core(w1);
  }

  lemma FadeToKeeps(w: World, env: Env, item: Item, index: int, url: string, fadeSec: real)
    requires Core(w) && w.deck.preloaded.None? && w.deck.pendingPreload.None? && Started(w.log) == Some(item)
    requires w.deck.current.Some? && !w.deck.destroyed
    ensures Inv(FadeTo(w, env, item, index, url, fadeSec))
  {
    FinalizeNowKeeps(w, env);
    var w1 := CancelRamp(FinalizeNow(w, env), Other(w.deck.active));
    assert Core(w1);
  }

  lemma PlayNowKeeps(w: World, env: Env, item: Item, index: int, url: string, fadeSec: real)
    requires Inv(w)
    ensures Inv(PlayNow(w, env, item, index, url, fadeSec))
  {
    if !w.deck.destroyed {
      Said(w.log, Loaded(item));
      var w1 := Unarm(Say(w, Loaded(item)));
      assert Core(w1);
      if CanFade(w, env, item, fadeSec) {
        FadeToKeeps(w1, env, item, index, url, Min(fadeSec, MANUAL_FADE_MAX_SEC));
      } else {
        CutToKeeps(w1, env, item, index, url);
      }
    }
  }

  /** The requested track becomes current and plays from its source on the active element, with
      nothing preloaded or parked. */
  lemma PlayNowStarts(w: World, env: Env, item: Item, index: int, url: string, fadeSec: real)
    requires Inv(w)
    ensures var h := PlayNow(w, env, item, index, url, fadeSec);
            if w.deck.destroyed then h == w
            else
              && h.deck.current.Some? && h.deck.current.value.item == item && h.deck.current.value.index == index
              && h.media.Get(h.deck.active).source == Some(url) && h.media.Get(h.deck.active).playing
              && h.deck.preloaded.None? && h.deck.pendingPreload.None?
  {
    var w1 := Unarm(Say(w, Loaded(item)));
    if w1.deck.retiring.Some? { assert FinalizeNow(w1, env) == Retire(w1, env); }
  }

  lemma PauseKeeps(w: World, env: Env)
    requires Inv(w)
    ensures Inv(PauseDeck(w, env))
  {
    FinalizeNowKeeps(w, env);
  }

  lemma ResumeKeeps(w: World)
    requires Inv(w)
    ensures Inv(Resume(w))
  {
  }

  lemma ResetKeeps(w: World)
    requires Inv(w)
    ensures Inv(Reset(w))
  {
    Said(w.log, Dropped);
  }

  lemma DestroyKeeps(w: World)
    requires Inv(w)
    ensures Inv(Destroy(w))
  {
    Said(w.log, Dropped);
  }

  lemma GaplessSwapLogs(w: World, env: Env, cur: Slot, pre: Slot)
    requires Inv(w) && w.deck.current == Some(cur) && w.deck.preloaded == Some(pre)
    ensures Logged(GaplessSwap(w, env, cur, pre)) && Started(GaplessSwap(w, env, cur, pre).log) == Some(pre.item)
  {
    var c := env.clocks.Get(w.deck.active);
    var last := Retired(cur.item, if c.Seconds() != 0.0 then c.Seconds() else c.time, true);
    Said(w.log, Swapped(cur.item, pre));
    Said(w.log + [Swapped(cur.item, pre)], last);
    assert GaplessSwap(w, env, cur, pre).log == w.log + [Swapped(cur.item, pre)] + [last];
  }

  lemma GaplessSwapKeeps(w: World, env: Env, cur: Slot, pre: Slot)
    requires Inv(w) && w.deck.current == Some(cur) && w.deck.preloaded == Some(pre)
    ensures Inv(GaplessSwap(w, env, cur, pre))
  {
    assert Roles(GaplessSwap(w, env, cur, pre));
    assert Slots(GaplessSwap(w, env, cur, pre));
    assert Tuned(GaplessSwap(w, env, cur, pre));
    GaplessSwapLogs(w, env, cur, pre);
  }

  lemma StartCrossfadeKeeps(w: World, cur: Slot, pre: Slot, fadeSec: real)
    requires Inv(w) && w.deck.current == Some(cur) && w.deck.preloaded == Some(pre)
    ensures Inv(StartCrossfade(w, cur, pre, fadeSec))
  {
  }

  lemma CrossfadeStartedKeeps(w: World, env: Env, p: Promise)
    requires Inv(w) && p.CrossfadePlay?
    requires Inv(w.(promises := w.promises + multiset{p}))
    ensures Inv(CrossfadeStarted(w, env, p))
  {
    if !w.deck.destroyed && w.deck.preloaded == Some(p.pre) && w.deck.active == p.outEl {
      assert p in w.promises + multiset{p};
      assert FinalizeNow(w, env) == w;
      Said(w.log, Swapped(p.cur.item, p.pre));
    }
  }

  lemma TimeKeeps(w: World, env: Env, el: El)
    requires Inv(w)
    ensures Inv(OnTime(w, env, el))
  {
    if el == w.deck.active {
      var c := env.clocks.Get(el);
      Said(w.log, TimeAt(c.time, c.Seconds()));
      var w1 := Say(w, TimeAt(c.time, c.Seconds()));
      assert Inv(w1);
      var fade := CrossfadeNow(w1, env);
      if fade.Some? { StartCrossfadeKeeps(w1, w1.deck.current.value, w1.deck.preloaded.value, fade.value); }
    }
  }

  lemma EndedKeeps(w: World, env: Env, el: El)
    requires Inv(w)
    ensures Inv(OnEnded(w, env, el))
  {
    if el != w.deck.active {
      FinalizeKeeps(w, env, el);
    } else if w.deck.current.Some? && w.deck.preloaded.Some? && StandbyReady(w, env) && env.prefs.gapless {
      GaplessSwapKeeps(w, env, w.deck.current.value, w.deck.preloaded.value);
    } else {
      Said(w.log, Fallback(env.clocks.Get(el).time));
    }
  }

  lemma ErrorKeeps(w: World, env: Env, el: El)
    requires Inv(w)
    ensures Inv(OnError(w, env, el))
  {
    if el == w.deck.active {
      Said(w.log, ActiveError);
    } else if w.deck.retiring.Some? && w.deck.retiring.value.el == el {
      FinalizeKeeps(w, env, el);
    } else {
      SyncPreloadKeeps(w, None, -1, None);
    }
  }

  /** A finishing tick clears its ramp before it retires the element; that makes no difference. */
  lemma TickKeeps(w: World, env: Env, el: El, t: real)
    requires Inv(w) && w.ramps.Get(el).Some?
    ensures Inv(OnTick(w, env, el, t))
    ensures el != w.deck.active || !w.ramps.Get(el).value.rising ==> SameActive(w, OnTick(w, env, el, t))
  {
    if t >= 1.0 && !w.ramps.Get(el).value.rising {
      var w1 := SetFade(w, el, Falling(t));
      assert Inv(w1);
      FinalizeKeeps(w1, env, el);
      assert Finalize(CancelRamp(w1, el), env, el) == Finalize(w1, env, el);
    }
  }

  lemma PromiseKeeps(w: World, env: Env, p: Promise, ok: bool)
    requires Inv(w) && Inv(w.(promises := w.promises + multiset{p}))
    ensures Inv(OnPromise(w, env, p, ok))
  {
    match p
    case CutPlay(_) => if !ok { SayKeeps(w, PlayRejected); }
    case FadePlay(el, _) =>
      if !ok { SayKeeps(w, PlayRejected); }
      else if !w.deck.destroyed && w.deck.active == el { RiseKeeps(w); }
    case SwapPlay(_) => SayKeeps(w, Recover);
    case CrossfadePlay(_, _, _, _) => if ok { CrossfadeStartedKeeps(w, env, p); }
  }

  lemma SayKeeps(w: World, n: Note)
    requires Inv(w) && (n == PlayRejected || n == Recover || n == ActiveError)
    ensures Inv(Say(w, n))
  {
    Said(w.log, n);
  }

  lemma RiseKeeps(w: World)
    requires Inv(w)
    ensures Inv(StartRamp(w, w.deck.active, true))
  {
  }

  /** Every step, whatever the environment shows, keeps the deck's invariants. */
  lemma NextKeeps(w: World, env: Env, s: Step)
    requires Inv(w) && Enabled(w, s)
    ensures Inv(Next(w, env, s))
  {
    match s
    case DoPlayNow(item, index, url, fadeSec) => PlayNowKeeps(w, env, item, index, url, fadeSec);
    case DoSyncPreload(item, index, url) => SyncPreloadKeeps(w, item, index, url);
    case DoPause => PauseKeeps(w, env);
    case DoResume => ResumeKeeps(w);
    case DoReset => ResetKeeps(w);
    case DoDestroy => DestroyKeeps(w);
    case TimeUpdate(el) => TimeKeeps(w, env, el);
    case Ended(el) => EndedKeeps(w, env, el);
    case Failed(el) => ErrorKeeps(w, env, el);
    case CanPlay(el) =>
    case Tick(el, t) => TickKeeps(w, env, el, t);
    case Settled(p, ok) =>
      var w0 := w.(promises := w.promises - multiset{p});
      assert w0.promises + multiset{p} == w.promises;
      PromiseKeeps(w0, env, p, ok);
  }

  // ---- whole runs ----

  lemma {:induction false} RunKeepsInv(states: seq<World>, envs: seq<Env>, steps: seq<Step>, el: El)
    requires Run(states, envs, steps) && states[0] == Initial(el)
    ensures Inv(states[|steps|])
    decreases |steps|
  {
    if steps == [] {
    } else {
      var n := |steps| - 1;
      RunKeepsInv(states[..n + 1], envs[..n], steps[..n], el);
      assert states[..n + 1][n] == states[n];
      NextKeeps(states[n], envs[n], steps[n]);
    }
  }

  /** The deck invariant over every interleaving of store calls, element events, fade ticks and
      promise resolutions. */
  lemma RolesOverEveryRun(states: seq<World>, envs: seq<Env>, steps: seq<Step>, el: El)
    requires Run(states, envs, steps) && states[0] == Initial(el)
    ensures var w := states[|steps|];
            var d := w.deck;
            && (d.retiring.Some? ==> d.retiring.value.el != d.active && d.preloaded.None?)
            && (d.pendingPreload.Some? ==> d.retiring.Some?)
            && (forall e :: w.ramps.Get(e) == Some(Ramp(false)) <==> d.retiring.Some? && d.retiring.value.el == e)
            && (d.current.Some? && w.media.Get(d.active).source.Some?
                ==> w.media.Get(d.active).tuned == Some(d.current.value.item))
  {
    RunKeepsInv(states, envs, steps, el);
    var w := states[|steps|];
    forall e ensures w.ramps.Get(e) == Some(Ramp(false)) <==> w.deck.retiring.Some? && w.deck.retiring.value.el == e {
      assert e == A || e == B;
    }
  }

  // ---- conservation of handoffs ----

  function Swaps(log: seq<Note>): nat {
    if log == [] then 0 else Swaps(log[..|log| - 1]) + if log[|log| - 1].Swapped? then 1 else 0
  }

  function Retirements(log: seq<Note>): nat {
    if log == [] then 0 else Retirements(log[..|log| - 1]) + if log[|log| - 1].Retired? then 1 else 0
  }

  lemma {:induction false} MatchedCounts(log: seq<Note>)
    requires Matched(log) && Dropped !in log
    ensures Swaps(log) == Retirements(log) + if Owed(log).Some? then 1 else 0
  {
    if log == [] {
    } else {
      assert log[|log| - 1] in log;
      MatchedCounts(log[..|log| - 1]);
    }
  }

  lemma FinalizeDropsNothing(w: World, env: Env, el: El)
    requires Dropped !in w.log
    ensures Dropped !in Finalize(w, env, el).log
  {
  }

  lemma PlayDropsNothing(w: World, env: Env, item: Item, index: int, url: string, fadeSec: real)
    requires Dropped !in w.log
    ensures Dropped !in PlayNow(w, env, item, index, url, fadeSec).log
  {
    if !w.deck.destroyed {
      var w1 := Unarm(Say(w, Loaded(item)));
      if w1.deck.retiring.Some? { FinalizeDropsNothing(w1, env, w1.deck.retiring.value.el); }
      assert Dropped !in FinalizeNow(w1, env).log;
    }
  }

  lemma EndedDropsNothing(w: World, env: Env, el: El)
    requires Dropped !in w.log
    ensures Dropped !in OnEnded(w, env, el).log
  {
    FinalizeDropsNothing(w, env, el);
  }

  lemma TickDropsNothing(w: World, env: Env, el: El, t: real)
    requires w.ramps.Get(el).Some? && Dropped !in w.log
    ensures Dropped !in OnTick(w, env, el, t).log
  {
    FinalizeDropsNothing(CancelRamp(SetFade(w, el, Falling(t)), el), env, el);
  }

  lemma PromiseDropsNothing(w: World, env: Env, p: Promise, ok: bool)
    requires Dropped !in w.log
    ensures Dropped !in OnPromise(w, env, p, ok).log
  {
    if p.CrossfadePlay? && w.deck.retiring.Some? {
      FinalizeDropsNothing(w, env, w.deck.retiring.value.el);
    }
  }

  lemma StepDropsNothing(w: World, env: Env, s: Step)
    requires Enabled(w, s) && !s.DoReset? && !s.DoDestroy? && Dropped !in w.log
    ensures Dropped !in Next(w, env, s).log
  {
    match s
    case DoPlayNow(item, index, url, fadeSec) => PlayDropsNothing(w, env, item, index, url, fadeSec);
    case DoPause => if w.deck.retiring.Some? { FinalizeDropsNothing(w, env, w.deck.retiring.value.el); }
    case TimeUpdate(el) => assert TimeAt(env.clocks.Get(el).time, env.clocks.Get(el).Seconds()) != Dropped;
    case Ended(el) => EndedDropsNothing(w, env, el);
    case Failed(el) => FinalizeDropsNothing(w, env, el);
    case Tick(el, t) => TickDropsNothing(w, env, el, t);
    case Settled(p, ok) => PromiseDropsNothing(w.(promises := w.promises - multiset{p}), env, p, ok);
    case _ =>
  }

  lemma {:induction false} RunDropsNothing(states: seq<World>, envs: seq<Env>, steps: seq<Step>, el: El)
    requires Run(states, envs, steps) && states[0] == Initial(el)
    requires forall s | s in steps :: !s.DoReset? && !s.DoDestroy?
    ensures Dropped !in states[|steps|].log
    decreases |steps|
  {
    if steps == [] {
    } else {
      var n := |steps| - 1;
      RunDropsNothing(states[..n + 1], envs[..n], steps[..n], el);
      assert states[..n + 1][n] == states[n] && steps[n] in steps;
      StepDropsNothing(states[n], envs[n], steps[n]);
    }
  }

  /** On runs without reset or destroy, swaps exceed retirements by exactly one while a notifying
      retirement is outstanding and by none otherwise; and on every run each retirement reported
      is that of the swap announced last before it. */
  lemma HandoffsAreConserved(states: seq<World>, envs: seq<Env>, steps: seq<Step>, el: El)
    requires Run(states, envs, steps) && states[0] == Initial(el)
    ensures var w := states[|steps|];
            && Matched(w.log)
            && ((forall s | s in steps :: !s.DoReset? && !s.DoDestroy?) ==>
                  Swaps(w.log) == Retirements(w.log)
                                  + if w.deck.retiring.Some? && w.deck.retiring.value.notify then 1 else 0)
  {
    RunKeepsInv(states, envs, steps, el);
    if forall s | s in steps :: !s.DoReset? && !s.DoDestroy? {
      RunDropsNothing(states, envs, steps, el);
      MatchedCounts(states[|steps|].log);
    }
  }

  /** However play promises resolve, no slot is swapped in twice, and the slot armed now has not
      been swapped in before. */
  lemma SlotsSwapOnce(states: seq<World>, envs: seq<Env>, steps: seq<Step>, el: El)
    requires Run(states, envs, steps) && states[0] == Initial(el)
    ensures var log := states[|steps|].log;
            && (forall i, j | 0 <= i < j < |log| && log[i].Swapped? && log[j].Swapped? :: log[i].slot != log[j].slot)
            && (forall i | 0 <= i < |log| && log[i].Swapped? :: states[|steps|].deck.preloaded != Some(log[i].slot))
  {
    RunKeepsInv(states, envs, steps, el);
  }

  /** `ended` beats a pending crossfade: once its slot has been swapped in, the crossfade's own
      promise changes nothing but, at most, to stop the element that is not active. */
  lemma LateCrossfadeIsIdle(w: World, env: Env, p: Promise, i: nat)
    requires Inv(w) && p in w.promises && p.CrossfadePlay?
    requires i < |w.log| && w.log[i].Swapped? && w.log[i].slot == p.pre
    ensures var h := Next(w, env, Settled(p, true));
            && h.deck == w.deck && h.log == w.log && h.ramps == w.ramps
            && h.media.Get(w.deck.active) == w.media.Get(w.deck.active)
  {
  }

  // ---- the active element ----

  /** The steps that are meant to act on the active element: transport calls, its own natural end
      and fade-in, and a play promise that wins its handoff. */
  predicate ActsOnActive(w: World, env: Env, s: Step) {
    match s
    case DoPlayNow(_, _, _, _) => !w.deck.destroyed
    case DoPause => true
    case DoResume => true
    case DoReset => true
    case Ended(el) => el == w.deck.active && w.deck.current.Some? && StandbyReady(w, env) && env.prefs.gapless
    case Tick(el, _) => el == w.deck.active
    case Settled(p, ok) =>
      ok && !w.deck.destroyed && ((p.FadePlay? && p.el == w.deck.active)
                                  || (p.CrossfadePlay? && w.deck.preloaded == Some(p.pre)))
    case _ => false
  }

  /** Preloading, cleanup, late promises, errors and position updates never pause, mute, retune
      or reload the active element, nor change which element or item is active. */
  lemma OthersLeaveActiveAlone(w: World, env: Env, s: Step)
    requires Inv(w) && Enabled(w, s) && !ActsOnActive(w, env, s)
    ensures ActiveAlone(w, Next(w, env, s))
  {
    match s
    case DoSyncPreload(item, index, url) => SyncPreloadKeeps(w, item, index, url);
    case Ended(el) => if el != w.deck.active { FinalizeKeeps(w, env, el); }
    case Failed(el) => if el != w.deck.active { FinalizeKeeps(w, env, el); }
    case Tick(el, t) => TickKeeps(w, env, el, t);
    case Settled(p, ok) => LosingPromise(w.(promises := w.promises - multiset{p}), env, p, ok);
    case _ =>
  }

  lemma LosingPromise(w: World, env: Env, p: Promise, ok: bool)
    requires !(ok && !w.deck.destroyed && ((p.FadePlay? && p.el == w.deck.active)
                                           || (p.CrossfadePlay? && w.deck.preloaded == Some(p.pre))))
    ensures ActiveAlone(w, OnPromise(w, env, p, ok))
  {
  }

  lemma ParkedStaysSilent(w: World, el: El)
    requires el == Other(w.deck.active) && w.deck.retiring.None?
    requires !w.media.Get(el).playing && w.media.Get(el).fade == Silent
    ensures var h := ApplyParked(w);
            h.log == w.log && h.deck.retiring.None? && !h.media.Get(el).playing && h.media.Get(el).fade == Silent
  {
  }

  /** A retirement always ends: its fade-out timer is running, and a tick past the end silences
      and stops the element and reports a natural handoff, once. */
  lemma RetirementEnds(w: World, env: Env, t: real)
    requires Inv(w) && w.deck.retiring.Some? && t >= 1.0
    ensures var r := w.deck.retiring.value;
            var c := env.clocks.Get(r.el);
            var h := Next(w, env, Tick(r.el, t));
            && Enabled(w, Tick(r.el, t))
            && h.deck.retiring.None? && !h.media.Get(r.el).playing && h.media.Get(r.el).fade == Silent
            && h.log == w.log + if r.notify then [Retired(r.item, c.time, c.ReachedEnd())] else []
  {
    var r := w.deck.retiring.value;
    var w0 := CancelRamp(SetFade(w, r.el, Falling(t)), r.el);
    assert OnTick(w, env, r.el, t) == Finalize(w0, env, r.el) == ApplyParked(Retire(w0, env));
    ParkedStaysSilent(Retire(w0, env), r.el);
  }

  /** A preload parked during the fade is applied, as requested, to the element just freed. */
  lemma ParkedPreloadIsApplied(w: World, env: Env, el: El)
    requires Inv(w) && w.deck.retiring.Some? && w.deck.retiring.value.el == el && w.deck.pendingPreload.Some?
    ensures var p := w.deck.pendingPreload.value;
            var h := Finalize(w, env, el);
            && h.deck.preloaded.Some?
            && h.deck.preloaded.value.item == p.item && h.deck.preloaded.value.index == p.index
            && h.media.Get(el).source == Some(p.url) && h.media.Get(el).tuned == Some(p.item)
            && h.deck.pendingPreload.None?
  {
    RetireKeeps(w, env);
  }

  /** When a crossfade starts, exactly: it takes all that remains of the outgoing track, more
      than a tenth of a second, within the preferred length and half the track. */
  lemma CrossfadeWindow(w: World, env: Env)
    ensures var c := env.clocks.Get(w.deck.active);
            var fade := CrossfadeNow(w, env);
            && (fade.Some? ==>
                  && fade.value == c.Seconds() - c.time && fade.value > 0.1
                  && fade.value <= env.prefs.crossfadeSec && fade.value <= c.Seconds() / 2.0
                  && c.Seconds() >= MIN_TRACK_SEC_FOR_FADE && env.prefs.gapless && !env.ios && !c.paused)
            && (fade.Some? <==>
                  && !w.deck.handoffArmed && !c.paused && w.deck.current.Some? && StandbyReady(w, env)
                  && CrossfadeFor(env, w.deck.current.value.item, w.deck.preloaded.value.item, c)
                     >= c.Seconds() - c.time
                  && c.Seconds() - c.time > 0.1)
  {
  }
}

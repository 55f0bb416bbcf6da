/** What the equalizer switch promises over whole runs: the latest request wins, at most two
    banks are wired, stale timers are harmless, a failed attachment means Flat. */
module SwitchLaws {
  import opened Rows
  import opened EqualizerBank
  import opened GainAutomation
  import opened EqualizerSwitch

  /** The request of the last `Ask`, or the module's initial Flat request. */
  function LastAsked(steps: seq<Step>): Request {
    if steps == [] then FLAT_REQUEST
    else if steps[|steps| - 1].Ask? then steps[|steps| - 1].request
    else LastAsked(steps[..|steps| - 1])
  }

  lemma InitialInv(d: Device)
    ensures Inv(d, INITIAL)
  {
  }

  /** Only an `Ask` changes the desired request. */
  lemma NextDesired(d: Device, g: Graph, s: Step)
    requires Inv(d, g) && Enabled(g, s)
    ensures Next(d, g, s).desired == if s.Ask? then s.request else g.desired
  {
    match s
    case Tap(el, c, ok) => assert EnsureContext(d, g, c).desired == g.desired;
    case _ =>
  }

  lemma {:induction false} RunKeepsInv(d: Device, states: seq<Graph>, steps: seq<Step>)
    requires Run(d, states, steps) && states[0] == INITIAL
    ensures Inv(d, states[|steps|])
    ensures states[|steps|].desired == LastAsked(steps)
    decreases |steps|
  {
    if steps == [] {
      InitialInv(d);
    } else {
      var n := |steps| - 1;
      RunKeepsInv(d, states[..n + 1], steps[..n]);
      assert states[..n + 1][n] == states[n];
      NextKeeps(d, states[n], steps[n]);
      NextDesired(d, states[n], steps[n]);
    }
  }

  /** Latest wins, over every run: with the equalizer in force, what is parked, else coming in,
      else active carries the signature of the last request asked for; and once nothing is under
      way, the sounding plan is exactly the plan of that last request. */
  lemma {:induction false} LatestRequestWins(d: Device, states: seq<Graph>, steps: seq<Step>)
    requires Run(d, states, steps) && states[0] == INITIAL
    requires InForce(states[|steps|].taps)
    ensures var b := states[|steps|].banks;
            && b.active.Some?
            && AudioSignature(Target(b)) == AudioSignature(LastAsked(steps))
            && (b.transition.None? ==> b.pending.None? && b.active.value.plan == PlanFor(d, LastAsked(steps))
                                       && b.published == BankDiagnostics(b.active.value))
  {
    RunKeepsInv(d, states, steps);
    var g := states[|steps|];
    if g.banks.transition.None? {
      SignatureIsSound(d, g.banks.active.value.request, g.desired);
    }
  }

  lemma TwoKeys(m: map<nat, Param>, x: nat, y: nat)
    requires x != y && m.Keys == {x, y}
    ensures |m| == 2
  {
    assert |m| == |m.Keys|;
  }

  /** Wiring over every run: one bank at rest and at full gain, two during a switch, whose
      outgoing side is the active bank; a parked request implies a switch. */
  lemma AtMostTwoBanks(d: Device, states: seq<Graph>, steps: seq<Step>)
    requires Run(d, states, steps) && states[0] == INITIAL
    ensures var g := states[|steps|];
            var b := g.banks;
            && |b.wired| == (if b.transition.Some? then 2 else if b.active.Some? then 1 else 0)
            && (b.active.Some? ==> b.active.value.serial in b.wired)
            && (b.transition.Some? ==> b.active == Some(b.transition.value.outgoing)
                                       && b.transition.value.incoming.serial in b.wired)
            && (b.pending.Some? ==> b.transition.Some?)
            && (b.active.Some? && b.transition.None? ==> SteadyFrom(GainOf(b, b.active.value), 1.0, g.audio.now))
  {
    RunKeepsInv(d, states, steps);
    var b := states[|steps|].banks;
    if b.transition.Some? {
      var x, y := b.transition.value.outgoing.serial, b.transition.value.incoming.serial;
      TwoKeys(b.wired, x, y);
    } else if b.active.Some? {
      assert b.wired.Keys == {b.active.value.serial} && |b.wired.Keys| == 1;
    }
  }

  /** During a switch of any run the two outputs are never audible together and never leave
      [0, 1]; from the end time on only the incoming bank sounds, at full gain. */
  lemma OutputsNeverOverlap(d: Device, states: seq<Graph>, steps: seq<Step>, t: real)
    requires Run(d, states, steps) && states[0] == INITIAL
    requires states[|steps|].banks.transition.Some? && t >= states[|steps|].banks.transition.value.start
    ensures var b := states[|steps|].banks;
            var tr := b.transition.value;
            var x, y := ValueAt(GainOf(b, tr.outgoing), t), ValueAt(GainOf(b, tr.incoming), t);
            && (x == 0.0 || y == 0.0) && 0.0 <= x <= 1.0 && 0.0 <= y <= 1.0
            && (t == tr.start ==> x == 1.0 && y == 0.0)
            && (t >= tr.endTime ==> x == 0.0 && y == 1.0)
  {
    RunKeepsInv(d, states, steps);
    var b := states[|steps|].banks;
    var tr := b.transition.value;
    var p :| b.wired[tr.outgoing.serial] == FadeOut(p, tr.start);
    var q :| b.wired[tr.incoming.serial] == FadeIn(q, tr.start);
    SwitchNeverOverlaps(p, q, tr.start, t);
  }

  /** After a failed attachment every reachable state is Flat at rest and reports so. */
  lemma FailureMeansFlat(d: Device, states: seq<Graph>, steps: seq<Step>)
    requires Run(d, states, steps) && states[0] == INITIAL
    requires states[|steps|].taps.failed
    ensures var b := states[|steps|].banks;
            && b.transition.None? && b.pending.None?
            && b.active.Some? && b.active.value.plan == FlatPlan(NoWarning)
            && b.published.capability == Unsupported
  {
    RunKeepsInv(d, states, steps);
  }

  /** Timers and the switch under way are no newer than the token counter. */
  ghost predicate TokensBound(b: Banks) {
    TokensPast(b) && (b.transition.Some? ==> b.transition.value.token <= b.token)
  }

  /** From `b` to `h` the counter and its timers stay in bounds, and a new switch has a new token. */
  ghost predicate TokenStep(b: Banks, h: Banks) {
    && TokensBound(h) && b.token <= h.token
    && (h.transition.Some? && h.transition != b.transition ==> h.transition.value.token > b.token)
  }

  lemma SettleTokens(now: real, b: Banks)
    ensures Settle(now, b).token == b.token && Settle(now, b).timers == b.timers && Settle(now, b).transition.None?
    ensures b.transition.Some? ==>
      Complete(now, b).token == b.token && Complete(now, b).timers == b.timers && Complete(now, b).transition.None?
  {
  }

  lemma ReplaceTokens(d: Device, now: real, failed: bool, b: Banks, r: Request)
    ensures var h := Replace(d, now, failed, b, r);
            h.token == b.token && h.timers == b.timers && h.transition.None?
  {
    SettleTokens(now, b);
  }

  lemma SwitchTokens(d: Device, a: Audio, failed: bool, b: Banks, r: Request)
    requires TokensBound(b)
    ensures TokenStep(b, Switch(d, a, failed, b, r))
  {
    ReplaceTokens(d, a.now, failed, b, r);
  }

  lemma TakePendingTokens(d: Device, a: Audio, failed: bool, b: Banks)
    requires TokensBound(b)
    ensures TokenStep(b, TakePending(d, a, failed, b))
  {
    var b1 := if b.active.Some? then b.(published := BankDiagnostics(b.active.value)) else b;
    if b.pending.Some? { SwitchTokens(d, a, failed, b1.(pending := None), b.pending.value); }
  }

  lemma FireTokens(d: Device, a: Audio, failed: bool, b: Banks, token: nat)
    requires TokensBound(b)
    ensures TokenStep(b, Fire(d, a, failed, b, token))
  {
    var b0 := b.(timers := b.timers - multiset{token});
    SettleTokens(a.now, b0);
    if b0.transition.Some? && b0.transition.value.token == token {
      if !a.running {
        TakePendingTokens(d, a, failed, Settle(a.now, b0));
      } else if a.now + 0.002 >= b0.transition.value.endTime {
        TakePendingTokens(d, a, failed, Complete(a.now, b0));
      }
    }
  }

  lemma ForceFlatTokens(d: Device, a: Audio, failed: bool, b: Banks, r: Request)
    requires TokensBound(b)
    ensures TokenStep(b, ForceFlat(d, a, failed, b, r))
  {
    ReplaceTokens(d, a.now, failed, b, FLAT_REQUEST);
  }

  lemma TapTokens(d: Device, g: Graph, el: Element, c: Creation, ok: bool)
    requires TokensBound(g.banks)
    ensures TokenStep(g.banks, Attach(d, g, el, c, ok).banks)
  {
    var h := EnsureContext(d, g, c);
    assert TokenStep(g.banks, h.banks) && h.banks.token == g.banks.token;
    SwitchTokens(d, h.audio, h.taps.failed, h.banks, h.desired);
    ForceFlatTokens(d, h.audio, true, h.banks, h.desired);
  }

  lemma TokensKeep(d: Device, g: Graph, s: Step)
    requires TokensBound(g.banks)
    ensures TokenStep(g.banks, Next(d, g, s).banks)
  {
    match s
    case FireTimer(token) => FireTokens(d, g.audio, g.taps.failed, g.banks, token);
    case Tap(el, c, ok) => TapTokens(d, g, el, c, ok);
    case Ask(r) =>
      SwitchTokens(d, g.audio, false, g.banks, r);
      ForceFlatTokens(d, g.audio, true, g.banks, r);
    case _ =>
  }

  lemma {:induction false} TokensOfRun(d: Device, states: seq<Graph>, steps: seq<Step>)
    requires Run(d, states, steps) && states[0] == INITIAL
    ensures forall i | 0 <= i <= |steps| ::
      TokensBound(states[i].banks) && states[i].banks.token <= states[|steps|].banks.token
  {
    if steps == [] {
    } else {
      var n := |steps| - 1;
      var front := states[..n + 1];
      TokensOfRun(d, front, steps[..n]);
      assert forall i | 0 <= i <= n :: front[i] == states[i];
      TokensKeep(d, states[n], steps[n]);
    }
  }

  /** Every switch that begins on a run has a token of its own: no timer armed before and no switch
      before carries it. */
  lemma TokensAreFresh(d: Device, states: seq<Graph>, steps: seq<Step>, j: nat)
    requires Run(d, states, steps) && states[0] == INITIAL && j < |steps|
    requires var b := states[|steps|].banks;
             b.transition.Some? && b.transition != states[|steps| - 1].banks.transition
    ensures var token := states[|steps|].banks.transition.value.token;
            && token !in states[j].banks.timers
            && (states[j].banks.transition.Some? ==> states[j].banks.transition.value.token != token)
  {
    var n := |steps| - 1;
    TokensOfRun(d, states[..n + 1], steps[..n]);
    assert states[..n + 1][n] == states[n] && states[..n + 1][j] == states[j];
    TokensKeep(d, states[n], steps[n]);
  }

  /** A finish timer of an earlier switch changes nothing when it fires late. */
  lemma StaleTimerIsIdle(d: Device, g: Graph, token: nat)
    requires g.banks.transition.Some? ==> g.banks.transition.value.token != token
    ensures Next(d, g, FireTimer(token)) == g.(banks := g.banks.(timers := g.banks.timers - multiset{token}))
  {
  }

  // ---- convergence ----

  /** Transitions still to complete: the one under way and the one parked behind it. */
  function Work(b: Banks): nat {
    (if b.transition.Some? then 1 else 0) + (if b.pending.Some? then 1 else 0)
  }

  /** A step in which nothing new is asked for and no element is tapped. */
  predicate Quiet(s: Step) {
    s.Advance? || s.SetRunning? || s.FireTimer?
  }

  /** 1 if the transition under way in `b` is over in `h`. */
  function Completes(b: Banks, h: Banks): nat {
    if b.transition.Some? && h.transition != b.transition then 1 else 0
  }

  function Completions(states: seq<Graph>): nat {
    if |states| <= 1 then 0
    else Completions(states[..|states| - 1]) + Completes(states[|states| - 2].banks, states[|states| - 1].banks)
  }

  lemma SettleClears(now: real, b: Banks)
    ensures Settle(now, b).transition.None? && Settle(now, b).pending == b.pending
  {
  }

  lemma ReplaceClears(d: Device, now: real, failed: bool, b: Banks, r: Request)
    ensures Replace(d, now, failed, b, r).transition.None? && Replace(d, now, failed, b, r).pending.None?
  {
    SettleClears(now, b);
  }

  /** A timer that finds the context suspended settles its transition and the parked request. */
  lemma SuspendedFireWork(d: Device, a: Audio, failed: bool, b: Banks, token: nat)
    requires a.created && !a.unavailable && !a.running
    requires b.transition.Some? && b.transition.value.token == token
    ensures Completes(b, Fire(d, a, failed, b, token)) == 1 && Work(Fire(d, a, failed, b, token)) == 0
  {
    var b0 := b.(timers := b.timers - multiset{token});
    SettleClears(a.now, b0);
    if b.pending.Some? {
      var b1 := Settle(a.now, b0);
      var b2 := (if b1.active.Some? then b1.(published := BankDiagnostics(b1.active.value)) else b1).(pending := None);
      ReplaceClears(d, a.now, failed, b2, b.pending.value);
    }
  }

  lemma FireWork(d: Device, a: Audio, failed: bool, b: Banks, token: nat)
    requires a.created && !a.unavailable && BanksOk(d, a.now, b) && token in b.timers
    requires b.pending.Some? ==> b.pending.value.Normalized()
    ensures Completes(b, Fire(d, a, failed, b, token)) + Work(Fire(d, a, failed, b, token)) <= Work(b)
    ensures b.transition.Some? && b.transition.value.token == token
            && (!a.running || a.now + 0.002 >= b.transition.value.endTime)
            ==> Completes(b, Fire(d, a, failed, b, token)) == 1
  {
    if b.transition.Some? && b.transition.value.token == token && !a.running {
      SuspendedFireWork(d, a, failed, b, token);
    }
  }

  lemma QuietStepWork(d: Device, g: Graph, s: Step)
    requires Inv(d, g) && Enabled(g, s) && Quiet(s)
    ensures Completes(g.banks, Next(d, g, s).banks) + Work(Next(d, g, s).banks) <= Work(g.banks)
    ensures Next(d, g, s).taps == g.taps && Next(d, g, s).desired == g.desired
  {
    if s.FireTimer? && g.audio.created && !g.audio.unavailable {
      FireWork(d, g.audio, g.taps.failed, g.banks, s.token);
    }
  }

  /** Convergence: from any state a run can reach, however timers fire and the context suspends,
      at most two more transitions complete after the final request; each completion works one
      off, and with none left the desired plan sounds. */
  lemma {:induction false} AtMostTwoMoreTransitions(d: Device, states: seq<Graph>, steps: seq<Step>)
    requires Run(d, states, steps) && Inv(d, states[0])
    requires forall s | s in steps :: Quiet(s)
    ensures Inv(d, states[|steps|])
    ensures states[|steps|].desired == states[0].desired && states[|steps|].taps == states[0].taps
    ensures Completions(states) + Work(states[|steps|].banks) <= Work(states[0].banks) <= 2
    ensures InForce(states[0].taps) && Work(states[|steps|].banks) == 0 ==>
      && states[|steps|].banks.active.Some?
      && states[|steps|].banks.active.value.plan == PlanFor(d, states[0].desired)
    decreases |steps|
  {
    if steps == [] {
    } else {
      var n := |steps| - 1;
      AtMostTwoMoreTransitions(d, states[..n + 1], steps[..n]);
      assert states[..n + 1][n] == states[n];
      assert states[..|states| - 1] == states[..n + 1];
      QuietStepWork(d, states[n], steps[n]);
      NextKeeps(d, states[n], steps[n]);
    }
    var g := states[|steps|];
    if InForce(states[0].taps) && Work(g.banks) == 0 {
      SignatureIsSound(d, g.banks.active.value.request, g.desired);
    }
  }

  /** No switch is ever stranded: its own timer is always outstanding, and firing it completes
      the transition once the fade is over or the context is suspended. */
  lemma TimerMakesProgress(d: Device, g: Graph)
    requires Inv(d, g) && g.banks.transition.Some?
    ensures var fire := FireTimer(g.banks.transition.value.token);
            && Enabled(g, fire)
            && (!g.audio.running || g.audio.now + 0.002 >= g.banks.transition.value.endTime
                ==> Work(Next(d, g, fire).banks) < Work(g.banks))
            && (g.audio.running ==> Work(Next(d, Next(d, g, Advance(SWITCH_SECONDS)), fire).banks) < Work(g.banks))
  {
    var t := g.banks.transition.value;
    FireWork(d, g.audio, g.taps.failed, g.banks, t.token);
    if g.audio.running {
      var h := Next(d, g, Advance(SWITCH_SECONDS));
      NextKeeps(d, g, Advance(SWITCH_SECONDS));
      FireWork(d, h.audio, h.taps.failed, h.banks, t.token);
    }
  }
}

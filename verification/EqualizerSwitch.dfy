/** The dual-bank equalizer switch (app/src/player/audioGraph.ts): requests, timers and
    suspensions as steps over the module's state. */
module EqualizerSwitch {
  import opened Rows
  import opened EqualizerBank
  import opened GainAutomation

  type Element = nat

  datatype Bank = Bank(serial: nat, request: Request, plan: Plan, unsupported: bool)

  datatype Transition = Transition(token: nat, outgoing: Bank, incoming: Bank, start: real, endTime: real)

  datatype Capability = Pending | Ready | Unsupported

  /** What listeners are told: the capability, the requested profile, and the plan applied. */
  datatype Diagnostics = Diagnostics(capability: Capability, requested: Option<string>, applied: Plan)

  /** The audio context: its construction, state and clock. */
  datatype Audio = Audio(created: bool, unavailable: bool, running: bool, now: real)

  /** The media elements tapped so far, and whether tapping one has failed. */
  datatype Taps = Taps(elements: set<Element>, count: nat, failed: bool)

  /** The banks. `wired` holds the output gain of every connected bank, by serial number;
      `timers` the tokens of finish timers still to fire. */
  datatype Banks = Banks(active: Option<Bank>, transition: Option<Transition>, pending: Option<Request>,
                         token: nat, wired: map<nat, Param>, nextSerial: nat, timers: multiset<nat>,
                         published: Diagnostics)

  datatype Graph = Graph(audio: Audio, taps: Taps, desired: Request, desiredSignature: Signature, banks: Banks)

  function RequestedId(r: Request): Option<string> {
    if r.profile.Some? then Some(r.profile.value.id) else None
  }

  function BankDiagnostics(b: Bank): Diagnostics {
    Diagnostics(if b.unsupported then Unsupported else Ready, RequestedId(b.request), b.plan)
  }

  function PendingDiagnostics(a: Audio, failed: bool, desired: Request): Diagnostics {
    Diagnostics(if a.unavailable || failed then Unsupported else Pending,
                RequestedId(desired), FlatPlan(NoWarning).(bypassed := WantsFlat(desired)))
  }

  // ---- building blocks ----

  /** A bank for a request. Only a Flat bank reports a failed attachment. */
  function NewBank(d: Device, failed: bool, serial: nat, r: Request): Bank {
    Bank(serial, r, PlanFor(d, r), failed && PlanFor(d, r).bypassed)
  }

  function Connect(b: Banks, bank: Bank, gain: real): Banks {
    b.(wired := b.wired[bank.serial := Param(gain, [])], nextSerial := b.nextSerial + 1)
  }

  function Dispose(b: Banks, bank: Bank): Banks {
    b.(wired := b.wired - {bank.serial})
  }

  function GainOf(b: Banks, bank: Bank): Param {
    if bank.serial in b.wired then b.wired[bank.serial] else Param(0.0, [])
  }

  function SetGain(b: Banks, bank: Bank, p: Param): Banks {
    b.(wired := b.wired[bank.serial := p])
  }

  // ---- transitions ----

  /** The outgoing bank goes, the incoming one is active. */
  function HandOver(b: Banks): Banks
    requires b.transition.Some?
  {
    Dispose(b, b.transition.value.outgoing).(active := Some(b.transition.value.incoming), transition := None)
  }

  function Settle(now: real, b: Banks): Banks {
    if b.transition.None? then b
    else
      var t := b.transition.value;
      var b1 := SetGain(b, t.outgoing, Assign(GainOf(b, t.outgoing).(events := []), 0.0, now));
      var b2 := SetGain(b1, t.incoming, Assign(GainOf(b1, t.incoming).(events := []), 1.0, now));
      HandOver(b2)
  }

  /** The fade is over: pin both gains and hand over. */
  function Complete(now: real, b: Banks): Banks
    requires b.transition.Some?
  {
    var t := b.transition.value;
    var b1 := SetGain(b, t.outgoing, Assign(GainOf(b, t.outgoing), 0.0, now));
    var b2 := SetGain(b1, t.incoming, Assign(GainOf(b1, t.incoming), 1.0, now));
    HandOver(b2)
  }

  /** A new bank at full gain becomes the active one; nothing stays parked. */
  function Install(d: Device, now: real, failed: bool, b: Banks, r: Request): Banks {
    var bank := NewBank(d, failed, b.nextSerial, r);
    var b1 := Connect(b, bank, 1.0);
    SetGain(b1, bank, Assign(GainOf(b1, bank), 1.0, now))
      .(active := Some(bank), pending := None, published := BankDiagnostics(bank))
  }

  function Replace(d: Device, now: real, failed: bool, b: Banks, r: Request): Banks {
    var b1 := Settle(now, b);
    Install(d, now, failed, if b1.active.Some? then Dispose(b1, b1.active.value) else b1, r)
  }

  /** Schedules both envelopes. */
  function Crossfade(now: real, b: Banks, outgoing: Bank, incoming: Bank): Banks {
    var b1 := SetGain(b, incoming, FadeIn(GainOf(b, incoming), now));
    SetGain(b1, outgoing, FadeOut(GainOf(b1, outgoing), now))
  }

  /** Records the switch under a fresh token and arms its timer. */
  function Arm(now: real, b: Banks, outgoing: Bank, incoming: Bank): Banks {
    b.(token := b.token + 1,
       transition := Some(Transition(b.token + 1, outgoing, incoming, now, now + SWITCH_SECONDS)),
       timers := b.timers + multiset{b.token + 1})
  }

  function Begin(d: Device, now: real, failed: bool, b: Banks, r: Request): Banks
    requires b.active.Some?
  {
    var incoming := NewBank(d, failed, b.nextSerial, r);
    Arm(now, Crossfade(now, Connect(b, incoming, 0.0), b.active.value, incoming), b.active.value, incoming)
  }

  function Switch(d: Device, a: Audio, failed: bool, b: Banks, r: Request): Banks {
    if !a.created || a.unavailable then b
    else if !a.running then Replace(d, a.now, failed, b, r)
    else if b.transition.Some? then b.(pending := Some(r))
    else if b.active.None? then Replace(d, a.now, failed, b, r)
    else Begin(d, a.now, failed, b, r)
  }

  /** After a transition has ended: report the bank and take up the parked request. */
  function TakePending(d: Device, a: Audio, failed: bool, b: Banks): Banks {
    var b1 := if b.active.Some? then b.(published := BankDiagnostics(b.active.value)) else b;
    var b2 := b1.(pending := None);
    if b.pending.Some? then Switch(d, a, failed, b2, b.pending.value) else b2
  }

  function Finish(d: Device, a: Audio, failed: bool, b: Banks, token: nat): Banks {
    if !a.created || b.transition.None? || b.transition.value.token != token then b
    else if !a.running then TakePending(d, a, failed, Settle(a.now, b))
    else if a.now + 0.002 < b.transition.value.endTime then b.(timers := b.timers + multiset{token})
    else TakePending(d, a, failed, Complete(a.now, b))
  }

  function ForceFlat(d: Device, a: Audio, failed: bool, b: Banks, desired: Request): Banks {
    if !a.created then b.(published := PendingDiagnostics(a, failed, desired))
    else
      var b1 := Replace(d, a.now, failed, b, FLAT_REQUEST);
      b1.(published := b1.published.(capability := Unsupported, requested := RequestedId(desired)))
  }

  // ---- entry points ----

  /** How constructing the audio context goes, should it be tried. */
  datatype Creation = NoConstructor | ConstructorThrows | SetupThrows | Created(running: bool, now: real)

  function EnsureContext(d: Device, g: Graph, c: Creation): Graph {
    if g.audio.unavailable || g.audio.created then g
    else if c.Created? then
      var bank := NewBank(d, g.taps.failed, g.banks.nextSerial, FLAT_REQUEST);
      var b1 := Connect(g.banks, bank, 1.0);
      g.(audio := Audio(true, false, c.running, c.now),
         banks := SetGain(b1, bank, Assign(GainOf(b1, bank), 1.0, c.now)).(active := Some(bank)))
    else
      var a := g.audio.(unavailable := true, created := c.SetupThrows?);
      g.(audio := a, banks := g.banks.(published := PendingDiagnostics(a, g.taps.failed, g.desired)))
  }

  /** The rest of `attach` once the context is there; `ok` says whether the element can be tapped. */
  function TapElement(d: Device, g: Graph, el: Element, ok: bool): Graph {
    if g.audio.unavailable || el in g.taps.elements then g
    else if ok then
      var taps := Taps(g.taps.elements + {el}, g.taps.count + 1, g.taps.failed);
      g.(taps := taps,
         banks := if taps.count >= 2 && !taps.failed then Switch(d, g.audio, taps.failed, g.banks, g.desired)
                  else g.banks)
    else
      g.(taps := g.taps.(failed := true), banks := ForceFlat(d, g.audio, true, g.banks, g.desired))
  }

  function Attach(d: Device, g: Graph, el: Element, c: Creation, ok: bool): Graph {
    TapElement(d, EnsureContext(d, g, c), el, ok)
  }

  /** The request that `setEqualizerProfile` derives from its arguments. */
  function RequestOf(profile: Option<Profile>, bypassed: Option<bool>, bass: Num, treble: Num): (r: Request)
    ensures r.Normalized() && r.profile == profile && IsPercentOf(r.bass, bass) && IsPercentOf(r.treble, treble)
    ensures r.bypassed == match bypassed case Some(given) => given
                                         case None => profile == None && r.bass == 0 && r.treble == 0
  {
    var b, t := BoundedPercent(bass), BoundedPercent(treble);
    Request(profile, if bypassed.Some? then bypassed.value else profile.None? && b == 0 && t == 0, b, t)
  }

  function SetRequest(d: Device, g: Graph, next: Request): Graph {
    if AudioSignature(next) == g.desiredSignature then g.(desired := next)
    else
      g.(desired := next, desiredSignature := AudioSignature(next),
         banks :=
           if !g.audio.created || g.taps.count < 2 then
             g.banks.(published := PendingDiagnostics(g.audio, g.taps.failed, next))
           else if g.taps.failed then ForceFlat(d, g.audio, true, g.banks, next)
           else Switch(d, g.audio, false, g.banks, next))
  }

  // ---- steps and runs ----

  datatype Step =
    | Advance(seconds: real)                        // audio time, while running
    | SetRunning(running: bool)                     // suspend or resume
    | FireTimer(token: nat)                         // a finish timer fires, however late
    | Tap(el: Element, creation: Creation, ok: bool)
    | Ask(request: Request)                         // setEqualizerProfile

  ghost predicate Enabled(g: Graph, s: Step) {
    match s
    case Advance(seconds) => g.audio.created && g.audio.running && seconds >= 0.0
    case SetRunning(_) => g.audio.created
    case FireTimer(token) => token in g.banks.timers
    case Tap(_, c, _) => c.Created? ==> c.now >= 0.0
    case Ask(r) => r.Normalized()
  }

  /** A finish timer leaves the event queue and runs. */
  function Fire(d: Device, a: Audio, failed: bool, b: Banks, token: nat): Banks {
    Finish(d, a, failed, b.(timers := b.timers - multiset{token}), token)
  }

  function Next(d: Device, g: Graph, s: Step): Graph {
    match s
    case Advance(seconds) => g.(audio := g.audio.(now := g.audio.now + seconds))
    case SetRunning(b) => g.(audio := g.audio.(running := b))
    case FireTimer(token) => g.(banks := Fire(d, g.audio, g.taps.failed, g.banks, token))
    case Tap(el, c, ok) => Attach(d, g, el, c, ok)
    case Ask(r) => SetRequest(d, g, r)
  }

  const NO_BANKS: Banks :=
    Banks(None, None, None, 0, map[], 0, multiset{}, Diagnostics(Pending, None, FlatPlan(NoWarning)))

  const INITIAL: Graph :=
    Graph(Audio(false, false, false, 0.0), Taps({}, 0, false), FLAT_REQUEST, FlatSignature, NO_BANKS)

  /** The states a run passes through, first to last. */
  ghost predicate Run(d: Device, states: seq<Graph>, steps: seq<Step>) {
    && |states| == |steps| + 1
    && forall i | 0 <= i < |steps| :: Enabled(states[i], steps[i]) && states[i + 1] == Next(d, states[i], steps[i])
  }

  // ---- invariant ----

  ghost predicate BankOk(d: Device, bank: Bank) {
    bank.request.Normalized() && bank.plan == PlanFor(d, bank.request)
  }

  /** At rest: the active bank alone is wired, constantly at full gain. */
  ghost predicate Rests(d: Device, now: real, b: Banks, bank: Bank) {
    && b.active == Some(bank) && b.transition.None? && BankOk(d, bank)
    && b.wired.Keys == {bank.serial} && bank.serial < b.nextSerial
    && SteadyFrom(b.wired[bank.serial], 1.0, now)
  }

  /** In a switch: the active bank fades out, the incoming one fades in, nothing else is wired,
      and the switch's own timer is outstanding. */
  ghost predicate Switching(d: Device, now: real, b: Banks, t: Transition) {
    && b.active == Some(t.outgoing) && b.transition == Some(t)
    && BankOk(d, t.outgoing) && BankOk(d, t.incoming)
    && t.outgoing.serial < t.incoming.serial < b.nextSerial
    && b.wired.Keys == {t.outgoing.serial, t.incoming.serial}
    && (exists p :: b.wired[t.outgoing.serial] == FadeOut(p, t.start))
    && (exists p :: b.wired[t.incoming.serial] == FadeIn(p, t.start))
    && t.token == b.token && t.token in b.timers
    && 0.0 <= t.start <= now && t.endTime == t.start + SWITCH_SECONDS
  }

  /** No outstanding timer is of a switch that has not begun. */
  ghost predicate TokensPast(b: Banks) {
    forall t | t in b.timers :: t <= b.token
  }

  ghost predicate BanksOk(d: Device, now: real, b: Banks) {
    if b.transition.Some? then Switching(d, now, b, b.transition.value)
    else b.pending.None? && b.active.Some? && Rests(d, now, b, b.active.value)
  }

  /** The request that will sound once everything under way has finished. */
  function Target(b: Banks): Request
    requires b.active.Some?
  {
    if b.pending.Some? then b.pending.value
    else if b.transition.Some? then b.transition.value.incoming.request
    else b.active.value.request
  }

  /** Both elements tapped and none refused: the equalizer is in force. */
  predicate InForce(taps: Taps) {
    taps.count >= 2 && !taps.failed
  }

  /** What is under way leads to the wanted sound, and listeners know the bank at rest. */
  ghost predicate Serves(b: Banks, wanted: Signature) {
    && b.active.Some? && AudioSignature(Target(b)) == wanted
    && (b.pending.Some? ==> b.pending.value.Normalized())
    && (b.transition.None? ==> b.published == BankDiagnostics(b.active.value))
  }

  /** Flat at rest, as long as the equalizer is not in force. */
  ghost predicate HeldFlat(b: Banks, failed: bool) {
    && b.transition.None? && b.pending.None? && b.active.Some? && b.active.value.request == FLAT_REQUEST
    && (failed ==> b.published.capability == Unsupported)
  }

  ghost predicate TapsOk(g: Graph) {
    && g.taps.count == |g.taps.elements|
    && g.desired.Normalized() && g.desiredSignature == AudioSignature(g.desired)
    && g.audio.now >= 0.0
  }

  ghost predicate Inv(d: Device, g: Graph) {
    && TapsOk(g)
    && if g.audio.created && !g.audio.unavailable then
         && BanksOk(d, g.audio.now, g.banks)
         && if InForce(g.taps) then Serves(g.banks, g.desiredSignature) else HeldFlat(g.banks, g.taps.failed)
       else
         && g.taps.count == 0 && !g.taps.failed
         && g.banks == NO_BANKS.(published := g.banks.published)
  }

  // ---- preservation ----

  lemma SettleRests(d: Device, now: real, b: Banks)
    requires b.transition.Some? && Switching(d, now, b.(timers := b.timers + multiset{b.token}), b.transition.value)
    ensures Rests(d, now, Settle(now, b), b.transition.value.incoming)
    ensures Settle(now, b) == b.(active := Some(b.transition.value.incoming), transition := None,
                                 wired := Settle(now, b).wired)
  {
    var t := b.transition.value;
    AssignAfterCancel(b.wired[t.incoming.serial], 1.0, now);
    assert Settle(now, b).wired.Keys == {t.incoming.serial};
  }

  lemma IncomingReachesOne(gain: Param, start: real, now: real)
    requires (exists p :: gain == FadeIn(p, start)) && now + 0.002 >= start + SWITCH_SECONDS
    ensures SteadyFrom(Assign(gain, 1.0, now), 1.0, now)
  {
    var p :| gain == FadeIn(p, start);
    AssignAfterFadeIn(p, start, now);
  }

  lemma CompleteRests(d: Device, now: real, b: Banks)
    requires b.transition.Some? && Switching(d, now, b.(timers := b.timers + multiset{b.token}), b.transition.value)
    requires now + 0.002 >= b.transition.value.endTime
    ensures Rests(d, now, Complete(now, b), b.transition.value.incoming)
    ensures Complete(now, b) == b.(active := Some(b.transition.value.incoming), transition := None,
                                   wired := Complete(now, b).wired)
  {
    var t := b.transition.value;
    IncomingReachesOne(b.wired[t.incoming.serial], t.start, now);
    assert Complete(now, b).wired.Keys == {t.incoming.serial};
  }

  /** Nothing at all is wired but, at most, the active bank or the two sides of a switch. */
  ghost predicate Replaceable(d: Device, now: real, b: Banks) {
    now >= 0.0
    && if b.transition.Some? then Switching(d, now, b.(timers := b.timers + multiset{b.token}), b.transition.value)
       else if b.active.Some? then b.wired.Keys == {b.active.value.serial}
       else b.wired == map[]
  }

  lemma ReplaceRests(d: Device, now: real, failed: bool, b: Banks, r: Request)
    requires Replaceable(d, now, b) && r.Normalized()
    ensures var bank := NewBank(d, failed, b.nextSerial, r);
            var h := Replace(d, now, failed, b, r);
            && Rests(d, now, h, bank)
            && h == b.(active := Some(bank), transition := None, pending := None,
                       published := BankDiagnostics(bank), nextSerial := b.nextSerial + 1, wired := h.wired)
  {
    if b.transition.Some? { SettleRests(d, now, b); }
    var b1 := Settle(now, b);
    var b2 := if b1.active.Some? then Dispose(b1, b1.active.value) else b1;
    assert b2.wired.Keys == {};
    AssignAfterCancel(Param(1.0, []), 1.0, now);
    assert Install(d, now, failed, b2, r).wired.Keys == {b.nextSerial};
  }

  lemma BeginSwitches(d: Device, now: real, b: Banks, r: Request)
    requires now >= 0.0 && b.active.Some? && b.transition.None? && Rests(d, now, b, b.active.value) && r.Normalized()
    ensures var h := Begin(d, now, false, b, r);
            && h.transition.Some? && Switching(d, now, h, h.transition.value)
            && h.transition.value.incoming.request == r && h.pending == b.pending
            && h.published == b.published
            && h.transition.value.token == h.token == b.token + 1
            && (TokensPast(b) ==> h.token !in b.timers && TokensPast(h))
  {
    var h := Begin(d, now, false, b, r);
    var outgoing, incoming := b.active.value, NewBank(d, false, b.nextSerial, r);
    assert h.wired == b.wired[incoming.serial := FadeIn(Param(0.0, []), now)]
                             [outgoing.serial := FadeOut(b.wired[outgoing.serial], now)];
    assert h.wired.Keys == {outgoing.serial, incoming.serial};
  }

  /** `switchBank` on sound banks leads to its request. */
  lemma SwitchServes(d: Device, a: Audio, b: Banks, r: Request)
    requires a.created && !a.unavailable && a.now >= 0.0 && r.Normalized()
    requires BanksOk(d, a.now, b)
    ensures var h := Switch(d, a, false, b, r);
            BanksOk(d, a.now, h) && Serves(h, AudioSignature(r)) && Target(h) == r
  {
    if !a.running {
      assert b.transition.Some? ==> b.(timers := b.timers + multiset{b.token}).wired == b.wired;
      ReplaceRests(d, a.now, false, b, r);
    } else if b.transition.None? {
      BeginSwitches(d, a.now, b, r);
    }
  }

  lemma TakePendingServes(d: Device, a: Audio, b: Banks, bank: Bank, wanted: Signature)
    requires a.created && !a.unavailable && a.now >= 0.0
    requires Rests(d, a.now, b, bank)
    requires b.pending.Some? ==> b.pending.value.Normalized() && AudioSignature(b.pending.value) == wanted
    requires b.pending.None? ==> AudioSignature(bank.request) == wanted
    ensures BanksOk(d, a.now, TakePending(d, a, false, b)) && Serves(TakePending(d, a, false, b), wanted)
  {
    var b2 := b.(published := BankDiagnostics(bank), pending := None);
    assert Rests(d, a.now, b2, bank);
    if b.pending.Some? {
      SwitchServes(d, a, b2, b.pending.value);
    }
  }

  /** A timer that finds the context suspended settles its switch. */
  lemma SuspendedServes(d: Device, a: Audio, b: Banks, b0: Banks, wanted: Signature)
    requires a.created && !a.unavailable && a.now >= 0.0 && b.transition.Some?
    requires BanksOk(d, a.now, b) && Serves(b, wanted) && b == b0.(timers := b0.timers + multiset{b0.token})
    ensures var h := TakePending(d, a, false, Settle(a.now, b0));
            BanksOk(d, a.now, h) && Serves(h, wanted)
  {
    SettleRests(d, a.now, b0);
    TakePendingServes(d, a, Settle(a.now, b0), b.transition.value.incoming, wanted);
  }

  /** A timer whose fade is over completes its switch. */
  lemma CompletedServes(d: Device, a: Audio, b: Banks, b0: Banks, wanted: Signature)
    requires a.created && !a.unavailable && b.transition.Some? && a.now + 0.002 >= b.transition.value.endTime
    requires a.now >= 0.0
    requires BanksOk(d, a.now, b) && Serves(b, wanted) && b == b0.(timers := b0.timers + multiset{b0.token})
    ensures var h := TakePending(d, a, false, Complete(a.now, b0));
            BanksOk(d, a.now, h) && Serves(h, wanted)
  {
    CompleteRests(d, a.now, b0);
    TakePendingServes(d, a, Complete(a.now, b0), b.transition.value.incoming, wanted);
  }

  /** The timer of this switch, alone, acts on it. */
  predicate OwnTimer(b: Banks, token: nat) {
    b.transition.Some? && b.transition.value.token == token
  }

  lemma FireIs(d: Device, a: Audio, b: Banks, token: nat)
    requires a.created && token in b.timers
    ensures var b0 := b.(timers := b.timers - multiset{token});
            Fire(d, a, false, b, token)
            == if !OwnTimer(b, token) then b0
               else if !a.running then TakePending(d, a, false, Settle(a.now, b0))
               else if a.now + 0.002 < b.transition.value.endTime then b
               else TakePending(d, a, false, Complete(a.now, b0))
  {
    assert b.(timers := b.timers - multiset{token} + multiset{token}) == b;
  }

  /** Taking an outstanding timer out of the queue can only strand a switch if it is its own. */
  lemma ForeignTimerServes(d: Device, now: real, b: Banks, token: nat, wanted: Signature)
    requires BanksOk(d, now, b) && Serves(b, wanted) && token in b.timers && !OwnTimer(b, token)
    ensures var b0 := b.(timers := b.timers - multiset{token}); BanksOk(d, now, b0) && Serves(b0, wanted)
  {
  }

  /** Whichever timer fires, and whenever, the wanted sound is still led to. */
  lemma FireServes(d: Device, a: Audio, b: Banks, token: nat, wanted: Signature)
    requires a.created && !a.unavailable && a.now >= 0.0
    requires BanksOk(d, a.now, b) && Serves(b, wanted) && token in b.timers
    ensures BanksOk(d, a.now, Fire(d, a, false, b, token)) && Serves(Fire(d, a, false, b, token), wanted)
  {
    var b0 := b.(timers := b.timers - multiset{token});
    FireIs(d, a, b, token);
    if !OwnTimer(b, token) {
      ForeignTimerServes(d, a.now, b, token, wanted);
    } else {
      OwnTokenBack(d, a.now, b, b0, token);
      if !a.running {
        SuspendedServes(d, a, b, b0, wanted);
      } else if a.now + 0.002 >= b.transition.value.endTime {
        CompletedServes(d, a, b, b0, wanted);
      }
    }
  }

  lemma OwnTokenBack(d: Device, now: real, b: Banks, b0: Banks, token: nat)
    requires BanksOk(d, now, b) && OwnTimer(b, token) && token in b.timers
    requires b0 == b.(timers := b.timers - multiset{token})
    ensures b == b0.(timers := b0.timers + multiset{b0.token})
  {
    assert b0.timers + multiset{token} == b.timers;
  }

  lemma ForceFlatHolds(d: Device, a: Audio, b: Banks, desired: Request)
    requires a.created && a.now >= 0.0 && BanksOk(d, a.now, b)
    ensures var h := ForceFlat(d, a, true, b, desired);
            BanksOk(d, a.now, h) && HeldFlat(h, true)
  {
    assert b.transition.Some? ==> b.(timers := b.timers + multiset{b.token}).wired == b.wired;
    ReplaceRests(d, a.now, true, b, FLAT_REQUEST);
  }

  lemma EnsureContextKeeps(d: Device, g: Graph, c: Creation)
    requires Inv(d, g) && (c.Created? ==> c.now >= 0.0)
    ensures var h := EnsureContext(d, g, c);
            Inv(d, h) && (h.audio.unavailable || h.audio.created)
  {
    if !g.audio.unavailable && !g.audio.created && c.Created? {
      AssignAfterCancel(Param(1.0, []), 1.0, c.now);
      var h := EnsureContext(d, g, c);
      assert h.banks.wired.Keys == {0};
    }
  }

  lemma TapKeeps(d: Device, g: Graph, el: Element, ok: bool)
    requires Inv(d, g) && (g.audio.unavailable || g.audio.created)
    ensures Inv(d, TapElement(d, g, el, ok))
  {
    if !g.audio.unavailable && el !in g.taps.elements {
      if ok {
        if g.taps.count + 1 >= 2 && !g.taps.failed { SwitchServes(d, g.audio, g.banks, g.desired); }
      } else {
        ForceFlatHolds(d, g.audio, g.banks, g.desired);
      }
    }
  }

  lemma SetRequestKeeps(d: Device, g: Graph, next: Request)
    requires Inv(d, g) && next.Normalized()
    ensures Inv(d, SetRequest(d, g, next))
  {
    if AudioSignature(next) != g.desiredSignature && g.audio.created && g.taps.count >= 2 {
      if g.taps.failed { ForceFlatHolds(d, g.audio, g.banks, next); }
      else { SwitchServes(d, g.audio, g.banks, next); }
    }
  }

  lemma TimeKeeps(d: Device, g: Graph, later: Audio)
    requires Inv(d, g) && later == g.audio.(running := later.running, now := later.now) && g.audio.now <= later.now
    ensures Inv(d, g.(audio := later))
  {
  }

  /** Every step keeps the invariant. */
  lemma NextKeeps(d: Device, g: Graph, s: Step)
    requires Inv(d, g) && Enabled(g, s)
    ensures Inv(d, Next(d, g, s))
  {
    match s
    case Advance(seconds) => TimeKeeps(d, g, g.audio.(now := g.audio.now + seconds));
    case SetRunning(b) => TimeKeeps(d, g, g.audio.(running := b));
    case FireTimer(token) =>
      if InForce(g.taps) { FireServes(d, g.audio, g.banks, token, g.desiredSignature); }
    case Tap(el, c, ok) =>
      EnsureContextKeeps(d, g, c);
      TapKeeps(d, EnsureContext(d, g, c), el, ok);
    case Ask(r) => SetRequestKeeps(d, g, r);
  }
}

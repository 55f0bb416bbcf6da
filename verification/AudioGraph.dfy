/** The module state of app/src/player/audioGraph.ts as an object whose methods update it in
    place; each method is tied to the step function of the same operation. */
module AudioGraph {
  import opened Rows
  import opened EqualizerBank
  import opened GainAutomation
  import opened EqualizerSwitch

  class EqualizerGraph {
    const device: Device
    var audio: Audio
    var elements: set<Element>
    var attachedCount: nat
    var attachmentFailed: bool
    var desired: Request
    var desiredSignature: Signature
    var active: Option<Bank>
    var transition: Option<Transition>
    var pending: Option<Request>
    var token: nat
    var wired: map<nat, Param>
    var nextSerial: nat
    var timers: multiset<nat>
    var published: Diagnostics

    function BanksView(): Banks
      reads this
    {
      Banks(active, transition, pending, token, wired, nextSerial, timers, published)
    }

    function View(): Graph
      reads this
    {
      Graph(audio, Taps(elements, attachedCount, attachmentFailed), desired, desiredSignature, BanksView())
    }

    /** The invariant of the step machine. */
    ghost predicate Valid()
      reads this
    {
      Inv(device, View())
    }

    constructor (d: Device)
      ensures device == d && View() == INITIAL && Valid()
    {
      device := d;
      audio := Audio(false, false, false, 0.0);
      elements, attachedCount, attachmentFailed := {}, 0, false;
      desired, desiredSignature := FLAT_REQUEST, FlatSignature;
      active, transition, pending, token := None, None, None, 0;
      wired, nextSerial, timers := map[], 0, multiset{};
      published := Diagnostics(Pending, None, FlatPlan(NoWarning));
    }

    method SetOutputGain(bank: Bank, p: Param)
      modifies this`wired
      ensures BanksView() == SetGain(old(BanksView()), bank, p)
    {
      wired := wired[bank.serial := p];
    }

    /** Builds and wires a bank whose output gain is preset before it is connected. */
    method BuildBank(r: Request, initialGain: real) returns (bank: Bank)
      modifies this`wired, this`nextSerial
      ensures bank == NewBank(device, attachmentFailed, old(nextSerial), r)
      ensures BanksView() == Connect(old(BanksView()), bank, initialGain)
    {
      var plan := BuildPlan(device, r);
      bank := Bank(nextSerial, r, plan, attachmentFailed && plan.bypassed);
      wired := wired[bank.serial := Param(initialGain, [])];
      nextSerial := nextSerial + 1;
    }

    method DisposeBank(bank: Bank)
      modifies this`wired
      ensures BanksView() == Dispose(old(BanksView()), bank)
    {
      wired := wired - {bank.serial};
    }

    method HandOverBanks()
      requires transition.Some?
      modifies this`wired, this`active, this`transition
      ensures BanksView() == HandOver(old(BanksView()))
    {
      DisposeBank(transition.value.outgoing);
      active := Some(transition.value.incoming);
      transition := None;
    }

    method SettleTransition()
      modifies this`wired, this`active, this`transition
      ensures BanksView() == Settle(audio.now, old(BanksView()))
    {
      if transition.None? { return; }
      var current := transition.value;
      SetOutputGain(current.outgoing, Assign(GainOf(BanksView(), current.outgoing).(events := []), 0.0, audio.now));
      SetOutputGain(current.incoming, Assign(GainOf(BanksView(), current.incoming).(events := []), 1.0, audio.now));
      HandOverBanks();
    }

    method CompleteTransition()
      requires transition.Some?
      modifies this`wired, this`active, this`transition
      ensures BanksView() == Complete(audio.now, old(BanksView()))
    {
      var current := transition.value;
      SetOutputGain(current.outgoing, Assign(GainOf(BanksView(), current.outgoing), 0.0, audio.now));
      SetOutputGain(current.incoming, Assign(GainOf(BanksView(), current.incoming), 1.0, audio.now));
      HandOverBanks();
    }

    method InstallBank(r: Request)
      modifies this`wired, this`nextSerial, this`active, this`pending, this`published
      ensures BanksView() == Install(device, audio.now, attachmentFailed, old(BanksView()), r)
    {
      var bank := BuildBank(r, 1.0);
      SetOutputGain(bank, Assign(GainOf(BanksView(), bank), 1.0, audio.now));
      active := Some(bank);
      pending := None;
      published := BankDiagnostics(bank);
    }

    method ReplaceBankImmediately(r: Request)
      requires audio.created
      modifies this`wired, this`nextSerial, this`active, this`pending, this`published, this`transition
      ensures BanksView() == Replace(device, audio.now, attachmentFailed, old(BanksView()), r)
    {
      SettleTransition();
      if active.Some? { DisposeBank(active.value); }
      InstallBank(r);
    }

    method CrossfadeBanks(outgoing: Bank, incoming: Bank)
      modifies this`wired
      ensures BanksView() == Crossfade(audio.now, old(BanksView()), outgoing, incoming)
    {
      SetOutputGain(incoming, FadeIn(GainOf(BanksView(), incoming), audio.now));
      SetOutputGain(outgoing, FadeOut(GainOf(BanksView(), outgoing), audio.now));
    }

    method ArmTransition(outgoing: Bank, incoming: Bank)
      modifies this`token, this`transition, this`timers
      ensures BanksView() == Arm(audio.now, old(BanksView()), outgoing, incoming)
    {
      token := token + 1;
      transition := Some(Transition(token, outgoing, incoming, audio.now, audio.now + SWITCH_SECONDS));
      timers := timers + multiset{token};
    }

    method SwitchBank(r: Request)
      modifies this`wired, this`nextSerial, this`active, this`pending, this`published, this`transition,
               this`token, this`timers
      ensures BanksView() == Switch(device, audio, attachmentFailed, old(BanksView()), r)
    {
      if !audio.created || audio.unavailable { return; }
      if !audio.running {
        ReplaceBankImmediately(r);
        return;
      }
      if transition.Some? {
        pending := Some(r);
        return;
      }
      if active.None? {
        ReplaceBankImmediately(r);
        return;
      }
      var incoming := BuildBank(r, 0.0);
      CrossfadeBanks(active.value, incoming);
      ArmTransition(active.value, incoming);
    }

    method TakeUpPending()
      modifies this`wired, this`nextSerial, this`active, this`pending, this`published, this`transition,
               this`token, this`timers
      ensures BanksView() == TakePending(device, audio, attachmentFailed, old(BanksView()))
    {
      if active.Some? { published := BankDiagnostics(active.value); }
      var parked := pending;
      pending := None;
      if parked.Some? { SwitchBank(parked.value); }
    }

    method FinishTransition(which: nat)
      modifies this`wired, this`nextSerial, this`active, this`pending, this`published, this`transition,
               this`token, this`timers
      ensures BanksView() == Finish(device, audio, attachmentFailed, old(BanksView()), which)
    {
      if !audio.created || transition.None? || transition.value.token != which { return; }
      if !audio.running {
        SettleTransition();
      } else if audio.now + 0.002 < transition.value.endTime {
        timers := timers + multiset{which};
        return;
      } else {
        CompleteTransition();
      }
      TakeUpPending();
    }

    method ForceFlatUnsupported()
      modifies this`wired, this`nextSerial, this`active, this`pending, this`published, this`transition
      ensures BanksView() == ForceFlat(device, audio, attachmentFailed, old(BanksView()), desired)
    {
      if !audio.created {
        published := PendingDiagnostics(audio, attachmentFailed, desired);
        return;
      }
      ReplaceBankImmediately(FLAT_REQUEST);
      published := published.(capability := Unsupported, requested := RequestedId(desired));
    }

    method EnsureAudioContext(c: Creation)
      modifies this`audio, this`wired, this`nextSerial, this`active, this`published
      ensures View() == EnsureContext(device, old(View()), c)
    {
      if audio.unavailable || audio.created { return; }
      if c.Created? { SetUpContext(c); } else { GiveUp(c); }
    }

    /** The context is there: a Flat bank at full gain. */
    method SetUpContext(c: Creation)
      requires c.Created? && !audio.unavailable && !audio.created
      modifies this`audio, this`wired, this`nextSerial, this`active
      ensures View() == EnsureContext(device, old(View()), c)
    {
      audio := Audio(true, false, c.running, c.now);
      var flat := BuildBank(FLAT_REQUEST, 1.0);
      SetOutputGain(flat, Assign(GainOf(BanksView(), flat), 1.0, audio.now));
      active := Some(flat);
    }

    /** The context cannot be made or set up. */
    method GiveUp(c: Creation)
      requires !c.Created? && !audio.unavailable && !audio.created
      modifies this`audio, this`published
      ensures View() == EnsureContext(device, old(View()), c)
    {
      audio := audio.(unavailable := true, created := c.SetupThrows?);
      published := PendingDiagnostics(audio, attachmentFailed, desired);
    }

    method TapOnce(el: Element, ok: bool)
      modifies this
      ensures View() == TapElement(device, old(View()), el, ok)
    {
      if audio.unavailable || el in elements { return; }
      if ok {
        elements := elements + {el};
        attachedCount := attachedCount + 1;
        if attachedCount >= 2 && !attachmentFailed { SwitchBank(desired); }
      } else {
        attachmentFailed := true;
        ForceFlatUnsupported();
      }
    }

    method AttachElement(el: Element, c: Creation, ok: bool)
      modifies this
      ensures View() == Attach(device, old(View()), el, c, ok)
    {
      EnsureAudioContext(c);
      TapOnce(el, ok);
    }

    method ApplyRequest(next: Request)
      modifies this
      ensures View() == SetRequest(device, old(View()), next)
    {
      var signature := AudioSignature(next);
      desired := next;
      if signature == desiredSignature { return; }
      desiredSignature := signature;
      if !audio.created || attachedCount < 2 {
        published := PendingDiagnostics(audio, attachmentFailed, desired);
        return;
      }
      if attachmentFailed {
        ForceFlatUnsupported();
        return;
      }
      SwitchBank(desired);
    }

    method SetEqualizerProfile(profile: Option<Profile>, bypassed: Option<bool>, bass: Num, treble: Num)
      modifies this
      ensures View() == SetRequest(device, old(View()), RequestOf(profile, bypassed, bass, treble))
    {
      ApplyRequest(RequestOf(profile, bypassed, bass, treble));
    }

    method OnTimer(which: nat)
      modifies this`wired, this`nextSerial, this`active, this`pending, this`published, this`transition,
               this`token, this`timers
      ensures BanksView() == Fire(device, audio, attachmentFailed, old(BanksView()), which)
    {
      timers := timers - multiset{which};
      FinishTransition(which);
    }

    method FireFinishTimer(which: nat)
      modifies this
      ensures View() == Next(device, old(View()), FireTimer(which))
    {
      OnTimer(which);
      assert View() == old(View()).(banks := BanksView());
    }

    /** One turn of the event loop is one step of the state machine, and keeps the invariant. */
    method Dispatch(s: Step)
      requires Valid() && Enabled(View(), s)
      modifies this
      ensures Valid() && View() == Next(device, old(View()), s)
    {
      Perform(s);
      NextKeeps(device, old(View()), s);
    }

    method Perform(s: Step)
      requires Enabled(View(), s)
      modifies this
      ensures View() == Next(device, old(View()), s)
    {
      match s {
        case Advance(seconds) => audio := audio.(now := audio.now + seconds);
        case SetRunning(b) => audio := audio.(running := b);
        case FireTimer(which) =>
          FireFinishTimer(which);
        case Tap(el, c, ok) => AttachElement(el, c, ok);
        case Ask(r) => ApplyRequest(r);
      }
    }
  }
}

/** What each entry of the equalizer graph does to banks, taps and diagnostics
    (app/src/player/audioGraph.ts). */
module SwitchActions {
  import opened Rows
  import opened EqualizerBank
  import opened GainAutomation
  import opened EqualizerSwitch

  // ---- what listeners are told ----

  /** The request's profile, if any. */
  predicate Names(id: Option<string>, r: Request) {
    match r.profile
    case Some(p) => id == Some(p.id)
    case None => id == None
  }

  /** Flat: no filters, unit gain, no warning. */
  predicate IsFlatPlan(plan: Plan, bypassed: bool) {
    plan == Plan([], 1.0, bypassed, None, 0.0, 0.0, 0.0, NoWarning)
  }

  /** A bank reports its own request and plan, as unsupported only if it was built Flat after a failed
      attachment. */
  lemma BankSays(d: Device, failed: bool, serial: nat, r: Request)
    ensures var bank := NewBank(d, failed, serial, r);
            var says := BankDiagnostics(bank);
            && bank.serial == serial && bank.request == r && bank.plan == PlanFor(d, r)
            && Names(says.requested, r) && says.applied == bank.plan
            && says.capability == if failed && bank.plan.filters == [] && bank.plan.bypassed then Unsupported else Ready
  {
  }

  /** Before there is a graph: Flat, pending, or unsupported once anything has failed. */
  lemma PendingSays(a: Audio, failed: bool, r: Request)
    requires r.Normalized()
    ensures var says := PendingDiagnostics(a, failed, r);
            && Names(says.requested, r)
            && IsFlatPlan(says.applied, r.bypassed || (r.profile == None && r.bass == 0 && r.treble == 0))
            && says.capability == if failed || a.unavailable then Unsupported else Pending
  {
  }

  // ---- switching ----

  /** Nothing but the banks' own bookkeeping changes hands: the active bank is one for `r`, alone and at
      full gain, nothing is under way or parked, and listeners know. */
  ghost predicate RestsAt(d: Device, now: real, h: Banks, failed: bool, r: Request) {
    && h.active.Some? && h.active.value.request == r && h.active.value.plan == PlanFor(d, r)
    && h.transition == None && h.pending == None && h.published == BankDiagnostics(h.active.value)
    && h.wired.Keys == {h.active.value.serial} && SteadyFrom(h.wired[h.active.value.serial], 1.0, now)
  }

  /** A request meets the graph: while the context is suspended it replaces the bank at once; during a
      switch it is parked, in place of any before it; and otherwise a switch to it begins, lasting a
      twenty-fifth of a second, under the next token and with its timer armed. */
  lemma SwitchIs(d: Device, a: Audio, b: Banks, r: Request)
    requires a.created && !a.unavailable && a.now >= 0.0 && BanksOk(d, a.now, b) && r.Normalized()
    ensures var h := Switch(d, a, false, b, r);
            if !a.running then RestsAt(d, a.now, h, false, r) && h.token == b.token && h.timers == b.timers
            else if b.transition != None then h == b.(pending := Some(r))
            else
              && h.transition.Some?
              && var t := h.transition.value;
                 && t.incoming.request == r && t.incoming.plan == PlanFor(d, r) && Some(t.outgoing) == b.active
                 && t.start == a.now && t.endTime == a.now + 0.04 && t.token == h.token == b.token + 1
                 && h.wired.Keys == {t.outgoing.serial, t.incoming.serial}
                 && h.timers == b.timers + multiset{t.token}
                 && h.active == b.active && h.pending == b.pending && h.published == b.published
  {
    if !a.running {
      ReplaceIs(d, a.now, false, b, r);
    } else if b.transition == None {
      BeginSwitches(d, a.now, b, r);
    }
  }

  lemma ReplaceIs(d: Device, now: real, failed: bool, b: Banks, r: Request)
    requires now >= 0.0 && BanksOk(d, now, b) && r.Normalized()
    ensures var h := Replace(d, now, failed, b, r);
            RestsAt(d, now, h, failed, r) && h.token == b.token && h.timers == b.timers
  {
    if b.transition.Some? {
      assert b.(timers := b.timers + multiset{b.token}).wired == b.wired;
    }
    ReplaceRests(d, now, failed, b, r);
  }

  // ---- timers ----

  /** The bank `r` asked for is taken up: at rest it is replaced or switched to, as a request would. */
  ghost predicate TakesUp(d: Device, a: Audio, h: Banks, incoming: Bank, parked: Option<Request>) {
    match parked
    case None =>
      && h.active == Some(incoming) && h.transition == None && h.pending == None
      && h.published == BankDiagnostics(incoming)
      && h.wired.Keys == {incoming.serial} && SteadyFrom(h.wired[incoming.serial], 1.0, a.now)
    case Some(r) =>
      if !a.running then RestsAt(d, a.now, h, false, r)
      else
        && h.transition.Some? && h.transition.value.incoming.request == r
        && h.transition.value.outgoing == incoming && h.active == Some(incoming)
        && h.transition.value.start == a.now && h.transition.value.endTime == a.now + 0.04
        && h.pending == None && h.published == BankDiagnostics(incoming)
  }

  lemma TakePendingIs(d: Device, a: Audio, b: Banks, incoming: Bank)
    requires a.created && !a.unavailable && a.now >= 0.0 && Rests(d, a.now, b, incoming)
    requires b.pending.Some? ==> b.pending.value.Normalized()
    ensures TakesUp(d, a, TakePending(d, a, false, b), incoming, b.pending)
  {
    var b2 := b.(published := BankDiagnostics(incoming), pending := None);
    assert Rests(d, a.now, b2, incoming);
    if b.pending.Some? { SwitchIs(d, a, b2, b.pending.value); }
  }

  /** A finish timer leaves the queue. Of another switch it does nothing more. Of this one it comes back,
      while the context runs and more than two milliseconds of the fade remain; and otherwise the incoming
      bank takes over, and the parked request, if any, is taken up. */
  lemma TimerIs(d: Device, a: Audio, b: Banks, token: nat)
    requires a.created && !a.unavailable && a.now >= 0.0 && BanksOk(d, a.now, b) && token in b.timers
    requires b.pending.Some? ==> b.pending.value.Normalized()
    ensures var h := Fire(d, a, false, b, token);
            if b.transition == None || b.transition.value.token != token then
              h == b.(timers := b.timers - multiset{token})
            else if a.running && b.transition.value.endTime - a.now > 0.002 then h == b
            else TakesUp(d, a, h, b.transition.value.incoming, b.pending)
  {
    FireIs(d, a, b, token);
    if OwnTimer(b, token) {
      var b0 := b.(timers := b.timers - multiset{token});
      OwnTokenBack(d, a.now, b, b0, token);
      if !a.running {
        SettleRests(d, a.now, b0);
        TakePendingIs(d, a, Settle(a.now, b0), b.transition.value.incoming);
      } else if b.transition.value.endTime - a.now <= 0.002 {
        CompleteRests(d, a.now, b0);
        TakePendingIs(d, a, Complete(a.now, b0), b.transition.value.incoming);
      }
    }
  }

  // ---- failure ----

  /** Flat for good: the active bank asks nothing, alone and at full gain, and listeners are told that
      the equalizer is unsupported, and of which profile. */
  ghost predicate FlatForGood(now: real, h: Banks, desired: Request) {
    && h.active.Some? && h.active.value.request == Request(None, true, 0, 0)
    && IsFlatPlan(h.active.value.plan, true) && h.transition == None && h.pending == None
    && h.wired.Keys == {h.active.value.serial} && SteadyFrom(h.wired[h.active.value.serial], 1.0, now)
    && h.published.capability == Unsupported && Names(h.published.requested, desired)
    && IsFlatPlan(h.published.applied, true)
  }

  lemma ForceFlatIs(d: Device, a: Audio, b: Banks, desired: Request)
    requires a.now >= 0.0 && (a.created ==> BanksOk(d, a.now, b))
    ensures var h := ForceFlat(d, a, true, b, desired);
            if a.created then FlatForGood(a.now, h, desired) && h.timers == b.timers && h.token == b.token
            else h == b.(published := PendingDiagnostics(a, true, desired))
  {
    if a.created { ReplaceIs(d, a.now, true, b, FLAT_REQUEST); }
  }

  // ---- entries ----

  /** At the start there is no context and none has failed, no element is tapped, nothing is asked, no bank
      or timer exists, and listeners are told of a pending Flat equalizer. */
  lemma StartIs()
    ensures var g := INITIAL;
            && g.audio == Audio(false, false, g.audio.running, g.audio.now) && g.taps == Taps({}, 0, false)
            && g.desired == Request(None, true, 0, 0) && g.desiredSignature == AudioSignature(g.desired)
            && g.banks.active == None && g.banks.transition == None && g.banks.pending == None
            && g.banks.wired == map[] && g.banks.timers == multiset{}
            && g.banks.published.capability == EqualizerSwitch.Pending && g.banks.published.requested == None
            && IsFlatPlan(g.banks.published.applied, true)
  {
  }

  /** The context is made once. It starts with a Flat bank at full gain, and nothing is told; when it
      cannot be made, or set up, the equalizer is unavailable from then on, which is told. */
  lemma ContextIs(d: Device, g: Graph, c: Creation)
    requires Inv(d, g) && (c.Created? ==> c.now >= 0.0)
    ensures var h := EnsureContext(d, g, c);
            && h.taps == g.taps && h.desired == g.desired && h.desiredSignature == g.desiredSignature
            && if g.audio.unavailable || g.audio.created then h == g
               else match c
                    case Created(running, now) =>
                      && h.audio == Audio(true, false, running, now)
                      && h.banks.active.Some? && h.banks.active.value.request == Request(None, true, 0, 0)
                      && IsFlatPlan(h.banks.active.value.plan, true)
                      && h.banks.wired.Keys == {h.banks.active.value.serial}
                      && SteadyFrom(h.banks.wired[h.banks.active.value.serial], 1.0, now)
                      && h.banks.transition == None && h.banks.pending == None
                      && h.banks.published == g.banks.published
                    case _ =>
                      && h.audio == g.audio.(unavailable := true, created := c == SetupThrows)
                      && h.banks == g.banks.(published := h.banks.published)
                      && h.banks.published.capability == Unsupported && Names(h.banks.published.requested, g.desired)
  {
    EnsureContextKeeps(d, g, c);
    if !g.audio.unavailable && !g.audio.created && c.Created? {
      AssignAfterCancel(Param(1.0, []), 1.0, c.now);
    }
  }

  /** An element is tapped once. The second and every later one takes up the desired request, unless one
      has failed; a failure makes the graph Flat for good. */
  lemma TapIs(d: Device, g: Graph, el: Element, ok: bool)
    requires Inv(d, g) && (g.audio.unavailable || g.audio.created)
    ensures var h := TapElement(d, g, el, ok);
            && h.audio == g.audio && h.desired == g.desired && h.desiredSignature == g.desiredSignature
            && if g.audio.unavailable || el in g.taps.elements then h == g
               else if ok then
                 && h.taps == Taps(g.taps.elements + {el}, g.taps.count + 1, g.taps.failed)
                 && h.banks == if g.taps.count >= 1 && !g.taps.failed then Switch(d, g.audio, false, g.banks, g.desired)
                               else g.banks
               else h.taps == g.taps.(failed := true) && FlatForGood(g.audio.now, h.banks, g.desired)
  {
    if !g.audio.unavailable && el !in g.taps.elements && !ok {
      ForceFlatIs(d, g.audio, g.banks, g.desired);
    }
  }

  /** A request is kept. One that sounds like the last is nothing else; another is only announced until
      two elements are tapped, makes the graph Flat again after a failure, and is switched to otherwise. */
  lemma AskIs(d: Device, g: Graph, r: Request)
    requires Inv(d, g) && r.Normalized()
    ensures var h := SetRequest(d, g, r);
            && h.audio == g.audio && h.taps == g.taps && h.desired == r && h.desiredSignature == AudioSignature(r)
            && if AudioSignature(r) == g.desiredSignature then h.banks == g.banks
               else if !g.audio.created || g.taps.count <= 1 then
                 && h.banks == g.banks.(published := h.banks.published) && Names(h.banks.published.requested, r)
                 && h.banks.published.capability
                    == if g.audio.unavailable || g.taps.failed then Unsupported else EqualizerSwitch.Pending
               else if g.taps.failed then !g.audio.unavailable ==> FlatForGood(g.audio.now, h.banks, r)
               else h.banks == Switch(d, g.audio, false, g.banks, r)
  {
    if g.audio.created && !g.audio.unavailable && g.taps.failed {
      ForceFlatIs(d, g.audio, g.banks, r);
    }
  }

  /** An attachment is the context, then the tap. */
  lemma AttachIs(d: Device, g: Graph, el: Element, c: Creation, ok: bool)
    ensures Attach(d, g, el, c, ok) == TapElement(d, EnsureContext(d, g, c), el, ok)
  {
  }

  /** Which steps a graph may meet, and that time only passes while the context runs. */
  lemma StepsReach(d: Device, g: Graph, seconds: real, running: bool, token: nat, el: Element, c: Creation, ok: bool,
                   r: Request)
    ensures Enabled(g, Advance(seconds)) <==> seconds >= 0.0 && g.audio.running && g.audio.created
    ensures Enabled(g, SetRunning(running)) <==> g.audio.created
    ensures Enabled(g, FireTimer(token)) <==> g.banks.timers[token] > 0
    ensures Enabled(g, Tap(el, c, ok)) <==> !(c.Created? && c.now < 0.0)
    ensures Enabled(g, Ask(r)) <==> r.Normalized()
    ensures Next(d, g, Advance(seconds)) == g.(audio := g.audio.(now := seconds + g.audio.now))
    ensures Next(d, g, SetRunning(running)) == g.(audio := g.audio.(running := running))
  {
  }
}

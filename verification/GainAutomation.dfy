/** Scheduled gain changes on an audio parameter (Web Audio API 1.1, section 1.6 "The
    AudioParam Interface"): set-value and linear-ramp events in time order. */
module GainAutomation {

  datatype Event = SetAt(value: real, time: real) | RampTo(value: real, time: real)

  datatype Param = Param(base: real, events: seq<Event>)

  /** Value at `t` when the parameter held `value` at `since` and `events` follow. */
  function Eval(value: real, since: real, events: seq<Event>, t: real): real
    decreases |events|
  {
    if events == [] then value
    else if events[0].time <= t then Eval(events[0].value, events[0].time, events[1..], t)
    else if events[0].RampTo? && since < events[0].time && since <= t then
      value + (events[0].value - value) * ((t - since) / (events[0].time - since))
    else value
  }

  function ValueAt(p: Param, t: real): real {
    Eval(p.base, 0.0, p.events, t)
  }

  function Insert(events: seq<Event>, e: Event): seq<Event> {
    if events == [] || events[|events| - 1].time <= e.time then events + [e]
    else Insert(events[..|events| - 1], e) + [events[|events| - 1]]
  }

  /** An event goes after every event at the same or an earlier time. */
  function Schedule(p: Param, e: Event): Param {
    p.(events := Insert(p.events, e))
  }

  function Before(events: seq<Event>, t: real): (r: seq<Event>)
    ensures forall e | e in r :: e in events && e.time < t
  {
    if events == [] then []
    else if events[0].time < t then [events[0]] + Before(events[1..], t)
    else Before(events[1..], t)
  }

  /** `cancelScheduledValues(t)`. */
  function Cancel(p: Param, t: real): Param {
    p.(events := Before(p.events, t))
  }

  /** Assigning `.value` is a set-value event now. */
  function Assign(p: Param, value: real, now: real): Param {
    Schedule(p, SetAt(value, now))
  }

  /** The parameter is constantly `value` from `t` on. */
  ghost predicate SteadyFrom(p: Param, value: real, t: real) {
    forall u | u >= t :: ValueAt(p, u) == value
  }

  const SWITCH_SECONDS := 0.04

  /** The envelope of the outgoing bank: one now, down to zero at the midpoint. */
  function FadeOut(p: Param, now: real): Param {
    Schedule(Schedule(Schedule(Cancel(p, now), SetAt(1.0, now)),
                      RampTo(0.0, now + SWITCH_SECONDS / 2.0)),
             SetAt(0.0, now + SWITCH_SECONDS))
  }

  /** The envelope of the incoming bank: zero up to the midpoint, then up to one. */
  function FadeIn(p: Param, now: real): Param {
    Schedule(Schedule(Schedule(Cancel(p, now), SetAt(0.0, now)),
                      SetAt(0.0, now + SWITCH_SECONDS / 2.0)),
             RampTo(1.0, now + SWITCH_SECONDS))
  }

  // ---- laws ----

  /** Past events matter only through the last value they set. */
  lemma {:induction false} PastIsForgotten(value: real, since: real, past: seq<Event>, e: Event, rest: seq<Event>,
                                           t: real)
    requires forall x | x in past :: x.time <= t
    requires e.time <= t
    ensures Eval(value, since, past + [e] + rest, t) == Eval(e.value, e.time, rest, t)
    decreases |past|
  {
    if past == [] {
      assert past + [e] + rest == [e] + rest;
    } else {
      assert (past + [e] + rest)[1..] == past[1..] + [e] + rest;
      PastIsForgotten(past[0].value, past[0].time, past[1..], e, rest, t);
    }
  }

  lemma FadeEvents(p: Param, now: real)
    ensures FadeOut(p, now).events == Before(p.events, now)
              + [SetAt(1.0, now)] + [RampTo(0.0, now + 0.02), SetAt(0.0, now + 0.04)]
    ensures FadeIn(p, now).events == Before(p.events, now)
              + [SetAt(0.0, now)] + [SetAt(0.0, now + 0.02), RampTo(1.0, now + 0.04)]
  {
    var past := Before(p.events, now);
    assert past != [] ==> past[|past| - 1] in past;
    assert Insert(past, SetAt(1.0, now)) == past + [SetAt(1.0, now)];
    assert Insert(past, SetAt(0.0, now)) == past + [SetAt(0.0, now)];
  }

  lemma OutgoingTail(now: real, t: real)
    requires now <= t
    ensures Eval(1.0, now, [RampTo(0.0, now + 0.02), SetAt(0.0, now + 0.04)], t)
            == if t < now + 0.02 then 1.0 - (t - now) / 0.02 else 0.0
  {
    var events := [RampTo(0.0, now + 0.02), SetAt(0.0, now + 0.04)];
    assert events[1..] == [SetAt(0.0, now + 0.04)];
    if t < now + 0.02 {
      assert now + 0.02 - now == 0.02;
      assert Eval(1.0, now, events, t) == 1.0 + (0.0 - 1.0) * ((t - now) / 0.02);
    } else {
      assert Eval(1.0, now, events, t) == Eval(0.0, now + 0.02, events[1..], t);
    }
  }

  lemma IncomingTail(now: real, t: real)
    requires now <= t
    ensures Eval(0.0, now, [SetAt(0.0, now + 0.02), RampTo(1.0, now + 0.04)], t)
            == if t < now + 0.02 then 0.0 else if t < now + 0.04 then (t - now - 0.02) / 0.02 else 1.0
  {
    var ramp := [RampTo(1.0, now + 0.04)];
    assert [SetAt(0.0, now + 0.02), RampTo(1.0, now + 0.04)][1..] == ramp;
    if now + 0.02 <= t < now + 0.04 {
      assert now + 0.04 - (now + 0.02) == 0.02;
      assert Eval(0.0, now + 0.02, ramp, t) == 0.0 + (1.0 - 0.0) * ((t - (now + 0.02)) / 0.02);
    }
  }

  /** Closed forms of the two envelopes. */
  lemma FadeShapes(p: Param, now: real, t: real)
    requires now <= t
    ensures ValueAt(FadeOut(p, now), t) == if t < now + 0.02 then 1.0 - (t - now) / 0.02 else 0.0
    ensures ValueAt(FadeIn(p, now), t)
            == if t < now + 0.02 then 0.0 else if t < now + 0.04 then (t - now - 0.02) / 0.02 else 1.0
  {
    FadeEvents(p, now);
    var past := Before(p.events, now);
    PastIsForgotten(p.base, 0.0, past, SetAt(1.0, now), [RampTo(0.0, now + 0.02), SetAt(0.0, now + 0.04)], t);
    PastIsForgotten(p.base, 0.0, past, SetAt(0.0, now), [SetAt(0.0, now + 0.02), RampTo(1.0, now + 0.04)], t);
    OutgoingTail(now, t);
    IncomingTail(now, t);
  }

  /** The two sides of a switch are never audible together, start at full and at nothing, and
      end the other way round; neither leaves [0, 1]. */
  lemma SwitchNeverOverlaps(p: Param, q: Param, now: real, t: real)
    requires now <= t
    ensures ValueAt(FadeOut(p, now), t) == 0.0 || ValueAt(FadeIn(q, now), t) == 0.0
    ensures 0.0 <= ValueAt(FadeOut(p, now), t) <= 1.0 && 0.0 <= ValueAt(FadeIn(q, now), t) <= 1.0
    ensures t == now ==> ValueAt(FadeOut(p, now), t) == 1.0 && ValueAt(FadeIn(q, now), t) == 0.0
    ensures t >= now + SWITCH_SECONDS ==> ValueAt(FadeOut(p, now), t) == 0.0 && ValueAt(FadeIn(q, now), t) == 1.0
  {
    FadeShapes(p, now, t);
    FadeShapes(q, now, t);
  }

  lemma AssignLast(p: Param, value: real, now: real)
    requires forall e | e in p.events :: e.time <= now
    ensures SteadyFrom(Assign(p, value, now), value, now)
  {
    assert Assign(p, value, now).events == p.events + [SetAt(value, now)] + [] by {
      assert p.events != [] ==> p.events[|p.events| - 1] in p.events;
    }
    forall u | u >= now ensures ValueAt(Assign(p, value, now), u) == value {
      PastIsForgotten(p.base, 0.0, p.events, SetAt(value, now), [], u);
    }
  }

  /** An assignment that lands before the end of a ramp to the same value makes it flat. */
  lemma AssignBeforeRamp(base: real, past: seq<Event>, ramp: Event, now: real)
    requires forall e | e in past :: e.time <= now
    requires ramp.RampTo? && now < ramp.time
    ensures SteadyFrom(Assign(Param(base, past + [ramp]), ramp.value, now), ramp.value, now)
  {
    var pin := SetAt(ramp.value, now);
    assert past != [] ==> past[|past| - 1] in past;
    assert (past + [ramp])[..|past|] == past;
    assert Insert(past + [ramp], pin) == past + [pin] + [ramp];
    forall u | u >= now ensures ValueAt(Assign(Param(base, past + [ramp]), ramp.value, now), u) == ramp.value {
      PastIsForgotten(base, 0.0, past, pin, [ramp], u);
      assert [ramp][1..] == [];
    }
  }

  /** Assigning 1 once the fade-in is past its midpoint makes the parameter constantly 1. */
  lemma AssignAfterFadeIn(p: Param, start: real, now: real)
    requires now >= start + 0.02
    ensures SteadyFrom(Assign(FadeIn(p, start), 1.0, now), 1.0, now)
  {
    FadeEvents(p, start);
    var past := Before(p.events, start) + [SetAt(0.0, start)] + [SetAt(0.0, start + 0.02)];
    var ramp := RampTo(1.0, start + 0.04);
    assert FadeIn(p, start) == Param(p.base, past + [ramp]);
    if now >= ramp.time {
      AssignLast(FadeIn(p, start), 1.0, now);
    } else {
      AssignBeforeRamp(p.base, past, ramp, now);
    }
  }

  /** With the schedule cleared, an assignment settles the value for good. */
  lemma AssignAfterCancel(p: Param, value: real, now: real)
    requires now >= 0.0
    ensures SteadyFrom(Assign(p.(events := []), value, now), value, now)
  {
  }
}

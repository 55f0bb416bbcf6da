/** The equalizer store's view of the resolved equalizer (app/src/equalizer/store.ts): unsolicited
    events, loads in flight, and changes of the account scope. */
module ResolvedEvents {
  import opened Rows

  const STATE_FORMAT_VERSION := 2

  /** `BigInt(text)`, none when it throws. */
  type BigInt = string -> Option<int>

  datatype Resolved = Resolved(profile: Option<string>, output: Option<string>, epoch: string, generation: string)

  datatype Snapshot = Snapshot(futureFormat: bool, localOnly: bool, formatVersion: nat, preferences: string,
                               resolved: Resolved)

  datatype Preview = Preview(audible: bool, bypassed: bool, profile: Option<string>, stopped: bool)

  const NO_PREVIEW := Preview(false, false, None, false)

  /** The store's fields, and the ticket of the newest load or reset. */
  datatype Store = Store(snapshot: Option<Snapshot>, conflicts: seq<int>, resolved: Option<Resolved>,
                         output: Option<string>, preview: Preview, loading: bool, error: Option<string>, ticket: nat)

  const EMPTY := Store(None, [], None, None, NO_PREVIEW, false, None, 0)

  const NEWER_CLIENT := "This equalizer state requires a newer Octave client. Playback is Flat."

  /** `generationIsNewer`. */
  predicate Newer(big: BigInt, next: string, current: string) {
    big(next).Some? && big(current).Some? && big(next).value > big(current).value
  }

  /** The event belongs to the current scope and is newer than what is shown. */
  predicate Accepts(big: BigInt, current: Option<Resolved>, next: Resolved) {
    && current.Some? && next.epoch == current.value.epoch
    && Newer(big, next.generation, current.value.generation)
  }

  /** `acceptResolvedEvent`. */
  function AcceptEvent(big: BigInt, s: Store, next: Resolved): Store {
    if !Accepts(big, s.resolved, next) then s
    else s.(resolved := Some(next), output := next.output,
            preview := s.preview.(audible := false, bypassed := false,
                                  stopped := s.preview.stopped || s.preview.audible))
  }

  predicate Supported(n: Snapshot) {
    !n.futureFormat && (n.localOnly || n.formatVersion == STATE_FORMAT_VERSION)
  }

  // ---- loads ----

  function BeginLoad(s: Store): Store {
    s.(ticket := s.ticket + 1, loading := true, error := None)
  }

  function FinishLoad(s: Store, ticket: nat, n: Snapshot, conflicts: seq<int>): Store {
    if ticket != s.ticket then s
    else s.(snapshot := Some(n), conflicts := conflicts,
            resolved := Some(if Supported(n) then n.resolved else n.resolved.(profile := None)),
            loading := false, error := if Supported(n) then None else Some(NEWER_CLIENT))
  }

  function FailLoad(s: Store, ticket: nat, message: string): Store {
    if ticket != s.ticket then s else s.(loading := false, error := Some(message))
  }

  /** `resetForScopeChange`. */
  function Reset(s: Store): Store {
    EMPTY.(ticket := s.ticket + 1)
  }

  // ---- writes with no ticket to check ----

  /** What a finished profile or rule change installs. */
  function FinishMutation(s: Store, n: Snapshot): Store {
    s.(snapshot := Some(n), resolved := Some(n.resolved))
  }

  /** `setManualOverride` and `clearManualOverride`, answered. */
  function Override(s: Store, r: Resolved): Store {
    s.(resolved := Some(r), error := None)
  }

  /** `setPreferences` up to its first `await`: shown at once, on the snapshot there is. */
  function BeginPreferences(s: Store, preferences: string): Store {
    if s.snapshot.None? then s else s.(snapshot := Some(s.snapshot.value.(preferences := preferences)))
  }

  function SavePreferences(s: Store, n: Snapshot): Store {
    s.(snapshot := Some(n), resolved := Some(n.resolved), error := None)
  }

  /** The refused write puts back what its call had found. */
  function RejectPreferences(s: Store, before: Option<Snapshot>, message: string): Store {
    s.(snapshot := before, error := Some(message))
  }

  /** `refreshOutputs`: what it found, or what the resolution says when it failed. */
  function ShowOutputs(s: Store, found: Option<Option<string>>): Store {
    s.(output := if found.Some? then found.value else if s.resolved.Some? then s.resolved.value.output else None)
  }

  // ---- events: any order, any duplication ----

  function Deliver(big: BigInt, current: Option<Resolved>, events: seq<Resolved>): Option<Resolved> {
    if events == [] then current
    else
      var rest := Deliver(big, current, events[..|events| - 1]);
      if Accepts(big, rest, events[|events| - 1]) then Some(events[|events| - 1]) else rest
  }

  /** What is shown after a run of events is what the events deliver. */
  lemma {:induction false} EventsDeliver(big: BigInt, s: Store, events: seq<Resolved>, states: seq<Store>)
    requires |states| == |events| + 1 && states[0] == s
    requires forall i | 0 <= i < |events| :: states[i + 1] == AcceptEvent(big, states[i], events[i])
    ensures states[|events|].resolved == Deliver(big, s.resolved, events)
    ensures states[|events|].ticket == s.ticket && states[|events|].snapshot == s.snapshot
  {
    if events == [] {
    } else {
      EventsDeliver(big, s, events[..|events| - 1], states[..|events|]);
    }
  }

  /** `x` is shown at the end: what was there or one of the events, of the same scope, and no event
      of that scope is newer. */
  ghost predicate Newest(big: BigInt, current: Resolved, events: seq<Resolved>, x: Resolved) {
    && (x == current || (x in events && x.epoch == current.epoch && Newer(big, x.generation, current.generation)))
    && forall e | e in events && e.epoch == current.epoch :: !Newer(big, e.generation, x.generation)
  }

  /** Whatever the order and however often repeated, the events end at the largest generation of
      the current scope; an unparsable current generation is never replaced. */
  lemma {:induction false} DeliverIsNewest(big: BigInt, current: Resolved, events: seq<Resolved>)
    ensures var r := Deliver(big, Some(current), events);
            && r.Some? && Newest(big, current, events, r.value)
            && (big(current.generation).None? ==> r.value == current)
  {
    if events == [] {
    } else {
      var front, e := events[..|events| - 1], events[|events| - 1];
      DeliverIsNewest(big, current, front);
      assert events == front + [e];
      var rest := Deliver(big, Some(current), front).value;
      forall x | x in events && x.epoch == current.epoch
        ensures !Newer(big, x.generation, Deliver(big, Some(current), events).value.generation)
      {
        if x in front { assert !Newer(big, x.generation, rest.generation); }
      }
    }
  }

  /** A generation names one resolution within a scope. */
  ghost predicate Consistent(big: BigInt, events: seq<Resolved>) {
    forall a, b | a in events && b in events && a.epoch == b.epoch
                  && big(a.generation).Some? && big(a.generation) == big(b.generation) :: a == b
  }

  /** Two deliveries of the same events end the same, in whatever order and multiplicity. */
  lemma {:induction false} OrderDoesNotMatter(big: BigInt, current: Resolved, xs: seq<Resolved>, ys: seq<Resolved>)
    requires forall e :: e in xs <==> e in ys
    requires Consistent(big, xs)
    ensures Deliver(big, Some(current), xs) == Deliver(big, Some(current), ys)
  {
    DeliverIsNewest(big, current, xs);
    DeliverIsNewest(big, current, ys);
    var x, y := Deliver(big, Some(current), xs).value, Deliver(big, Some(current), ys).value;
    assert !Newer(big, x.generation, y.generation) && !Newer(big, y.generation, x.generation);
  }

  /** The accepted events of the largest generation are all one event. */
  ghost predicate OneNewest(big: BigInt, current: Resolved, events: seq<Resolved>) {
    forall a, b | a in events && b in events && Top(big, current, events, a) && Top(big, current, events, b) :: a == b
  }

  /** The event is accepted, and none of its scope is newer. */
  ghost predicate Top(big: BigInt, current: Resolved, events: seq<Resolved>, a: Resolved) {
    && Accepts(big, Some(current), a)
    && forall e | e in events && e.epoch == current.epoch :: !Newer(big, e.generation, a.generation)
  }

  ghost predicate SameEvents(xs: seq<Resolved>, ys: seq<Resolved>) {
    forall e :: e in xs <==> e in ys
  }

  lemma {:induction false} EndsAtTop(big: BigInt, current: Resolved, events: seq<Resolved>)
    ensures Deliver(big, Some(current), events).Some?
    ensures var r := Deliver(big, Some(current), events).value;
            && (r == current || (r in events && Top(big, current, events, r)))
            && (r == current ==> forall e | e in events :: !Accepts(big, Some(current), e))
  {
    DeliverIsNewest(big, current, events);
  }

  /** A newest event that comes first stays. */
  lemma {:induction false} TopFirstStays(big: BigInt, current: Resolved, events: seq<Resolved>, a: Resolved)
    requires Top(big, current, events, a)
    ensures Deliver(big, Some(current), [a] + events) == Some(a)
  {
    var all := [a] + events;
    if events == [] {
      assert all[..0] == [];
    } else {
      var front := events[..|events| - 1];
      var last := events[|events| - 1];
      assert all[..|all| - 1] == [a] + front && all[|all| - 1] == last && last in events;
      TopFirstStays(big, current, front, a);
    }
  }

  /** Every delivery of the same events ends the same exactly when the newest accepted ones are all
      equal. */
  lemma {:induction false} OrderMattersExactly(big: BigInt, current: Resolved, xs: seq<Resolved>)
    ensures (forall ys | SameEvents(xs, ys) :: Deliver(big, Some(current), ys) == Deliver(big, Some(current), xs))
            <==> OneNewest(big, current, xs)
  {
    if OneNewest(big, current, xs) {
      EndsAtTop(big, current, xs);
      forall ys | SameEvents(xs, ys) ensures Deliver(big, Some(current), ys) == Deliver(big, Some(current), xs) {
        EndsAtTop(big, current, ys);
        DeliverIsNewest(big, current, ys);
        DeliverIsNewest(big, current, xs);
      }
    } else {
      var a, b :| a in xs && b in xs && Top(big, current, xs, a) && Top(big, current, xs, b) && a != b;
      TopFirstStays(big, current, xs, a);
      TopFirstStays(big, current, xs, b);
      assert SameEvents(xs, [a] + xs) && SameEvents(xs, [b] + xs);
    }
  }

  // ---- loads and resets in any order ----

  /** A step of the store: a load begins, finishes or fails, the scope changes, an event comes, or a
      call that holds no ticket is answered. A preference write carries the snapshot its call had
      found. */
  datatype Step =
    | Begin
    | Finish(ticket: nat, snapshot: Snapshot, conflicts: seq<int>)
    | Fail(ticket: nat, message: string)
    | Change
    | Event(event: Resolved)
    | Mutated(snapshot: Snapshot)
    | ConflictResolved(snapshot: Snapshot, conflicts: seq<int>)
    | Overridden(resolved: Resolved)
    | PreferencesBegun(preferences: string)
    | PreferencesSaved(before: Option<Snapshot>, snapshot: Snapshot)
    | PreferencesRejected(before: Option<Snapshot>, message: string)
    | OutputsShown(found: Option<Option<string>>)
    | Refused(message: string)

  /** The store, the loads in flight, and what the preference writes in flight had found. */
  datatype World = World(store: Store, flying: set<nat>, writes: multiset<Option<Snapshot>>)

  /** A load or a write ends at most once. */
  predicate Enabled(w: World, step: Step) {
    match step
    case Finish(t, _, _) => t in w.flying
    case Fail(t, _) => t in w.flying
    case PreferencesSaved(before, _) => before in w.writes
    case PreferencesRejected(before, _) => before in w.writes
    case _ => true
  }

  function NextStore(big: BigInt, s: Store, step: Step): Store {
    match step
    case Begin => BeginLoad(s)
    case Finish(t, n, c) => FinishLoad(s, t, n, c)
    case Fail(t, m) => FailLoad(s, t, m)
    case Change => Reset(s)
    case Event(e) => AcceptEvent(big, s, e)
    case Mutated(n) => FinishMutation(s, n)
    case ConflictResolved(n, c) => FinishMutation(s, n).(conflicts := c)
    case Overridden(r) => Override(s, r)
    case PreferencesBegun(p) => BeginPreferences(s, p)
    case PreferencesSaved(_, n) => SavePreferences(s, n)
    case PreferencesRejected(before, m) => RejectPreferences(s, before, m)
    case OutputsShown(found) => ShowOutputs(s, found)
    case Refused(m) => s.(error := Some(m))
  }

  function Next(big: BigInt, w: World, step: Step): World {
    var s := NextStore(big, w.store, step);
    match step
    case Begin => World(s, w.flying + {s.ticket}, w.writes)
    case Finish(t, _, _) => World(s, w.flying - {t}, w.writes)
    case Fail(t, _) => World(s, w.flying - {t}, w.writes)
    case PreferencesBegun(_) => World(s, w.flying, w.writes + multiset{w.store.snapshot})
    case PreferencesSaved(before, _) => World(s, w.flying, w.writes - multiset{before})
    case PreferencesRejected(before, _) => World(s, w.flying, w.writes - multiset{before})
    case _ => World(s, w.flying, w.writes)
  }

  ghost predicate Run(big: BigInt, ws: seq<World>, steps: seq<Step>) {
    && |ws| == |steps| + 1
    && forall i | 0 <= i < |steps| :: Enabled(ws[i], steps[i]) && ws[i + 1] == Next(big, ws[i], steps[i])
  }

  /** The store is loading exactly while its newest load is in flight. */
  ghost predicate Inv(w: World) {
    && (forall t | t in w.flying :: t <= w.store.ticket)
    && (w.store.loading <==> w.store.ticket in w.flying)
  }

  lemma NextKeepsInv(big: BigInt, w: World, step: Step)
    requires Inv(w) && Enabled(w, step)
    ensures Inv(Next(big, w, step)) && w.store.ticket <= Next(big, w, step).store.ticket
  {
  }

  lemma {:induction false} RunKeepsInv(big: BigInt, ws: seq<World>, steps: seq<Step>)
    requires Run(big, ws, steps) && Inv(ws[0])
    ensures Inv(ws[|steps|]) && ws[0].store.ticket <= ws[|steps|].store.ticket
  {
    if steps == [] {
    } else {
      var n := |steps| - 1;
      RunKeepsInv(big, ws[..n + 1], steps[..n]);
      NextKeepsInv(big, ws[n], steps[n]);
    }
  }

  /** The steps that take a new ticket. */
  predicate Restarts(step: Step) { step.Begin? || step.Change? }

  /** Writes of the snapshot that hold no ticket. */
  predicate WritesSnapshot(step: Step) {
    step.Mutated? || step.ConflictResolved? || step.PreferencesSaved? || step.PreferencesRejected?
  }

  function Written(step: Step): Option<Snapshot>
    requires WritesSnapshot(step)
  {
    if step.PreferencesRejected? then step.before else Some(step.snapshot)
  }

  /** The same snapshot but for the preferences, which a pending write may show early. */
  predicate Alike(a: Option<Snapshot>, b: Option<Snapshot>) {
    (a.None? <==> b.None?) && (a.Some? ==> a.value.(preferences := "") == b.value.(preferences := ""))
  }

  /** Step `k` sets the snapshot: it is an unticketed write, or the newest load finishing. */
  predicate Sets(step: Step, ticket: nat) {
    WritesSnapshot(step) || (step.Finish? && step.ticket == ticket)
  }

  function Value(step: Step): Option<Snapshot>
    requires WritesSnapshot(step) || step.Finish?
  {
    if step.Finish? then Some(step.snapshot) else Written(step)
  }

  lemma StepOnSnapshot(big: BigInt, s: Store, step: Step)
    requires !Restarts(step)
    ensures var h := NextStore(big, s, step);
            && h.ticket == s.ticket
            && Alike(h.snapshot, if Sets(step, s.ticket) then Value(step) else s.snapshot)
  {
  }

  /** Only the newest load installs: while nothing newer begins and the scope does not change, the
      loads in flight may end in any order, and the snapshot is what the last step to set it set:
      an unticketed write or the newest load, never an older one. */
  lemma {:induction false} OnlyTheNewestLoadInstalls(big: BigInt, ws: seq<World>, steps: seq<Step>, k: int)
    requires Run(big, ws, steps) && Inv(ws[0]) && forall i | 0 <= i < |steps| :: !Restarts(steps[i])
    requires -1 <= k < |steps| && (k >= 0 ==> Sets(steps[k], ws[0].store.ticket))
    requires forall i | k < i < |steps| :: !Sets(steps[i], ws[0].store.ticket)
    ensures var last := ws[|steps|].store;
            && last.ticket == ws[0].store.ticket
            && Alike(last.snapshot, if k < 0 then ws[0].store.snapshot else Value(steps[k]))
  {
    if steps == [] {
    } else {
      var n := |steps| - 1;
      assert Enabled(ws[n], steps[n]) && ws[n + 1] == Next(big, ws[n], steps[n]);
      if k < n {
        OnlyTheNewestLoadInstalls(big, ws[..n + 1], steps[..n], k);
      } else {
        TicketStays(big, ws[..n + 1], steps[..n]);
      }
      StepOnSnapshot(big, ws[n].store, steps[n]);
      assert ws[n + 1].store == NextStore(big, ws[n].store, steps[n]);
    }
  }

  lemma {:induction false} TicketStays(big: BigInt, ws: seq<World>, steps: seq<Step>)
    requires Run(big, ws, steps) && forall i | 0 <= i < |steps| :: !Restarts(steps[i])
    ensures ws[|steps|].store.ticket == ws[0].store.ticket
  {
    if steps == [] {
    } else {
      var n := |steps| - 1;
      TicketStays(big, ws[..n + 1], steps[..n]);
      StepOnSnapshot(big, ws[n].store, steps[n]);
      assert ws[n + 1].store == NextStore(big, ws[n].store, steps[n]);
    }
  }

  /** A format this client can play: not marked as newer, and local or of version 2. */
  predicate Playable(n: Snapshot) {
    match (n.futureFormat, n.localOnly)
    case (true, _) => false
    case (false, true) => true
    case (false, false) => n.formatVersion == 2
  }

  /** What the newest load installs: its snapshot, conflicts and resolution, without the profile and
      with a message exactly when the format is not playable; what it leaves alone. */
  lemma LoadInstalls(s: Store, n: Snapshot, conflicts: seq<int>)
    ensures var h := FinishLoad(s, s.ticket, n, conflicts);
            && h == s.(snapshot := Some(n), conflicts := conflicts, resolved := h.resolved, loading := false,
                       error := h.error)
            && h.resolved.Some? && h.resolved.value == n.resolved.(profile := h.resolved.value.profile)
            && h.resolved.value.profile == (if Playable(n) then n.resolved.profile else None)
            && h.error == if Playable(n) then None
                          else Some("This equalizer state requires a newer Octave client. Playback is Flat.")
  {
  }

  /** A load that a newer load or a scope change has overtaken leaves the store alone. */
  lemma OvertakenLoadIsIdle(w: World, ticket: nat, n: Snapshot, conflicts: seq<int>, message: string)
    requires Inv(w) && ticket in w.flying && ticket != w.store.ticket
    ensures ticket < w.store.ticket
    ensures FinishLoad(w.store, ticket, n, conflicts) == w.store && FailLoad(w.store, ticket, message) == w.store
  {
  }

  /** Writes of the resolution that hold no ticket. */
  predicate WritesResolved(step: Step) {
    step.Mutated? || step.ConflictResolved? || step.PreferencesSaved? || step.Overridden?
  }

  function Resolution(step: Step): Resolved
    requires WritesResolved(step)
  {
    if step.Overridden? then step.resolved else step.snapshot.resolved
  }

  /** The resolution of the last unticketed write, apart from later events of its scope. */
  ghost predicate ResolvedByWrite(steps: seq<Step>, n: nat, r: Resolved)
    requires n <= |steps|
  {
    exists i :: 0 < i < n && WritesResolved(steps[i]) && Resolution(steps[i]).epoch == r.epoch
                && forall j | i < j < n :: !WritesResolved(steps[j])
  }

  /** The snapshot of an unticketed write that no later write has taken away. */
  ghost predicate SnapshotByWrite(steps: seq<Step>, n: nat)
    requires n <= |steps|
  {
    exists i :: 0 < i < n && WritesSnapshot(steps[i]) && Written(steps[i]).Some?
                && forall j | i < j < n :: WritesSnapshot(steps[j]) ==> Written(steps[j]).Some?
  }

  /** What a step does while no load in flight is the newest. */
  lemma StepAfterChange(big: BigInt, w: World, step: Step)
    requires Enabled(w, step) && !Restarts(step) && w.store.ticket !in w.flying && !w.store.loading
    ensures var s, h := w.store, NextStore(big, w.store, step);
            && (if WritesResolved(step) then h.resolved == Some(Resolution(step))
                else (h.resolved.Some? <==> s.resolved.Some?)
                     && (h.resolved.Some? ==> h.resolved.value.epoch == s.resolved.value.epoch))
            && (h.snapshot.Some? <==> if WritesSnapshot(step) then Written(step).Some? else s.snapshot.Some?)
            && (h.conflicts == s.conflicts || step.ConflictResolved?)
            && !h.loading
  {
  }

  /** After a scope change, until a load begins: no older load brings anything back, nor does an
      event while nothing is resolved. What does are exactly the calls answered late that hold no
      ticket: a resolution is shown if and only if one of them has written it, and it then has
      the scope of the last that did; a snapshot is shown if and only if one has been written and
      no refused preference write has taken it away again. */
  lemma {:induction false} ChangeForgets(big: BigInt, ws: seq<World>, steps: seq<Step>)
    requires Run(big, ws, steps) && Inv(ws[0]) && steps != [] && steps[0].Change?
    requires forall i | 0 < i < |steps| :: !Restarts(steps[i])
    ensures var last := ws[|steps|].store;
            && (last.resolved.Some? <==> exists i :: 0 < i < |steps| && WritesResolved(steps[i]))
            && (last.resolved.Some? ==> ResolvedByWrite(steps, |steps|, last.resolved.value))
            && (last.snapshot.Some? <==> SnapshotByWrite(steps, |steps|))
            && (last.conflicts != [] ==> exists i :: 0 < i < |steps| && steps[i].ConflictResolved?)
            && !last.loading
  {
    var n := |steps| - 1;
    assert Enabled(ws[n], steps[n]) && ws[n + 1] == Next(big, ws[n], steps[n]);
    if n == 0 {
    } else {
      ChangeForgets(big, ws[..n + 1], steps[..n]);
      ChangedTicketIsNew(big, ws, steps, n);
      StepAfterChange(big, ws[n], steps[n]);
      WritesExtend(steps, n);
      if ws[n + 1].store.resolved.Some? {
        ResolvedExtends(steps, n, ws[n].store.resolved, ws[n + 1].store.resolved);
      }
      SnapshotExtends(steps, n);
    }
  }

  lemma WritesExtend(steps: seq<Step>, n: nat)
    requires n == |steps| - 1
    ensures (exists i :: 0 < i < |steps| && WritesResolved(steps[i]))
            <==> (n > 0 && WritesResolved(steps[n])) || exists i :: 0 < i < n && WritesResolved(steps[..n][i])
    ensures (exists i :: 0 < i < n && steps[..n][i].ConflictResolved?)
            ==> exists i :: 0 < i < |steps| && steps[i].ConflictResolved?
  {
    forall i | 0 <= i < n ensures steps[..n][i] == steps[i] {}
    if i :| 0 < i < |steps| && WritesResolved(steps[i]) {
      if i < n { assert WritesResolved(steps[..n][i]); }
    }
  }

  lemma SnapshotExtends(steps: seq<Step>, n: nat)
    requires 0 < n < |steps|
    ensures SnapshotByWrite(steps, n + 1)
            <==> if WritesSnapshot(steps[n]) then Written(steps[n]).Some? else SnapshotByWrite(steps, n)
    ensures SnapshotByWrite(steps[..n], n) <==> SnapshotByWrite(steps, n)
  {
    if SnapshotByWrite(steps, n) {
      var i :| 0 < i < n && WritesSnapshot(steps[i]) && Written(steps[i]).Some?
               && forall j | i < j < n :: WritesSnapshot(steps[j]) ==> Written(steps[j]).Some?;
      assert steps[..n][i] == steps[i];
    }
    if SnapshotByWrite(steps[..n], n) {
      var i :| 0 < i < n && WritesSnapshot(steps[..n][i]) && Written(steps[..n][i]).Some?
               && forall j | i < j < n :: WritesSnapshot(steps[..n][j]) ==> Written(steps[..n][j]).Some?;
      forall j | i < j < n ensures WritesSnapshot(steps[j]) ==> Written(steps[j]).Some? {
        assert steps[..n][j] == steps[j];
      }
      assert steps[..n][i] == steps[i];
    }
  }

  lemma ResolvedExtends(steps: seq<Step>, n: nat, before: Option<Resolved>, after: Option<Resolved>)
    requires 0 < n < |steps| && after.Some?
    requires if WritesResolved(steps[n]) then after == Some(Resolution(steps[n]))
             else before.Some? && after.value.epoch == before.value.epoch
    requires before.Some? ==> ResolvedByWrite(steps[..n], n, before.value)
    ensures ResolvedByWrite(steps, n + 1, after.value)
  {
    if !WritesResolved(steps[n]) {
      var i :| 0 < i < n && WritesResolved(steps[..n][i]) && Resolution(steps[..n][i]).epoch == before.value.epoch
               && forall j | i < j < n :: !WritesResolved(steps[..n][j]);
      assert steps[..n][i] == steps[i];
      forall j | i < j < n + 1 ensures !WritesResolved(steps[j]) {
        if j < n { assert steps[..n][j] == steps[j]; }
      }
    }
  }

  /** No load in flight holds the ticket of a scope change. */
  lemma {:induction false} ChangedTicketIsNew(big: BigInt, ws: seq<World>, steps: seq<Step>, i: nat)
    requires Run(big, ws, steps) && Inv(ws[0]) && 0 < i <= |steps| && steps[0].Change?
    requires forall j | 0 < j < |steps| :: !Restarts(steps[j])
    ensures ws[i].store.ticket == ws[0].store.ticket + 1 && ws[i].store.ticket !in ws[i].flying
  {
    assert Enabled(ws[i - 1], steps[i - 1]) && ws[i] == Next(big, ws[i - 1], steps[i - 1]);
    if i <= 1 {
    } else {
      ChangedTicketIsNew(big, ws, steps, i - 1);
    }
  }

  // ---- the store's actions ----

  class EqualizerStore {
    const big: BigInt
    var snapshot: Option<Snapshot>
    var conflicts: seq<int>
    var resolved: Option<Resolved>
    var currentOutput: Option<string>
    var preview: Preview
    var loading: bool
    var error: Option<string>
    var scopeLoadGeneration: nat

    ghost function View(): Store
      reads this
    {
      Store(snapshot, conflicts, resolved, currentOutput, preview, loading, error, scopeLoadGeneration)
    }

    constructor (big: BigInt)
      ensures View() == EMPTY && this.big == big
    {
      this.big := big;
      snapshot, conflicts, resolved, currentOutput := None, [], None, None;
      preview, loading, error, scopeLoadGeneration := NO_PREVIEW, false, None, 0;
    }

    method AcceptResolvedEvent(next: Resolved)
      modifies this
      ensures View() == AcceptEvent(big, old(View()), next)
    {
      if resolved.None? || next.epoch != resolved.value.epoch { return; }
      if !Newer(big, next.generation, resolved.value.generation) { return; }
      var previewStopped := preview.audible;
      resolved := Some(next);
      currentOutput := next.output;
      preview := preview.(audible := false, bypassed := false);
      if previewStopped { preview := preview.(stopped := true); }
    }

    /** `load` up to its first `await`; the ticket stays with the call. */
    method BeginLoading() returns (generation: nat)
      modifies this
      ensures View() == BeginLoad(old(View())) && generation == scopeLoadGeneration
    {
      scopeLoadGeneration := scopeLoadGeneration + 1;
      generation := scopeLoadGeneration;
      loading, error := true, None;
    }

    /** `load` once both answers are there. */
    method FinishLoading(generation: nat, n: Snapshot, found: seq<int>)
      modifies this
      ensures View() == FinishLoad(old(View()), generation, n, found)
    {
      if generation != scopeLoadGeneration { return; }
      var topLevelSupported := Supported(n);
      snapshot, conflicts := Some(n), found;
      resolved := Some(if topLevelSupported then n.resolved else n.resolved.(profile := None));
      loading := false;
      error := if topLevelSupported then None else Some(NEWER_CLIENT);
    }

    /** The `catch` of `load`. */
    method FailLoading(generation: nat, message: string)
      modifies this
      ensures View() == FailLoad(old(View()), generation, message)
    {
      if generation == scopeLoadGeneration {
        loading, error := false, Some(message);
      }
    }

    /** The answer to `setManualOverride` or `clearManualOverride`. */
    method InstallOverride(r: Resolved)
      modifies this
      ensures View() == Override(old(View()), r)
    {
      resolved, error := Some(r), None;
    }

    /** `setPreferences` up to its first `await`; what it found stays with the call. */
    method BeginSettingPreferences(preferences: string) returns (before: Option<Snapshot>)
      modifies this
      ensures View() == BeginPreferences(old(View()), preferences) && before == old(snapshot)
    {
      before := snapshot;
      if before.Some? { snapshot := Some(before.value.(preferences := preferences)); }
    }

    method FinishSettingPreferences(n: Snapshot)
      modifies this
      ensures View() == SavePreferences(old(View()), n)
    {
      snapshot, resolved, error := Some(n), Some(n.resolved), None;
    }

    method RefusePreferences(before: Option<Snapshot>, message: string)
      modifies this
      ensures View() == RejectPreferences(old(View()), before, message)
    {
      snapshot, error := before, Some(message);
    }

    method ResetForScopeChange()
      modifies this
      ensures View() == Reset(old(View()))
    {
      scopeLoadGeneration := scopeLoadGeneration + 1;
      snapshot, conflicts, resolved, currentOutput := None, [], None, None;
      preview, loading, error := NO_PREVIEW, false, None;
    }
  }
}

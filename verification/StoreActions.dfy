/** What each action of the equalizer store does, field by field, and that every call in flight is
    answered once (app/src/equalizer/store.ts). */
module StoreActions {
  import opened Rows
  import opened ResolvedEvents

  // ---- one action ----

  /** The event has this scope and a generation that is a larger number. */
  predicate Follows(big: BigInt, shown: Option<Resolved>, next: Resolved) {
    match shown
    case None => false
    case Some(r) =>
      r.epoch == next.epoch
      && match (big(r.generation), big(next.generation))
         case (Some(x), Some(y)) => x < y
         case _ => false
  }

  /** An event is shown, with its output, exactly if it follows what is shown; it ends an audible preview,
      which is then reported as stopped, and keeps the draft. */
  lemma EventIs(big: BigInt, s: Store, next: Resolved)
    ensures var h := AcceptEvent(big, s, next);
            if Follows(big, s.resolved, next) then
              && h == s.(resolved := Some(next), output := next.output, preview := h.preview)
              && h.preview.profile == s.preview.profile && !h.preview.audible && !h.preview.bypassed
              && (h.preview.stopped <==> s.preview.audible || s.preview.stopped)
            else h == s
  {
  }

  /** A load takes the next ticket and shows itself; a failed one shows its error, if it is the newest;
      a change of scope clears everything under the next ticket. */
  lemma LoadsAre(s: Store, ticket: nat, message: string)
    ensures var h := BeginLoad(s);
            h == s.(ticket := h.ticket, loading := true, error := None) && h.ticket - s.ticket == 1
    ensures FailLoad(s, ticket, message)
            == if ticket == s.ticket then s.(loading := false, error := Some(message)) else s
    ensures var h := Reset(s);
            && h == Store(None, [], None, None, Preview(false, false, None, false), false, None, h.ticket)
            && h.ticket - s.ticket == 1
  {
  }

  /** The actions that hold no ticket: a mutation installs snapshot and resolution; an override only the
      resolution; preferences are shown at once on the snapshot there is, installed with what comes back,
      or taken back by putting the snapshot found where it was; errors are cleared by what succeeds and
      shown by what fails; and outputs are what was found, or else the resolution's. */
  lemma WritesAre(s: Store, n: Snapshot, r: Resolved, preferences: string, before: Option<Snapshot>, message: string,
                  found: Option<Option<string>>)
    ensures FinishMutation(s, n) == s.(snapshot := Some(n), resolved := Some(n.resolved))
    ensures Override(s, r) == s.(resolved := Some(r), error := None)
    ensures var h := BeginPreferences(s, preferences);
            && h == s.(snapshot := h.snapshot) && (h.snapshot == None <==> s.snapshot == None)
            && (h.snapshot != None ==>
                  && h.snapshot.value.preferences == preferences
                  && h.snapshot.value.(preferences := s.snapshot.value.preferences) == s.snapshot.value)
    ensures SavePreferences(s, n) == FinishMutation(s, n).(error := None)
    ensures RejectPreferences(s, before, message) == s.(snapshot := before, error := Some(message))
    ensures var h := ShowOutputs(s, found);
            && h == s.(output := h.output)
            && match found case Some(output) => h.output == output
                           case None => s.resolved == None ==> h.output == None
    ensures s.resolved != None ==> ShowOutputs(s, None).output == s.resolved.value.output
  {
  }

  /** Each step of a run does what its action does; a refused call only shows its error. */
  lemma StepsAre(big: BigInt, s: Store, step: Step)
    ensures var h := NextStore(big, s, step);
            match step
            case Begin => h == BeginLoad(s)
            case Finish(t, n, c) => h == FinishLoad(s, t, n, c)
            case Fail(t, m) => h == FailLoad(s, t, m)
            case Change => h == Reset(s)
            case Event(e) => h == AcceptEvent(big, s, e)
            case Mutated(n) => h == FinishMutation(s, n)
            case ConflictResolved(n, c) => h == FinishMutation(s, n).(conflicts := c)
            case Overridden(r) => h == Override(s, r)
            case PreferencesBegun(p) => h == BeginPreferences(s, p)
            case PreferencesSaved(_, n) => h == SavePreferences(s, n)
            case PreferencesRejected(before, m) => h == RejectPreferences(s, before, m)
            case OutputsShown(found) => h == ShowOutputs(s, found)
            case Refused(m) => h == s.(error := Some(m))
  {
  }

  // ---- calls in flight ----

  predicate Ends(step: Step, ticket: nat) {
    match step
    case Finish(t, _, _) => t == ticket
    case Fail(t, _) => t == ticket
    case _ => false
  }

  lemma {:induction false} EndedStaysEnded(big: BigInt, ws: seq<World>, steps: seq<Step>, t: nat, i: nat, j: nat)
    requires Run(big, ws, steps) && i <= j <= |steps|
    requires t <= ws[i].store.ticket && t !in ws[i].flying
    ensures t <= ws[j].store.ticket && t !in ws[j].flying
    decreases j - i
  {
    if i == j {
    } else {
      assert Enabled(ws[i], steps[i]) && ws[i + 1] == Next(big, ws[i], steps[i]);
      EndedStaysEnded(big, ws, steps, t, i + 1, j);
    }
  }

  /** On every run a load is in flight from its beginning to its one and only end. */
  lemma LoadsEndOnce(big: BigInt, ws: seq<World>, steps: seq<Step>, t: nat, i: nat, j: nat)
    requires Run(big, ws, steps) && Inv(ws[0]) && i < j < |steps| && Ends(steps[i], t)
    ensures !Ends(steps[j], t)
    ensures t in ws[i].flying && t !in ws[j].flying
  {
    RunKeepsInv(big, ws[..i + 1], steps[..i]);
    assert Enabled(ws[i], steps[i]) && ws[i + 1] == Next(big, ws[i], steps[i]);
    EndedStaysEnded(big, ws, steps, t, i + 1, j);
    assert Enabled(ws[j], steps[j]);
  }

  /** How many of the first `n` steps begin a preference write that finds `found`. */
  ghost function Begun(ws: seq<World>, steps: seq<Step>, found: Option<Snapshot>, n: nat): nat
    requires n <= |steps| < |ws|
  {
    if n == 0 then 0
    else Begun(ws, steps, found, n - 1)
         + if steps[n - 1].PreferencesBegun? && ws[n - 1].store.snapshot == found then 1 else 0
  }

  /** How many of them answer one. */
  function Answered(steps: seq<Step>, found: Option<Snapshot>, n: nat): nat
    requires n <= |steps|
  {
    if n == 0 then 0
    else
      Answered(steps, found, n - 1)
      + match steps[n - 1]
        case PreferencesSaved(before, _) => if before == found then 1 else 0
        case PreferencesRejected(before, _) => if before == found then 1 else 0
        case _ => 0
  }

  /** On every run a preference write is answered at most once, and what a refused one puts back is what
      a write of that run had found. */
  lemma {:induction false} WritesAreAnsweredOnce(big: BigInt, ws: seq<World>, steps: seq<Step>, found: Option<Snapshot>,
                                                 n: nat)
    requires Run(big, ws, steps) && ws[0].writes == multiset{} && n <= |steps|
    ensures Answered(steps, found, n) + ws[n].writes[found] == Begun(ws, steps, found, n)
  {
    if n == 0 {
    } else {
      WritesAreAnsweredOnce(big, ws, steps, found, n - 1);
      assert Enabled(ws[n - 1], steps[n - 1]) && ws[n] == Next(big, ws[n - 1], steps[n - 1]);
    }
  }

  /** What may happen: any new call, event or change at any time, and the end of any call in flight. */
  lemma StepsMayHappen(w: World, step: Step)
    ensures Enabled(w, step)
            <==> match step
                 case Finish(t, _, _) => t in w.flying
                 case Fail(t, _) => t in w.flying
                 case PreferencesSaved(before, _) => w.writes[before] > 0
                 case PreferencesRejected(before, _) => w.writes[before] > 0
                 case _ => true
  {
  }
}

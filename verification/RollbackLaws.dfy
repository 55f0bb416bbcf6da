/** What rollback promises across its four functions: references stay intact, later
    unrelated work survives, and a rollback inverts and can itself be undone. */
module RollbackLaws {
  import opened Rows
  import opened EqualizerCore

  ghost predicate Unique(s: State) {
    UniqueIds(s.profiles) && UniqueIds(s.rules)
  }

  /** The order in which a state is read back from storage. */
  ghost predicate Canonical(nameKey: string -> string, s: State) {
    Unique(s) && Sorted(s.profiles, ProfileOrder(nameKey)) && Sorted(s.rules, RuleOrder())
  }

  ghost predicate Exists(s: State, profileId: Uuid) {
    Find(s.profiles, profileId).Some?
  }

  /** No rule and no default names a profile that is not there. */
  ghost predicate NoDangling(s: State) {
    && (s.defaultProfile.Some? ==> Exists(s, s.defaultProfile.value))
    && (forall r | r in s.rules && r.data.action.UseProfile? :: Exists(s, r.data.action.profileId))
  }

  /** What the after-image check leaves unchecked: an untouched profile that a restored rule
      or the restored default names must still exist. */
  ghost predicate RestoredTargetsSurvive(current: State, before: State, diff: Diff) {
    && (diff.settings && before.defaultProfile.Some? && before.defaultProfile.value !in diff.profileIds
        ==> Exists(current, before.defaultProfile.value))
    && (forall r | r in before.rules && r.id in diff.ruleIds && r.data.action.UseProfile?
                   && r.data.action.profileId !in diff.profileIds ::
          Exists(current, r.data.action.profileId))
  }

  // ---- reference integrity ----

  lemma KeptReferenceSurvives(nameKey: string -> string, before: State, after: State, current: State, rule: Rule)
    requires Unique(before) && Unique(after) && Unique(current)
    requires NoDangling(before) && NoDangling(current)
    requires AfterImageMatches(current, after, RollbackDiff(before, after))
    requires rule in current.rules && rule.id !in RollbackDiff(before, after).ruleIds
    requires rule.data.action.UseProfile?
    ensures Exists(RollbackInverse(nameKey, current, before, RollbackDiff(before, after)), rule.data.action.profileId)
  {
    var diff := RollbackDiff(before, after);
    var p := rule.data.action.profileId;
    TargetProfiles(nameKey, current, before, diff);
    if p in diff.profileIds {
      SameReferences(current, after, p, rule);
      var r :| r in after.rules && r.id == rule.id && r.data.action == UseProfile(p);
      FindMember(after.rules, r);
      TouchedLookups(before.rules, after.rules, rule.id);
      assert r in before.rules;
    }
  }

  lemma KeptDefaultSurvives(nameKey: string -> string, before: State, after: State, current: State)
    requires Unique(before) && Unique(after) && Unique(current)
    requires NoDangling(before) && NoDangling(current)
    requires AfterImageMatches(current, after, RollbackDiff(before, after))
    requires !RollbackDiff(before, after).settings && current.defaultProfile.Some?
    ensures Exists(RollbackInverse(nameKey, current, before, RollbackDiff(before, after)), current.defaultProfile.value)
  {
    var diff := RollbackDiff(before, after);
    TargetProfiles(nameKey, current, before, diff);
    if current.defaultProfile.value in diff.profileIds {
      assert ProfileReferences(current, current.defaultProfile.value)
          == ProfileReferences(after, current.defaultProfile.value);
    }
  }

  lemma SurvivingTargetsSuffice(nameKey: string -> string, before: State, after: State, current: State)
    requires Unique(before) && Unique(after) && Unique(current)
    requires NoDangling(before) && NoDangling(current)
    requires AfterImageMatches(current, after, RollbackDiff(before, after))
    requires RestoredTargetsSurvive(current, before, RollbackDiff(before, after))
    ensures NoDangling(RollbackInverse(nameKey, current, before, RollbackDiff(before, after)))
  {
    var diff := RollbackDiff(before, after);
    var target := RollbackInverse(nameKey, current, before, diff);
    TargetProfiles(nameKey, current, before, diff);
    forall r | r in target.rules && r.data.action.UseProfile?
      ensures Exists(target, r.data.action.profileId)
    {
      assert Find(target.rules, r.id) == Some(r) by {
        TargetRules(nameKey, current, before, diff);
        FindMember(target.rules, r);
      }
      assert r in (if r.id in diff.ruleIds then before.rules else current.rules) by {
        TargetRules(nameKey, current, before, diff);
      }
      if r.id !in diff.ruleIds {
        KeptReferenceSurvives(nameKey, before, after, current, r);
      }
    }
    if !diff.settings && current.defaultProfile.Some? {
      KeptDefaultSurvives(nameKey, before, after, current);
    }
  }

  lemma SurvivingTargetsNeeded(nameKey: string -> string, before: State, after: State, current: State)
    requires Unique(before) && Unique(after) && Unique(current)
    requires NoDangling(RollbackInverse(nameKey, current, before, RollbackDiff(before, after)))
    ensures RestoredTargetsSurvive(current, before, RollbackDiff(before, after))
  {
    var diff := RollbackDiff(before, after);
    var target := RollbackInverse(nameKey, current, before, diff);
    TargetProfiles(nameKey, current, before, diff);
    forall r | r in before.rules && r.id in diff.ruleIds && r.data.action.UseProfile?
               && r.data.action.profileId !in diff.profileIds
      ensures Exists(current, r.data.action.profileId)
    {
      assert r in target.rules by {
        TargetRules(nameKey, current, before, diff);
        FindMember(before.rules, r);
      }
    }
  }

  /** A rollback that passes the check leaves no dangling reference exactly when every
      untouched profile it restores a reference to still exists. */
  lemma RollbackIntegrity(nameKey: string -> string, before: State, after: State, current: State)
    requires Unique(before) && Unique(after) && Unique(current)
    requires NoDangling(before) && NoDangling(current)
    requires AfterImageMatches(current, after, RollbackDiff(before, after))
    ensures NoDangling(RollbackInverse(nameKey, current, before, RollbackDiff(before, after)))
            <==> RestoredTargetsSurvive(current, before, RollbackDiff(before, after))
  {
    if RestoredTargetsSurvive(current, before, RollbackDiff(before, after)) {
      SurvivingTargetsSuffice(nameKey, before, after, current);
    }
    if NoDangling(RollbackInverse(nameKey, current, before, RollbackDiff(before, after))) {
      SurvivingTargetsNeeded(nameKey, before, after, current);
    }
  }

  /** The check alone does not imply integrity: the audited change cleared the default, later
      work dropped the profile it had named, and the rollback restores the name. */
  lemma CheckAloneLeavesDangling(nameKey: string -> string, p: Profile)
    ensures var before := State(2, 1, 1, Some(p.id), [p], []);
            var after := State(2, 2, 2, None, [p], []);
            var current := State(2, 3, 2, None, [], []);
            && Canonical(nameKey, before) && Canonical(nameKey, after) && Canonical(nameKey, current)
            && NoDangling(before) && NoDangling(after) && NoDangling(current)
            && AfterImageMatches(current, after, RollbackDiff(before, after))
            && !NoDangling(RollbackInverse(nameKey, current, before, RollbackDiff(before, after)))
  {
    var before := State(2, 1, 1, Some(p.id), [p], []);
    var after := State(2, 2, 2, None, [p], []);
    var current := State(2, 3, 2, None, [], []);
    var diff := RollbackDiff(before, after);
    assert diff.profileIds == {} && diff.ruleIds == {} && diff.settings;
    TargetProfiles(nameKey, current, before, diff);
    assert Find(current.profiles, p.id).None?;
    assert Find(before.profiles, p.id) == Some(p);
  }

  // ---- no lost update ----

  /** Whatever a passing rollback changes still carried the after-image, so no later write
      is overwritten; and the result has unique ids, in canonical order. */
  lemma RollbackOverwritesOnlyAfterImage(nameKey: string -> string, before: State, after: State, current: State)
    requires Unique(before) && Unique(after) && Unique(current)
    requires AfterImageMatches(current, after, RollbackDiff(before, after))
    ensures var target := RollbackInverse(nameKey, current, before, RollbackDiff(before, after));
            && Canonical(nameKey, target)
            && (forall id :: Find(target.profiles, id) != Find(current.profiles, id)
                             ==> Find(current.profiles, id) == Find(after.profiles, id)
                                 && Find(target.profiles, id) == Find(before.profiles, id))
            && (forall id :: Find(target.rules, id) != Find(current.rules, id)
                             ==> Find(current.rules, id) == Find(after.rules, id)
                                 && Find(target.rules, id) == Find(before.rules, id))
            && (target.defaultProfile != current.defaultProfile
                ==> current.defaultProfile == after.defaultProfile && target.defaultProfile == before.defaultProfile)
  {
    TargetProfiles(nameKey, current, before, RollbackDiff(before, after));
    TargetRules(nameKey, current, before, RollbackDiff(before, after));
  }

  // ---- unrelated work ----

  /** One later mutation of the stored state, as any endpoint makes it. */
  datatype Edit =
    | PutProfile(profile: Profile)
    | DropProfile(profileId: Uuid)
    | PutRule(rule: Rule)
    | DropRule(ruleId: Uuid)
    | SetDefault(default: Option<Uuid>)

  function Put<T(!new)>(rows: seq<Row<T>>, row: Row<T>): seq<Row<T>> {
    Keep(rows, {row.id}, false) + [row]
  }

  /** The edited state as it is read back: in canonical order, revisions moved on. */
  function ApplyEdit(nameKey: string -> string, s: State, e: Edit): State {
    var t := s.(stateRevision := s.stateRevision + 1);
    match e
    case PutProfile(p) => t.(profiles := Sort(Put(s.profiles, p), ProfileOrder(nameKey)))
    case DropProfile(id) => t.(profiles := Keep(s.profiles, {id}, false))
    case PutRule(r) => t.(rules := Sort(Put(s.rules, r), RuleOrder()))
    case DropRule(id) => t.(rules := Keep(s.rules, {id}, false))
    case SetDefault(d) => t.(defaultProfile := d, settingsRevision := s.settingsRevision + 1)
  }

  function ApplyEdits(nameKey: string -> string, s: State, edits: seq<Edit>): State {
    if edits == [] then s
    else ApplyEdit(nameKey, ApplyEdits(nameKey, s, edits[..|edits| - 1]), edits[|edits| - 1])
  }

  /** The edit writes no row and no setting that the audited change wrote. */
  predicate Unrelated(e: Edit, diff: Diff) {
    match e
    case PutProfile(p) => p.id !in diff.profileIds
    case DropProfile(id) => id !in diff.profileIds
    case PutRule(r) => r.id !in diff.ruleIds
    case DropRule(id) => id !in diff.ruleIds
    case SetDefault(_) => !diff.settings
  }

  lemma {:induction false} PutLookup<T(!new)>(rows: seq<Row<T>>, row: Row<T>)
    requires UniqueIds(rows)
    ensures UniqueIds(Put(rows, row))
    ensures forall id :: Find(Put(rows, row), id) == if id == row.id then Some(row) else Find(rows, id)
  {
    var kept := Keep(rows, {row.id}, false);
    KeepUnique(rows, {row.id}, false);
    forall i | 0 <= i < |kept| ensures kept[i].id != row.id { assert kept[i] in kept; }
    forall id ensures Find(Put(rows, row), id) == if id == row.id then Some(row) else Find(rows, id) {
      FindKeep(rows, {row.id}, false, id);
      FindAppend(kept, [row], id);
    }
  }

  lemma {:induction false} KeepSorted<T(!new)>(rows: seq<Row<T>>, ids: set<Uuid>, inside: bool, le: Order<T>)
    requires Sorted(rows, le)
    ensures Sorted(Keep(rows, ids, inside), le)
  {
    if rows == [] {
    } else {
      KeepSorted(rows[1..], ids, inside, le);
      var tail := Keep(rows[1..], ids, inside);
      forall row | row in tail ensures le(rows[0], row) {
        assert row in rows[1..];
      }
    }
  }

  lemma {:induction false} DropLookup<T(!new)>(rows: seq<Row<T>>, id: Uuid, le: Order<T>)
    requires UniqueIds(rows)
    ensures UniqueIds(Keep(rows, {id}, false))
    ensures Sorted(rows, le) ==> Sorted(Keep(rows, {id}, false), le)
    ensures forall i :: Find(Keep(rows, {id}, false), i) == if i == id then None else Find(rows, i)
  {
    KeepUnique(rows, {id}, false);
    if Sorted(rows, le) { KeepSorted(rows, {id}, false, le); }
    forall i { FindKeep(rows, {id}, false, i); }
  }

  lemma EditCanonical(nameKey: string -> string, s: State, e: Edit)
    requires Canonical(nameKey, s)
    ensures Canonical(nameKey, ApplyEdit(nameKey, s, e))
  {
    ProfileOrderIsOrder(nameKey);
    RuleOrderIsOrder();
    match e
    case PutProfile(p) => PutLookup(s.profiles, p); SortLookups(Put(s.profiles, p), ProfileOrder(nameKey));
    case DropProfile(id) => DropLookup(s.profiles, id, ProfileOrder(nameKey));
    case PutRule(r) => PutLookup(s.rules, r); SortLookups(Put(s.rules, r), RuleOrder());
    case DropRule(id) => DropLookup(s.rules, id, RuleOrder());
    case SetDefault(_) =>
  }

  lemma {:induction false} EditsCanonical(nameKey: string -> string, s: State, edits: seq<Edit>)
    requires Canonical(nameKey, s)
    ensures Canonical(nameKey, ApplyEdits(nameKey, s, edits))
  {
    if edits == [] {
    } else {
      EditsCanonical(nameKey, s, edits[..|edits| - 1]);
      EditCanonical(nameKey, ApplyEdits(nameKey, s, edits[..|edits| - 1]), edits[|edits| - 1]);
    }
  }

  /** How one edit changes every lookup. */
  lemma EditLookups(nameKey: string -> string, s: State, e: Edit)
    requires Canonical(nameKey, s)
    ensures forall id :: Find(ApplyEdit(nameKey, s, e).profiles, id)
              == if e.PutProfile? && id == e.profile.id then Some(e.profile)
                 else if e.DropProfile? && id == e.profileId then None else Find(s.profiles, id)
    ensures forall id :: Find(ApplyEdit(nameKey, s, e).rules, id)
              == if e.PutRule? && id == e.rule.id then Some(e.rule)
                 else if e.DropRule? && id == e.ruleId then None else Find(s.rules, id)
  {
    ProfileOrderIsOrder(nameKey);
    RuleOrderIsOrder();
    match e
    case PutProfile(p) => PutLookup(s.profiles, p); SortLookups(Put(s.profiles, p), ProfileOrder(nameKey));
    case DropProfile(id) => DropLookup(s.profiles, id, ProfileOrder(nameKey));
    case PutRule(r) => PutLookup(s.rules, r); SortLookups(Put(s.rules, r), RuleOrder());
    case DropRule(id) => DropLookup(s.rules, id, RuleOrder());
    case SetDefault(_) =>
  }

  /** `x` answers every lookup from `b` on touched ids and from `c` elsewhere. */
  ghost predicate Overlays(x: State, b: State, c: State, diff: Diff) {
    && (forall id :: Find(x.profiles, id)
                     == if id in diff.profileIds then Find(b.profiles, id) else Find(c.profiles, id))
    && (forall id :: Find(x.rules, id) == if id in diff.ruleIds then Find(b.rules, id) else Find(c.rules, id))
    && x.defaultProfile == (if diff.settings then b.defaultProfile else c.defaultProfile)
  }

  /** Unrelated edits on top of `before` give `before` on touched ids and the edited
      `after` everywhere else. */
  lemma {:induction false} EditsOverlay(nameKey: string -> string, before: State, after: State, edits: seq<Edit>)
    requires Canonical(nameKey, before) && Canonical(nameKey, after)
    requires forall e | e in edits :: Unrelated(e, RollbackDiff(before, after))
    ensures Overlays(ApplyEdits(nameKey, before, edits), before, ApplyEdits(nameKey, after, edits),
                     RollbackDiff(before, after))
    ensures var diff := RollbackDiff(before, after);
            var current := ApplyEdits(nameKey, after, edits);
            && (forall id | id in diff.profileIds :: Find(current.profiles, id) == Find(after.profiles, id))
            && (forall id | id in diff.ruleIds :: Find(current.rules, id) == Find(after.rules, id))
            && (diff.settings ==> current.defaultProfile == after.defaultProfile
                                  && current.settingsRevision == after.settingsRevision)
            && current.formatVersion == after.formatVersion
  {
    if edits == [] {
      forall id { TouchedLookups(before.profiles, after.profiles, id); }
      forall id { TouchedLookups(before.rules, after.rules, id); }
    } else {
      var prior, e := edits[..|edits| - 1], edits[|edits| - 1];
      EditsOverlay(nameKey, before, after, prior);
      EditsCanonical(nameKey, before, prior);
      EditsCanonical(nameKey, after, prior);
      EditLookups(nameKey, ApplyEdits(nameKey, before, prior), e);
      EditLookups(nameKey, ApplyEdits(nameKey, after, prior), e);
      assert Unrelated(e, RollbackDiff(before, after));
    }
  }

  /** Rollback commutes with unrelated work: after any unrelated edits, rolling back gives
      exactly the rows and default of the before-state with those edits applied; and the check
      lets it through exactly when the references to touched profiles are as they were. */
  lemma {:induction false} RollbackCommutesWithEdits(nameKey: string -> string, before: State, after: State,
                                                     edits: seq<Edit>)
    requires Canonical(nameKey, before) && Canonical(nameKey, after)
    requires forall e | e in edits :: Unrelated(e, RollbackDiff(before, after))
    ensures var current := ApplyEdits(nameKey, after, edits);
            var diff := RollbackDiff(before, after);
            var target := RollbackInverse(nameKey, current, before, diff);
            var replayed := ApplyEdits(nameKey, before, edits);
            && (AfterImageMatches(current, after, diff)
                <==> forall id | id in diff.profileIds ::
                       ProfileReferences(current, id) == ProfileReferences(after, id))
            && target.profiles == replayed.profiles
            && target.rules == replayed.rules
            && target.defaultProfile == replayed.defaultProfile
  {
    var current := ApplyEdits(nameKey, after, edits);
    var diff := RollbackDiff(before, after);
    var replayed := ApplyEdits(nameKey, before, edits);
    EditsOverlay(nameKey, before, after, edits);
    EditsCanonical(nameKey, before, edits);
    EditsCanonical(nameKey, after, edits);
    TargetProfiles(nameKey, current, before, diff);
    TargetRules(nameKey, current, before, diff);
    ProfileOrderIsOrder(nameKey);
    RuleOrderIsOrder();
    SortedByLookups(RollbackInverse(nameKey, current, before, diff).profiles, replayed.profiles, ProfileOrder(nameKey));
    SortedByLookups(RollbackInverse(nameKey, current, before, diff).rules, replayed.rules, RuleOrder());
  }

  // ---- inverse and undo ----

  /** Rolling back at once restores the very sequences of a canonical before-state, and its
      lookups and default whatever order the before-state was in. */
  lemma RollbackIsInverse(nameKey: string -> string, before: State, after: State)
    requires Unique(before) && Unique(after)
    ensures var target := RollbackInverse(nameKey, after, before, RollbackDiff(before, after));
            && AfterImageMatches(after, after, RollbackDiff(before, after))
            && (forall id :: Find(target.profiles, id) == Find(before.profiles, id))
            && (forall id :: Find(target.rules, id) == Find(before.rules, id))
            && target.defaultProfile == before.defaultProfile
            && (Canonical(nameKey, before) ==> target.profiles == before.profiles && target.rules == before.rules)
  {
    var diff := RollbackDiff(before, after);
    var target := RollbackInverse(nameKey, after, before, diff);
    TargetProfiles(nameKey, after, before, diff);
    TargetRules(nameKey, after, before, diff);
    forall id { TouchedLookups(before.profiles, after.profiles, id); }
    forall id { TouchedLookups(before.rules, after.rules, id); }
    if Canonical(nameKey, before) {
      ProfileOrderIsOrder(nameKey);
      RuleOrderIsOrder();
      SortedByLookups(target.profiles, before.profiles, ProfileOrder(nameKey));
      SortedByLookups(target.rules, before.rules, RuleOrder());
    }
  }

  /** A passing rollback touches exactly the rows of the change it undoes, and rolling the
      rollback back returns the whole current state, revisions included. */
  lemma RollbackIsUndoable(nameKey: string -> string, before: State, after: State, current: State)
    requires Unique(before) && Unique(after) && Canonical(nameKey, current)
    requires AfterImageMatches(current, after, RollbackDiff(before, after))
    ensures var diff := RollbackDiff(before, after);
            var target := RollbackInverse(nameKey, current, before, diff);
            var undo := RollbackDiff(current, target);
            && undo.profileIds == diff.profileIds
            && undo.ruleIds == diff.ruleIds
            && (undo.settings <==> before.defaultProfile != after.defaultProfile)
            && AfterImageMatches(target, target, undo)
            && RollbackInverse(nameKey, target, current, undo) == current
  {
    var diff := RollbackDiff(before, after);
    var target := RollbackInverse(nameKey, current, before, diff);
    var undo := RollbackDiff(current, target);
    TargetProfiles(nameKey, current, before, diff);
    TargetRules(nameKey, current, before, diff);
    forall id ensures id in undo.profileIds <==> id in diff.profileIds {
      TouchedLookups(before.profiles, after.profiles, id);
      TouchedLookups(current.profiles, target.profiles, id);
    }
    forall id ensures id in undo.ruleIds <==> id in diff.ruleIds {
      TouchedLookups(before.rules, after.rules, id);
      TouchedLookups(current.rules, target.rules, id);
    }
    RollbackIsInverse(nameKey, current, target);
  }
}

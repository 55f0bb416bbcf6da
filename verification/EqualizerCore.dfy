/** Audited rollback of a user's equalizer state (server/src/equalizer_core.rs): diff two
    snapshots, check that the touched rows still carry the after-image, and overlay the
    before-image on a state that has moved on since. */
module EqualizerCore {
  import opened Rows

  datatype Band = Band(position: int, enabled: bool, filterType: string,
                       frequencyHz: real, gainDb: real, q: real)

  datatype ProfileData = ProfileData(name: string, formatVersion: int, preampDb: real,
                                     autoHeadroom: bool, bands: seq<Band>,
                                     revision: int, createdAt: int, updatedAt: int)

  datatype Selector = Selector(normalizationVersion: int, routeKind: string, normalizedName: string,
                               vendorId: Option<string>, productId: Option<string>,
                               platformScope: Option<string>, trigger: string)

  datatype Action = UseProfile(profileId: Uuid) | Bypass

  datatype RuleData = RuleData(name: string, action: Action, selectors: seq<Selector>,
                               priority: int, enabled: bool, bassBoost: int, trebleBoost: int,
                               revision: int, createdAt: int, updatedAt: int)

  type Profile = Row<ProfileData>
  type Rule = Row<RuleData>

  datatype State = State(formatVersion: int, stateRevision: int, settingsRevision: int,
                         defaultProfile: Option<Uuid>, profiles: seq<Profile>, rules: seq<Rule>)

  datatype Diff = Diff(profileIds: set<Uuid>, ruleIds: set<Uuid>, settings: bool)

  // ---- canonical order ----

  /** Order of `str`: compare scalar by scalar, a proper prefix first. */
  predicate TextLe(a: string, b: string) {
    if a == [] then true
    else if b == [] then false
    else a[0] < b[0] || (a[0] == b[0] && TextLe(a[1..], b[1..]))
  }

  /** Profiles by name key, then id. The name key (Unicode case folding) is a parameter. */
  predicate ProfileLe(nameKey: string -> string, a: Profile, b: Profile) {
    var ka, kb := nameKey(a.data.name), nameKey(b.data.name);
    TextLe(ka, kb) && (ka == kb ==> a.id <= b.id)
  }

  function ProfileOrder(nameKey: string -> string): Order<ProfileData> {
    (a, b) => ProfileLe(nameKey, a, b)
  }

  /** Rules by falling priority, then id. */
  predicate RuleLe(a: Rule, b: Rule) {
    a.data.priority > b.data.priority || (a.data.priority == b.data.priority && a.id <= b.id)
  }

  function RuleOrder(): Order<RuleData> {
    (a, b) => RuleLe(a, b)
  }

  // ---- the four functions ----

  /** Ids of the rows whose content differs between the snapshots. */
  function TouchedIds<T(==, !new)>(before: seq<Row<T>>, after: seq<Row<T>>): set<Uuid> {
    set id | id in Ids(before) + Ids(after) && Find(before, id) != Find(after, id)
  }

  function RollbackDiff(before: State, after: State): Diff {
    Diff(TouchedIds(before.profiles, after.profiles),
         TouchedIds(before.rules, after.rules),
         before.defaultProfile != after.defaultProfile || before.settingsRevision != after.settingsRevision)
  }

  /** The (id, revision) pairs of the rules that select `profileId`, in state order. */
  function ReferencingRules(rules: seq<Rule>, profileId: Uuid): seq<(Uuid, int)> {
    if rules == [] then []
    else if rules[0].data.action == UseProfile(profileId) then
      [(rules[0].id, rules[0].data.revision)] + ReferencingRules(rules[1..], profileId)
    else ReferencingRules(rules[1..], profileId)
  }

  predicate PairLe(a: (Uuid, int), b: (Uuid, int)) {
    a.0 < b.0 || (a.0 == b.0 && a.1 <= b.1)
  }

  function InsertPair(p: (Uuid, int), ps: seq<(Uuid, int)>): seq<(Uuid, int)> {
    if ps == [] || PairLe(p, ps[0]) then [p] + ps else [ps[0]] + InsertPair(p, ps[1..])
  }

  /** `sort_unstable` on pairs; tied pairs are identical, so stability is not observable. */
  function SortPairs(ps: seq<(Uuid, int)>): seq<(Uuid, int)> {
    if ps == [] then [] else InsertPair(ps[0], SortPairs(ps[1..]))
  }

  function ProfileReferences(s: State, profileId: Uuid): (bool, seq<(Uuid, int)>) {
    (s.defaultProfile == Some(profileId), SortPairs(ReferencingRules(s.rules, profileId)))
  }

  predicate AfterImageMatches(current: State, after: State, diff: Diff) {
    && current.formatVersion == after.formatVersion
    && (forall id | id in diff.profileIds :: Find(current.profiles, id) == Find(after.profiles, id))
    && (forall id | id in diff.ruleIds :: Find(current.rules, id) == Find(after.rules, id))
    && (diff.settings ==> current.defaultProfile == after.defaultProfile
                          && current.settingsRevision == after.settingsRevision)
    && (forall id | id in diff.profileIds :: ProfileReferences(current, id) == ProfileReferences(after, id))
  }

  /** The state a rollback writes: touched rows from `before`, all else from `current`. */
  function RollbackInverse(nameKey: string -> string, current: State, before: State, diff: Diff): State {
    State(current.formatVersion, current.stateRevision, current.settingsRevision,
          if diff.settings then before.defaultProfile else current.defaultProfile,
          Sort(Overlay(current.profiles, before.profiles, diff.profileIds), ProfileOrder(nameKey)),
          Sort(Overlay(current.rules, before.rules, diff.ruleIds), RuleOrder()))
  }

  // ---- the comparisons are orders ----

  lemma {:induction false} TextOrder(a: string, b: string, c: string)
    ensures TextLe(a, b) || TextLe(b, a)
    ensures TextLe(a, b) && TextLe(b, a) ==> a == b
    ensures TextLe(a, b) && TextLe(b, c) ==> TextLe(a, c)
  {
    if a == [] || b == [] {
    } else {
      assert a == [a[0]] + a[1..] && b == [b[0]] + b[1..];
      TextOrder(a[1..], b[1..], if c == [] then [] else c[1..]);
    }
  }

  lemma ProfileOrderIsOrder(nameKey: string -> string)
    ensures IsOrder(ProfileOrder(nameKey))
  {
    var le := ProfileOrder(nameKey);
    forall a: Profile, b: Profile, c: Profile
      ensures le(a, b) || le(b, a)
      ensures le(a, b) && le(b, c) ==> le(a, c)
      ensures le(a, b) && le(b, a) ==> a.id == b.id
    {
      var ka, kb, kc := nameKey(a.data.name), nameKey(b.data.name), nameKey(c.data.name);
      TextOrder(ka, kb, kc);
      TextOrder(kb, kc, ka);
    }
  }

  lemma RuleOrderIsOrder()
    ensures IsOrder(RuleOrder())
  {
  }

  // ---- lookups in the target ----

  lemma TargetProfiles(nameKey: string -> string, current: State, before: State, diff: Diff)
    requires UniqueIds(current.profiles) && UniqueIds(before.profiles)
    ensures var t := RollbackInverse(nameKey, current, before, diff).profiles;
            && UniqueIds(t) && Sorted(t, ProfileOrder(nameKey))
            && forall id :: Find(t, id) == if id in diff.profileIds then Find(before.profiles, id)
                                           else Find(current.profiles, id)
  {
    var rows := Overlay(current.profiles, before.profiles, diff.profileIds);
    ProfileOrderIsOrder(nameKey);
    OverlayUnique(current.profiles, before.profiles, diff.profileIds);
    SortLookups(rows, ProfileOrder(nameKey));
    forall id { OverlayLookup(current.profiles, before.profiles, diff.profileIds, id); }
  }

  lemma TargetRules(nameKey: string -> string, current: State, before: State, diff: Diff)
    requires UniqueIds(current.rules) && UniqueIds(before.rules)
    ensures var t := RollbackInverse(nameKey, current, before, diff).rules;
            && UniqueIds(t) && Sorted(t, RuleOrder())
            && forall id :: Find(t, id) == if id in diff.ruleIds then Find(before.rules, id)
                                           else Find(current.rules, id)
  {
    var rows := Overlay(current.rules, before.rules, diff.ruleIds);
    RuleOrderIsOrder();
    OverlayUnique(current.rules, before.rules, diff.ruleIds);
    SortLookups(rows, RuleOrder());
    forall id { OverlayLookup(current.rules, before.rules, diff.ruleIds, id); }
  }

  /** `a` comes strictly before `b` in the order of texts: they agree up to a position where `a` ends
      or has the smaller scalar. */
  ghost predicate Earlier(a: string, b: string) {
    exists k :: 0 <= k <= |a| && k < |b| && a[..k] == b[..k] && (k == |a| || a[k] < b[k])
  }

  lemma {:induction false} TextLeIsEarlier(a: string, b: string)
    ensures TextLe(a, b) <==> a == b || Earlier(a, b)
  {
    if a == [] || b == [] {
      if a == [] && b != [] { assert a[..0] == b[..0]; }
    } else {
      TextLeIsEarlier(a[1..], b[1..]);
      if a == b || Earlier(a, b) { EarlierTail(a, b); }
      if a[0] < b[0] { assert a[..0] == b[..0]; }
      if a[0] == b[0] && Earlier(a[1..], b[1..]) {
        var k :| 0 <= k <= |a[1..]| && k < |b[1..]| && a[1..][..k] == b[1..][..k]
                 && (k == |a[1..]| || a[1..][k] < b[1..][k]);
        assert a[..k + 1] == [a[0]] + a[1..][..k] && b[..k + 1] == [b[0]] + b[1..][..k];
      }
      if a[0] == b[0] && a[1..] == b[1..] { assert a == [a[0]] + a[1..] && b == [b[0]] + b[1..]; }
    }
  }

  lemma EarlierTail(a: string, b: string)
    requires a != [] && b != [] && (a == b || Earlier(a, b))
    ensures a[0] < b[0] || (a[0] == b[0] && (a[1..] == b[1..] || Earlier(a[1..], b[1..])))
  {
    if Earlier(a, b) {
      var k :| 0 <= k <= |a| && k < |b| && a[..k] == b[..k] && (k == |a| || a[k] < b[k]);
      if k > 0 {
        assert a[..k][0] == b[..k][0];
        assert a[1..][..k - 1] == a[..k][1..] == b[..k][1..] == b[1..][..k - 1];
      }
    }
  }

  /** Rules stand by falling priority and, within one priority, by rising id. */
  ghost predicate RulesInOrder(rules: seq<Rule>) {
    forall i, j | 0 <= i < j < |rules| ::
      && rules[i].data.priority >= rules[j].data.priority
      && (rules[i].data.priority == rules[j].data.priority ==> rules[i].id <= rules[j].id)
  }

  /** Profiles stand by name key and, within one key, by rising id. */
  ghost predicate ProfilesInOrder(nameKey: string -> string, profiles: seq<Profile>) {
    forall i, j | 0 <= i < j < |profiles| ::
      var a, b := nameKey(profiles[i].data.name), nameKey(profiles[j].data.name);
      Earlier(a, b) || (a == b && profiles[i].id <= profiles[j].id)
  }

  lemma TargetInOrder(nameKey: string -> string, current: State, before: State, diff: Diff)
    ensures var t := RollbackInverse(nameKey, current, before, diff);
            RulesInOrder(t.rules) && ProfilesInOrder(nameKey, t.profiles)
  {
    var t := RollbackInverse(nameKey, current, before, diff);
    RuleOrderIsOrder();
    ProfileOrderIsOrder(nameKey);
    SortSorted(Overlay(current.rules, before.rules, diff.ruleIds), RuleOrder());
    SortSorted(Overlay(current.profiles, before.profiles, diff.profileIds), ProfileOrder(nameKey));
    forall i, j | 0 <= i < j < |t.rules|
      ensures t.rules[i].data.priority >= t.rules[j].data.priority
      ensures t.rules[i].data.priority == t.rules[j].data.priority ==> t.rules[i].id <= t.rules[j].id
    {
      assert RuleOrder()(t.rules[i], t.rules[j]);
    }
    forall i, j | 0 <= i < j < |t.profiles|
      ensures var a, b := nameKey(t.profiles[i].data.name), nameKey(t.profiles[j].data.name);
              Earlier(a, b) || (a == b && t.profiles[i].id <= t.profiles[j].id)
    {
      assert ProfileOrder(nameKey)(t.profiles[i], t.profiles[j]);
      TextLeIsEarlier(nameKey(t.profiles[i].data.name), nameKey(t.profiles[j].data.name));
    }
  }

  /** The target holds the touched rows of `before` and the untouched ones of `current`, as often as
      they do; the scalar fields are those of `current`, but for a touched default. */
  ghost predicate IsOverlay(target: State, current: State, before: State, diff: Diff) {
    && (forall p: Profile :: multiset(target.profiles)[p]
          == multiset(if p.id in diff.profileIds then before.profiles else current.profiles)[p])
    && (forall r: Rule :: multiset(target.rules)[r]
          == multiset(if r.id in diff.ruleIds then before.rules else current.rules)[r])
    && target.defaultProfile == (if diff.settings then before.defaultProfile else current.defaultProfile)
    && target == current.(profiles := target.profiles, rules := target.rules, defaultProfile := target.defaultProfile)
  }

  lemma {:induction false} KeepCounts<T(!new)>(rows: seq<Row<T>>, ids: set<Uuid>, inside: bool, row: Row<T>)
    ensures multiset(Keep(rows, ids, inside))[row] == if (row.id in ids) == inside then multiset(rows)[row] else 0
  {
    if rows == [] {
    } else {
      KeepCounts(rows[1..], ids, inside, row);
      assert rows == [rows[0]] + rows[1..];
    }
  }

  lemma OverlayCounts<T(!new)>(current: seq<Row<T>>, before: seq<Row<T>>, ids: set<Uuid>, le: Order<T>)
    requires IsOrder(le)
    ensures forall row :: multiset(Sort(Overlay(current, before, ids), le))[row]
                          == multiset(if row.id in ids then before else current)[row]
  {
    SortSorted(Overlay(current, before, ids), le);
    forall row
      ensures multiset(Sort(Overlay(current, before, ids), le))[row]
              == multiset(if row.id in ids then before else current)[row]
    {
      KeepCounts(current, ids, false, row);
      KeepCounts(before, ids, true, row);
    }
  }

  lemma TargetIsOverlay(nameKey: string -> string, current: State, before: State, diff: Diff)
    ensures IsOverlay(RollbackInverse(nameKey, current, before, diff), current, before, diff)
  {
    RuleOrderIsOrder();
    ProfileOrderIsOrder(nameKey);
    OverlayCounts(current.rules, before.rules, diff.ruleIds, RuleOrder());
    OverlayCounts(current.profiles, before.profiles, diff.profileIds, ProfileOrder(nameKey));
  }

  /** `apply_rollback_inverse` as written: a clone of `current` that is retained, extended
      and sorted step by step. */
  method ApplyRollbackInverse(nameKey: string -> string, current: State, before: State, diff: Diff)
    returns (target: State)
    ensures target == RollbackInverse(nameKey, current, before, diff)
    ensures UniqueIds(current.profiles) && UniqueIds(before.profiles) ==>
      forall id :: Find(target.profiles, id)
                   == if id in diff.profileIds then Find(before.profiles, id) else Find(current.profiles, id)
    ensures UniqueIds(current.rules) && UniqueIds(before.rules) ==>
      forall id :: Find(target.rules, id)
                   == if id in diff.ruleIds then Find(before.rules, id) else Find(current.rules, id)
    ensures IsOverlay(target, current, before, diff)
    ensures RulesInOrder(target.rules) && ProfilesInOrder(nameKey, target.profiles)
  {
    target := current;
    target := target.(profiles := Keep(target.profiles, diff.profileIds, false));
    target := target.(profiles := target.profiles + Keep(before.profiles, diff.profileIds, true));
    target := target.(rules := Keep(target.rules, diff.ruleIds, false));
    target := target.(rules := target.rules + Keep(before.rules, diff.ruleIds, true));
    if diff.settings {
      target := target.(defaultProfile := before.defaultProfile);
    }
    target := target.(profiles := Sort(target.profiles, ProfileOrder(nameKey)));
    target := target.(rules := Sort(target.rules, RuleOrder()));
    if UniqueIds(current.profiles) && UniqueIds(before.profiles) {
      TargetProfiles(nameKey, current, before, diff);
    }
    if UniqueIds(current.rules) && UniqueIds(before.rules) {
      TargetRules(nameKey, current, before, diff);
    }
    TargetIsOverlay(nameKey, current, before, diff);
    TargetInOrder(nameKey, current, before, diff);
  }

  /** A touched id is exactly one that the two snapshots look up differently. */
  lemma {:induction false} TouchedLookups<T(!new)>(before: seq<Row<T>>, after: seq<Row<T>>, id: Uuid)
    ensures id in TouchedIds(before, after) <==> Find(before, id) != Find(after, id)
  {
    if Find(before, id) != Find(after, id) {
      var f := if Find(before, id).Some? then Find(before, id) else Find(after, id);
      assert f.value in before || f.value in after;
    }
  }

  // ---- references as counts ----

  lemma {:induction false} InsertPairCounts(p: (Uuid, int), ps: seq<(Uuid, int)>)
    ensures multiset(InsertPair(p, ps)) == multiset{p} + multiset(ps)
  {
    if ps == [] || PairLe(p, ps[0]) {
    } else {
      InsertPairCounts(p, ps[1..]);
      assert ps == [ps[0]] + ps[1..];
    }
  }

  lemma {:induction false} SortPairsCounts(ps: seq<(Uuid, int)>)
    ensures multiset(SortPairs(ps)) == multiset(ps)
  {
    if ps == [] {
    } else {
      SortPairsCounts(ps[1..]);
      InsertPairCounts(ps[0], SortPairs(ps[1..]));
      assert ps == [ps[0]] + ps[1..];
    }
  }

  lemma {:induction false} ReferencingMember(rules: seq<Rule>, profileId: Uuid, pair: (Uuid, int))
    ensures pair in ReferencingRules(rules, profileId)
            <==> exists r :: r in rules && r.data.action == UseProfile(profileId)
                             && r.id == pair.0 && r.data.revision == pair.1
  {
    if rules == [] {
    } else {
      ReferencingMember(rules[1..], profileId, pair);
      assert rules == [rules[0]] + rules[1..];
    }
  }

  /** Equal references mean: a rule of one state that selects the profile has a rule of the
      same id and revision in the other that selects it too, and both default to it or neither. */
  lemma SameReferences(a: State, b: State, profileId: Uuid, rule: Rule)
    requires ProfileReferences(a, profileId) == ProfileReferences(b, profileId)
    ensures a.defaultProfile == Some(profileId) <==> b.defaultProfile == Some(profileId)
    ensures rule in a.rules && rule.data.action == UseProfile(profileId) ==>
      exists r :: r in b.rules && r.id == rule.id && r.data.revision == rule.data.revision
                  && r.data.action == UseProfile(profileId)
  {
    var ra, rb := ReferencingRules(a.rules, profileId), ReferencingRules(b.rules, profileId);
    SortPairsCounts(ra);
    SortPairsCounts(rb);
    var pair := (rule.id, rule.data.revision);
    assert multiset(ra)[pair] == multiset(rb)[pair];
    assert pair in ra <==> pair in multiset(ra);
    assert pair in rb <==> pair in multiset(rb);
    ReferencingMember(a.rules, profileId, pair);
    ReferencingMember(b.rules, profileId, pair);
  }

  ghost predicate PairsAscend(ps: seq<(Uuid, int)>) {
    forall i, j | 0 <= i < j < |ps| :: PairLe(ps[i], ps[j])
  }

  lemma {:induction false} InsertPairAscends(p: (Uuid, int), ps: seq<(Uuid, int)>)
    requires PairsAscend(ps)
    ensures PairsAscend(InsertPair(p, ps))
  {
    if ps == [] || PairLe(p, ps[0]) {
    } else {
      InsertPairAscends(p, ps[1..]);
      InsertPairCounts(p, ps[1..]);
      var r := InsertPair(p, ps[1..]);
      assert ps == [ps[0]] + ps[1..];
      forall i | 0 <= i < |r| ensures PairLe(ps[0], r[i]) {
        assert r[i] in multiset(r);
        assert r[i] == p || r[i] in ps[1..];
      }
    }
  }

  lemma {:induction false} SortPairsAscends(ps: seq<(Uuid, int)>)
    ensures PairsAscend(SortPairs(ps))
  {
    if ps == [] {
    } else {
      SortPairsAscends(ps[1..]);
      InsertPairAscends(ps[0], SortPairs(ps[1..]));
    }
  }

  lemma HeadPairIsLeast(ps: seq<(Uuid, int)>, p: (Uuid, int))
    requires PairsAscend(ps) && p in multiset(ps)
    ensures PairLe(ps[0], p)
  {
    var i :| 0 <= i < |ps| && ps[i] == p;
  }

  lemma PairLeTies(a: (Uuid, int), b: (Uuid, int))
    requires PairLe(a, b) && PairLe(b, a)
    ensures a == b
  {
    assert a.0 == b.0 && a.1 == b.1;
  }

  lemma {:induction false} AscendingIsUnique(a: seq<(Uuid, int)>, b: seq<(Uuid, int)>)
    requires PairsAscend(a) && PairsAscend(b) && multiset(a) == multiset(b)
    ensures a == b
  {
    assert |a| == |multiset(a)| == |multiset(b)| == |b|;
    if a == [] {
    } else {
      assert a[0] in multiset(a) && b[0] in multiset(b);
      HeadPairIsLeast(a, b[0]);
      HeadPairIsLeast(b, a[0]);
      PairLeTies(a[0], b[0]);
      assert a == [a[0]] + a[1..] && b == [b[0]] + b[1..];
      assert multiset([a[0]] + a[1..]) == multiset{a[0]} + multiset(a[1..]);
      assert multiset([b[0]] + b[1..]) == multiset{b[0]} + multiset(b[1..]);
      assert multiset(a[1..]) + multiset{a[0]} == multiset(a) == multiset(b) == multiset(b[1..]) + multiset{a[0]};
      Cancel(multiset(a[1..]), multiset(b[1..]), multiset{a[0]});
      AscendingIsUnique(a[1..], b[1..]);
    }
  }

  /** How many rules of this id and revision select the profile. */
  function Uses(rules: seq<Rule>, profileId: Uuid, ruleId: Uuid, revision: int): nat {
    if rules == [] then 0
    else
      var r := rules[|rules| - 1];
      Uses(rules[..|rules| - 1], profileId, ruleId, revision)
      + match r.data.action
        case UseProfile(id) => if id == profileId && r.id == ruleId && r.data.revision == revision then 1 else 0
        case Bypass => 0
  }

  lemma {:induction false} ReferencingJoin(a: seq<Rule>, b: seq<Rule>, profileId: Uuid)
    ensures ReferencingRules(a + b, profileId) == ReferencingRules(a, profileId) + ReferencingRules(b, profileId)
  {
    if a == [] {
      assert a + b == b;
    } else {
      assert (a + b)[1..] == a[1..] + b;
      ReferencingJoin(a[1..], b, profileId);
    }
  }

  lemma {:induction false} ReferencingCounts(rules: seq<Rule>, profileId: Uuid, ruleId: Uuid, revision: int)
    ensures multiset(ReferencingRules(rules, profileId))[(ruleId, revision)] == Uses(rules, profileId, ruleId, revision)
  {
    if rules == [] {
    } else {
      var front, last := rules[..|rules| - 1], rules[|rules| - 1];
      ReferencingCounts(front, profileId, ruleId, revision);
      assert rules == front + [last];
      ReferencingJoin(front, [last], profileId);
      assert [last][1..] == [];
    }
  }

  /** The profile is used alike: both states default to it or neither, and each rule that selects it in
      one does so in the other, at the same revision and as often. */
  ghost predicate UsedAlike(a: State, b: State, profileId: Uuid) {
    && (a.defaultProfile == Some(profileId) <==> b.defaultProfile == Some(profileId))
    && forall ruleId, revision ::
         Uses(a.rules, profileId, ruleId, revision) == Uses(b.rules, profileId, ruleId, revision)
  }

  /** References are equal exactly when the profile is used alike, in whatever order the rules stand. */
  lemma ReferencesExactly(a: State, b: State, profileId: Uuid)
    ensures ProfileReferences(a, profileId) == ProfileReferences(b, profileId) <==> UsedAlike(a, b, profileId)
  {
    var ra, rb := ReferencingRules(a.rules, profileId), ReferencingRules(b.rules, profileId);
    SortPairsCounts(ra);
    SortPairsCounts(rb);
    SortPairsAscends(ra);
    SortPairsAscends(rb);
    forall ruleId: Uuid, revision: int
      ensures Uses(a.rules, profileId, ruleId, revision) == multiset(ra)[(ruleId, revision)]
      ensures Uses(b.rules, profileId, ruleId, revision) == multiset(rb)[(ruleId, revision)]
    {
      ReferencingCounts(a.rules, profileId, ruleId, revision);
      ReferencingCounts(b.rules, profileId, ruleId, revision);
    }
    if SortPairs(ra) == SortPairs(rb) {
      assert multiset(ra) == multiset(rb);
    }
    if UsedAlike(a, b, profileId) {
      forall pair: (Uuid, int) ensures multiset(ra)[pair] == multiset(rb)[pair] {
        assert Uses(a.rules, profileId, pair.0, pair.1) == Uses(b.rules, profileId, pair.0, pair.1);
      }
      assert multiset(ra) == multiset(rb);
      AscendingIsUnique(SortPairs(ra), SortPairs(rb));
    }
  }

  /** The check passes exactly when the format is the same, every touched row is looked up as it was left,
      touched settings are as they were left, and every touched profile is used alike. */
  lemma CheckIs(current: State, after: State, diff: Diff)
    ensures AfterImageMatches(current, after, diff)
            <==> && current.formatVersion == after.formatVersion
                 && (forall id | id in diff.profileIds ::
                       Find(current.profiles, id) == Find(after.profiles, id) && UsedAlike(current, after, id))
                 && (forall id | id in diff.ruleIds :: Find(current.rules, id) == Find(after.rules, id))
                 && (!diff.settings || (current.defaultProfile, current.settingsRevision)
                                       == (after.defaultProfile, after.settingsRevision))
  {
    forall id: Uuid
      ensures ProfileReferences(current, id) == ProfileReferences(after, id) <==> UsedAlike(current, after, id)
    {
      ReferencesExactly(current, after, id);
    }
  }

  /** The diff names exactly what the two snapshots show differently. */
  lemma DiffIs(before: State, after: State)
    ensures var diff := RollbackDiff(before, after);
            && (forall id :: id in diff.profileIds <==> Find(before.profiles, id) != Find(after.profiles, id))
            && (forall id :: id in diff.ruleIds <==> Find(before.rules, id) != Find(after.rules, id))
            && (!diff.settings <==> (before.defaultProfile, before.settingsRevision)
                                    == (after.defaultProfile, after.settingsRevision))
  {
    var diff := RollbackDiff(before, after);
    forall id: Uuid
      ensures id in diff.profileIds <==> Find(before.profiles, id) != Find(after.profiles, id)
      ensures id in diff.ruleIds <==> Find(before.rules, id) != Find(after.rules, id)
    {
      TouchedLookups(before.profiles, after.profiles, id);
      TouchedLookups(before.rules, after.rules, id);
    }
  }
}

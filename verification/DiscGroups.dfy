/** Disc grouping of an album's tracks and the play order it implies (app/src/routes/Album.tsx). */
module DiscGroups {
  import opened Rows

  datatype Track = Track(id: string, discNo: Option<int>, trackNo: Option<int>)

  datatype DiscGroup = DiscGroup(disc: int, tracks: seq<Track>, startIndex: nat)

  function DiscOf(t: Track): int {
    if t.discNo.Some? then t.discNo.value else 1
  }

  // ---- stable sorting by an optional number ----

  /** A number or none; none comes after every number. */
  type Key = Option<int>

  predicate KeyLess(a: Key, b: Key) {
    a.Some? && (b.None? || a.value < b.value)
  }

  /** By key, then by position. */
  function ByKey<T(!new)>(key: T -> Key): Order<T> {
    (a: Row<T>, b: Row<T>) => KeyLess(key(a.data), key(b.data)) || (key(a.data) == key(b.data) && a.id <= b.id)
  }

  lemma ByKeyIsOrder<T(!new)>(key: T -> Key)
    ensures IsOrder(ByKey(key))
  {
    var le := ByKey(key);
    forall a, b ensures le(a, b) || le(b, a) {
      var ka, kb := key(a.data), key(b.data);
      assert KeyLess(ka, kb) || KeyLess(kb, ka) || ka == kb;
    }
    forall a, b, c | le(a, b) && le(b, c) ensures le(a, c) {
      var ka, kb, kc := key(a.data), key(b.data), key(c.data);
      assert KeyLess(ka, kb) || (ka == kb && a.id <= b.id);
      assert KeyLess(kb, kc) || (kb == kc && b.id <= c.id);
    }
  }

  function Enumerate<T>(xs: seq<T>): (rows: seq<Row<T>>)
    ensures |rows| == |xs| && forall i | 0 <= i < |xs| :: rows[i] == Row(i, xs[i])
  {
    seq(|xs|, i requires 0 <= i < |xs| => Row(i, xs[i]))
  }

  function Data<T>(rows: seq<Row<T>>): (xs: seq<T>)
    ensures |xs| == |rows| && forall i | 0 <= i < |xs| :: xs[i] == rows[i].data
  {
    seq(|rows|, i requires 0 <= i < |rows| => rows[i].data)
  }

  /** Pair with the position, sort by key and position, and drop the position again. */
  function StableSort<T(!new)>(xs: seq<T>, key: T -> Key): seq<T> {
    Data(Sort(Enumerate(xs), ByKey(key)))
  }

  /** `ys` lists `xs` by ascending key; `p` says where each element was, and elements with equal
      keys keep their order. */
  ghost predicate StablySorted<T(!new)>(xs: seq<T>, ys: seq<T>, key: T -> Key, p: seq<nat>) {
    && |ys| == |p| == |xs|
    && (forall i | 0 <= i < |p| :: p[i] < |xs| && ys[i] == xs[p[i]])
    && (forall k: nat | k < |xs| :: k in p)
    && (forall i, j | 0 <= i < j < |p| :: KeyLess(key(ys[i]), key(ys[j])) || (key(ys[i]) == key(ys[j]) && p[i] < p[j]))
  }

  ghost predicate IsStableSort<T(!new)>(xs: seq<T>, ys: seq<T>, key: T -> Key) {
    exists p :: StablySorted(xs, ys, key, p)
  }

  lemma StableSortIsOne<T(!new)>(xs: seq<T>, key: T -> Key)
    ensures IsStableSort(xs, StableSort(xs, key), key)
    ensures multiset(StableSort(xs, key)) == multiset(xs)
  {
    var rows := Enumerate(xs);
    var sorted := Sort(rows, ByKey(key));
    ByKeyIsOrder(key);
    SortSorted(rows, ByKey(key));
    SortLookups(rows, ByKey(key));
    assert |sorted| == |multiset(sorted)| == |multiset(rows)| == |xs|;
    forall i | 0 <= i < |sorted| ensures sorted[i].id < |xs| && sorted[i].data == xs[sorted[i].id] {
      assert sorted[i] in multiset(rows);
    }
    var p := seq(|sorted|, i requires 0 <= i < |sorted| => sorted[i].id);
    forall k: nat | k < |xs| ensures k in p {
      assert rows[k] in multiset(sorted);
      var i :| 0 <= i < |sorted| && sorted[i] == rows[k];
      assert p[i] == k;
    }
    assert StablySorted(xs, Data(sorted), key, p);
    DataCounts(rows, sorted);
    assert Data(rows) == xs;
  }

  lemma DataWithout<T>(s: seq<Row<T>>, i: nat)
    requires i < |s|
    ensures multiset(Data(s)) == multiset(Data(s[..i] + s[i + 1..])) + multiset{s[i].data}
  {
    Without(Data(s), i);
    assert Data(s)[..i] + Data(s)[i + 1..] == Data(s[..i] + s[i + 1..]);
  }

  lemma {:induction false} DataCounts<T>(a: seq<Row<T>>, b: seq<Row<T>>)
    requires multiset(a) == multiset(b)
    ensures multiset(Data(a)) == multiset(Data(b))
  {
    if a == [] {
      assert |multiset(b)| == 0;
    } else {
      assert a[0] in multiset(b);
      var i :| 0 <= i < |b| && b[i] == a[0];
      var front, rest := a[..0] + a[1..], b[..i] + b[i + 1..];
      Without(a, 0);
      Without(b, i);
      Cancel(multiset(front), multiset(rest), multiset{a[0]});
      DataCounts(front, rest);
      DataWithout(a, 0);
      DataWithout(b, i);
    }
  }

  /** The rows a stable sort comes from. */
  function Sources<T>(xs: seq<T>, p: seq<nat>): (rows: seq<Row<T>>)
    requires forall i | 0 <= i < |p| :: p[i] < |xs|
    ensures |rows| == |p| && forall i | 0 <= i < |p| :: rows[i] == Row(p[i], xs[p[i]])
  {
    seq(|p|, i requires 0 <= i < |p| => Row(p[i], xs[p[i]]))
  }

  lemma {:induction false} SourcesFind<T(!new)>(xs: seq<T>, p: seq<nat>, id: Uuid)
    requires |p| == |xs| && (forall i | 0 <= i < |p| :: p[i] < |xs|) && forall k: nat | k < |xs| :: k in p
    requires UniqueIds(Sources(xs, p))
    ensures Find(Sources(xs, p), id) == Find(Enumerate(xs), id)
  {
    if id < |xs| {
      var n: nat := id;
      assert n in p;
      var i :| 0 <= i < |p| && p[i] == id;
      assert Sources(xs, p)[i] == Row(id, xs[id]) == Enumerate(xs)[id];
      FindMember(Sources(xs, p), Row(id, xs[id]));
      FindMember(Enumerate(xs), Row(id, xs[id]));
    }
  }

  /** A list has only one stable sort, so whatever the library's algorithm it returns this one. */
  lemma StableSortIsUnique<T(!new)>(xs: seq<T>, ys: seq<T>, key: T -> Key)
    requires IsStableSort(xs, ys, key)
    ensures ys == StableSort(xs, key)
  {
    var p :| StablySorted(xs, ys, key, p);
    var rows, le, b := Enumerate(xs), ByKey(key), Sources(xs, p);
    ByKeyIsOrder(key);
    SortLookups(rows, le);
    forall i, j | 0 <= i < j < |b| ensures le(b[i], b[j]) && b[i].id != b[j].id {
      assert b[i].data == ys[i] && b[j].data == ys[j];
    }
    forall id: Uuid ensures Find(b, id) == Find(Sort(rows, le), id) {
      SourcesFind(xs, p, id);
    }
    SortedByLookups(b, Sort(rows, le), le);
    assert Data(b) == ys;
  }

  // ---- grouping ----

  function TrackKey(t: Track): Key { t.trackNo }

  /** The tracks of disc `d` among the first `n`, in input order. */
  function Bucket(items: seq<Track>, n: nat, d: int): seq<Track>
    requires n <= |items|
  {
    if n == 0 then []
    else Bucket(items, n - 1, d) + if DiscOf(items[n - 1]) == d then [items[n - 1]] else []
  }

  /** The tracks of the first `n` groups, one group after the other. */
  function Flatten(groups: seq<DiscGroup>, n: nat): seq<Track>
    requires n <= |groups|
  {
    if n == 0 then [] else Flatten(groups, n - 1) + groups[n - 1].tracks
  }

  /** `discGroups.flatMap((g) => g.tracks)`. */
  function Ordered(groups: seq<DiscGroup>): seq<Track> { Flatten(groups, |groups|) }

  /** A group holds its disc's tracks stably sorted by track number, at least one, and starts where
      the groups before it end. */
  ghost predicate GroupAt(items: seq<Track>, groups: seq<DiscGroup>, i: nat)
    requires i < |groups|
  {
    && groups[i].tracks == StableSort(Bucket(items, |items|, groups[i].disc), TrackKey)
    && groups[i].startIndex == |Flatten(groups, i)|
    && groups[i].tracks != []
  }

  ghost predicate Grouped(items: seq<Track>, groups: seq<DiscGroup>) {
    && (forall i, j | 0 <= i < j < |groups| :: groups[i].disc < groups[j].disc)
    && (forall i | 0 <= i < |groups| :: GroupAt(items, groups, i))
  }

  ghost predicate HasGroup(groups: seq<DiscGroup>, n: nat, d: int)
    requires n <= |groups|
  {
    exists i :: 0 <= i < n && groups[i].disc == d
  }

  /** Every track's disc has its group. */
  ghost predicate Complete(items: seq<Track>, groups: seq<DiscGroup>) {
    forall t | t in items :: HasGroup(groups, |groups|, DiscOf(t))
  }

  function Ascending(d: int): Key { Some(d) }

  function Lookup(byDisc: map<int, seq<Track>>, d: int): seq<Track> {
    if d in byDisc then byDisc[d] else []
  }

  /** The buckets after `n` tracks: one for each disc met so far. */
  ghost predicate Filled(items: seq<Track>, n: nat, byDisc: map<int, seq<Track>>)
    requires n <= |items|
  {
    && (forall d :: Lookup(byDisc, d) == Bucket(items, n, d))
    && (forall d | d in byDisc :: Lookup(byDisc, d) != [])
  }

  lemma BucketNext(items: seq<Track>, n: nat, d: int)
    requires n < |items|
    ensures Bucket(items, n + 1, d)
            == if DiscOf(items[n]) == d then Bucket(items, n, d) + [items[n]] else Bucket(items, n, d)
  {
  }

  /** Pushing a track onto its bucket. */
  function Pushed(byDisc: map<int, seq<Track>>, t: Track): map<int, seq<Track>> {
    byDisc[DiscOf(t) := Lookup(byDisc, DiscOf(t)) + [t]]
  }

  lemma FilledStep(items: seq<Track>, n: nat, byDisc: map<int, seq<Track>>)
    requires n < |items| && Filled(items, n, byDisc)
    ensures Filled(items, n + 1, Pushed(byDisc, items[n]))
  {
    var after := Pushed(byDisc, items[n]);
    forall d ensures Lookup(after, d) == Bucket(items, n + 1, d) && (d in after ==> Lookup(after, d) != []) {
      BucketNext(items, n, d);
      assert Lookup(byDisc, d) == Bucket(items, n, d);
    }
  }

  ghost predicate Distinct(keys: seq<int>) {
    forall i, j | 0 <= i < j < |keys| :: keys[i] != keys[j]
  }

  /** The map's keys, each once. */
  ghost predicate KeysOf(byDisc: map<int, seq<Track>>, keys: seq<int>) {
    Distinct(keys) && forall d :: d in keys <==> d in byDisc
  }

  /** A new disc goes to the end of the key order. */
  function PushedKey(byDisc: map<int, seq<Track>>, keys: seq<int>, t: Track): seq<int> {
    if DiscOf(t) in byDisc then keys else keys + [DiscOf(t)]
  }

  lemma KeysStep(byDisc: map<int, seq<Track>>, keys: seq<int>, t: Track)
    requires KeysOf(byDisc, keys)
    ensures KeysOf(Pushed(byDisc, t), PushedKey(byDisc, keys, t))
  {
  }

  /** The loop body: push the track onto its bucket, or start a bucket with it. */
  method PushTrack(byDisc: map<int, seq<Track>>, keys: seq<int>, t: Track)
    returns (byDisc': map<int, seq<Track>>, keys': seq<int>)
    ensures byDisc' == Pushed(byDisc, t) && keys' == PushedKey(byDisc, keys, t)
  {
    var d := DiscOf(t);
    if d in byDisc {
      byDisc', keys' := byDisc[d := byDisc[d] + [t]], keys;
    } else {
      assert [] + [t] == [t];
      byDisc', keys' := byDisc[d := [t]], keys + [d];
    }
  }

  /** The first loop: a map from disc to bucket, and the discs in order of first appearance. */
  method FillBuckets(items: seq<Track>) returns (byDisc: map<int, seq<Track>>, keys: seq<int>)
    ensures Filled(items, |items|, byDisc) && KeysOf(byDisc, keys)
  {
    byDisc, keys := map[], [];
    for i := 0 to |items|
      invariant Filled(items, i, byDisc) && KeysOf(byDisc, keys)
    {
      FilledStep(items, i, byDisc);
      KeysStep(byDisc, keys, items[i]);
      byDisc, keys := PushTrack(byDisc, keys, items[i]);
    }
  }

  /** The groups made so far are those of the first discs. */
  ghost predicate GroupsOf(groups: seq<DiscGroup>, discs: seq<int>) {
    |groups| <= |discs| && forall i | 0 <= i < |groups| :: groups[i].disc == discs[i]
  }

  // ---- what a group is, by the numbers ----

  /** A track without a disc number is on disc 1. */
  predicate OnDisc(t: Track, disc: int) {
    match t.discNo
    case Some(x) => x == disc
    case None => disc == 1
  }

  /** Track `a` at place `i` of the album goes before `b` at place `j`: lower numbers first, tracks
      without one last, and otherwise as they stand. */
  predicate GoesBefore(a: Track, i: nat, b: Track, j: nat) {
    match (a.trackNo, b.trackNo)
    case (Some(x), Some(y)) => x < y || (x == y && i < j)
    case (Some(_), None) => true
    case (None, Some(_)) => false
    case (None, None) => i < j
  }

  /** The tracks are those of the album on this disc, found at places `at`, in order. */
  ghost predicate Lists(items: seq<Track>, disc: int, tracks: seq<Track>, at: seq<nat>) {
    && |at| == |tracks|
    && (forall i | 0 <= i < |at| :: at[i] < |items| && tracks[i] == items[at[i]] && OnDisc(tracks[i], disc))
    && (forall k: nat | k < |items| && OnDisc(items[k], disc) :: k in at)
    && (forall i, j | 0 <= i < j < |at| :: at[i] != at[j] && GoesBefore(tracks[i], at[i], tracks[j], at[j]))
  }

  /** The tracks of a bucket stand at these places of the first `n`. */
  ghost predicate FoundAt(items: seq<Track>, n: nat, disc: int, tracks: seq<Track>, at: seq<nat>)
    requires n <= |items|
  {
    && |at| == |tracks|
    && (forall i | 0 <= i < |at| :: at[i] < n && tracks[i] == items[at[i]] && OnDisc(tracks[i], disc))
    && (forall k: nat | k < n && OnDisc(items[k], disc) :: k in at)
    && (forall i, j | 0 <= i < j < |at| :: at[i] < at[j])
  }

  lemma FoundMore(items: seq<Track>, n: nat, disc: int, tracks: seq<Track>, at: seq<nat>)
    requires n < |items| && FoundAt(items, n, disc, tracks, at) && OnDisc(items[n], disc)
    ensures FoundAt(items, n + 1, disc, tracks + [items[n]], at + [n])
  {
    forall k: nat | k < n + 1 && OnDisc(items[k], disc) ensures k in at + [n] {
      if k < n { assert k in at; }
    }
  }

  lemma FoundSame(items: seq<Track>, n: nat, disc: int, tracks: seq<Track>, at: seq<nat>)
    requires n < |items| && FoundAt(items, n, disc, tracks, at) && !OnDisc(items[n], disc)
    ensures FoundAt(items, n + 1, disc, tracks, at)
  {
  }

  lemma BucketStep(items: seq<Track>, n: nat, disc: int)
    requires n < |items|
    ensures Bucket(items, n + 1, disc)
            == if OnDisc(items[n], disc) then Bucket(items, n, disc) + [items[n]] else Bucket(items, n, disc)
  {
    BucketNext(items, n, disc);
  }

  lemma {:induction false} BucketFound(items: seq<Track>, n: nat, disc: int) returns (at: seq<nat>)
    requires n <= |items|
    ensures FoundAt(items, n, disc, Bucket(items, n, disc), at)
  {
    if n == 0 {
      at := [];
    } else {
      var bucket := Bucket(items, n - 1, disc);
      at := BucketFound(items, n - 1, disc);
      BucketStep(items, n - 1, disc);
      if OnDisc(items[n - 1], disc) {
        FoundMore(items, n - 1, disc, bucket, at);
        at := at + [n - 1];
      } else {
        FoundSame(items, n - 1, disc, bucket, at);
      }
    }
  }

  lemma SortedPair(xs: seq<Track>, ys: seq<Track>, p: seq<nat>, i: nat, j: nat)
    requires StablySorted(xs, ys, TrackKey, p) && i < j < |p|
    ensures p[i] != p[j] && GoesBefore(ys[i], p[i], ys[j], p[j])
  {
    assert KeyLess(TrackKey(ys[i]), TrackKey(ys[j])) || (TrackKey(ys[i]) == TrackKey(ys[j]) && p[i] < p[j]);
  }

  /** A sorted bucket lists its disc, at the places where the bucket was found. */
  lemma Placed(items: seq<Track>, disc: int, bucket: seq<Track>, from: seq<nat>, tracks: seq<Track>, p: seq<nat>)
    returns (at: seq<nat>)
    requires FoundAt(items, |items|, disc, bucket, from) && StablySorted(bucket, tracks, TrackKey, p)
    ensures Lists(items, disc, tracks, at)
  {
    at := seq(|p|, i requires 0 <= i < |p| => from[p[i]]);
    forall k: nat | k < |items| && OnDisc(items[k], disc) ensures k in at {
      var b :| 0 <= b < |from| && from[b] == k;
      assert b in p;
      var i :| 0 <= i < |p| && p[i] == b;
      assert at[i] == k;
    }
    forall i, j | 0 <= i < j < |at|
      ensures at[i] != at[j] && GoesBefore(tracks[i], at[i], tracks[j], at[j])
    {
      SortedPair(bucket, tracks, p, i, j);
      assert p[i] < p[j] ==> from[p[i]] < from[p[j]];
      assert p[j] < p[i] ==> from[p[j]] < from[p[i]];
    }
  }

  /** The group lists the tracks of its disc. */
  ghost predicate ListsItsDisc(items: seq<Track>, g: DiscGroup) {
    exists at :: Lists(items, g.disc, g.tracks, at)
  }

  lemma {:induction false} SortedLists(items: seq<Track>, g: DiscGroup)
    requires g.tracks == StableSort(Bucket(items, |items|, g.disc), TrackKey)
    ensures ListsItsDisc(items, g)
  {
    var bucket := Bucket(items, |items|, g.disc);
    var from := BucketFound(items, |items|, g.disc);
    StableSortIsOne(bucket, TrackKey);
    var p :| StablySorted(bucket, g.tracks, TrackKey, p);
    var at := Placed(items, g.disc, bucket, from, g.tracks, p);
  }

  lemma {:induction false} GroupsList(items: seq<Track>, groups: seq<DiscGroup>)
    requires Grouped(items, groups)
    ensures forall i | 0 <= i < |groups| :: ListsItsDisc(items, groups[i])
  {
    forall i | 0 <= i < |groups| ensures ListsItsDisc(items, groups[i]) {
      assert GroupAt(items, groups, i);
      SortedLists(items, groups[i]);
    }
  }

  /** `groupTracksByDisc`. */
  method GroupTracksByDisc(items: seq<Track>) returns (groups: seq<DiscGroup>)
    ensures Grouped(items, groups) && Complete(items, groups)
    ensures forall i | 0 <= i < |groups| :: ListsItsDisc(items, groups[i])
  {
    var byDisc, keys := FillBuckets(items);
    var discs := StableSort(keys, Ascending);
    SortedDiscs(keys);
    var startIndex := 0;
    groups := [];
    for k := 0 to |discs|
      invariant |groups| == k && startIndex == |Flatten(groups, k)|
      invariant GroupsOf(groups, discs) && Grouped(items, groups)
    {
      BucketOf(items, byDisc, keys, discs[k]);
      var tracks := StableSort(byDisc[discs[k]], TrackKey);
      NextGroup(items, groups, discs, DiscGroup(discs[k], tracks, startIndex));
      groups := groups + [DiscGroup(discs[k], tracks, startIndex)];
      startIndex := startIndex + |tracks|;
    }
    AllDiscsGrouped(items, byDisc, keys, groups);
    GroupsList(items, groups);
  }

  lemma {:induction false} BucketOf(items: seq<Track>, byDisc: map<int, seq<Track>>, keys: seq<int>, d: int)
    requires Filled(items, |items|, byDisc) && KeysOf(byDisc, keys) && d in StableSort(keys, Ascending)
    ensures d in byDisc && byDisc[d] == Bucket(items, |items|, d) && StableSort(byDisc[d], TrackKey) != []
  {
    SortedDiscs(keys);
    assert Lookup(byDisc, d) == Bucket(items, |items|, d);
    StableSortIsOne(byDisc[d], TrackKey);
  }

  lemma {:induction false} NextGroup(items: seq<Track>, groups: seq<DiscGroup>, discs: seq<int>, g: DiscGroup)
    requires Grouped(items, groups) && GroupsOf(groups, discs) && |groups| < |discs|
    requires forall i, j | 0 <= i < j < |discs| :: discs[i] < discs[j]
    requires g.disc == discs[|groups|] && g.startIndex == |Flatten(groups, |groups|)|
    requires g.tracks == StableSort(Bucket(items, |items|, g.disc), TrackKey) && g.tracks != []
    ensures Grouped(items, groups + [g]) && GroupsOf(groups + [g], discs)
    ensures |Flatten(groups + [g], |groups| + 1)| == g.startIndex + |g.tracks|
  {
    GroupedExtends(items, groups, g);
  }

  lemma AllDiscsGrouped(items: seq<Track>, byDisc: map<int, seq<Track>>, keys: seq<int>, groups: seq<DiscGroup>)
    requires Filled(items, |items|, byDisc) && KeysOf(byDisc, keys)
    requires GroupsOf(groups, StableSort(keys, Ascending)) && |groups| == |StableSort(keys, Ascending)|
    ensures Complete(items, groups)
  {
    var discs := StableSort(keys, Ascending);
    SortedDiscs(keys);
    forall t | t in items ensures HasGroup(groups, |groups|, DiscOf(t)) {
      InItsBucket(items, t);
      assert Lookup(byDisc, DiscOf(t)) == Bucket(items, |items|, DiscOf(t));
      assert DiscOf(t) in keys;
      assert DiscOf(t) in discs;
      var i :| 0 <= i < |discs| && discs[i] == DiscOf(t);
      assert groups[i].disc == DiscOf(t);
    }
  }

  lemma SortedDiscs(keys: seq<int>)
    requires Distinct(keys)
    ensures var discs := StableSort(keys, Ascending);
            && (forall d :: d in discs <==> d in keys)
            && (forall i, j | 0 <= i < j < |discs| :: discs[i] < discs[j])
  {
    var discs := StableSort(keys, Ascending);
    StableSortIsOne(keys, Ascending);
    var p :| StablySorted(keys, discs, Ascending, p);
    forall d ensures d in discs <==> d in keys {
      assert d in discs <==> d in multiset(keys);
    }
    forall i, j | 0 <= i < j < |discs| ensures discs[i] < discs[j] {
      assert keys[p[i]] == discs[i] && keys[p[j]] == discs[j];
    }
  }

  lemma {:induction false} FlattenPrefix(groups: seq<DiscGroup>, g: DiscGroup, n: nat)
    requires n <= |groups|
    ensures Flatten(groups + [g], n) == Flatten(groups, n)
  {
    if n == 0 {
    } else {
      FlattenPrefix(groups, g, n - 1);
    }
  }

  lemma {:induction false} GroupedExtends(items: seq<Track>, groups: seq<DiscGroup>, g: DiscGroup)
    requires Grouped(items, groups)
    requires groups != [] ==> groups[|groups| - 1].disc < g.disc
    requires g.tracks == StableSort(Bucket(items, |items|, g.disc), TrackKey) && g.tracks != []
    requires g.startIndex == |Flatten(groups, |groups|)|
    ensures Grouped(items, groups + [g])
    ensures Flatten(groups + [g], |groups| + 1) == Flatten(groups, |groups|) + g.tracks
  {
    var all := groups + [g];
    FlattenPrefix(groups, g, |groups|);
    forall i | 0 <= i < |all| ensures GroupAt(items, all, i) {
      if i < |groups| {
        FlattenPrefix(groups, g, i);
        assert GroupAt(items, groups, i);
      }
    }
  }

  // ---- laws ----

  lemma TakeOne(items: seq<Track>, n: nat, t: Track)
    requires 0 < n <= |items|
    ensures multiset(items[..n])[t] == multiset(items[..n - 1])[t] + if items[n - 1] == t then 1 else 0
  {
    assert items[..n] == items[..n - 1] + [items[n - 1]];
  }

  lemma {:induction false} BucketCounts(items: seq<Track>, n: nat, d: int, t: Track)
    requires n <= |items|
    ensures multiset(Bucket(items, n, d))[t] == if DiscOf(t) == d then multiset(items[..n])[t] else 0
  {
    if n == 0 {
    } else {
      BucketCounts(items, n - 1, d, t);
      TakeOne(items, n, t);
      BucketNext(items, n - 1, d);
      var bucket, last := Bucket(items, n - 1, d), items[n - 1];
      assert multiset(bucket + [last])[t] == multiset(bucket)[t] + if last == t then 1 else 0;
    }
  }

  lemma {:induction false} InItsBucket(items: seq<Track>, t: Track)
    requires t in items
    ensures Bucket(items, |items|, DiscOf(t)) != []
  {
    BucketCounts(items, |items|, DiscOf(t), t);
    assert items[..|items|] == items && multiset(items)[t] > 0;
  }

  /** A group holds every track of its disc, as often as the album does, and no other. */
  lemma GroupCounts(items: seq<Track>, groups: seq<DiscGroup>, i: nat, t: Track)
    requires Grouped(items, groups) && i < |groups|
    ensures multiset(groups[i].tracks)[t] == if DiscOf(t) == groups[i].disc then multiset(items)[t] else 0
  {
    assert GroupAt(items, groups, i);
    StableSortIsOne(Bucket(items, |items|, groups[i].disc), TrackKey);
    BucketCounts(items, |items|, groups[i].disc, t);
    assert items[..|items|] == items;
  }

  lemma HasGroupNext(groups: seq<DiscGroup>, n: nat, d: int)
    requires 0 < n <= |groups| && forall i, j | 0 <= i < j < |groups| :: groups[i].disc < groups[j].disc
    ensures HasGroup(groups, n, d) <==> HasGroup(groups, n - 1, d) || groups[n - 1].disc == d
    ensures groups[n - 1].disc == d ==> !HasGroup(groups, n - 1, d)
  {
  }

  lemma {:induction false} FlattenCounts(items: seq<Track>, groups: seq<DiscGroup>, n: nat, t: Track)
    requires Grouped(items, groups) && n <= |groups|
    ensures multiset(Flatten(groups, n))[t] == if HasGroup(groups, n, DiscOf(t)) then multiset(items)[t] else 0
  {
    if n == 0 {
    } else {
      FlattenCounts(items, groups, n - 1, t);
      GroupCounts(items, groups, n - 1, t);
      HasGroupNext(groups, n, DiscOf(t));
    }
  }

  /** The flattened order holds the album's tracks, each as often as the album does. */
  lemma OrderedIsPermutation(items: seq<Track>, groups: seq<DiscGroup>)
    requires Grouped(items, groups) && Complete(items, groups)
    ensures multiset(Ordered(groups)) == multiset(items)
  {
    forall t ensures multiset(Ordered(groups))[t] == multiset(items)[t] {
      FlattenCounts(items, groups, |groups|, t);
      assert t in items ==> HasGroup(groups, |groups|, DiscOf(t));
    }
  }

  /** A group's tracks are the stretch of the flattened order that begins at its start index. */
  lemma {:induction false} StartIndexIsWhere(items: seq<Track>, groups: seq<DiscGroup>, k: nat, n: nat)
    requires Grouped(items, groups) && k < n <= |groups|
    ensures var g := groups[k];
            && g.startIndex + |g.tracks| <= |Flatten(groups, n)|
            && Flatten(groups, n)[g.startIndex..g.startIndex + |g.tracks|] == g.tracks
  {
    assert GroupAt(items, groups, k);
    var start, tracks, front := groups[k].startIndex, groups[k].tracks, Flatten(groups, n - 1);
    if k < n - 1 {
      StartIndexIsWhere(items, groups, k, n - 1);
      assert Flatten(groups, n)[..|front|] == front;
      assert Flatten(groups, n)[start..start + |tracks|] == front[start..start + |tracks|];
    } else {
      assert Flatten(groups, n) == front + tracks && start == |front|;
    }
  }

  /** Within a group: by track number, those without one last, and otherwise in input order. */
  lemma {:induction false} GroupIsStable(items: seq<Track>, groups: seq<DiscGroup>, i: nat)
    requires Grouped(items, groups) && i < |groups|
    ensures IsStableSort(Bucket(items, |items|, groups[i].disc), groups[i].tracks, TrackKey)
  {
    assert GroupAt(items, groups, i);
    StableSortIsOne(Bucket(items, |items|, groups[i].disc), TrackKey);
  }
}

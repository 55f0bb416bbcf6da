/** The sampling grid of the equalizer's response and the headroom derived from it
    (app/src/equalizer/dsp.ts). Powers and filter magnitudes are parameters. */
module EqualizerDsp {
  import opened Rows

  const MIN_FREQUENCY := 10.0
  const HEADROOM_MARGIN := 1.0
  const RESPONSE_POINTS: nat := 2048

  datatype Band = Band(position: int, enabled: bool, frequencyHz: real, gainDb: real, q: real)

  /** `pow(x, y)` is x ** y and `halfQ(q)` is 2 ** (1 / (2 q)). */
  datatype Powers = Powers(pow: (real, real) -> real, halfQ: real -> real) {
    ghost predicate Valid() {
      (forall x :: pow(x, 0.0) == 1.0) && (forall q :: halfQ(q) > 0.0)
    }
  }

  type ExactPowers = p: Powers | p.Valid() witness Powers((x, y) => 1.0, q => 1.0)

  function Abs(x: real): real { if x < 0.0 then -x else x }

  function Max(x: real, y: real): real { if x >= y then x else y }

  /** Two frequencies closer than this count as one grid point. */
  function Tolerance(value: real): real {
    Max(0.00000001, value * 0.0000000001)
  }

  // ---- sorting ----

  ghost predicate Ascending(xs: seq<real>) {
    forall i, j | 0 <= i < j < |xs| :: xs[i] <= xs[j]
  }

  ghost predicate StrictlyAscending(xs: seq<real>) {
    forall i, j | 0 <= i < j < |xs| :: xs[i] < xs[j]
  }

  function InsertReal(x: real, xs: seq<real>): seq<real> {
    if xs == [] || x <= xs[0] then [x] + xs else [xs[0]] + InsertReal(x, xs[1..])
  }

  function SortReals(xs: seq<real>): seq<real> {
    if xs == [] then [] else InsertReal(xs[0], SortReals(xs[1..]))
  }

  lemma {:induction false} InsertRealAscends(x: real, xs: seq<real>)
    requires Ascending(xs)
    ensures Ascending(InsertReal(x, xs))
    ensures forall y :: y in InsertReal(x, xs) <==> y == x || y in xs
  {
    var r := InsertReal(x, xs);
    if xs != [] && x > xs[0] {
      InsertRealAscends(x, xs[1..]);
      assert forall j | 0 < j < |r| :: r[j] in InsertReal(x, xs[1..]);
    } else {
      assert forall j | 0 < j < |r| :: r[j] == xs[j - 1];
    }
  }

  lemma {:induction false} SortRealsAscends(xs: seq<real>)
    ensures Ascending(SortReals(xs))
    ensures forall y :: y in SortReals(xs) <==> y in xs
  {
    if xs == [] {
    } else {
      SortRealsAscends(xs[1..]);
      InsertRealAscends(xs[0], SortReals(xs[1..]));
    }
  }

  // ---- deduplication ----

  /** A kept point lies at most the tolerance of `v` below it. */
  ghost predicate Near(kept: seq<real>, v: real) {
    exists i :: 0 <= i < |kept| && 0.0 <= v - kept[i] <= Tolerance(v)
  }

  function Admit(kept: seq<real>, v: real): seq<real> {
    if kept == [] || Abs(v - kept[|kept| - 1]) > Tolerance(v) then kept + [v] else kept
  }

  function Dedup(kept: seq<real>, rest: seq<real>): seq<real>
    decreases |rest|
  {
    if rest == [] then kept else Dedup(Admit(kept, rest[0]), rest[1..])
  }

  /** Neighbouring points are further apart than the tolerance. */
  ghost predicate Spaced(xs: seq<real>) {
    StrictlyAscending(xs) && forall i | 0 < i < |xs| :: xs[i] - xs[i - 1] > Tolerance(xs[i])
  }

  lemma NearPrefix(kept: seq<real>, longer: seq<real>, v: real)
    requires Near(kept, v) && kept <= longer
    ensures Near(longer, v)
  {
    var i :| 0 <= i < |kept| && 0.0 <= v - kept[i] <= Tolerance(v);
    assert longer[i] == kept[i];
  }

  lemma AdmitSpaces(kept: seq<real>, v: real)
    requires Spaced(kept) && (kept != [] ==> kept[|kept| - 1] <= v)
    ensures Spaced(Admit(kept, v)) && kept <= Admit(kept, v)
    ensures Admit(kept, v) != [] && Admit(kept, v)[|Admit(kept, v)| - 1] <= v
    ensures Near(Admit(kept, v), v)
  {
    var more := Admit(kept, v);
    assert 0.0 <= v - more[|more| - 1] <= Tolerance(v);
  }

  lemma {:induction false} DedupSpaces(kept: seq<real>, rest: seq<real>)
    requires Spaced(kept) && Ascending(rest)
    requires kept != [] && rest != [] ==> kept[|kept| - 1] <= rest[0]
    ensures Spaced(Dedup(kept, rest)) && kept <= Dedup(kept, rest)
    decreases |rest|
  {
    if rest == [] {
    } else {
      AdmitSpaces(kept, rest[0]);
      DedupSpaces(Admit(kept, rest[0]), rest[1..]);
    }
  }

  lemma {:induction false} DedupCovers(kept: seq<real>, rest: seq<real>)
    requires Spaced(kept) && Ascending(rest)
    requires kept != [] && rest != [] ==> kept[|kept| - 1] <= rest[0]
    ensures forall x | x in Dedup(kept, rest) :: x in kept || x in rest
    ensures forall v | v in rest :: Near(Dedup(kept, rest), v)
    decreases |rest|
  {
    if rest == [] {
    } else {
      var more := Admit(kept, rest[0]);
      AdmitSpaces(kept, rest[0]);
      DedupSpaces(more, rest[1..]);
      DedupCovers(more, rest[1..]);
      NearPrefix(more, Dedup(kept, rest), rest[0]);
      assert rest == [rest[0]] + rest[1..];
    }
  }

  lemma {:induction false} UniqueIs(values: seq<real>)
    ensures var result := Dedup([], SortReals(values));
            && Spaced(result) && (forall r | r in result :: r in values)
            && forall v | v in values :: Near(result, v)
  {
    SortRealsAscends(values);
    DedupSpaces([], SortReals(values));
    DedupCovers([], SortReals(values));
  }

  /** `uniqueSorted`: sort, then keep a value only if it is clear of the last kept one. */
  method UniqueSorted(values: seq<real>) returns (result: seq<real>)
    ensures result == Dedup([], SortReals(values))
    ensures Spaced(result)
    ensures forall r | r in result :: r in values
    ensures forall v | v in values :: Near(result, v)
  {
    var sorted := SortReals(values);
    result := [];
    for i := 0 to |sorted|
      invariant Dedup([], sorted) == Dedup(result, sorted[i..])
    {
      var value := sorted[i];
      if result == [] || Abs(value - result[|result| - 1]) > Tolerance(value) {
        result := result + [value];
      }
    }
    UniqueIs(values);
  }

  // ---- the grid ----

  /** The logarithmic sweep from 10 Hz to just below Nyquist. */
  function Sweep(p: Powers, upper: real, points: nat): seq<real>
    requires points >= 2
  {
    seq(points, (i: nat) => MIN_FREQUENCY * p.pow(upper / MIN_FREQUENCY, i as real / (points - 1) as real))
  }

  lemma SweepStartsAtMinimum(p: Powers, upper: real, points: nat)
    requires p.Valid() && points >= 2
    ensures MIN_FREQUENCY in Sweep(p, upper, points)
  {
    assert 0 as real / (points - 1) as real == 0.0;
    assert Sweep(p, upper, points)[0] == MIN_FREQUENCY;
  }

  /** Centre and half-Q neighbours of one band. */
  function Neighbours(p: Powers, band: Band): seq<real>
    requires p.Valid()
  {
    [band.frequencyHz, band.frequencyHz / p.halfQ(band.q), band.frequencyHz * p.halfQ(band.q)]
  }

  /** A frequency of the sweep, which rises from 10 Hz to `upper` in equal ratios, or an enabled band's
      centre, or half a bandwidth below or above it. */
  ghost predicate Candidate(p: Powers, bands: seq<Band>, upper: real, points: nat, f: real)
    requires points >= 2 && p.Valid()
  {
    || (exists i: nat :: i < points && f == SweptAt(p, upper, points, i))
    || exists b :: b in bands && b.enabled
                   && (f == b.frequencyHz || f * p.halfQ(b.q) == b.frequencyHz || f == b.frequencyHz * p.halfQ(b.q))
  }

  /** Point `i` of the sweep. */
  function SweptAt(p: Powers, upper: real, points: nat, i: nat): real
    requires points >= 2
  {
    10.0 * p.pow(upper / 10.0, i as real / (points - 1) as real)
  }

  lemma CandidatesAre(p: Powers, bands: seq<Band>, upper: real, points: nat, f: real)
    requires points >= 2 && p.Valid()
    ensures Candidate(p, bands, upper, points, f)
            <==> f in Sweep(p, upper, points) || exists b :: b in bands && b.enabled && f in Neighbours(p, b)
  {
    var sweep := Sweep(p, upper, points);
    forall i: nat | i < points ensures sweep[i] == SweptAt(p, upper, points, i) {}
    forall b: Band
      ensures f in Neighbours(p, b)
              <==> f == b.frequencyHz || f * p.halfQ(b.q) == b.frequencyHz || f == b.frequencyHz * p.halfQ(b.q)
    {
      NeighboursAre(p, b, f);
    }
  }

  lemma Quotient(f: real, c: real, h: real)
    requires h > 0.0
    ensures f == c / h <==> f * h == c
  {
  }

  lemma NeighboursAre(p: Powers, b: Band, f: real)
    requires p.Valid()
    ensures f in Neighbours(p, b)
            <==> f == b.frequencyHz || f * p.halfQ(b.q) == b.frequencyHz || f == b.frequencyHz * p.halfQ(b.q)
  {
    Quotient(f, b.frequencyHz, p.halfQ(b.q));
    var ns := Neighbours(p, b);
    assert f in ns <==> f == ns[0] || f == ns[1] || f == ns[2];
  }

  function InRange(values: seq<real>, nyquist: real): (r: seq<real>)
    ensures forall v :: v in r <==> v in values && MIN_FREQUENCY <= v < nyquist
  {
    if values == [] then []
    else if MIN_FREQUENCY <= values[0] < nyquist then [values[0]] + InRange(values[1..], nyquist)
    else InRange(values[1..], nyquist)
  }

  function EnabledNeighbours(p: Powers, bands: seq<Band>): seq<real>
    requires p.Valid()
  {
    if bands == [] then []
    else
      EnabledNeighbours(p, bands[..|bands| - 1])
      + if bands[|bands| - 1].enabled then Neighbours(p, bands[|bands| - 1]) else []
  }

  lemma {:induction false} EnabledNeighboursMember(p: Powers, bands: seq<Band>, f: real)
    requires p.Valid()
    ensures f in EnabledNeighbours(p, bands) <==> exists b :: b in bands && b.enabled && f in Neighbours(p, b)
  {
    if bands == [] {
    } else {
      var front, last := bands[..|bands| - 1], bands[|bands| - 1];
      EnabledNeighboursMember(p, front, f);
      assert bands == front + [last];
      assert f in EnabledNeighbours(p, bands) <==>
        f in EnabledNeighbours(p, front) || (last.enabled && f in Neighbours(p, last));
    }
  }

  /** The grid as a function of its arguments. */
  function Grid(p: Powers, bands: seq<Band>, sampleRate: real, points: nat): seq<real>
    requires p.Valid()
  {
    var upper := sampleRate / 2.0 * 0.9999999;
    if upper <= MIN_FREQUENCY || points < 2 then []
    else Dedup([], SortReals(InRange(Sweep(p, upper, points) + EnabledNeighbours(p, bands), sampleRate / 2.0)))
  }

  /** The grid that `buildFrequencyGrid` promises: strictly rising in [10 Hz, Nyquist), made of
      candidates, with a point within tolerance of every in-range candidate. */
  ghost predicate IsGrid(p: Powers, bands: seq<Band>, sampleRate: real, points: nat, grid: seq<real>)
    requires p.Valid()
  {
    var nyquist := sampleRate / 2.0;
    var upper := nyquist * 0.9999999;
    if upper <= MIN_FREQUENCY || points < 2 then grid == []
    else
      && StrictlyAscending(grid)
      && grid != [] && grid[0] == MIN_FREQUENCY
      && (forall f | f in grid :: MIN_FREQUENCY <= f < nyquist && Candidate(p, bands, upper, points, f))
      && (forall f | Candidate(p, bands, upper, points, f) && MIN_FREQUENCY <= f < nyquist ::
            Near(grid, f))
  }

  lemma StartsAtMinimum(grid: seq<real>)
    requires StrictlyAscending(grid) && Near(grid, MIN_FREQUENCY)
    requires forall f | f in grid :: MIN_FREQUENCY <= f
    ensures grid[0] == MIN_FREQUENCY
  {
    var i :| 0 <= i < |grid| && 0.0 <= MIN_FREQUENCY - grid[i] <= Tolerance(MIN_FREQUENCY);
    assert grid[i] in grid && grid[0] in grid;
  }

  lemma GridIsGrid(p: Powers, bands: seq<Band>, sampleRate: real, points: nat)
    requires p.Valid()
    ensures IsGrid(p, bands, sampleRate, points, Grid(p, bands, sampleRate, points))
  {
    var nyquist := sampleRate / 2.0;
    var upper := nyquist * 0.9999999;
    if upper <= MIN_FREQUENCY || points < 2 {
    } else {
      var values := Sweep(p, upper, points) + EnabledNeighbours(p, bands);
      forall f ensures f in values <==> Candidate(p, bands, upper, points, f) {
        EnabledNeighboursMember(p, bands, f);
        CandidatesAre(p, bands, upper, points, f);
      }
      UniqueIs(InRange(values, nyquist));
      SweepStartsAtMinimum(p, upper, points);
      StartsAtMinimum(Grid(p, bands, sampleRate, points));
    }
  }

  method BuildFrequencyGrid(p: Powers, bands: seq<Band>, sampleRate: real, points: nat)
    returns (grid: seq<real>)
    requires p.Valid()
    ensures grid == Grid(p, bands, sampleRate, points)
    ensures IsGrid(p, bands, sampleRate, points, grid)
  {
    var nyquist := sampleRate / 2.0;
    var upper := nyquist * 0.9999999;
    if upper <= MIN_FREQUENCY || points < 2 {
      return [];
    }
    var values := Sweep(p, upper, points);
    for i := 0 to |bands|
      invariant values == Sweep(p, upper, points) + EnabledNeighbours(p, bands[..i])
    {
      assert bands[..i + 1][..i] == bands[..i];
      if bands[i].enabled {
        values := values + Neighbours(p, bands[i]);
      }
    }
    assert bands[..|bands|] == bands;
    grid := UniqueSorted(InRange(values, nyquist));
    GridIsGrid(p, bands, sampleRate, points);
  }

  /** The centre of every enabled band below Nyquist lies within tolerance of a grid point. */
  lemma CentresAreSampled(p: Powers, bands: seq<Band>, sampleRate: real, points: nat, grid: seq<real>, band: Band)
    requires p.Valid() && IsGrid(p, bands, sampleRate, points, grid) && grid != []
    requires band in bands && band.enabled && MIN_FREQUENCY <= band.frequencyHz < sampleRate / 2.0
    ensures Near(grid, band.frequencyHz)
  {
    assert Neighbours(p, band)[0] == band.frequencyHz;
    assert Candidate(p, bands, sampleRate / 2.0 * 0.9999999, points, band.frequencyHz);
  }

  // ---- response and headroom ----

  datatype Response = Response(frequencies: seq<real>, untrimmedDb: seq<real>, appliedDb: seq<real>,
                               peakDb: real, trimDb: real, effectivePreampDb: real, incompatible: Option<int>)

  /** Band `b` at frequency `f` and sample rate `r`, in dB. */
  type Magnitude = (Band, real, real) -> real

  function EnabledBands(bands: seq<Band>): seq<Band> {
    if bands == [] then [] else (if bands[0].enabled then [bands[0]] else []) + EnabledBands(bands[1..])
  }

  /** Sum of the first-to-last contributions of `bands` at one frequency. */
  function SumDb(m: Magnitude, bands: seq<Band>, f: real, sampleRate: real): real {
    if bands == [] then 0.0
    else SumDb(m, bands[..|bands| - 1], f, sampleRate) + m(bands[|bands| - 1], f, sampleRate)
  }

  function MaxOf(xs: seq<real>): (r: real)
    requires xs != []
    ensures r in xs && forall x | x in xs :: x <= r
  {
    if |xs| == 1 then xs[0]
    else
      assert xs == [xs[0]] + xs[1..];
      Max(xs[0], MaxOf(xs[1..]))
  }

  /** Negative just when headroom is wanted and the curve rises above 0 dB. */
  function SafetyTrim(wanted: bool, peakDb: real): real {
    if wanted && peakDb > 0.0 then -(peakDb + HEADROOM_MARGIN) else 0.0
  }

  predicate AtNyquist(band: Band, sampleRate: real) {
    band.enabled && band.frequencyHz >= sampleRate / 2.0
  }

  /** Position of the first enabled band at or above Nyquist, if any. */
  function FirstIncompatible(bands: seq<Band>, sampleRate: real): (r: Option<int>)
    ensures r.None? <==> forall b | b in bands :: !AtNyquist(b, sampleRate)
    ensures r.Some? ==> exists i :: 0 <= i < |bands| && AtNyquist(bands[i], sampleRate) && bands[i].position == r.value
                                    && forall j | 0 <= j < i :: !AtNyquist(bands[j], sampleRate)
  {
    if bands == [] then None
    else
      assert bands == [bands[0]] + bands[1..];
      if AtNyquist(bands[0], sampleRate) then Some(bands[0].position)
      else
        var rest := FirstIncompatible(bands[1..], sampleRate);
        FirstInRest(bands, sampleRate, rest);
        rest
  }

  lemma FirstInRest(bands: seq<Band>, sampleRate: real, r: Option<int>)
    requires bands != [] && !AtNyquist(bands[0], sampleRate)
    ensures r.Some? ==>
      ((exists i :: 0 <= i < |bands[1..]| && AtNyquist(bands[1..][i], sampleRate) && bands[1..][i].position == r.value
                    && forall j | 0 <= j < i :: !AtNyquist(bands[1..][j], sampleRate))
       ==> exists i :: 0 <= i < |bands| && AtNyquist(bands[i], sampleRate) && bands[i].position == r.value
                       && forall j | 0 <= j < i :: !AtNyquist(bands[j], sampleRate))
  {
    var rest := bands[1..];
    if r.Some? {
      if i :| 0 <= i < |rest| && AtNyquist(rest[i], sampleRate) && rest[i].position == r.value
              && forall j | 0 <= j < i :: !AtNyquist(rest[j], sampleRate) {
        forall j | 0 <= j < i + 1 ensures !AtNyquist(bands[j], sampleRate) {
          if j > 0 { assert bands[j] == rest[j - 1]; }
        }
        assert bands[i + 1] == rest[i];
      }
    }
  }

  function Untrimmed(m: Magnitude, preampDb: real, bands: seq<Band>, sampleRate: real, grid: seq<real>): seq<real> {
    seq(|grid|, i requires 0 <= i < |grid| => preampDb + SumDb(m, bands, grid[i], sampleRate))
  }

  function Shift(xs: seq<real>, offset: real): seq<real> {
    seq(|xs|, i requires 0 <= i < |xs| => xs[i] + offset)
  }

  function Zeros(n: nat): seq<real> {
    seq(n, _ => 0.0)
  }

  function ResponseOn(m: Magnitude, preampDb: real, autoHeadroom: bool, bands: seq<Band>, sampleRate: real,
                      grid: seq<real>): Response
  {
    if FirstIncompatible(bands, sampleRate).Some? || grid == [] then
      Response(grid, Zeros(|grid|), Zeros(|grid|), 0.0, 0.0, 0.0, FirstIncompatible(bands, sampleRate))
    else
      var untrimmed := Untrimmed(m, preampDb, EnabledBands(bands), sampleRate, grid);
      var trim := SafetyTrim(autoHeadroom, MaxOf(untrimmed));
      Response(grid, untrimmed, Shift(untrimmed, trim), MaxOf(untrimmed), trim, preampDb + trim, None)
  }

  method UntrimmedAt(m: Magnitude, preampDb: real, bands: seq<Band>, f: real, sampleRate: real) returns (db: real)
    ensures db == preampDb + SumDb(m, bands, f, sampleRate)
  {
    db := preampDb;
    for i := 0 to |bands|
      invariant db == preampDb + SumDb(m, bands[..i], f, sampleRate)
    {
      assert bands[..i + 1][..i] == bands[..i];
      db := db + m(bands[i], f, sampleRate);
    }
    assert bands[..|bands|] == bands;
  }

  /** The accumulation for each frequency in turn. */
  method UntrimmedOn(m: Magnitude, preampDb: real, enabled: seq<Band>, sampleRate: real, grid: seq<real>)
    returns (untrimmed: seq<real>)
    ensures untrimmed == Untrimmed(m, preampDb, enabled, sampleRate, grid)
  {
    untrimmed := [];
    for k := 0 to |grid|
      invariant |untrimmed| == k
      invariant forall j | 0 <= j < k :: untrimmed[j] == preampDb + SumDb(m, enabled, grid[j], sampleRate)
    {
      var db := UntrimmedAt(m, preampDb, enabled, grid[k], sampleRate);
      untrimmed := untrimmed + [db];
    }
  }

  /** `calculateEqualizerResponse`. */
  method CalculateEqualizerResponse(p: Powers, m: Magnitude, preampDb: real, autoHeadroom: bool, bands: seq<Band>,
                                    sampleRate: real)
    returns (r: Response)
    requires p.Valid()
    ensures r == ResponseOn(m, preampDb, autoHeadroom, bands, sampleRate, Grid(p, bands, sampleRate, RESPONSE_POINTS))
    ensures IsGrid(p, bands, sampleRate, RESPONSE_POINTS, r.frequencies)
  {
    var grid := BuildFrequencyGrid(p, bands, sampleRate, RESPONSE_POINTS);
    var incompatible := FirstIncompatible(bands, sampleRate);
    if incompatible.Some? || grid == [] {
      return Response(grid, Zeros(|grid|), Zeros(|grid|), 0.0, 0.0, 0.0, incompatible);
    }
    var enabled := EnabledBands(bands);
    var untrimmed := UntrimmedOn(m, preampDb, enabled, sampleRate, grid);
    var peak := MaxOf(untrimmed);
    var trim := SafetyTrim(autoHeadroom, peak);
    r := Response(grid, untrimmed, Shift(untrimmed, trim), peak, trim, preampDb + trim, None);
  }

  /** Headroom: with automatic headroom no applied point exceeds 0 dB; a trim is applied exactly
      when the untrimmed curve does, and then the applied curve peaks at exactly -1 dB. */
  lemma HeadroomHolds(m: Magnitude, preampDb: real, autoHeadroom: bool, bands: seq<Band>, sampleRate: real,
                      grid: seq<real>)
    ensures var r := ResponseOn(m, preampDb, autoHeadroom, bands, sampleRate, grid);
            && (autoHeadroom ==> forall x | x in r.appliedDb :: x <= 0.0)
            && (r.trimDb != 0.0 <==> autoHeadroom && exists x :: x in r.untrimmedDb && x > 0.0)
            && (r.trimDb != 0.0 ==> -1.0 in r.appliedDb && forall x | x in r.appliedDb :: x <= -1.0)
            && (!autoHeadroom ==> r.appliedDb == r.untrimmedDb)
  {
    var r := ResponseOn(m, preampDb, autoHeadroom, bands, sampleRate, grid);
    if FirstIncompatible(bands, sampleRate).None? && grid != [] {
      var at :| 0 <= at < |r.untrimmedDb| && r.untrimmedDb[at] == r.peakDb;
      assert r.appliedDb[at] == r.peakDb + r.trimDb;
      assert forall i | 0 <= i < |r.untrimmedDb| :: r.untrimmedDb[i] in r.untrimmedDb;
      assert !autoHeadroom ==> r.appliedDb == r.untrimmedDb;
    }
  }
}

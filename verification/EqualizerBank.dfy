/** What an equalizer request sounds like: its audio signature (app/src/equalizer/dsp.ts) and
    the filter bank built for it (`buildBank` of app/src/player/audioGraph.ts). */
module EqualizerBank {
  import opened Rows
  import Dsp = EqualizerDsp

  /** A JavaScript number; the two zeros are one value here. */
  datatype Num = Finite(value: real) | PositiveInfinity | NegativeInfinity | NotANumber

  datatype Band = Band(position: Num, enabled: bool, filterKind: string,
                       frequencyHz: Num, gainDb: Num, q: Num)

  datatype Profile = Profile(id: string, name: string, formatVersion: Num, preampDb: Num,
                             autoHeadroom: bool, bands: seq<Band>, revision: string)

  datatype Request = Request(profile: Option<Profile>, bypassed: bool, bass: int, treble: int) {
    predicate Normalized() {
      0 <= bass <= 100 && 0 <= treble <= 100
    }
  }

  const FLAT_REQUEST := Request(None, true, 0, 0)

  // ---- normalization ----

  function Clamp(x: real): real {
    if x < 0.0 then 0.0 else if x > 100.0 then 100.0 else x
  }

  /** The whole percentage nearest to a value, halves up, within 0 to 100; 0 for one that is not finite. */
  predicate IsPercentOf(percent: int, value: Num) {
    match value
    case Finite(x) =>
      if x <= 0.0 then percent == 0
      else if x >= 100.0 then percent == 100
      else percent as real - 0.5 <= x < percent as real + 0.5
    case _ => percent == 0
  }

  /** `boundedPercent`. */
  function BoundedPercent(value: Num): (percent: int)
    ensures 0 <= percent <= 100 && IsPercentOf(percent, value)
  {
    (Clamp(if value.Finite? then value.value else 0.0) + 0.5).Floor
  }

  // ---- signature ----

  /** The array that is stringified; stringification is injective on such arrays, and writes a
      non-finite number as null. */
  datatype Json = JNull | JBool(flag: bool) | JNum(value: real) | JText(text: string) | JArray(items: seq<Json>)

  datatype Signature = FlatSignature | Audible(json: Json)

  function NumJson(n: Num): Json {
    if n.Finite? then JNum(n.value) else JNull
  }

  function BandJson(b: Band): Json {
    JArray([NumJson(b.position), JBool(b.enabled), JText(b.filterKind),
            NumJson(b.frequencyHz), NumJson(b.gainDb), NumJson(b.q)])
  }

  function BandsJson(bands: seq<Band>): seq<Json> {
    seq(|bands|, i requires 0 <= i < |bands| => BandJson(bands[i]))
  }

  function ProfileJson(p: Profile): Json {
    JArray([JText(p.id), NumJson(p.formatVersion), NumJson(p.preampDb), JBool(p.autoHeadroom),
            JArray(BandsJson(p.bands))])
  }

  function Percent(value: int): int {
    if value < 0 then 0 else if value > 100 then 100 else value
  }

  function AudioSignature(r: Request): Signature {
    var bass, treble := Percent(r.bass), Percent(r.treble);
    if r.bypassed || (r.profile.None? && bass == 0 && treble == 0) then FlatSignature
    else
      Audible(JArray([if r.profile.None? then JNull else ProfileJson(r.profile.value),
                      JNum(bass as real), JNum(treble as real)]))
  }

  // ---- the bank ----

  predicate Within(n: Num, low: real, high: real) {
    n.Finite? && low <= n.value <= high
  }

  predicate SupportedBand(b: Band, index: nat) {
    && b.position == Finite((index + 1) as real)
    && b.filterKind == "peaking"
    && Within(b.frequencyHz, 10.0, 20000.0)
    && Within(b.gainDb, -24.0, 24.0)
    && Within(b.q, 0.1, 30.0)
  }

  predicate Supported(p: Profile) {
    && p.formatVersion == Finite(1.0)
    && 1 <= |p.bands| <= 32
    && Within(p.preampDb, -30.0, 12.0)
    && forall i | 0 <= i < |p.bands| :: SupportedBand(p.bands[i], i)
  }

  datatype Filter =
    | Peaking(band: Dsp.Band)
    | LowShelf(frequencyHz: real, gainDb: real)
    | HighShelf(frequencyHz: real, gainDb: real)

  datatype Warning = NoWarning | UnsupportedFormat | AtNyquist(position: int)

  /** The sounding part of a bank, and what it reports. */
  datatype Plan = Plan(filters: seq<Filter>, inputGain: real, bypassed: bool, appliedProfile: Option<string>,
                       peakDb: real, trimDb: real, effectivePreampDb: real, warning: Warning)

  /** The audio device: its rate, the analytic curves of its nodes, `linearToDb` and `dbToLinear`, the
      powers its grid is swept with, and the rounding `single` of a frequency to the 32 bits its nodes
      take. */
  datatype Device = Device(sampleRate: real,
                           decibels: real -> real,
                           linear: real -> real,
                           powers: Dsp.ExactPowers,
                           single: real -> real,
                           magnitudeDb: (Filter, real) -> real)

  function Rounded(d: Device, grid: seq<real>): seq<real> {
    seq(|grid|, i requires 0 <= i < |grid| => d.single(grid[i]))
  }

  /** The frequencies at which the bank is measured. */
  function SampleGrid(d: Device, bands: seq<Dsp.Band>): seq<real> {
    Rounded(d, Dsp.Grid(d.powers, bands, d.sampleRate, Dsp.RESPONSE_POINTS))
  }

  function DspBands(bands: seq<Band>): seq<Dsp.Band>
    requires forall i | 0 <= i < |bands| :: SupportedBand(bands[i], i)
  {
    seq(|bands|, i requires 0 <= i < |bands| && SupportedBand(bands[i], i) =>
      Dsp.Band(i + 1, bands[i].enabled, bands[i].frequencyHz.value, bands[i].gainDb.value, bands[i].q.value))
  }

  function Peakings(bands: seq<Dsp.Band>): seq<Filter> {
    if bands == [] then []
    else (if bands[0].enabled then [Peaking(bands[0])] else []) + Peakings(bands[1..])
  }

  /** `extraPercentToDb`. */
  function ShelfDb(d: Device, percent: int): real {
    d.decibels(1.0 + Percent(percent) as real / 100.0)
  }

  function Shelves(d: Device, r: Request): seq<Filter> {
    (if r.bass > 0 then [LowShelf(120.0, ShelfDb(d, r.bass))] else [])
    + (if r.treble > 0
       then [HighShelf(if d.sampleRate * 0.4 < 8000.0 then d.sampleRate * 0.4 else 8000.0, ShelfDb(d, r.treble))]
       else [])
  }

  function ChainDb(d: Device, filters: seq<Filter>, f: real): real {
    if filters == [] then 0.0
    else ChainDb(d, filters[..|filters| - 1], f) + d.magnitudeDb(filters[|filters| - 1], f)
  }

  function Curve(d: Device, preampDb: real, filters: seq<Filter>, grid: seq<real>): seq<real> {
    seq(|grid|, i requires 0 <= i < |grid| => preampDb + ChainDb(d, filters, grid[i]))
  }

  function FlatPlan(warning: Warning): Plan {
    Plan([], 1.0, true, None, 0.0, 0.0, 0.0, warning)
  }

  predicate HasTone(r: Request) {
    r.bass > 0 || r.treble > 0
  }

  predicate WantsFlat(r: Request) {
    r.bypassed || (r.profile.None? && !HasTone(r))
  }

  function RequestBands(r: Request): seq<Dsp.Band>
    requires r.profile.Some? ==> Supported(r.profile.value)
  {
    if r.profile.Some? then DspBands(r.profile.value.bands) else []
  }

  /** The audible plan of a request whose profile, if any, fits the device. */
  function ChainPlan(d: Device, r: Request): Plan
    requires r.profile.Some? ==> Supported(r.profile.value)
  {
    var bands := RequestBands(r);
    var filters := Peakings(bands) + Shelves(d, r);
    var preamp := if r.profile.Some? then r.profile.value.preampDb.value else 0.0;
    var curve := Curve(d, preamp, filters, SampleGrid(d, bands));
    var peak := if curve == [] then preamp else Dsp.MaxOf(curve);
    var trim := Dsp.SafetyTrim(HasTone(r) || (r.profile.Some? && r.profile.value.autoHeadroom), peak);
    Plan(filters, d.linear(preamp + trim), false, if r.profile.Some? then Some(r.profile.value.id) else None,
         peak, trim, preamp + trim, NoWarning)
  }

  function PlanFor(d: Device, r: Request): Plan {
    if WantsFlat(r) then FlatPlan(NoWarning)
    else if r.profile.Some? && !Supported(r.profile.value) then FlatPlan(UnsupportedFormat)
    else
      var clash := Dsp.FirstIncompatible(RequestBands(r), d.sampleRate);
      if clash.Some? then FlatPlan(AtNyquist(clash.value)) else ChainPlan(d, r)
  }

  /** `buildBank`, with its filter-by-filter accumulation into the response buffer. */
  method BuildPlan(d: Device, r: Request) returns (plan: Plan)
    ensures plan == PlanFor(d, r)
  {
    if WantsFlat(r) {
      return FlatPlan(NoWarning);
    }
    if r.profile.Some? && !Supported(r.profile.value) {
      return FlatPlan(UnsupportedFormat);
    }
    var bands := RequestBands(r);
    var clash := Dsp.FirstIncompatible(bands, d.sampleRate);
    if clash.Some? {
      return FlatPlan(AtNyquist(clash.value));
    }
    var filters := Peakings(bands) + Shelves(d, r);
    var preamp := if r.profile.Some? then r.profile.value.preampDb.value else 0.0;
    var frequencies := Dsp.BuildFrequencyGrid(d.powers, bands, d.sampleRate, Dsp.RESPONSE_POINTS);
    var grid := Rounded(d, frequencies);
    var curve := AggregateResponse(d, preamp, filters, grid);
    var peak := if curve == [] then preamp else Dsp.MaxOf(curve);
    var trim := Dsp.SafetyTrim(HasTone(r) || (r.profile.Some? && r.profile.value.autoHeadroom), peak);
    plan := Plan(filters, d.linear(preamp + trim), false, if r.profile.Some? then Some(r.profile.value.id) else None,
                 peak, trim, preamp + trim, NoWarning);
  }

  /** Accumulates the chain's response filter by filter into one buffer. */
  method AggregateResponse(d: Device, preampDb: real, filters: seq<Filter>, grid: seq<real>)
    returns (curve: seq<real>)
    ensures curve == Curve(d, preampDb, filters, grid)
  {
    var aggregate := new real[|grid|](_ => preampDb);
    for k := 0 to |filters|
      invariant aggregate[..] == Curve(d, preampDb, filters[..k], grid)
    {
      AddFilter(d, filters[k], grid, aggregate);
      assert filters[..k + 1][..k] == filters[..k];
    }
    assert filters[..|filters|] == filters;
    curve := aggregate[..];
  }

  /** Adds one filter's response to every entry of the buffer, in place. */
  method AddFilter(d: Device, filter: Filter, grid: seq<real>, aggregate: array<real>)
    requires aggregate.Length == |grid|
    modifies aggregate
    ensures forall i | 0 <= i < |grid| :: aggregate[i] == old(aggregate[i]) + d.magnitudeDb(filter, grid[i])
  {
    for i := 0 to |grid|
      invariant forall j | 0 <= j < i :: aggregate[j] == old(aggregate[j]) + d.magnitudeDb(filter, grid[j])
      invariant forall j | i <= j < |grid| :: aggregate[j] == old(aggregate[j])
    {
      aggregate[i] := aggregate[i] + d.magnitudeDb(filter, grid[i]);
    }
  }

  // ---- soundness of the signature ----

  /** The signature is flat exactly when the bank is asked to be Flat. */
  lemma FlatSignatureIsFlatBank(r: Request)
    ensures AudioSignature(r).FlatSignature? <==> r.bypassed || (r.profile.None? && r.bass <= 0 && r.treble <= 0)
    ensures r.Normalized() ==> (AudioSignature(r).FlatSignature? <==> WantsFlat(r))
  {
  }

  lemma SameBandJson(a: Band, b: Band, index: nat)
    requires BandJson(a) == BandJson(b) && SupportedBand(a, index)
    ensures a == b
  {
    var x, y := BandJson(a).items, BandJson(b).items;
    assert forall i | 0 <= i < 6 :: x[i] == y[i];
    assert x[0] == NumJson(a.position) && x[1] == JBool(a.enabled) && x[2] == JText(a.filterKind)
           && x[3] == NumJson(a.frequencyHz) && x[4] == NumJson(a.gainDb) && x[5] == NumJson(a.q);
    assert y[0] == NumJson(b.position) && y[1] == JBool(b.enabled) && y[2] == JText(b.filterKind)
           && y[3] == NumJson(b.frequencyHz) && y[4] == NumJson(b.gainDb) && y[5] == NumJson(b.q);
  }

  /** Two profiles with one signature, one of them supported, agree on all audible fields. */
  lemma SameProfileJson(a: Profile, b: Profile)
    requires ProfileJson(a) == ProfileJson(b) && Supported(a)
    ensures a.id == b.id && a.formatVersion == b.formatVersion && a.preampDb == b.preampDb
    ensures a.autoHeadroom == b.autoHeadroom && a.bands == b.bands
  {
    var x, y := ProfileJson(a).items, ProfileJson(b).items;
    assert forall i | 0 <= i < 5 :: x[i] == y[i];
    assert x[0] == JText(a.id) && x[1] == NumJson(a.formatVersion) && x[2] == NumJson(a.preampDb)
           && x[3] == JBool(a.autoHeadroom) && x[4] == JArray(BandsJson(a.bands));
    assert y[0] == JText(b.id) && y[1] == NumJson(b.formatVersion) && y[2] == NumJson(b.preampDb)
           && y[3] == JBool(b.autoHeadroom) && y[4] == JArray(BandsJson(b.bands));
    assert |BandsJson(a.bands)| == |BandsJson(b.bands)|;
    forall i | 0 <= i < |a.bands| ensures a.bands[i] == b.bands[i] {
      assert BandsJson(a.bands)[i] == BandsJson(b.bands)[i];
      SameBandJson(a.bands[i], b.bands[i], i);
    }
  }

  lemma SameJsonSameSupport(a: Profile, b: Profile)
    requires ProfileJson(a) == ProfileJson(b)
    ensures Supported(a) <==> Supported(b)
    ensures Supported(a) ==> a.id == b.id && a.preampDb == b.preampDb && a.autoHeadroom == b.autoHeadroom
                             && a.bands == b.bands
  {
    if Supported(a) {
      SameProfileJson(a, b);
    } else if Supported(b) {
      SameProfileJson(b, a);
    }
  }

  lemma AudibleParts(a: Request, b: Request)
    requires a.Normalized() && b.Normalized() && !WantsFlat(a) && !WantsFlat(b)
    requires AudioSignature(a) == AudioSignature(b)
    ensures a.bass == b.bass && a.treble == b.treble && (a.profile.None? <==> b.profile.None?)
    ensures a.profile.Some? ==> ProfileJson(a.profile.value) == ProfileJson(b.profile.value)
  {
    var x, y := AudioSignature(a).json.items, AudioSignature(b).json.items;
    assert x[0] == y[0] && x[1] == y[1] && x[2] == y[2];
    assert a.profile.None? <==> x[0].JNull?;
    assert b.profile.None? <==> y[0].JNull?;
  }

  lemma SameChain(d: Device, a: Request, b: Request)
    requires !WantsFlat(a) && !WantsFlat(b) && a.bass == b.bass && a.treble == b.treble
    requires a.profile.Some? <==> b.profile.Some?
    requires a.profile.Some? ==>
      && Supported(a.profile.value) && Supported(b.profile.value)
      && a.profile.value.id == b.profile.value.id && a.profile.value.preampDb == b.profile.value.preampDb
      && a.profile.value.autoHeadroom == b.profile.value.autoHeadroom && a.profile.value.bands == b.profile.value.bands
    ensures PlanFor(d, a) == PlanFor(d, b)
  {
    assert RequestBands(a) == RequestBands(b) && Shelves(d, a) == Shelves(d, b);
    assert ChainPlan(d, a) == ChainPlan(d, b);
  }

  /** Soundness: normalized requests with one signature get one and the same plan, on every
      device. (A rename or a new revision is thus never audible, nor is the choice of profile
      behind a bypass.) */
  lemma SignatureIsSound(d: Device, a: Request, b: Request)
    requires a.Normalized() && b.Normalized()
    requires AudioSignature(a) == AudioSignature(b)
    ensures PlanFor(d, a) == PlanFor(d, b)
  {
    FlatSignatureIsFlatBank(a);
    FlatSignatureIsFlatBank(b);
    if !WantsFlat(a) {
      AudibleParts(a, b);
      if a.profile.Some? {
        SameJsonSameSupport(a.profile.value, b.profile.value);
      }
      if a.profile.Some? ==> Supported(a.profile.value) {
        SameChain(d, a, b);
      }
    }
  }

  /** No more than 0 dB at this frequency, preamp, trim and filters together, and no more than -1 dB
      once a trim was needed. */
  predicate HasHeadroom(d: Device, plan: Plan, f: real) {
    plan.effectivePreampDb + ChainDb(d, plan.filters, f) <= (if plan.trimDb == 0.0 then 0.0 else -1.0)
  }

  lemma {:induction false} HeadroomOnGrid(d: Device, r: Request, f: real)
    requires !WantsFlat(r) && (r.profile.Some? ==> Supported(r.profile.value))
    requires Dsp.FirstIncompatible(RequestBands(r), d.sampleRate).None?
    requires HasTone(r) || r.profile.value.autoHeadroom
    requires f in SampleGrid(d, RequestBands(r))
    ensures HasHeadroom(d, PlanFor(d, r), f)
  {
    var bands := RequestBands(r);
    var grid := SampleGrid(d, bands);
    var preamp := if r.profile.Some? then r.profile.value.preampDb.value else 0.0;
    var curve := Curve(d, preamp, Peakings(bands) + Shelves(d, r), grid);
    var i :| 0 <= i < |grid| && grid[i] == f;
    assert curve[i] in curve;
  }

  /** Headroom at run time, with tone or automatic headroom: on the whole measured grid, and, the
      device's rate allowing a grid, next to the centre of every enabled band. */
  lemma {:induction false} BankHeadroom(d: Device, r: Request)
    requires !WantsFlat(r) && (r.profile.Some? ==> Supported(r.profile.value))
    requires Dsp.FirstIncompatible(RequestBands(r), d.sampleRate).None?
    requires HasTone(r) || r.profile.value.autoHeadroom
    ensures PlanFor(d, r).inputGain == d.linear(PlanFor(d, r).effectivePreampDb)
    ensures forall f | f in SampleGrid(d, RequestBands(r)) :: HasHeadroom(d, PlanFor(d, r), f)
    ensures d.sampleRate / 2.0 * 0.9999999 > Dsp.MIN_FREQUENCY ==>
      forall b | b in RequestBands(r) && b.enabled ::
        exists g :: 0.0 <= b.frequencyHz - g <= Dsp.Tolerance(b.frequencyHz)
                    && HasHeadroom(d, PlanFor(d, r), d.single(g))
  {
    var bands := RequestBands(r);
    forall f | f in SampleGrid(d, bands) ensures HasHeadroom(d, PlanFor(d, r), f) { HeadroomOnGrid(d, r, f); }
    if d.sampleRate / 2.0 * 0.9999999 > Dsp.MIN_FREQUENCY {
      forall b | b in bands && b.enabled
        ensures exists g :: 0.0 <= b.frequencyHz - g <= Dsp.Tolerance(b.frequencyHz)
                            && HasHeadroom(d, PlanFor(d, r), d.single(g))
      {
        var g := NearCentre(d, r, b);
        HeadroomOnGrid(d, r, d.single(g));
      }
    }
  }

  /** The grid point next to the centre of an enabled band. */
  lemma {:induction false} NearCentre(d: Device, r: Request, b: Dsp.Band) returns (g: real)
    requires r.profile.Some? ==> Supported(r.profile.value)
    requires Dsp.FirstIncompatible(RequestBands(r), d.sampleRate).None?
    requires d.sampleRate / 2.0 * 0.9999999 > Dsp.MIN_FREQUENCY && b in RequestBands(r) && b.enabled
    ensures 0.0 <= b.frequencyHz - g <= Dsp.Tolerance(b.frequencyHz)
    ensures d.single(g) in SampleGrid(d, RequestBands(r))
  {
    var bands := RequestBands(r);
    var grid := Dsp.Grid(d.powers, bands, d.sampleRate, Dsp.RESPONSE_POINTS);
    Dsp.GridIsGrid(d.powers, bands, d.sampleRate, Dsp.RESPONSE_POINTS);
    assert !Dsp.AtNyquist(b, d.sampleRate);
    Dsp.CentresAreSampled(d.powers, bands, d.sampleRate, Dsp.RESPONSE_POINTS, grid, b);
    var i :| 0 <= i < |grid| && 0.0 <= b.frequencyHz - grid[i] <= Dsp.Tolerance(b.frequencyHz);
    g := grid[i];
    assert SampleGrid(d, bands)[i] == d.single(g);
  }
}

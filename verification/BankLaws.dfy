/** What is in a filter bank (`buildBank` of app/src/player/audioGraph.ts): filters in order, with
    their own values, and the preamp and trim before them. */
module BankLaws {
  import opened Rows
  import Dsp = EqualizerDsp
  import opened EqualizerBank

  // ---- which plan ----

  /** A finite value between two limits. */
  predicate Between(n: Num, low: real, high: real) {
    match n
    case Finite(x) => low <= x <= high
    case _ => false
  }

  /** The profiles of version 1. */
  predicate Version1(p: Profile) {
    && p.formatVersion == Finite(1.0) && 0 < |p.bands| < 33 && Between(p.preampDb, -30.0, 12.0)
    && forall i | 0 <= i < |p.bands| ::
         var b := p.bands[i];
         && b.position == Finite(1.0 + i as real) && b.filterKind == "peaking"
         && Between(b.frequencyHz, 10.0, 20000.0) && Between(b.gainDb, -24.0, 24.0) && Between(b.q, 0.1, 30.0)
  }

  lemma SupportedIsVersion1(p: Profile)
    ensures Supported(p) <==> Version1(p)
  {
    if Supported(p) {
      forall i | 0 <= i < |p.bands| ensures SupportedBand(p.bands[i], i) {}
    }
    if Version1(p) {
      forall i | 0 <= i < |p.bands| ensures SupportedBand(p.bands[i], i) {
        assert p.bands[i].position == Finite(1.0 + i as real);
      }
    }
  }

  function BandsOf(r: Request): seq<Band> {
    if r.profile.Some? then r.profile.value.bands else []
  }

  /** The enabled band `i` lies at or above half the device's rate. */
  predicate Clashes(d: Device, b: Band) {
    b.enabled && b.frequencyHz.Finite? && 2.0 * b.frequencyHz.value >= d.sampleRate
  }

  /** Nothing is asked to sound: no profile and no tone, or a bypass. */
  predicate AsksNothing(r: Request) {
    r.bypassed || (r.profile == None && r.bass <= 0 && r.treble <= 0)
  }

  lemma ClashIs(d: Device, r: Request)
    requires r.profile.Some? ==> Supported(r.profile.value)
    ensures var clash := Dsp.FirstIncompatible(RequestBands(r), d.sampleRate);
            var bands := BandsOf(r);
            && (clash.None? <==> forall i | 0 <= i < |bands| :: !Clashes(d, bands[i]))
            && (clash.Some? ==> 1 <= clash.value <= |bands| && Clashes(d, bands[clash.value - 1])
                                && forall j | 0 <= j < clash.value - 1 :: !Clashes(d, bands[j]))
  {
    var dsp, bands := RequestBands(r), BandsOf(r);
    assert |dsp| == |bands|;
    forall i | 0 <= i < |bands|
      ensures dsp[i].position == i + 1 && (Dsp.AtNyquist(dsp[i], d.sampleRate) <==> Clashes(d, bands[i]))
    {
      assert SupportedBand(bands[i], i);
    }
    forall i | 0 <= i < |bands| ensures dsp[i] in dsp {}
  }

  /** Flat without a word for a request that asks nothing, Flat with a warning for a profile that is
      not of version 1 or has an enabled band the rate cannot carry, of which the first is named; and
      in every other case a bank that sounds. */
  lemma PlanIsFlatExactly(d: Device, r: Request)
    ensures var plan, bands := PlanFor(d, r), BandsOf(r);
            var flat := Plan([], 1.0, true, None, 0.0, 0.0, 0.0, plan.warning);
            && (plan.bypassed ==> plan == flat)
            && (AsksNothing(r) <==> plan.bypassed && plan.warning.NoWarning?)
            && (plan.warning.UnsupportedFormat?
                <==> !AsksNothing(r) && r.profile.Some? && !Version1(r.profile.value))
            && (plan.warning.AtNyquist?
                <==> && !AsksNothing(r) && r.profile.Some? && Version1(r.profile.value)
                     && exists i :: 0 <= i < |bands| && Clashes(d, bands[i]))
            && (plan.warning.AtNyquist? ==>
                  && 1 <= plan.warning.position <= |bands| && Clashes(d, bands[plan.warning.position - 1])
                  && forall j | 0 <= j < plan.warning.position - 1 :: !Clashes(d, bands[j]))
            && (!plan.warning.NoWarning? ==> plan.bypassed)
  {
    if r.profile.Some? { SupportedIsVersion1(r.profile.value); }
    if r.profile.Some? ==> Supported(r.profile.value) { ClashIs(d, r); }
  }

  // ---- which filters ----

  /** `at` lists the positions of the enabled bands, in order. */
  ghost predicate Enabled(bands: seq<Band>, at: seq<nat>) {
    && (forall i | 0 <= i < |at| :: at[i] < |bands| && bands[at[i]].enabled)
    && (forall i, j | 0 <= i < j < |at| :: at[i] < at[j])
    && (forall k: nat | k < |bands| && bands[k].enabled :: k in at)
  }

  /** The filter a band asks for. */
  predicate IsPeakingOf(f: Filter, b: Band) {
    && f.Peaking? && b.frequencyHz == Finite(f.band.frequencyHz) && b.gainDb == Finite(f.band.gainDb)
    && b.q == Finite(f.band.q)
  }

  /** One peaking filter for each enabled band and none for any other, in band order; then a low shelf
      at 120 Hz just if there is bass; then a high shelf at 8 kHz, or at two fifths of a lower rate,
      just if there is treble; nothing else. The shelves' gain is that of one plus the percentage. */
  ghost predicate IsChain(d: Device, r: Request, filters: seq<Filter>, at: seq<nat>) {
    var bands, n := BandsOf(r), |at|;
    && Enabled(bands, at)
    && |filters| == n + (if r.bass > 0 then 1 else 0) + (if r.treble > 0 then 1 else 0)
    && (forall i | 0 <= i < n :: IsPeakingOf(filters[i], bands[at[i]]))
    && (r.bass > 0 ==> filters[n] == LowShelf(120.0, d.decibels((100 + r.bass) as real / 100.0)))
    && (r.treble > 0 ==>
          var high := filters[|filters| - 1];
          && high.HighShelf? && high.gainDb == d.decibels((100 + r.treble) as real / 100.0)
          && high.frequencyHz <= 8000.0 && high.frequencyHz <= d.sampleRate * 2.0 / 5.0
          && (high.frequencyHz == 8000.0 || high.frequencyHz == d.sampleRate * 2.0 / 5.0))
  }

  /** The filters are the peaking filters of the enabled bands, found at `at`. */
  ghost predicate Picked(bands: seq<Dsp.Band>, at: seq<nat>, filters: seq<Filter>) {
    && |filters| == |at|
    && (forall i | 0 <= i < |at| :: at[i] < |bands| && bands[at[i]].enabled && filters[i] == Peaking(bands[at[i]]))
    && (forall i, j | 0 <= i < j < |at| :: at[i] < at[j])
    && (forall k: nat | k < |bands| && bands[k].enabled :: k in at)
  }

  lemma {:induction false} PeakingsJoin(a: seq<Dsp.Band>, b: Dsp.Band)
    ensures Peakings(a + [b]) == Peakings(a) + if b.enabled then [Peaking(b)] else []
  {
    if a == [] {
      assert a + [b] == [b] && [b][1..] == [];
    } else {
      var head := if a[0].enabled then [Peaking(a[0])] else [];
      assert (a + [b])[1..] == a[1..] + [b] && (a + [b])[0] == a[0];
      PeakingsJoin(a[1..], b);
      assert Peakings(a + [b]) == head + Peakings(a[1..] + [b]);
    }
  }

  lemma PickedExtends(bands: seq<Dsp.Band>, at: seq<nat>, filters: seq<Filter>, b: Dsp.Band)
    requires Picked(bands, at, filters)
    ensures b.enabled ==> Picked(bands + [b], at + [|bands|], filters + [Peaking(b)])
    ensures !b.enabled ==> Picked(bands + [b], at, filters)
  {
    forall k: nat | k < |bands + [b]| && (bands + [b])[k].enabled
      ensures k in at || (k == |bands| && b.enabled)
    {
      if k < |bands| { assert bands[k].enabled; }
    }
  }

  lemma {:induction false} PeakingsAre(bands: seq<Dsp.Band>) returns (at: seq<nat>)
    ensures Picked(bands, at, Peakings(bands))
  {
    if bands == [] {
      at := [];
    } else {
      var n := |bands| - 1;
      at := PeakingsAre(bands[..n]);
      assert bands == bands[..n] + [bands[n]];
      PeakingsJoin(bands[..n], bands[n]);
      PickedExtends(bands[..n], at, Peakings(bands[..n]), bands[n]);
      if bands[n].enabled {
        at := at + [n];
      } else {
        assert Peakings(bands) == Peakings(bands[..n]);
      }
    }
  }

  /** The filters of every bank that sounds. */
  lemma PlanIsChain(d: Device, r: Request) returns (at: seq<nat>)
    requires r.Normalized() && !PlanFor(d, r).bypassed
    ensures IsChain(d, r, PlanFor(d, r).filters, at)
    ensures PlanFor(d, r).appliedProfile == if r.profile == None then None else Some(r.profile.value.id)
  {
    var dsp, bands := RequestBands(r), BandsOf(r);
    at := PeakingsAre(dsp);
    forall k | 0 <= k < |bands| ensures dsp[k].enabled == bands[k].enabled && IsPeakingOf(Peaking(dsp[k]), bands[k]) {
      assert SupportedBand(bands[k], k);
    }
    ShelvesAre(d, r);
  }

  lemma ShelvesAre(d: Device, r: Request)
    requires r.Normalized()
    ensures ShelfDb(d, r.bass) == d.decibels((100 + r.bass) as real / 100.0)
    ensures ShelfDb(d, r.treble) == d.decibels((100 + r.treble) as real / 100.0)
  {
    assert 1.0 + r.bass as real / 100.0 == (100 + r.bass) as real / 100.0;
    assert 1.0 + r.treble as real / 100.0 == (100 + r.treble) as real / 100.0;
  }

  /** Percentages are cut off at 0 and at 100, for the signature and for the shelves alike. */
  lemma PercentsAreCut(d: Device, r: Request, low: int, high: nat)
    requires low <= 0
    ensures Percent(low) == 0 && Percent(100 + high) == 100 && (0 <= r.bass <= 100 ==> Percent(r.bass) == r.bass)
    ensures AudioSignature(r.(bass := 100 + high)) == AudioSignature(r.(bass := 100))
    ensures AudioSignature(r.(treble := low)) == AudioSignature(r.(treble := 0))
    ensures ShelfDb(d, 100 + high) == ShelfDb(d, 100)
  {
  }

  // ---- how loud ----

  /** The response of a chain is the sum of its filters' own: it is additive, and of one filter it is
      that filter's. */
  lemma {:induction false} ChainAdds(d: Device, a: seq<Filter>, b: seq<Filter>, f: real)
    ensures ChainDb(d, a + b, f) == ChainDb(d, a, f) + ChainDb(d, b, f)
    ensures |b| == 1 ==> ChainDb(d, b, f) == d.magnitudeDb(b[0], f)
  {
    if b == [] {
      assert a + b == a;
    } else {
      ChainAdds(d, a, b[..|b| - 1], f);
      assert (a + b)[..|a + b| - 1] == a + b[..|b| - 1];
      if |b| == 1 { assert b[..0] == []; }
    }
  }

  /** The preamp the profile stores. */
  function StoredDb(r: Request): real {
    if r.profile.Some? && r.profile.value.preampDb.Finite? then r.profile.value.preampDb.value else 0.0
  }

  /** Headroom is wanted: some tone, or a profile that asks for it. */
  predicate WantsHeadroom(r: Request) {
    r.bass > 0 || r.treble > 0 || (r.profile.Some? && r.profile.value.autoHeadroom)
  }

  /** `peak` is the loudest point of preamp and filters on the grid, or the preamp without a grid. */
  ghost predicate Loudest(d: Device, preampDb: real, filters: seq<Filter>, grid: seq<real>, peak: real) {
    if grid == [] then peak == preampDb
    else
      && (forall f | f in grid :: preampDb + ChainDb(d, filters, f) <= peak)
      && exists f :: f in grid && preampDb + ChainDb(d, filters, f) == peak
  }

  lemma CurvePeaks(d: Device, preampDb: real, filters: seq<Filter>, grid: seq<real>)
    ensures var curve := Curve(d, preampDb, filters, grid);
            Loudest(d, preampDb, filters, grid, if curve == [] then preampDb else Dsp.MaxOf(curve))
  {
    if grid != [] {
      var curve := Curve(d, preampDb, filters, grid);
      var peak := Dsp.MaxOf(curve);
      forall f | f in grid ensures preampDb + ChainDb(d, filters, f) <= peak {
        var i :| 0 <= i < |grid| && grid[i] == f;
        assert curve[i] in curve;
      }
      var i :| 0 <= i < |curve| && curve[i] == peak;
      assert grid[i] in grid && preampDb + ChainDb(d, filters, grid[i]) == peak;
    }
  }

  /** The trim takes the peak to exactly -1 dB, and is there exactly if it is wanted and needed. */
  lemma TrimmedPeak(wanted: bool, peakDb: real)
    ensures var trim := Dsp.SafetyTrim(wanted, peakDb);
            && (trim != 0.0 <==> wanted && peakDb > 0.0) && (trim != 0.0 ==> peakDb + trim == -1.0)
  {
  }

  /** The peak a bank that sounds reports is the loudest point on its grid. */
  lemma PeakIsLoudest(d: Device, r: Request)
    requires !PlanFor(d, r).bypassed
    ensures Loudest(d, StoredDb(r), PlanFor(d, r).filters, SampleGrid(d, RequestBands(r)), PlanFor(d, r).peakDb)
  {
    var plan := PlanFor(d, r);
    assert plan == ChainPlan(d, r);
    CurvePeaks(d, StoredDb(r), plan.filters, SampleGrid(d, RequestBands(r)));
  }

  /** A trim is applied exactly when headroom is wanted and the peak is above 0 dB; it brings the peak
      to exactly -1 dB, and the input gain is that of preamp and trim together. */
  lemma TrimIsExact(d: Device, r: Request)
    requires !PlanFor(d, r).bypassed
    ensures var plan := PlanFor(d, r);
            && plan.effectivePreampDb == StoredDb(r) + plan.trimDb
            && plan.inputGain == d.linear(plan.effectivePreampDb)
            && (plan.trimDb != 0.0 <==> WantsHeadroom(r) && plan.peakDb > 0.0)
            && (plan.trimDb != 0.0 ==> plan.peakDb + plan.trimDb == -1.0)
  {
    var plan := PlanFor(d, r);
    assert plan == ChainPlan(d, r);
    TrimmedPeak(WantsHeadroom(r), plan.peakDb);
  }
}

/** The editor's response curve, by the numbers: what is summed at each frequency, and how it is trimmed
    (app/src/equalizer/dsp.ts). */
module DspLaws {
  import opened Rows
  import opened EqualizerDsp

  /** Two frequencies are one point within a ten-billionth of the larger, or a hundred-millionth of a
      hertz, whichever is more. */
  lemma ToleranceIs(v: real)
    ensures Tolerance(v) >= 0.00000001 && Tolerance(v) >= v / 10000000000.0
    ensures Tolerance(v) == 0.00000001 || Tolerance(v) == v / 10000000000.0
  {
    assert v * 0.0000000001 == v / 10000000000.0;
  }

  /** The grid both curves are drawn on: 2048 points of the sweep, and those of the bands. */
  lemma GridHas2048(p: Powers, bands: seq<Band>, sampleRate: real)
    requires p.Valid()
    ensures IsGrid(p, bands, sampleRate, 2048, Grid(p, bands, sampleRate, RESPONSE_POINTS))
  {
    GridIsGrid(p, bands, sampleRate, RESPONSE_POINTS);
  }

  /** What the enabled bands among these add up to at one frequency. */
  function EnabledSum(m: Magnitude, bands: seq<Band>, f: real, sampleRate: real): real {
    if bands == [] then 0.0
    else
      var last := bands[|bands| - 1];
      var before := EnabledSum(m, bands[..|bands| - 1], f, sampleRate);
      match last.enabled
      case true => before + m(last, f, sampleRate)
      case false => before
  }

  lemma {:induction false} EnabledJoin(a: seq<Band>, b: Band)
    ensures EnabledBands(a + [b]) == EnabledBands(a) + if b.enabled then [b] else []
  {
    if a == [] {
      assert a + [b] == [b] && [b][1..] == [];
    } else {
      assert (a + [b])[1..] == a[1..] + [b] && (a + [b])[0] == a[0];
      EnabledJoin(a[1..], b);
    }
  }

  lemma {:induction false} SumIs(m: Magnitude, bands: seq<Band>, f: real, sampleRate: real)
    ensures SumDb(m, EnabledBands(bands), f, sampleRate) == EnabledSum(m, bands, f, sampleRate)
  {
    if bands == [] {
    } else {
      var front, last := bands[..|bands| - 1], bands[|bands| - 1];
      SumIs(m, front, f, sampleRate);
      assert bands == front + [last];
      EnabledJoin(front, last);
      if last.enabled {
        var all := EnabledBands(bands);
        assert all[..|all| - 1] == EnabledBands(front) && all[|all| - 1] == last;
      } else {
        assert EnabledBands(bands) == EnabledBands(front);
      }
    }
  }

  /** The response: zero everywhere, with the position of the first band that does not fit, if there is
      one or no grid; and otherwise at each frequency the preamp and the enabled bands together, and
      that with the trim. */
  lemma {:induction false} ResponseIs(m: Magnitude, preampDb: real, autoHeadroom: bool, bands: seq<Band>,
                                      sampleRate: real, grid: seq<real>, i: nat)
    ensures var r := ResponseOn(m, preampDb, autoHeadroom, bands, sampleRate, grid);
            && r.frequencies == grid && |r.untrimmedDb| == |r.appliedDb| == |grid|
            && (r.incompatible == None <==> forall b | b in bands :: !(b.enabled && 2.0 * b.frequencyHz >= sampleRate))
            && r.incompatible == FirstIncompatible(bands, sampleRate)
            && if r.incompatible != None || grid == [] then
                 && r.peakDb == r.trimDb == r.effectivePreampDb == 0.0
                 && (i < |grid| ==> r.untrimmedDb[i] == r.appliedDb[i] == 0.0)
               else
                 && r.effectivePreampDb == preampDb + r.trimDb
                 && r.peakDb in r.untrimmedDb && (i < |grid| ==> r.untrimmedDb[i] <= r.peakDb)
                 && r.trimDb == (if autoHeadroom && r.peakDb > 0.0 then -1.0 - r.peakDb else 0.0)
                 && (i < |grid| ==>
                       && r.untrimmedDb[i] == preampDb + EnabledSum(m, bands, grid[i], sampleRate)
                       && r.appliedDb[i] == r.untrimmedDb[i] + r.trimDb)
  {
    var r := ResponseOn(m, preampDb, autoHeadroom, bands, sampleRate, grid);
    forall b | b in bands ensures AtNyquist(b, sampleRate) <==> b.enabled && 2.0 * b.frequencyHz >= sampleRate {}
    if i < |grid| {
      SumIs(m, bands, grid[i], sampleRate);
      if r.incompatible == None { assert r.untrimmedDb[i] in r.untrimmedDb; }
    }
  }
}

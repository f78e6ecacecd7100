/** The analytic filter-response curve drawn over the spectrum: one vertex per
    pixel column, whose height is the decibel magnitude of the analysis chain
    at that column's frequency, mapped from [-24, 24] dB onto the component's
    vertical extent. */
module ResponseCurve {

  /** One biquad section's coefficients. Their design is not part of this
      model: a set is either JUCE's default pass-through or one produced by the
      processor's filter factory. */
  datatype Coefficients = PassThrough | Designed(raw: seq<real>)

  /** A filter stage and whether the chain skips it. */
  datatype Stage = Stage(coefficients: Coefficients, bypassed: bool)

  /** A cut filter: four cascaded sections, each with its own bypass flag. */
  datatype CutFilter = CutFilter(slot0: Stage, slot1: Stage, slot2: Stage, slot3: Stage)

  /** The analysis-only mono chain: low cut, peak, high cut. */
  datatype MonoChain = MonoChain(lowCut: CutFilter, peak: Stage, highCut: CutFilter)

  /** `getMagnitudeForFrequency` of a coefficient set at a frequency (the
      sample rate is fixed by the caller); floating point is not modelled. */
  type MagnitudeFn = (Coefficients, real) -> real

  /** A point of a drawn path, in pixels. */
  datatype Point = Point(x: real, y: real)

  /** An integer pixel rectangle; y grows downwards, so the bottom edge is y + height. */
  datatype Rect = Rect(x: int, y: int, width: nat, height: nat) {
    function Bottom(): int { y + height }
  }

  /** What one redesign produces from the current parameters: new
      coefficients for the peak section and both cut filters, bypass flags of
      their sections included. The peak position's own bypass flag is not
      part of it. */
  datatype ChainDesign = ChainDesign(peakCoefficients: Coefficients, lowCut: CutFilter, highCut: CutFilter)

  /** The chain after a redesign is installed: the peak section takes the new
      coefficients and keeps its bypass flag, and both cut filters are replaced. */
  function Installed(chain: MonoChain, design: ChainDesign): (r: MonoChain)
    ensures r.peak.bypassed == chain.peak.bypassed
    ensures r.peak.coefficients == design.peakCoefficients
    ensures r.lowCut == design.lowCut && r.highCut == design.highCut
  {
    MonoChain(design.lowCut, chain.peak.(coefficients := design.peakCoefficients), design.highCut)
  }

  /** The chain as JUCE default-constructs it: every section passes the signal
      through and nothing is bypassed. */
  const DefaultChain: MonoChain :=
    var s := Stage(PassThrough, false);
    MonoChain(CutFilter(s, s, s, s), s, CutFilter(s, s, s, s))

  /** The stages in the order the magnitude loop visits them. */
  function Stages(chain: MonoChain): (r: seq<Stage>)
    ensures |r| == 9
  {
    var l, h := chain.lowCut, chain.highCut;
    [chain.peak, l.slot0, l.slot1, l.slot2, l.slot3, h.slot0, h.slot1, h.slot2, h.slot3]
  }

  /** A stage's own magnitude at a frequency, bypassed or not. */
  function StageMagnitude(s: Stage, magnitude: MagnitudeFn, freq: real): real
  {
    magnitude(s.coefficients, freq)
  }

  /** `mag *= magnitude of s`. */
  function Scaled(mag: real, s: Stage, magnitude: MagnitudeFn, freq: real): real
  {
    mag * StageMagnitude(s, magnitude, freq)
  }

  /** Multiply the magnitude of each non-bypassed stage into `mag`, left to
      right, as the column loop does with `mag *= ...`. */
  function MultiplyIn(mag: real, stages: seq<Stage>, magnitude: MagnitudeFn, freq: real): real
    decreases |stages|
  {
    if stages == [] then mag
    else if stages[0].bypassed then MultiplyIn(mag, stages[1..], magnitude, freq)
    else MultiplyIn(Scaled(mag, stages[0], magnitude, freq), stages[1..], magnitude, freq)
  }

  /** The magnitude of the whole chain at one frequency: start from 1 and
      multiply in each stage that is not bypassed. */
  function ColumnMagnitude(chain: MonoChain, magnitude: MagnitudeFn, freq: real): real
  {
    MultiplyIn(1.0, Stages(chain), magnitude, freq)
  }

  /** Reference definition: the magnitudes of the stages that take part. */
  function ActiveMagnitudes(stages: seq<Stage>, magnitude: MagnitudeFn, freq: real): seq<real>
    decreases |stages|
  {
    if stages == [] then []
    else if stages[0].bypassed then ActiveMagnitudes(stages[1..], magnitude, freq)
    else [StageMagnitude(stages[0], magnitude, freq)] + ActiveMagnitudes(stages[1..], magnitude, freq)
  }

  function Product(xs: seq<real>): real
    decreases |xs|
  {
    if xs == [] then 1.0 else xs[0] * Product(xs[1..])
  }

  lemma {:induction false} MultiplyInIsProduct(mag: real, stages: seq<Stage>, magnitude: MagnitudeFn, freq: real)
    ensures MultiplyIn(mag, stages, magnitude, freq) == mag * Product(ActiveMagnitudes(stages, magnitude, freq))
    decreases |stages|
  {
    if stages != [] {
      if stages[0].bypassed {
        MultiplyInIsProduct(mag, stages[1..], magnitude, freq);
      } else {
        var m := StageMagnitude(stages[0], magnitude, freq);
        var tail := ActiveMagnitudes(stages[1..], magnitude, freq);
        MultiplyInIsProduct(Scaled(mag, stages[0], magnitude, freq), stages[1..], magnitude, freq);
        assert ([m] + tail)[1..] == tail;
        calc {
          MultiplyIn(mag, stages, magnitude, freq);
          MultiplyIn(Scaled(mag, stages[0], magnitude, freq), stages[1..], magnitude, freq);
          Scaled(mag, stages[0], magnitude, freq) * Product(tail);
          mag * m * Product(tail);
          mag * (m * Product(tail));
          mag * Product([m] + tail);
        }
      }
    }
  }

  /** A column's magnitude is exactly the product of the magnitudes of the
      stages that are not bypassed; a bypassed stage contributes nothing. */
  lemma ColumnMagnitudeIsProductOfActive(chain: MonoChain, magnitude: MagnitudeFn, freq: real)
    ensures ColumnMagnitude(chain, magnitude, freq) == Product(ActiveMagnitudes(Stages(chain), magnitude, freq))
  {
    MultiplyInIsProduct(1.0, Stages(chain), magnitude, freq);
  }

  lemma {:induction false} NoActiveStages(stages: seq<Stage>, magnitude: MagnitudeFn, freq: real)
    requires forall i :: 0 <= i < |stages| ==> stages[i].bypassed
    ensures ActiveMagnitudes(stages, magnitude, freq) == []
    decreases |stages|
  {
    if stages != [] {
      NoActiveStages(stages[1..], magnitude, freq);
    }
  }

  /** With every stage bypassed the chain's magnitude is 1 (0 dB) at every
      frequency, whatever the coefficients hold. */
  lemma AllBypassedIsUnity(chain: MonoChain, magnitude: MagnitudeFn, freq: real)
    requires forall i :: 0 <= i < 9 ==> Stages(chain)[i].bypassed
    ensures ColumnMagnitude(chain, magnitude, freq) == 1.0
  {
    NoActiveStages(Stages(chain), magnitude, freq);
    ColumnMagnitudeIsProductOfActive(chain, magnitude, freq);
  }

  /** Two chains that differ only in whether stage k is bypassed give the same
      magnitude when that stage's own magnitude is 1 at this frequency: a
      bypassed stage acts as a factor of 1. */
  lemma {:induction false} BypassIsUnitFactor(on: seq<Stage>, off: seq<Stage>, k: nat, magnitude: MagnitudeFn, freq: real, mag: real)
    requires |on| == |off| && k < |on|
    requires on[k].bypassed && !off[k].bypassed && on[k].coefficients == off[k].coefficients
    requires forall i :: 0 <= i < |on| && i != k ==> on[i] == off[i]
    requires StageMagnitude(off[k], magnitude, freq) == 1.0
    ensures MultiplyIn(mag, on, magnitude, freq) == MultiplyIn(mag, off, magnitude, freq)
    decreases |on|
  {
    if k == 0 {
      assert on[1..] == off[1..];
    } else if on[0].bypassed {
      assert on[0] == off[0];
      BypassIsUnitFactor(on[1..], off[1..], k - 1, magnitude, freq, mag);
    } else {
      assert on[0] == off[0];
      BypassIsUnitFactor(on[1..], off[1..], k - 1, magnitude, freq, Scaled(mag, on[0], magnitude, freq));
    }
  }

  /** JUCE's `jmap`: the affine map taking [sourceMin, sourceMax] onto
      [targetMin, targetMax]. */
  function Jmap(value: real, sourceMin: real, sourceMax: real, targetMin: real, targetMax: real): real
    requires sourceMin != sourceMax
  {
    targetMin + (targetMax - targetMin) * (value - sourceMin) / (sourceMax - sourceMin)
  }

  /** The `map` lambda of the curve: decibels in [-24, 24] onto [outputMin, outputMax]. */
  function MapDecibels(db: real, outputMin: real, outputMax: real): real
  {
    Jmap(db, -24.0, 24.0, outputMin, outputMax)
  }

  /** -24 dB lands on outputMin (the bottom edge), +24 dB on outputMax (the
      top edge), 0 dB half-way between. */
  lemma MapDecibelsEndpoints(outputMin: real, outputMax: real)
    ensures MapDecibels(-24.0, outputMin, outputMax) == outputMin
    ensures MapDecibels(24.0, outputMin, outputMax) == outputMax
    ensures MapDecibels(0.0, outputMin, outputMax) == (outputMin + outputMax) / 2.0
  {
  }

  /** With the top edge above the bottom edge, more decibels never draw lower:
      the map is monotone, and strictly so when the area has height. */
  lemma MapDecibelsMonotone(db1: real, db2: real, outputMin: real, outputMax: real)
    requires outputMax <= outputMin
    requires db1 <= db2
    ensures MapDecibels(db2, outputMin, outputMax) <= MapDecibels(db1, outputMin, outputMax)
    ensures outputMax < outputMin && db1 < db2 ==>
              MapDecibels(db2, outputMin, outputMax) < MapDecibels(db1, outputMin, outputMax)
  {
  }

  /** The map is invertible on a non-degenerate area: mapping the pixel back
      with the swapped ranges recovers the decibel value. */
  lemma MapDecibelsRoundTrip(db: real, outputMin: real, outputMax: real)
    requires outputMin != outputMax
    ensures Jmap(MapDecibels(db, outputMin, outputMax), outputMin, outputMax, -24.0, 24.0) == db
  {
  }

  /** Decibels per pixel column: column i is evaluated at `mapToLog10(i / w)`. */
  function ColumnDecibels(chain: MonoChain, w: nat, magnitude: MagnitudeFn, mapToLog10: real -> real,
                          gainToDecibels: real -> real): (mags: seq<real>)
    ensures |mags| == w
  {
    seq(w, i requires 0 <= i < w =>
      gainToDecibels(ColumnMagnitude(chain, magnitude, mapToLog10(i as real / w as real))))
  }

  /** The response-curve path through per-column decibels: vertex i sits at
      x = area.x + i with its decibels mapped onto [bottom, top]. */
  function CurveThrough(mags: seq<real>, area: Rect): (curve: seq<Point>)
  {
    seq(|mags|, i requires 0 <= i < |mags| =>
      Point((area.x + i) as real, MapDecibels(mags[i], area.Bottom() as real, area.y as real)))
  }

  /** The whole analytic response curve over an area. */
  function ResponseCurvePath(chain: MonoChain, area: Rect, magnitude: MagnitudeFn, mapToLog10: real -> real,
                             gainToDecibels: real -> real): seq<Point>
    requires area.width > 0
  {
    CurveThrough(ColumnDecibels(chain, area.width, magnitude, mapToLog10, gainToDecibels), area)
  }

  /** The curve has one vertex per pixel column, vertex i at x = left + i, and
      louder columns are drawn no lower than quieter ones. */
  lemma CurveShape(mags: seq<real>, area: Rect)
    ensures |CurveThrough(mags, area)| == |mags|
    ensures forall i :: 0 <= i < |mags| ==> CurveThrough(mags, area)[i].x == (area.x + i) as real
    ensures forall i, j :: 0 <= i < |mags| && 0 <= j < |mags| && mags[i] <= mags[j] ==>
              CurveThrough(mags, area)[j].y <= CurveThrough(mags, area)[i].y
    ensures forall i :: 0 <= i < |mags| && mags[i] == -24.0 ==> CurveThrough(mags, area)[i].y == area.Bottom() as real
    ensures forall i :: 0 <= i < |mags| && mags[i] == 24.0 ==> CurveThrough(mags, area)[i].y == area.y as real
  {
    var lo, hi := area.Bottom() as real, area.y as real;
    forall i, j | 0 <= i < |mags| && 0 <= j < |mags| && mags[i] <= mags[j]
      ensures CurveThrough(mags, area)[j].y <= CurveThrough(mags, area)[i].y
    {
      MapDecibelsMonotone(mags[i], mags[j], lo, hi);
    }
    MapDecibelsEndpoints(lo, hi);
  }

  /** With every stage bypassed, and gainToDecibels(1) == 0 as for JUCE's
      Decibels, the response curve is a flat line half-way up the area. */
  lemma FlatCurveWhenAllBypassed(chain: MonoChain, area: Rect, magnitude: MagnitudeFn, mapToLog10: real -> real,
                                 gainToDecibels: real -> real)
    requires area.width > 0
    requires forall i :: 0 <= i < 9 ==> Stages(chain)[i].bypassed
    requires gainToDecibels(1.0) == 0.0
    ensures |ResponseCurvePath(chain, area, magnitude, mapToLog10, gainToDecibels)| == area.width
    ensures forall i :: 0 <= i < area.width ==>
              ResponseCurvePath(chain, area, magnitude, mapToLog10, gainToDecibels)[i]
              == Point((area.x + i) as real, (area.Bottom() + area.y) as real / 2.0)
  {
    var mags := ColumnDecibels(chain, area.width, magnitude, mapToLog10, gainToDecibels);
    forall i | 0 <= i < area.width
      ensures mags[i] == 0.0
    {
      AllBypassedIsUnity(chain, magnitude, mapToLog10(i as real / area.width as real));
    }
    MapDecibelsEndpoints(area.Bottom() as real, area.y as real);
  }
}

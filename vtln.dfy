/** Vocal tract length normalisation: the piecewise-linear frequency warp of
    `vtln_warp_freq` and its use on the mel scale. */
module Vtln {
  import opened Common
  import opened MelScales

  /** The lower inflection point `l`, where `min(l, F(l))` is the low cutoff. */
  function InflectionLow(vtlnLowCutoff: real, warp: real): real {
    vtlnLowCutoff * Max(1.0, warp)
  }

  /** The upper inflection point `h`, where `max(h, F(h))` is the high cutoff. */
  function InflectionHigh(vtlnHighCutoff: real, warp: real): real {
    vtlnHighCutoff * Min(1.0, warp)
  }

  /** The conditions under which the warp is computed rather than raising: the three source
      assertions and a non-zero warp factor (its reciprocal is taken). */
  predicate WarpDefined(vtlnLowCutoff: real, vtlnHighCutoff: real, lowFreq: real, highFreq: real, warp: real) {
    && vtlnLowCutoff > lowFreq
    && vtlnHighCutoff < highFreq
    && warp != 0.0
    && InflectionLow(vtlnLowCutoff, warp) > lowFreq
    && InflectionHigh(vtlnHighCutoff, warp) < highFreq
  }

  /** The line through the point (x0, x0) with the given slope. */
  function Line(x0: real, slope: real, f: real): real {
    x0 + slope * (f - x0)
  }

  /** The slope of the left piece, from (low, low) to (l, l / warp). */
  function LeftSlope(vtlnLowCutoff: real, lowFreq: real, warp: real): real
    requires warp != 0.0 && InflectionLow(vtlnLowCutoff, warp) > lowFreq
  {
    var l := InflectionLow(vtlnLowCutoff, warp);
    ((1.0 / warp) * l - lowFreq) / (l - lowFreq)
  }

  /** The slope of the right piece, from (h, h / warp) to (high, high). */
  function RightSlope(vtlnHighCutoff: real, highFreq: real, warp: real): real
    requires warp != 0.0 && InflectionHigh(vtlnHighCutoff, warp) < highFreq
  {
    var h := InflectionHigh(vtlnHighCutoff, warp);
    (highFreq - (1.0 / warp) * h) / (highFreq - h)
  }

  function LeftPiece(vtlnLowCutoff: real, lowFreq: real, warp: real, f: real): real
    requires warp != 0.0 && InflectionLow(vtlnLowCutoff, warp) > lowFreq
  {
    Line(lowFreq, LeftSlope(vtlnLowCutoff, lowFreq, warp), f)
  }

  /** The centre piece, `f / warp`. */
  function CenterPiece(warp: real, f: real): real
    requires warp != 0.0
  {
    (1.0 / warp) * f
  }

  function RightPiece(vtlnHighCutoff: real, highFreq: real, warp: real, f: real): real
    requires warp != 0.0 && InflectionHigh(vtlnHighCutoff, warp) < highFreq
  {
    Line(highFreq, RightSlope(vtlnHighCutoff, highFreq, warp), f)
  }

  /** The warp of one frequency, by region: identity outside [low, high], then the left
      piece below l, the centre piece below h and the right piece from h on. This is the
      value the last of the overlapping masked writes leaves. */
  function VtlnWarp(vtlnLowCutoff: real, vtlnHighCutoff: real, lowFreq: real, highFreq: real, warp: real, f: real): real
    requires WarpDefined(vtlnLowCutoff, vtlnHighCutoff, lowFreq, highFreq, warp)
  {
    if f < lowFreq || f > highFreq then f
    else if f < InflectionLow(vtlnLowCutoff, warp) then LeftPiece(vtlnLowCutoff, lowFreq, warp, f)
    else if f < InflectionHigh(vtlnHighCutoff, warp) then CenterPiece(warp, f)
    else RightPiece(vtlnHighCutoff, highFreq, warp, f)
  }

  /** `vtln_warp_freq`: the three assertions, the reciprocal of the warp factor, then four
      masked overwrites of the result in the source's order (above h, below h, below l,
      outside the band), each a loop over the frequencies. */
  method VtlnWarpFreq(vtlnLowCutoff: real, vtlnHighCutoff: real, lowFreq: real, highFreq: real,
                      warp: real, freq: seq<real>) returns (r: Result<seq<real>>)
    ensures r.Ok? <==> WarpDefined(vtlnLowCutoff, vtlnHighCutoff, lowFreq, highFreq, warp)
    ensures r.Ok? ==> |r.value| == |freq| && forall k :: 0 <= k < |freq| ==>
      r.value[k] == VtlnWarp(vtlnLowCutoff, vtlnHighCutoff, lowFreq, highFreq, warp, freq[k])
  {
    if !(vtlnLowCutoff > lowFreq) {
      return Err("be sure to set the vtln_low option higher than low_freq");
    }
    if !(vtlnHighCutoff < highFreq) {
      return Err("be sure to set the vtln_high option lower than high_freq [or negative]");
    }
    var l := vtlnLowCutoff * Max(1.0, warp);
    var h := vtlnHighCutoff * Min(1.0, warp);
    if warp == 0.0 {
      return Err("float division by zero");
    }
    var scale := 1.0 / warp;
    var fl := scale * l;
    var fh := scale * h;
    if !(l > lowFreq && h < highFreq) {
      return Err("AssertionError");
    }
    var scaleLeft := (fl - lowFreq) / (l - lowFreq);
    var scaleRight := (highFreq - fh) / (highFreq - h);
    assert l == InflectionLow(vtlnLowCutoff, warp) && h == InflectionHigh(vtlnHighCutoff, warp);
    assert scaleLeft == LeftSlope(vtlnLowCutoff, lowFreq, warp);
    assert scaleRight == RightSlope(vtlnHighCutoff, highFreq, warp) by {
      assert highFreq - fh == highFreq - (1.0 / warp) * InflectionHigh(vtlnHighCutoff, warp);
      assert highFreq - h == highFreq - InflectionHigh(vtlnHighCutoff, warp);
    }
    var res := MaskedOverwrites(freq, lowFreq, highFreq, l, h, scale, scaleLeft, scaleRight);
    return Ok(res);
  }

  /** What the four overwrites leave at a frequency `f`: the last write whose mask holds. */
  function Overwritten(lowFreq: real, highFreq: real, l: real, h: real,
                       scale: real, scaleLeft: real, scaleRight: real, f: real): real {
    if f < lowFreq || f > highFreq then f
    else if f < l then Line(lowFreq, scaleLeft, f)
    else if f < h then scale * f
    else Line(highFreq, scaleRight, f)
  }

  /** The four masked writes into a fresh result buffer, in order: `f >= h`, `f < h`,
      `f < l`, then `f` outside [low, high]. The first two masks cover every frequency, so
      no entry keeps its uninitialised value. */
  method MaskedOverwrites(freq: seq<real>, lowFreq: real, highFreq: real, l: real, h: real,
                          scale: real, scaleLeft: real, scaleRight: real) returns (r: seq<real>)
    ensures |r| == |freq|
    ensures forall k :: 0 <= k < |freq| ==>
      r[k] == Overwritten(lowFreq, highFreq, l, h, scale, scaleLeft, scaleRight, freq[k])
  {
    var n := |freq|;
    var res := new real[n];
    for k := 0 to n
      invariant forall k' :: 0 <= k' < k && freq[k'] >= h ==> res[k'] == Line(highFreq, scaleRight, freq[k'])
    {
      if freq[k] >= h {
        res[k] := highFreq + scaleRight * (freq[k] - highFreq);
      }
    }
    for k := 0 to n
      invariant forall k' :: 0 <= k' < k ==>
        res[k'] == if freq[k'] < h then scale * freq[k'] else Line(highFreq, scaleRight, freq[k'])
      invariant forall k' :: k <= k' < n && freq[k'] >= h ==> res[k'] == Line(highFreq, scaleRight, freq[k'])
    {
      if freq[k] < h {
        res[k] := scale * freq[k];
      }
    }
    for k := 0 to n
      invariant forall k' :: 0 <= k' < k ==>
        res[k'] == if freq[k'] < l then Line(lowFreq, scaleLeft, freq[k'])
                   else if freq[k'] < h then scale * freq[k'] else Line(highFreq, scaleRight, freq[k'])
      invariant forall k' :: k <= k' < n ==>
        res[k'] == if freq[k'] < h then scale * freq[k'] else Line(highFreq, scaleRight, freq[k'])
    {
      if freq[k] < l {
        res[k] := lowFreq + scaleLeft * (freq[k] - lowFreq);
      }
    }
    for k := 0 to n
      invariant forall k' :: 0 <= k' < k ==>
        res[k'] == Overwritten(lowFreq, highFreq, l, h, scale, scaleLeft, scaleRight, freq[k'])
      invariant forall k' :: k <= k' < n ==>
        res[k'] == if freq[k'] < l then Line(lowFreq, scaleLeft, freq[k'])
                   else if freq[k'] < h then scale * freq[k'] else Line(highFreq, scaleRight, freq[k'])
    {
      if freq[k] < lowFreq || freq[k] > highFreq {
        res[k] := freq[k];
      }
    }
    r := res[..];
  }

  /** F(low_freq) == low_freq. */
  lemma VtlnWarpFixesLowFreq(vtlnLowCutoff: real, vtlnHighCutoff: real, lowFreq: real, highFreq: real, warp: real)
    requires WarpDefined(vtlnLowCutoff, vtlnHighCutoff, lowFreq, highFreq, warp)
    ensures VtlnWarp(vtlnLowCutoff, vtlnHighCutoff, lowFreq, highFreq, warp, lowFreq) == lowFreq
  {
  }

  /** F(high_freq) == high_freq, provided the lower inflection point is not above
      high_freq. */
  lemma VtlnWarpFixesHighFreq(vtlnLowCutoff: real, vtlnHighCutoff: real, lowFreq: real, highFreq: real, warp: real)
    requires WarpDefined(vtlnLowCutoff, vtlnHighCutoff, lowFreq, highFreq, warp)
    requires lowFreq <= highFreq && InflectionLow(vtlnLowCutoff, warp) <= highFreq
    ensures VtlnWarp(vtlnLowCutoff, vtlnHighCutoff, lowFreq, highFreq, warp, highFreq) == highFreq
  {
  }

  /** When `vtln_low * warp` lies above high_freq, high_freq is not a fixed point:
      low 0, high 1000, cutoffs 900 and 950 and warp 2 send 1000 to 500. */
  lemma VtlnWarpHighFreqCounterexample()
    ensures WarpDefined(900.0, 950.0, 0.0, 1000.0, 2.0)
    ensures VtlnWarp(900.0, 950.0, 0.0, 1000.0, 2.0, 1000.0) == 500.0
  {
    assert InflectionLow(900.0, 2.0) == 1800.0;
    assert LeftPiece(900.0, 0.0, 2.0, 1000.0) == 500.0;
  }

  /** Between the inflection points the warp is `f / warp`. */
  lemma VtlnWarpCenter(vtlnLowCutoff: real, vtlnHighCutoff: real, lowFreq: real, highFreq: real, warp: real, f: real)
    requires WarpDefined(vtlnLowCutoff, vtlnHighCutoff, lowFreq, highFreq, warp)
    requires InflectionLow(vtlnLowCutoff, warp) <= f < InflectionHigh(vtlnHighCutoff, warp)
    ensures VtlnWarp(vtlnLowCutoff, vtlnHighCutoff, lowFreq, highFreq, warp, f) == f / warp
  {
  }

  /** F(h) == h / warp when the inflection points are ordered. */
  lemma VtlnWarpAtInflectionHigh(vtlnLowCutoff: real, vtlnHighCutoff: real, lowFreq: real, highFreq: real, warp: real)
    requires WarpDefined(vtlnLowCutoff, vtlnHighCutoff, lowFreq, highFreq, warp)
    requires InflectionLow(vtlnLowCutoff, warp) <= InflectionHigh(vtlnHighCutoff, warp)
    ensures var h := InflectionHigh(vtlnHighCutoff, warp);
      VtlnWarp(vtlnLowCutoff, vtlnHighCutoff, lowFreq, highFreq, warp, h) == h / warp
  {
    var h := InflectionHigh(vtlnHighCutoff, warp);
    PiecesMeetAtInflectionHigh(vtlnHighCutoff, highFreq, warp);
  }

  /** The left and centre pieces meet at l. */
  lemma PiecesMeetAtInflectionLow(vtlnLowCutoff: real, lowFreq: real, warp: real)
    requires warp != 0.0 && InflectionLow(vtlnLowCutoff, warp) > lowFreq
    ensures var l := InflectionLow(vtlnLowCutoff, warp);
      LeftPiece(vtlnLowCutoff, lowFreq, warp, l) == CenterPiece(warp, l)
  {
    var l := InflectionLow(vtlnLowCutoff, warp);
    var d := l - lowFreq;
    var e := (1.0 / warp) * l - lowFreq;
    assert e / d * d == e;
  }

  /** The centre and right pieces meet at h. */
  lemma PiecesMeetAtInflectionHigh(vtlnHighCutoff: real, highFreq: real, warp: real)
    requires warp != 0.0 && InflectionHigh(vtlnHighCutoff, warp) < highFreq
    ensures var h := InflectionHigh(vtlnHighCutoff, warp);
      RightPiece(vtlnHighCutoff, highFreq, warp, h) == CenterPiece(warp, h)
  {
    var h := InflectionHigh(vtlnHighCutoff, warp);
    var d := highFreq - h;
    var e := highFreq - (1.0 / warp) * h;
    assert e / d * d == e;
  }

  /** Outside [low_freq, high_freq] the warp is the identity. */
  lemma VtlnWarpIdentityOutside(vtlnLowCutoff: real, vtlnHighCutoff: real, lowFreq: real, highFreq: real, warp: real, f: real)
    requires WarpDefined(vtlnLowCutoff, vtlnHighCutoff, lowFreq, highFreq, warp)
    requires f < lowFreq || f > highFreq
    ensures VtlnWarp(vtlnLowCutoff, vtlnHighCutoff, lowFreq, highFreq, warp, f) == f
  {
  }

  /** `vtln_warp_mel_freq`: the warp carried over to the mel scale. */
  method VtlnWarpMelFreq(vtlnLowCutoff: real, vtlnHighCutoff: real, lowFreq: real, highFreq: real,
                         warp: real, melFreq: seq<real>, p: Primitives) returns (r: Result<seq<real>>)
    ensures r.Ok? <==> WarpDefined(vtlnLowCutoff, vtlnHighCutoff, lowFreq, highFreq, warp)
    ensures r.Ok? ==> |r.value| == |melFreq| && forall k :: 0 <= k < |melFreq| ==>
      r.value[k] == MelScale(p, VtlnWarp(vtlnLowCutoff, vtlnHighCutoff, lowFreq, highFreq, warp,
                                         InverseMelScale(p, melFreq[k])))
  {
    var freq := seq(|melFreq|, k requires 0 <= k < |melFreq| => InverseMelScale(p, melFreq[k]));
    var warped := VtlnWarpFreq(vtlnLowCutoff, vtlnHighCutoff, lowFreq, highFreq, warp, freq);
    if warped.Err? {
      return Err(warped.message);
    }
    var w := warped.value;
    return Ok(seq(|w|, k requires 0 <= k < |w| => MelScale(p, w[k])));
  }
}

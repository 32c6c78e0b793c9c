/** The triangular mel filter bank of `get_mel_banks`: evenly spaced mel edges, optionally
    moved by the VTLN warp, and the triangle weight of every FFT bin under every filter. */
module MelBanks {
  import opened Common
  import opened MelScales
  import opened Vtln
  import opened Columns

  /** The messages `get_mel_banks` raises with. */
  const TooFewBins: string := "Must have at least 3 mel bins"
  const AssertionFailed: string := "AssertionError"
  const BadBand: string := "Bad values in options: low-freq and high-freq vs. nyquist"
  const DivisionByZero: string := "float division by zero"
  const BadVtlnBand: string := "Bad values in options: vtln-low and vtln-high, versus low-freq and high-freq"
  const NegativeRange: string := "upper bound and larger bound inconsistent with step sign"

  /** A non-positive `high_freq` (or a negative `vtln_high`) is an offset down from the
      Nyquist frequency. */
  function OffsetFromNyquist(freq: real, nyquist: real, offsetWhenNonPositive: bool): real {
    if (if offsetWhenNonPositive then freq <= 0.0 else freq < 0.0) then freq + nyquist else freq
  }

  /** The effective upper band edge. */
  function EffectiveHighFreq(sampleFreq: real, highFreq: real): real {
    OffsetFromNyquist(highFreq, 0.5 * sampleFreq, true)
  }

  /** The effective upper VTLN cutoff. */
  function EffectiveVtlnHigh(sampleFreq: real, vtlnHigh: real): real {
    OffsetFromNyquist(vtlnHigh, 0.5 * sampleFreq, false)
  }

  /** The band assertion on the low and (offset) high frequencies. */
  predicate BandValid(sampleFreq: real, lowFreq: real, highFreq: real) {
    var nyquist := 0.5 * sampleFreq;
    var high := EffectiveHighFreq(sampleFreq, highFreq);
    0.0 <= lowFreq < nyquist && 0.0 < high <= nyquist && lowFreq < high
  }

  /** The VTLN assertion: no constraint without warping. */
  predicate VtlnValid(sampleFreq: real, lowFreq: real, highFreq: real, vtlnLow: real, vtlnHigh: real, warp: real) {
    var high := EffectiveHighFreq(sampleFreq, highFreq);
    var vh := EffectiveVtlnHigh(sampleFreq, vtlnHigh);
    warp == 1.0 || (lowFreq < vtlnLow < high && 0.0 < vh < high && vtlnLow < vh)
  }

  /** Every condition under which `get_mel_banks` returns rather than raises. */
  predicate MelBanksDefined(numBins: int, windowLengthPadded: int, sampleFreq: real, lowFreq: real,
                            highFreq: real, vtlnLow: real, vtlnHigh: real, warp: real) {
    && numBins > 3
    && windowLengthPadded % 2 == 0
    && BandValid(sampleFreq, lowFreq, highFreq)
    && windowLengthPadded > 0
    && VtlnValid(sampleFreq, lowFreq, highFreq, vtlnLow, vtlnHigh, warp)
    && warp != 0.0
  }

  /** The mel spacing of the edges: the band in mels split into `numBins + 1` steps. */
  function MelDelta(p: Primitives, lowFreq: real, high: real, numBins: nat): real {
    (MelScale(p, high) - MelScale(p, lowFreq)) / ((numBins + 1) as real)
  }

  /** Edge `i` of the unwarped bank: filter `i` has edges `i`, `i + 1` and `i + 2`. */
  function MelEdge(p: Primitives, lowFreq: real, high: real, numBins: nat, i: nat): real {
    MelScale(p, lowFreq) + (i as real) * MelDelta(p, lowFreq, high, numBins)
  }

  /** The edges run from mel(low) to mel(high), one delta apart. */
  lemma MelEdgesSpanBand(p: Primitives, lowFreq: real, high: real, numBins: nat, i: nat)
    ensures MelEdge(p, lowFreq, high, numBins, 0) == MelScale(p, lowFreq)
    ensures MelEdge(p, lowFreq, high, numBins, numBins + 1) == MelScale(p, high)
    ensures MelEdge(p, lowFreq, high, numBins, i + 1) ==
      MelEdge(p, lowFreq, high, numBins, i) + MelDelta(p, lowFreq, high, numBins)
  {
    var d := MelDelta(p, lowFreq, high, numBins);
    var n := (numBins + 1) as real;
    assert d * n == MelScale(p, high) - MelScale(p, lowFreq);
    assert ((i + 1) as real) * d == (i as real) * d + d;
  }

  /** With an increasing logarithm and a valid band the edges strictly increase. */
  lemma MelDeltaPositive(p: Primitives, lowFreq: real, high: real, numBins: nat)
    requires LogIncreasing(p.log)
    requires 0.0 <= lowFreq < high
    ensures MelDelta(p, lowFreq, high, numBins) > 0.0
  {
    MelScaleIncreasing(p, lowFreq, high);
  }

  /** Edge `i` as the warped bank sees it. */
  function WarpedMelEdge(p: Primitives, lowFreq: real, high: real, numBins: nat,
                         vtlnLow: real, vtlnHigh: real, warp: real, i: nat): real
    requires WarpDefined(vtlnLow, vtlnHigh, lowFreq, high, warp)
  {
    MelScale(p, VtlnWarp(vtlnLow, vtlnHigh, lowFreq, high, warp,
                         InverseMelScale(p, MelEdge(p, lowFreq, high, numBins, i))))
  }

  /** Edge `i` of the warped bank in terms of the raw options; where the warp is not
      defined the edge is left unwarped (the bank raises there anyway). */
  function WarpedEdge(p: Primitives, sampleFreq: real, lowFreq: real, highFreq: real, numBins: nat,
                      vtlnLow: real, vtlnHigh: real, warp: real, i: nat): real
  {
    var high := EffectiveHighFreq(sampleFreq, highFreq);
    var vh := EffectiveVtlnHigh(sampleFreq, vtlnHigh);
    if WarpDefined(vtlnLow, vh, lowFreq, high, warp) then
      WarpedMelEdge(p, lowFreq, high, numBins, vtlnLow, vh, warp, i)
    else MelEdge(p, lowFreq, high, numBins, i)
  }

  /** The mel frequency of FFT bin `k`, `mel(k * sample_freq / padded)`. */
  function FftBinMel(p: Primitives, sampleFreq: real, windowLengthPadded: nat, k: nat): real
    requires windowLengthPadded > 0
  {
    MelScale(p, sampleFreq / (windowLengthPadded as real) * (k as real))
  }

  /** The triangle by region: rising on (left, center], falling on (center, right), zero
      elsewhere. This is what the two masked writes into the zero matrix leave. */
  function TriangleWeight(left: real, center: real, right: real, mel: real): real {
    if left < mel <= center then (mel - left) / (center - left)
    else if center < mel < right then (right - mel) / (right - center)
    else 0.0
  }

  /** The unwarped weight, `max(0, min(up_slope, down_slope))`. */
  function ClampedWeight(left: real, center: real, right: real, mel: real): real
    requires left != center && center != right
  {
    Max(0.0, Min((mel - left) / (center - left), (right - mel) / (right - center)))
  }

  /** A quotient by a positive number keeps the order of the numerator and the divisor. */
  lemma QuotientBounds(a: real, b: real)
    requires b > 0.0
    ensures a <= 0.0 ==> a / b <= 0.0
    ensures a > 0.0 ==> a / b > 0.0
    ensures a <= b ==> a / b <= 1.0
    ensures a < b ==> a / b < 1.0
    ensures a >= b ==> a / b >= 1.0
    ensures a > b ==> a / b > 1.0
  {
    var q := a / b;
    assert q * b == a;
    if q <= 0.0 { assert q * b <= 0.0 * b; }
    if q > 0.0 { assert q * b > 0.0 * b; }
    if q <= 1.0 { assert q * b <= 1.0 * b; }
    if q < 1.0 { assert q * b < 1.0 * b; }
    if q >= 1.0 { assert q * b >= 1.0 * b; }
    if q > 1.0 { assert q * b > 1.0 * b; }
  }

  /** Every triangle weight lies in [0, 1], whatever the order of the edges. */
  lemma TriangleWeightBounds(left: real, center: real, right: real, mel: real)
    ensures 0.0 <= TriangleWeight(left, center, right, mel) <= 1.0
  {
    if left < mel <= center {
      QuotientBounds(mel - left, center - left);
    } else if center < mel < right {
      QuotientBounds(right - mel, right - center);
    }
  }

  /** For ordered edges the weight vanishes at and outside (left, right). */
  lemma TriangleWeightOutside(left: real, center: real, right: real, mel: real)
    requires left < center < right
    requires mel <= left || mel >= right
    ensures TriangleWeight(left, center, right, mel) == 0.0
  {
  }

  /** For ordered edges, clamping the smaller slope is the region rule: the reason the
      unwarped bank can skip the masks. */
  lemma ClampedIsTriangle(left: real, center: real, right: real, mel: real)
    requires left < center < right
    ensures ClampedWeight(left, center, right, mel) == TriangleWeight(left, center, right, mel)
  {
    QuotientBounds(mel - left, center - left);
    QuotientBounds(right - mel, right - center);
  }

  /** Edge `i` of the bank `get_mel_banks` builds: warped exactly when the warp factor
      is not 1. */
  function BankEdge(p: Primitives, sampleFreq: real, lowFreq: real, highFreq: real, numBins: nat,
                    vtlnLow: real, vtlnHigh: real, warp: real, i: nat): real
  {
    if warp == 1.0 then MelEdge(p, lowFreq, EffectiveHighFreq(sampleFreq, highFreq), numBins, i)
    else WarpedEdge(p, sampleFreq, lowFreq, highFreq, numBins, vtlnLow, vtlnHigh, warp, i)
  }

  /** Filter `b` over the FFT bins below Nyquist: the triangle on edges `b`, `b + 1`, `b + 2`. */
  function BankRow(p: Primitives, sampleFreq: real, lowFreq: real, highFreq: real, numBins: nat,
                   vtlnLow: real, vtlnHigh: real, warp: real, windowLengthPadded: nat, b: nat): (row: seq<real>)
    requires windowLengthPadded > 0
    ensures |row| == windowLengthPadded / 2
    ensures forall k :: 0 <= k < |row| ==> row[k] == TriangleWeight(
      BankEdge(p, sampleFreq, lowFreq, highFreq, numBins, vtlnLow, vtlnHigh, warp, b),
      BankEdge(p, sampleFreq, lowFreq, highFreq, numBins, vtlnLow, vtlnHigh, warp, b + 1),
      BankEdge(p, sampleFreq, lowFreq, highFreq, numBins, vtlnLow, vtlnHigh, warp, b + 2),
      FftBinMel(p, sampleFreq, windowLengthPadded, k))
  {
    TriangleRow(BankEdge(p, sampleFreq, lowFreq, highFreq, numBins, vtlnLow, vtlnHigh, warp, b),
                BankEdge(p, sampleFreq, lowFreq, highFreq, numBins, vtlnLow, vtlnHigh, warp, b + 1),
                BankEdge(p, sampleFreq, lowFreq, highFreq, numBins, vtlnLow, vtlnHigh, warp, b + 2),
                FftBinMels(p, sampleFreq, windowLengthPadded))
  }

  /** The (num_bins, padded / 2) weights as a function of the options. */
  function MelBankMatrix(p: Primitives, sampleFreq: real, lowFreq: real, highFreq: real, numBins: nat,
                         vtlnLow: real, vtlnHigh: real, warp: real, windowLengthPadded: nat): (bins: Matrix)
    requires windowLengthPadded > 0
    ensures IsMatrix(bins, numBins, windowLengthPadded / 2)
    ensures forall b :: 0 <= b < numBins ==>
      bins[b] == BankRow(p, sampleFreq, lowFreq, highFreq, numBins, vtlnLow, vtlnHigh, warp, windowLengthPadded, b)
  {
    seq(numBins, b requires 0 <= b < numBins =>
      BankRow(p, sampleFreq, lowFreq, highFreq, numBins, vtlnLow, vtlnHigh, warp, windowLengthPadded, b))
  }

  /** Rows built from edges `b`, `b + 1`, `b + 2` are the bank's rows. */
  lemma BinsAreBankRows(bins: Matrix, leftMel: seq<real>, centerMel: seq<real>, rightMel: seq<real>, mel: seq<real>,
                        p: Primitives, sampleFreq: real, lowFreq: real, highFreq: real, n: nat,
                        vtlnLow: real, vtlnHigh: real, warp: real, windowLengthPadded: nat)
    requires windowLengthPadded > 0 && mel == FftBinMels(p, sampleFreq, windowLengthPadded)
    requires |leftMel| == |centerMel| == |rightMel| == n && IsMatrix(bins, n, |mel|)
    requires forall i :: 0 <= i < n ==>
      && leftMel[i] == BankEdge(p, sampleFreq, lowFreq, highFreq, n, vtlnLow, vtlnHigh, warp, i)
      && centerMel[i] == BankEdge(p, sampleFreq, lowFreq, highFreq, n, vtlnLow, vtlnHigh, warp, i + 1)
      && rightMel[i] == BankEdge(p, sampleFreq, lowFreq, highFreq, n, vtlnLow, vtlnHigh, warp, i + 2)
    requires forall i, k :: 0 <= i < n && 0 <= k < |mel| ==>
      bins[i][k] == TriangleWeight(leftMel[i], centerMel[i], rightMel[i], mel[k])
    ensures bins == MelBankMatrix(p, sampleFreq, lowFreq, highFreq, n, vtlnLow, vtlnHigh, warp, windowLengthPadded)
  {
    var spec := MelBankMatrix(p, sampleFreq, lowFreq, highFreq, n, vtlnLow, vtlnHigh, warp, windowLengthPadded);
    forall i | 0 <= i < n ensures bins[i] == spec[i] {
      var row := BankRow(p, sampleFreq, lowFreq, highFreq, n, vtlnLow, vtlnHigh, warp, windowLengthPadded, i);
      assert forall k :: 0 <= k < |mel| ==> bins[i][k] == row[k];
    }
  }

  /** The filter bank and the centre frequencies of its filters. */
  datatype MelBank = MelBank(bins: Matrix, centerFreqs: seq<real>)

  /** `get_mel_banks`: validation in the source's order, the edges (warped when
      `vtln_warp_factor != 1`), and the (num_bins, padded / 2) weights. */
  method GetMelBanks(numBins: int, windowLengthPadded: int, sampleFreq: real, lowFreq: real, highFreq: real,
                     vtlnLow: real, vtlnHigh: real, vtlnWarpFactor: real, p: Primitives)
    returns (r: Result<MelBank>)
    requires LogIncreasing(p.log)
    ensures r.Ok? <==>
      MelBanksDefined(numBins, windowLengthPadded, sampleFreq, lowFreq, highFreq, vtlnLow, vtlnHigh, vtlnWarpFactor)
    ensures r.Err? ==> r.message == CheckMelBankOptions(numBins, windowLengthPadded, sampleFreq, lowFreq, highFreq,
                                                          vtlnLow, vtlnHigh, vtlnWarpFactor).message
    ensures r.Ok? ==> IsMatrix(r.value.bins, numBins, windowLengthPadded / 2) && |r.value.centerFreqs| == numBins
    ensures r.Ok? ==> forall i, k :: 0 <= i < numBins && 0 <= k < windowLengthPadded / 2 ==>
      0.0 <= r.value.bins[i][k] <= 1.0
    ensures r.Ok? ==> r.value.bins == MelBankMatrix(p, sampleFreq, lowFreq, highFreq, numBins, vtlnLow, vtlnHigh,
                                                    vtlnWarpFactor, windowLengthPadded)
    ensures r.Ok? ==> forall i :: 0 <= i < numBins ==>
      r.value.centerFreqs[i] == InverseMelScale(p, BankEdge(p, sampleFreq, lowFreq, highFreq, numBins, vtlnLow, vtlnHigh, vtlnWarpFactor, i + 1))
    ensures r.Ok? && vtlnWarpFactor != 1.0 ==>
      WarpDefined(vtlnLow, EffectiveVtlnHigh(sampleFreq, vtlnHigh), lowFreq, EffectiveHighFreq(sampleFreq, highFreq), vtlnWarpFactor)
  {
    var checked := CheckMelBankOptions(numBins, windowLengthPadded, sampleFreq, lowFreq, highFreq,
                                       vtlnLow, vtlnHigh, vtlnWarpFactor);
    if checked.Err? {
      return Err(checked.message);
    }
    var bank: MelBank;
    if vtlnWarpFactor == 1.0 {
      bank := UnwarpedMelBank(numBins, windowLengthPadded, sampleFreq, lowFreq, highFreq, p);
    } else {
      VtlnOptionsDefineWarp(lowFreq, EffectiveHighFreq(sampleFreq, highFreq), vtlnLow,
                            EffectiveVtlnHigh(sampleFreq, vtlnHigh), vtlnWarpFactor);
      bank := WarpedMelBank(numBins, windowLengthPadded, sampleFreq, lowFreq, highFreq,
                            vtlnLow, vtlnHigh, vtlnWarpFactor, p);
    }
    return Ok(bank);
  }

  /** The bank without warping: evenly spaced mel edges and clamped slopes. */
  method UnwarpedMelBank(n: nat, windowLengthPadded: nat, sampleFreq: real, lowFreq: real, highFreq: real,
                         p: Primitives)
    returns (bank: MelBank)
    requires LogIncreasing(p.log) && windowLengthPadded > 0
    requires 0.0 <= lowFreq < EffectiveHighFreq(sampleFreq, highFreq)
    ensures IsMatrix(bank.bins, n, windowLengthPadded / 2) && |bank.centerFreqs| == n
    ensures forall i, k :: 0 <= i < n && 0 <= k < windowLengthPadded / 2 ==> 0.0 <= bank.bins[i][k] <= 1.0
    ensures forall i :: 0 <= i < n ==>
      bank.centerFreqs[i] == InverseMelScale(p, MelEdge(p, lowFreq, EffectiveHighFreq(sampleFreq, highFreq), n, i + 1))
    ensures bank.bins == MelBankMatrix(p, sampleFreq, lowFreq, highFreq, n, 0.0, 0.0, 1.0, windowLengthPadded)
  {
    var high := EffectiveHighFreq(sampleFreq, highFreq);
    var leftMel := UnwarpedEdges(p, lowFreq, high, n, 0);
    var centerMel := UnwarpedEdges(p, lowFreq, high, n, 1);
    var rightMel := UnwarpedEdges(p, lowFreq, high, n, 2);
    var centerFreqs := seq(n, i requires 0 <= i < n => InverseMelScale(p, centerMel[i]));
    var mel := FftBinMels(p, sampleFreq, windowLengthPadded);
    var bins := ClampedTriangles(leftMel, centerMel, rightMel, mel, p, lowFreq, high, n);
    BinsInUnitInterval(bins, leftMel, centerMel, rightMel, mel);
    BinsAreBankRows(bins, leftMel, centerMel, rightMel, mel, p, sampleFreq, lowFreq, highFreq, n, 0.0, 0.0, 1.0, windowLengthPadded);
    bank := MelBank(bins, centerFreqs);
  }

  /** The bank under a VTLN warp: the edges moved by the warp, and the two masked writes. */
  method WarpedMelBank(n: nat, windowLengthPadded: nat, sampleFreq: real, lowFreq: real, highFreq: real,
                       vtlnLow: real, vtlnHigh: real, warp: real, p: Primitives)
    returns (bank: MelBank)
    requires windowLengthPadded > 0 && warp != 1.0
    requires WarpDefined(vtlnLow, EffectiveVtlnHigh(sampleFreq, vtlnHigh), lowFreq, EffectiveHighFreq(sampleFreq, highFreq), warp)
    ensures IsMatrix(bank.bins, n, windowLengthPadded / 2) && |bank.centerFreqs| == n
    ensures forall i, k :: 0 <= i < n && 0 <= k < windowLengthPadded / 2 ==> 0.0 <= bank.bins[i][k] <= 1.0
    ensures forall i :: 0 <= i < n ==>
      bank.centerFreqs[i] == InverseMelScale(p, WarpedEdge(p, sampleFreq, lowFreq, highFreq, n, vtlnLow, vtlnHigh, warp, i + 1))
    ensures bank.bins == MelBankMatrix(p, sampleFreq, lowFreq, highFreq, n, vtlnLow, vtlnHigh, warp, windowLengthPadded)
  {
    var high := EffectiveHighFreq(sampleFreq, highFreq);
    var leftMel := UnwarpedEdges(p, lowFreq, high, n, 0);
    var centerMel := UnwarpedEdges(p, lowFreq, high, n, 1);
    var rightMel := UnwarpedEdges(p, lowFreq, high, n, 2);
    leftMel := WarpEdges(p, sampleFreq, lowFreq, highFreq, n, vtlnLow, vtlnHigh, warp, leftMel, 0);
    centerMel := WarpEdges(p, sampleFreq, lowFreq, highFreq, n, vtlnLow, vtlnHigh, warp, centerMel, 1);
    rightMel := WarpEdges(p, sampleFreq, lowFreq, highFreq, n, vtlnLow, vtlnHigh, warp, rightMel, 2);
    var centerFreqs := seq(n, i requires 0 <= i < n => InverseMelScale(p, centerMel[i]));
    var mel := FftBinMels(p, sampleFreq, windowLengthPadded);
    var bins := MaskedTriangles(leftMel, centerMel, rightMel, mel);
    BinsInUnitInterval(bins, leftMel, centerMel, rightMel, mel);
    BinsAreBankRows(bins, leftMel, centerMel, rightMel, mel, p, sampleFreq, lowFreq, highFreq, n, vtlnLow, vtlnHigh, warp, windowLengthPadded);
    bank := MelBank(bins, centerFreqs);
  }

  /** The assertions and arithmetic errors of `get_mel_banks`, in the order the source
      meets them: the bin count, the even padded length, the band, the bin width's
      division by the padded length, the VTLN band, the reciprocal of the warp factor
      inside the warp, and `arange` of a negative bin count. */
  function CheckMelBankOptions(numBins: int, windowLengthPadded: int, sampleFreq: real, lowFreq: real,
                               highFreq: real, vtlnLow: real, vtlnHigh: real, warp: real): (r: Result<bool>)
    ensures r.Ok? <==> MelBanksDefined(numBins, windowLengthPadded, sampleFreq, lowFreq, highFreq, vtlnLow, vtlnHigh, warp)
  {
    var nyquist := 0.5 * sampleFreq;
    var high := if highFreq <= 0.0 then highFreq + nyquist else highFreq;
    var vh := if vtlnHigh < 0.0 then vtlnHigh + nyquist else vtlnHigh;
    if !(numBins > 3) then Err(TooFewBins)
    else if windowLengthPadded % 2 != 0 then Err(AssertionFailed)
    else if !((0.0 <= lowFreq < nyquist) && (0.0 < high <= nyquist) && (lowFreq < high)) then
      Err(BadBand)
    else if windowLengthPadded == 0 then Err(DivisionByZero)
    else if !(warp == 1.0 || ((lowFreq < vtlnLow < high) && (0.0 < vh < high) && (vtlnLow < vh))) then
      Err(BadVtlnBand)
    else if warp == 0.0 then Err(DivisionByZero)
    else if windowLengthPadded < 0 then Err(NegativeRange)
    else Ok(true)
  }

  /** The mel-bank options make the VTLN warp well defined. */
  lemma VtlnOptionsDefineWarp(lowFreq: real, high: real, vtlnLow: real, vtlnHigh: real, warp: real)
    requires 0.0 <= lowFreq < vtlnLow < high && 0.0 < vtlnHigh < high && warp != 0.0
    ensures WarpDefined(vtlnLow, vtlnHigh, lowFreq, high, warp)
  {
    var m := Max(1.0, warp);
    assert vtlnLow * m >= vtlnLow * 1.0;
    var k := Min(1.0, warp);
    assert vtlnHigh * k <= vtlnHigh * 1.0;
  }

  /** Edges `offset`, `offset + 1`, ... of the unwarped bank, as the source computes them
      (`mel_low + (bin + offset) * delta`). */
  function UnwarpedEdges(p: Primitives, lowFreq: real, high: real, n: nat, offset: nat): (e: seq<real>)
    ensures |e| == n && forall i :: 0 <= i < n ==> e[i] == MelEdge(p, lowFreq, high, n, i + offset)
  {
    var melLow := MelScale(p, lowFreq);
    var delta := (MelScale(p, high) - melLow) / ((n + 1) as real);
    seq(n, i requires 0 <= i < n => melLow + (i as real + offset as real) * delta)
  }

  /** The edges moved by `vtln_warp_mel_freq`. */
  method WarpEdges(p: Primitives, sampleFreq: real, lowFreq: real, highFreq: real, n: nat,
                   vtlnLow: real, vtlnHigh: real, warp: real, edges: seq<real>, offset: nat)
    returns (warped: seq<real>)
    requires WarpDefined(vtlnLow, EffectiveVtlnHigh(sampleFreq, vtlnHigh), lowFreq, EffectiveHighFreq(sampleFreq, highFreq), warp)
    requires |edges| == n && forall i :: 0 <= i < n ==>
      edges[i] == MelEdge(p, lowFreq, EffectiveHighFreq(sampleFreq, highFreq), n, i + offset)
    ensures |warped| == n && forall i :: 0 <= i < n ==>
      warped[i] == WarpedEdge(p, sampleFreq, lowFreq, highFreq, n, vtlnLow, vtlnHigh, warp, i + offset)
  {
    var high := EffectiveHighFreq(sampleFreq, highFreq);
    var vh := EffectiveVtlnHigh(sampleFreq, vtlnHigh);
    var r := VtlnWarpMelFreq(vtlnLow, vh, lowFreq, high, warp, edges, p);
    warped := r.value;
  }

  /** `mel_scale(fft_bin_width * arange(num_fft_bins))`. */
  function FftBinMels(p: Primitives, sampleFreq: real, windowLengthPadded: nat): (mel: seq<real>)
    requires windowLengthPadded > 0
    ensures |mel| == windowLengthPadded / 2
    ensures forall k :: 0 <= k < |mel| ==> mel[k] == FftBinMel(p, sampleFreq, windowLengthPadded, k)
  {
    seq(windowLengthPadded / 2, k requires 0 <= k < windowLengthPadded / 2 => FftBinMel(p, sampleFreq, windowLengthPadded, k))
  }

  lemma BinsInUnitInterval(bins: Matrix, leftMel: seq<real>, centerMel: seq<real>, rightMel: seq<real>, mel: seq<real>)
    requires |leftMel| == |centerMel| == |rightMel| == |bins| && IsMatrix(bins, |bins|, |mel|)
    requires forall i, k :: 0 <= i < |bins| && 0 <= k < |mel| ==>
      bins[i][k] == TriangleWeight(leftMel[i], centerMel[i], rightMel[i], mel[k])
    ensures forall i, k :: 0 <= i < |bins| && 0 <= k < |mel| ==> 0.0 <= bins[i][k] <= 1.0
  {
    forall i, k | 0 <= i < |bins| && 0 <= k < |mel| ensures 0.0 <= bins[i][k] <= 1.0 {
      TriangleWeightBounds(leftMel[i], centerMel[i], rightMel[i], mel[k]);
    }
  }

  /** The unwarped weights, `max(0, min(up, down))` over the evenly spaced edges; they
      agree with the region rule because the edges increase. */
  function ClampedTriangles(leftMel: seq<real>, centerMel: seq<real>, rightMel: seq<real>, mel: seq<real>,
                            p: Primitives, lowFreq: real, high: real, n: nat): (bins: Matrix)
    requires LogIncreasing(p.log) && 0.0 <= lowFreq < high
    requires |leftMel| == |centerMel| == |rightMel| == n
    requires forall i :: 0 <= i < n ==>
      leftMel[i] == MelEdge(p, lowFreq, high, n, i) &&
      centerMel[i] == MelEdge(p, lowFreq, high, n, i + 1) &&
      rightMel[i] == MelEdge(p, lowFreq, high, n, i + 2)
    ensures |bins| == n
    ensures forall i :: 0 <= i < n ==> bins[i] == TriangleRow(leftMel[i], centerMel[i], rightMel[i], mel)
  {
    MelDeltaPositive(p, lowFreq, high, n);
    EdgesIncrease(p, lowFreq, high, n, leftMel, centerMel, rightMel);
    seq(n, i requires 0 <= i < n => ClampedRow(leftMel[i], centerMel[i], rightMel[i], mel))
  }

  /** One filter's row by the region rule. */
  function TriangleRow(left: real, center: real, right: real, mel: seq<real>): (row: seq<real>)
    ensures |row| == |mel|
    ensures forall k :: 0 <= k < |mel| ==> row[k] == TriangleWeight(left, center, right, mel[k])
  {
    seq(|mel|, k requires 0 <= k < |mel| => TriangleWeight(left, center, right, mel[k]))
  }

  /** One unwarped filter's row, which for ordered edges is the region rule's row. */
  function ClampedRow(left: real, center: real, right: real, mel: seq<real>): (row: seq<real>)
    requires left < center < right
    ensures row == TriangleRow(left, center, right, mel)
  {
    var row := seq(|mel|, k requires 0 <= k < |mel| => ClampedWeight(left, center, right, mel[k]));
    assert forall k :: 0 <= k < |mel| ==> row[k] == TriangleWeight(left, center, right, mel[k]) by {
      forall k | 0 <= k < |mel| ensures row[k] == TriangleWeight(left, center, right, mel[k]) {
        ClampedIsTriangle(left, center, right, mel[k]);
      }
    }
    row
  }

  lemma EdgesIncrease(p: Primitives, lowFreq: real, high: real, n: nat,
                      leftMel: seq<real>, centerMel: seq<real>, rightMel: seq<real>)
    requires MelDelta(p, lowFreq, high, n) > 0.0
    requires |leftMel| == |centerMel| == |rightMel| == n
    requires forall i :: 0 <= i < n ==>
      leftMel[i] == MelEdge(p, lowFreq, high, n, i) &&
      centerMel[i] == MelEdge(p, lowFreq, high, n, i + 1) &&
      rightMel[i] == MelEdge(p, lowFreq, high, n, i + 2)
    ensures forall i :: 0 <= i < n ==> leftMel[i] < centerMel[i] < rightMel[i]
  {
    forall i | 0 <= i < n ensures leftMel[i] < centerMel[i] < rightMel[i] {
      MelEdgesSpanBand(p, lowFreq, high, n, i);
      MelEdgesSpanBand(p, lowFreq, high, n, i + 1);
    }
  }

  /** The rising half of the triangle, zero outside (left, center]. */
  function RisingWeight(left: real, center: real, mel: real): real {
    if left < mel <= center then (mel - left) / (center - left) else 0.0
  }

  /** The warped weights: a zero matrix, then the rising slope written where
      `left < mel <= center` and the falling slope where `center < mel < right`. */
  method MaskedTriangles(leftMel: seq<real>, centerMel: seq<real>, rightMel: seq<real>, mel: seq<real>)
    returns (bins: Matrix)
    requires |leftMel| == |centerMel| == |rightMel|
    ensures IsMatrix(bins, |leftMel|, |mel|)
    ensures forall i, k :: 0 <= i < |leftMel| && 0 <= k < |mel| ==>
      bins[i][k] == TriangleWeight(leftMel[i], centerMel[i], rightMel[i], mel[k])
  {
    var a := new real[|leftMel|, |mel|]((i, k) => 0.0);
    WriteRising(a, leftMel, centerMel, mel);
    WriteFalling(a, leftMel, centerMel, rightMel, mel);
    bins := ToMatrix(a);
  }

  /** The first masked write, `bins[up_idx] = up_slope[up_idx]`, into the zero matrix `a`. */
  method WriteRising(a: array2<real>, leftMel: seq<real>, centerMel: seq<real>, mel: seq<real>)
    requires a.Length0 == |leftMel| == |centerMel| && a.Length1 == |mel|
    requires forall i, k :: 0 <= i < a.Length0 && 0 <= k < a.Length1 ==> a[i, k] == 0.0
    modifies a
    ensures forall i, k :: 0 <= i < a.Length0 && 0 <= k < a.Length1 ==>
      a[i, k] == RisingWeight(leftMel[i], centerMel[i], mel[k])
  {
    for i := 0 to a.Length0
      invariant forall i', k :: 0 <= i' < a.Length0 && 0 <= k < a.Length1 ==>
        a[i', k] == if i' < i then RisingWeight(leftMel[i'], centerMel[i'], mel[k]) else 0.0
    {
      for k := 0 to a.Length1
        invariant forall i', k' :: 0 <= i' < a.Length0 && 0 <= k' < a.Length1 ==>
          a[i', k'] == if i' < i || (i' == i && k' < k) then RisingWeight(leftMel[i'], centerMel[i'], mel[k']) else 0.0
      {
        if leftMel[i] < mel[k] && mel[k] <= centerMel[i] {
          a[i, k] := (mel[k] - leftMel[i]) / (centerMel[i] - leftMel[i]);
        }
      }
    }
  }

  /** The second masked write, `bins[down_idx] = down_slope[down_idx]`, over the rising
      slopes. */
  method WriteFalling(a: array2<real>, leftMel: seq<real>, centerMel: seq<real>, rightMel: seq<real>, mel: seq<real>)
    requires a.Length0 == |leftMel| == |centerMel| == |rightMel| && a.Length1 == |mel|
    requires forall i, k :: 0 <= i < a.Length0 && 0 <= k < a.Length1 ==>
      a[i, k] == RisingWeight(leftMel[i], centerMel[i], mel[k])
    modifies a
    ensures forall i, k :: 0 <= i < a.Length0 && 0 <= k < a.Length1 ==>
      a[i, k] == TriangleWeight(leftMel[i], centerMel[i], rightMel[i], mel[k])
  {
    for i := 0 to a.Length0
      invariant forall i', k :: 0 <= i' < a.Length0 && 0 <= k < a.Length1 ==>
        a[i', k] == if i' < i then TriangleWeight(leftMel[i'], centerMel[i'], rightMel[i'], mel[k])
          else RisingWeight(leftMel[i'], centerMel[i'], mel[k])
    {
      for k := 0 to a.Length1
        invariant forall i', k' :: 0 <= i' < a.Length0 && 0 <= k' < a.Length1 ==>
          a[i', k'] == if i' < i || (i' == i && k' < k) then TriangleWeight(leftMel[i'], centerMel[i'], rightMel[i'], mel[k'])
            else RisingWeight(leftMel[i'], centerMel[i'], mel[k'])
      {
        if centerMel[i] < mel[k] && mel[k] < rightMel[i] {
          a[i, k] := (rightMel[i] - mel[k]) / (rightMel[i] - centerMel[i]);
        }
      }
    }
  }
}

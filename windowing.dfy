/** Per-frame conditioning of `_get_window`: dither, DC removal, log energy, pre-emphasis,
    the window function and the zero padding up to the FFT length, in the source's order. */
module Windowing {
  import opened Common
  import opened Framing

  /** The five window shapes the front end accepts. */
  datatype WindowType = Hamming | Hanning | Povey | Rectangular | Blackman

  function WindowTypeName(t: WindowType): string {
    match t
    case Hamming => "hamming"
    case Hanning => "hanning"
    case Povey => "povey"
    case Rectangular => "rectangular"
    case Blackman => "blackman"
  }

  /** The window names are matched exactly; any other name raises. */
  function ParseWindowType(name: string): (r: Result<WindowType>)
    ensures r.Ok? ==> WindowTypeName(r.value) == name
    ensures r.Err? ==> forall t: WindowType :: WindowTypeName(t) != name
  {
    if name == "hamming" then Ok(Hamming)
    else if name == "hanning" then Ok(Hanning)
    else if name == "povey" then Ok(Povey)
    else if name == "rectangular" then Ok(Rectangular)
    else if name == "blackman" then Ok(Blackman)
    else Err("Invalid window type " + name)
  }

  /** The symmetric (non-periodic) Hann window; a single-sample window is 1. */
  function HannWindow(n: nat, p: Primitives): (r: seq<real>)
    ensures |r| == n
  {
    if n == 1 then [1.0]
    else seq(n, k requires 0 <= k < n => 0.5 - 0.5 * p.cosTurns((k as real) / ((n - 1) as real)))
  }

  /** The symmetric Hamming window with alpha 0.54 and beta 0.46. */
  function HammingWindow(n: nat, p: Primitives): (r: seq<real>)
    ensures |r| == n
  {
    if n == 1 then [1.0]
    else seq(n, k requires 0 <= k < n => 0.54 - 0.46 * p.cosTurns((k as real) / ((n - 1) as real)))
  }

  /** Kaldi's generalised Blackman window with coefficient `a`; its step 2*pi/(n-1) divides
      by zero for a one-sample window. */
  function BlackmanWindow(n: nat, a: real, p: Primitives): (r: Result<seq<real>>)
    ensures r.Ok? <==> n != 1
    ensures r.Ok? ==> |r.value| == n
  {
    if n == 1 then Err("float division by zero")
    else
      Ok(seq(n, k requires 0 <= k < n =>
        var x := (k as real) / ((n - 1) as real);
        a - 0.5 * p.cosTurns(x) + (0.5 - a) * p.cosTurns(2.0 * x)))
  }

  /** `_feature_window_function`: a window of `windowSize` samples of the named shape. */
  function FeatureWindowFunction(windowType: string, windowSize: nat, blackmanCoeff: real, p: Primitives)
    : (r: Result<seq<real>>)
    ensures r.Ok? <==> ParseWindowType(windowType).Ok? && !(windowType == "blackman" && windowSize == 1)
    ensures r.Ok? ==> |r.value| == windowSize
    ensures windowType == "rectangular" ==> r.Ok? && forall k :: 0 <= k < windowSize ==> r.value[k] == 1.0
    ensures windowType == "povey" ==> r.Ok? && forall k :: 0 <= k < windowSize ==>
      r.value[k] == p.pow085(HannWindow(windowSize, p)[k])
  {
    var t := ParseWindowType(windowType);
    if t.Err? then Err(t.message)
    else match t.value
      case Hanning => Ok(HannWindow(windowSize, p))
      case Hamming => Ok(HammingWindow(windowSize, p))
      case Povey =>
        var h := HannWindow(windowSize, p);
        Ok(seq(windowSize, k requires 0 <= k < windowSize => p.pow085(h[k])))
      case Rectangular => Ok(seq(windowSize, k => 1.0))
      case Blackman => BlackmanWindow(windowSize, blackmanCoeff, p)
  }

  /** Rows keep their lengths. */
  predicate SameShape(x: Matrix, y: Matrix) {
    |x| == |y| && forall i :: 0 <= i < |x| ==> |x[i]| == |y[i]|
  }

  /** Dither: Gaussian noise `gauss(i, j)` scaled by `dither` is added to every sample; with
      `dither == 0` the frames are left as they are. The noise source is a parameter. */
  function Dither(x: Matrix, dither: real, gauss: (nat, nat) -> real): (r: Matrix)
    ensures SameShape(r, x)
    ensures forall i, j :: 0 <= i < |x| && 0 <= j < |x[i]| ==> r[i][j] == x[i][j] + gauss(i, j) * dither
  {
    if dither == 0.0 then x
    else
      seq(|x|, i requires 0 <= i < |x| =>
        seq(|x[i]|, j requires 0 <= j < |x[i]| => x[i][j] + gauss(i, j) * dither))
  }

  /** One frame minus its mean. */
  function CenterRow(s: seq<real>): (r: seq<real>)
    ensures |r| == |s|
    ensures forall j :: 0 <= j < |s| ==> r[j] == s[j] - Mean(s)
    ensures |s| > 0 ==> Sum(r) == 0.0
  {
    if |s| == 0 then []
    else
      var c := Mean(s);
      SumMinusConstant(s, c);
      seq(|s|, j requires 0 <= j < |s| => s[j] - c)
  }

  /** `remove_dc_offset`: every frame has its mean subtracted, so it sums to zero. */
  function RemoveDcOffset(x: Matrix): (r: Matrix)
    ensures SameShape(r, x)
    ensures forall i :: 0 <= i < |x| ==> r[i] == CenterRow(x[i])
    ensures forall i :: 0 <= i < |x| && |x[i]| > 0 ==> Sum(r[i]) == 0.0
    ensures forall i, j :: 0 <= i < |x| && 0 <= j < |x[i]| ==> r[i][j] == x[i][j] - Mean(x[i])
  {
    seq(|x|, i requires 0 <= i < |x| => CenterRow(x[i]))
  }

  /** Pre-emphasis of one frame against its edge-replicated copy shifted right by one. */
  function PreemphasizeRow(s: seq<real>, c: real): (r: seq<real>)
    ensures |r| == |s|
    ensures forall j :: 0 <= j < |s| ==> r[j] == s[j] - c * s[if j == 0 then 0 else j - 1]
    ensures |s| > 0 ==> r[0] == (1.0 - c) * s[0]
  {
    if |s| == 0 then []
    else
      var offset := [s[0]] + s;
      assert forall j :: 0 <= j < |s| ==> offset[j] == s[if j == 0 then 0 else j - 1];
      var r := seq(|s|, j requires 0 <= j < |s| => s[j] - c * offset[j]);
      assert r[0] == s[0] - c * s[0] == (1.0 - c) * s[0];
      r
  }

  /** Pre-emphasis with coefficient `c` on every frame, applied only when `c != 0`: the
      subtraction it skips would be zero anyway. */
  function Preemphasize(x: Matrix, c: real): (r: Matrix)
    ensures SameShape(r, x)
    ensures forall i :: 0 <= i < |x| ==> r[i] == PreemphasizeRow(x[i], c)
  {
    if c == 0.0 then
      assert forall i :: 0 <= i < |x| ==> x[i] == PreemphasizeRow(x[i], c) by {
        forall i | 0 <= i < |x| ensures x[i] == PreemphasizeRow(x[i], c) {
          assert x[i] == PreemphasizeRow(x[i], c);
        }
      }
      x
    else
      seq(|x|, i requires 0 <= i < |x| => PreemphasizeRow(x[i], c))
  }

  /** Every frame multiplied sample by sample with the window. */
  function ApplyWindow(x: Matrix, window: seq<real>): (r: Matrix)
    requires forall i :: 0 <= i < |x| ==> |x[i]| == |window|
    ensures SameShape(r, x)
    ensures forall i, j :: 0 <= i < |x| && 0 <= j < |window| ==> r[i][j] == x[i][j] * window[j]
  {
    seq(|x|, i requires 0 <= i < |x| =>
      seq(|window|, j requires 0 <= j < |window| => x[i][j] * window[j]))
  }

  /** A frame extended with zeros to `padded` samples; its energy is unchanged. */
  function PadRow(s: seq<real>, padded: nat): (r: seq<real>)
    requires |s| <= padded
    ensures |r| == padded && r[..|s|] == s
    ensures forall j :: 0 <= j < |s| ==> r[j] == s[j]
    ensures forall j :: |s| <= j < padded ==> r[j] == 0.0
    ensures SumSquares(r) == SumSquares(s)
  {
    var z := Zeros(padded - |s|);
    SumSquaresConcat(s, z);
    SumSquaresZeros(padded - |s|);
    s + z
  }

  /** Zero padding on the right up to the padded window size. */
  function PadRows(x: Matrix, padded: nat): (r: Matrix)
    requires forall i :: 0 <= i < |x| ==> |x[i]| <= padded
    ensures |r| == |x|
    ensures forall i :: 0 <= i < |x| ==> |r[i]| == padded && r[i][..|x[i]|] == x[i]
    ensures forall i, j :: 0 <= i < |x| && 0 <= j < |x[i]| ==> r[i][j] == x[i][j]
    ensures forall i, j :: 0 <= i < |x| && |x[i]| <= j < padded ==> r[i][j] == 0.0
    ensures forall i :: 0 <= i < |x| ==> SumSquares(r[i]) == SumSquares(x[i])
  {
    seq(|x|, i requires 0 <= i < |x| => PadRow(x[i], padded))
  }

  /** The log energy of one frame, floored at the machine epsilon before the logarithm. */
  function FrameLogEnergy(s: seq<real>, p: Primitives): real {
    p.log(Max(SumSquares(s), p.epsilon))
  }

  /** `_get_log_energy`: per frame, the logarithm of the floored energy, then floored again
      at `log(energy_floor)` unless the floor is 0. The floor's logarithm is taken even
      for an empty batch, so a negative floor raises. */
  function LogEnergy(x: Matrix, p: Primitives, energyFloor: real): (r: Result<seq<real>>)
    ensures r.Ok? <==> energyFloor >= 0.0
    ensures r.Err? ==> r.message == MathDomainError
    ensures r.Ok? ==> |r.value| == |x|
    ensures r.Ok? && energyFloor == 0.0 ==> forall i :: 0 <= i < |x| ==> r.value[i] == FrameLogEnergy(x[i], p)
    ensures r.Ok? ==> forall i :: 0 <= i < |x| ==> r.value[i] >= FrameLogEnergy(x[i], p)
    ensures r.Ok? && energyFloor > 0.0 ==> forall i :: 0 <= i < |x| ==> r.value[i] >= p.log(energyFloor)
    ensures r.Ok? && energyFloor > 0.0 ==> forall i :: 0 <= i < |x| ==>
      r.value[i] == FrameLogEnergy(x[i], p) || r.value[i] == p.log(energyFloor)
  {
    var e := seq(|x|, i requires 0 <= i < |x| => FrameLogEnergy(x[i], p));
    if energyFloor == 0.0 then Ok(e)
    else if energyFloor < 0.0 then Err(MathDomainError)
    else
      var floor := p.log(energyFloor);
      Ok(seq(|x|, i requires 0 <= i < |x| => Max(e[i], floor)))
  }

  /** For an increasing logarithm and a positive epsilon, every frame's log energy is at
      least log(epsilon). */
  lemma LogEnergyAboveEpsilon(x: Matrix, p: Primitives, energyFloor: real)
    requires LogIncreasing(p.log) && p.epsilon > 0.0
    requires energyFloor >= 0.0
    ensures forall i :: 0 <= i < |x| ==> LogEnergy(x, p, energyFloor).value[i] >= p.log(p.epsilon)
  {
    forall i | 0 <= i < |x| ensures FrameLogEnergy(x[i], p) >= p.log(p.epsilon) {
      var s := SumSquares(x[i]);
      if s > p.epsilon {
        assert p.log(p.epsilon) < p.log(s);
      }
    }
  }

  /** The first steps of `_get_window`: the strided frames, dithered, then centred on
      request. Without dither or centring each row is Kaldi's frame. */
  function ExtractFrames(w: seq<real>, windowSize: nat, windowShift: nat, snipEdges: bool, dither: real,
                         removeDcOffset: bool, gauss: (nat, nat) -> real): (x: Matrix)
    requires windowShift > 0 && windowSize <= |w|
    ensures IsMatrix(x, NumFrames(|w|, windowSize, windowShift, snipEdges), windowSize)
    ensures removeDcOffset ==> forall i :: 0 <= i < |x| && windowSize > 0 ==> Sum(x[i]) == 0.0
    ensures dither == 0.0 && !removeDcOffset ==> forall i :: 0 <= i < |x| ==>
      x[i] == KaldiFrame(w, windowSize, windowShift, snipEdges, i)
    ensures forall i :: 0 <= i < |x| ==>
      var d := DitheredFrame(w, windowSize, windowShift, snipEdges, dither, gauss, i);
      x[i] == if removeDcOffset then CenterRow(d) else d
  {
    var strided := Strided(w, windowSize, windowShift, snipEdges);
    var dithered := Dither(strided, dither, gauss);
    assert dither == 0.0 ==> dithered == strided;
    assert forall i :: 0 <= i < |dithered| ==>
      dithered[i] == DitheredFrame(w, windowSize, windowShift, snipEdges, dither, gauss, i)
    by {
      forall i | 0 <= i < |dithered|
        ensures dithered[i] == DitheredFrame(w, windowSize, windowShift, snipEdges, dither, gauss, i)
      {
        var d := DitheredFrame(w, windowSize, windowShift, snipEdges, dither, gauss, i);
        assert strided[i] == KaldiFrame(w, windowSize, windowShift, snipEdges, i);
        assert forall j :: 0 <= j < windowSize ==> dithered[i][j] == d[j];
      }
    }
    if removeDcOffset then RemoveDcOffset(dithered) else dithered
  }

  /** Kaldi's frame `i` with the noise `gauss(i, j) * dither` added to sample `j`. */
  function DitheredFrame(w: seq<real>, windowSize: nat, windowShift: nat, snipEdges: bool, dither: real,
                         gauss: (nat, nat) -> real, i: nat): (d: seq<real>)
    requires windowShift > 0 && windowSize <= |w|
    requires i < NumFrames(|w|, windowSize, windowShift, snipEdges)
    ensures |d| == windowSize
    ensures forall j :: 0 <= j < windowSize ==>
      d[j] == KaldiFrame(w, windowSize, windowShift, snipEdges, i)[j] + gauss(i, j) * dither
  {
    var f := KaldiFrame(w, windowSize, windowShift, snipEdges, i);
    seq(windowSize, j requires 0 <= j < windowSize => f[j] + gauss(i, j) * dither)
  }

  /** The later steps of `_get_window`: pre-emphasis, the window function, and zero
      padding of every frame to the FFT length. */
  function ShapeFrames(x: Matrix, m: nat, windowSize: nat, paddedWindowSize: nat, preemphasisCoefficient: real,
                       window: seq<real>): (r: Matrix)
    requires IsMatrix(x, m, windowSize) && |window| == windowSize && windowSize <= paddedWindowSize
    ensures IsMatrix(r, m, paddedWindowSize)
    ensures forall i, j :: 0 <= i < m && windowSize <= j < paddedWindowSize ==> r[i][j] == 0.0
  {
    var windowed := ApplyWindow(Preemphasize(x, preemphasisCoefficient), window);
    if paddedWindowSize != windowSize then PadRows(windowed, paddedWindowSize) else windowed
  }

  /** `math.log` of a negative energy floor. */
  const MathDomainError: string := "math domain error"

  /** torch's replicate pad refuses a tensor with a zero-size non-batch dimension. */
  const EmptyReplicatePad: string :=
    "Expected 2D or 3D (batch mode) tensor with possibly 0 batch size and other non-zero dimensions for input"

  /** Pre-emphasis replicate-pads the (1, m, window_size) frames, which torch refuses when
      there are no frames (m = 0, possible without `snip_edges`). */
  predicate PreemphasisRejectsEmpty(m: nat, preemphasisCoefficient: real) {
    m == 0 && preemphasisCoefficient != 0.0
  }

  /** The frames of `_get_window` and their log energies. */
  datatype Window = Window(frames: Matrix, logEnergy: seq<real>)

  /** `_get_window`: frames are extracted, dithered, optionally centred; the raw energy is
      taken here when `rawEnergy`; then pre-emphasis, the window function and the zero
      padding; otherwise the energy is taken from the final frames. Errors come in that
      order: a negative floor for the raw energy, pre-emphasis of no frames, the window
      type, a negative floor for the final energy. The geometry has been validated by
      `GetWaveformAndWindowProperties`. */
  function GetWindow(
    w: seq<real>, paddedWindowSize: nat, windowSize: nat, windowShift: nat, windowType: string,
    blackmanCoeff: real, snipEdges: bool, rawEnergy: bool, energyFloor: real, dither: real,
    removeDcOffset: bool, preemphasisCoefficient: real, p: Primitives, gauss: (nat, nat) -> real)
    : (r: Result<Window>)
    requires windowShift > 0 && 2 <= windowSize <= |w| && windowSize <= paddedWindowSize
    ensures r.Ok? <==>
      && energyFloor >= 0.0
      && !PreemphasisRejectsEmpty(NumFrames(|w|, windowSize, windowShift, snipEdges), preemphasisCoefficient)
      && FeatureWindowFunction(windowType, windowSize, blackmanCoeff, p).Ok?
    ensures rawEnergy && energyFloor < 0.0 ==> r == Err(MathDomainError)
    ensures (rawEnergy ==> energyFloor >= 0.0) &&
            PreemphasisRejectsEmpty(NumFrames(|w|, windowSize, windowShift, snipEdges), preemphasisCoefficient) ==>
      r == Err(EmptyReplicatePad)
    ensures r.Ok? ==>
      var x := ExtractFrames(w, windowSize, windowShift, snipEdges, dither, removeDcOffset, gauss);
      && r.value.frames == ShapeFrames(x, NumFrames(|w|, windowSize, windowShift, snipEdges), windowSize,
                                       paddedWindowSize, preemphasisCoefficient,
                                       FeatureWindowFunction(windowType, windowSize, blackmanCoeff, p).value)
      && r.value.logEnergy == LogEnergy(if rawEnergy then x else r.value.frames, p, energyFloor).value
    ensures r.Ok? ==>
      var m := NumFrames(|w|, windowSize, windowShift, snipEdges);
      IsMatrix(r.value.frames, m, paddedWindowSize) && |r.value.logEnergy| == m
    ensures r.Ok? ==> forall i, j :: 0 <= i < |r.value.frames| && windowSize <= j < paddedWindowSize ==>
      r.value.frames[i][j] == 0.0
    ensures r.Ok? && !rawEnergy ==> forall i :: 0 <= i < |r.value.frames| ==>
      r.value.logEnergy[i] >= FrameLogEnergy(r.value.frames[i], p)
    ensures r.Ok? && rawEnergy && dither == 0.0 && !removeDcOffset && energyFloor == 0.0 ==>
      forall i :: 0 <= i < |r.value.frames| ==>
        r.value.logEnergy[i] == FrameLogEnergy(KaldiFrame(w, windowSize, windowShift, snipEdges, i), p)
  {
    FinishWindow(ExtractFrames(w, windowSize, windowShift, snipEdges, dither, removeDcOffset, gauss),
                 NumFrames(|w|, windowSize, windowShift, snipEdges), windowSize, paddedWindowSize, windowType,
                 blackmanCoeff, rawEnergy, energyFloor, preemphasisCoefficient, p)
  }

  /** `_get_window` after the frames `x` are extracted: the raw energy when `rawEnergy`,
      then pre-emphasis, the window function and the zero padding, and otherwise the
      energy of the final frames, with the errors in that order. */
  function FinishWindow(
    x: Matrix, m: nat, windowSize: nat, paddedWindowSize: nat, windowType: string, blackmanCoeff: real,
    rawEnergy: bool, energyFloor: real, preemphasisCoefficient: real, p: Primitives)
    : (r: Result<Window>)
    requires IsMatrix(x, m, windowSize) && 2 <= windowSize <= paddedWindowSize
    ensures r.Ok? <==>
      && energyFloor >= 0.0
      && !PreemphasisRejectsEmpty(m, preemphasisCoefficient)
      && FeatureWindowFunction(windowType, windowSize, blackmanCoeff, p).Ok?
    ensures rawEnergy && energyFloor < 0.0 ==> r == Err(MathDomainError)
    ensures (rawEnergy ==> energyFloor >= 0.0) && PreemphasisRejectsEmpty(m, preemphasisCoefficient) ==>
      r == Err(EmptyReplicatePad)
    ensures r.Ok? ==>
      && r.value.frames == ShapeFrames(x, m, windowSize, paddedWindowSize, preemphasisCoefficient,
                                       FeatureWindowFunction(windowType, windowSize, blackmanCoeff, p).value)
      && r.value.logEnergy == LogEnergy(if rawEnergy then x else r.value.frames, p, energyFloor).value
  {
    var rawLogEnergy := LogEnergy(x, p, energyFloor);
    if rawEnergy && rawLogEnergy.Err? then Err(rawLogEnergy.message)
    else if PreemphasisRejectsEmpty(m, preemphasisCoefficient) then Err(EmptyReplicatePad)
    else
      var window := FeatureWindowFunction(windowType, windowSize, blackmanCoeff, p);
      if window.Err? then Err(window.message)
      else
        var frames := ShapeFrames(x, m, windowSize, paddedWindowSize, preemphasisCoefficient, window.value);
        if rawEnergy then Ok(Window(frames, rawLogEnergy.value))
        else
          var e := LogEnergy(frames, p, energyFloor);
          if e.Err? then Err(e.message) else Ok(Window(frames, e.value))
  }
}

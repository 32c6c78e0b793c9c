/** The three feature extractors, `spectrogram`, `fbank` and `mfcc`: the shared framing
    front end, the spectrum of every frame, the mel energies, the cepstra, and the
    column layouts of their outputs. Each extractor is a method proved equal to a pure
    specification function, whose own contract says what the features are. */
module Features {
  import opened Common
  import opened Framing
  import opened Windowing
  import opened Columns
  import opened MelBanks

  /** The framing options every extractor takes; frame length and shift are already
      counted in samples. `subtract_mean` is passed on its own, since `mfcc` overrides it
      for the `fbank` it calls. */
  datatype FrameOptions = FrameOptions(
    blackmanCoeff: real, channel: int, dither: real, energyFloor: real,
    windowSize: int, windowShift: int, minDuration: real, preemphasisCoefficient: real,
    rawEnergy: bool, removeDcOffset: bool, roundToPowerOfTwo: bool, sampleFrequency: real,
    snipEdges: bool, windowType: string)

  /** The mel options of `fbank` and `mfcc`. */
  datatype MelOptions = MelOptions(
    highFreq: real, htkCompat: bool, lowFreq: real, numMelBins: int,
    useEnergy: bool, useLogFbank: bool, usePower: bool,
    vtlnHigh: real, vtlnLow: real, vtlnWarp: real)

  /** What an extractor returns: the empty tensor for a signal shorter than
      `min_duration`, or one feature row per frame. */
  datatype Features = TooShort | Frames(x: Matrix)

  /** The front end's outcome: too short, or the validated geometry and the windowed frames. */
  datatype Front = Short | Windowed(props: WindowProperties, window: Window)

  /** The messages `mfcc` and `_get_dct_matrix` raise with. */
  const NumCepsTooLarge: string := "num_ceps cannot be larger than num_mel_bins"
  const NoColumnZero: string := "index 0 is out of bounds for dimension 1 with size 0"
  const ReciprocalOfZero: string := "float division by zero"
  const TooManyIndices: string := "too many indices for tensor of dimension 1"
  const ShapesMismatch: string := "size mismatch in matmul"

  /** `_get_waveform_and_window_properties` on the options. */
  function Props(waveform: Matrix, o: FrameOptions): Result<WindowProperties> {
    GetWaveformAndWindowProperties(waveform, o.channel, o.sampleFrequency, o.windowShift, o.windowSize,
                                   o.roundToPowerOfTwo, o.preemphasisCoefficient)
  }

  /** `len(waveform) < min_duration * sample_frequency`. */
  predicate IsShort(w: seq<real>, o: FrameOptions) {
    (|w| as real) < o.minDuration * o.sampleFrequency
  }

  /** The frames fill an (m, padded) matrix, one log energy each, for the frame count of
      the strided view. */
  predicate WellFramed(props: WindowProperties, window: Window, snipEdges: bool) {
    && props.windowShift > 0
    && 2 <= props.windowSize <= props.paddedWindowSize
    && props.paddedWindowSize % 2 == 0
    && IsMatrix(window.frames, NumFrames(|props.waveform|, props.windowSize, props.windowShift, snipEdges),
                props.paddedWindowSize)
    && |window.logEnergy| == |window.frames|
  }

  /** `_get_window` on the selected channel with the validated geometry and the options. */
  function WindowOf(pr: WindowProperties, o: FrameOptions, p: Primitives, gauss: (nat, nat) -> real): Result<Window>
    requires pr.windowShift > 0 && 2 <= pr.windowSize <= |pr.waveform| && pr.windowSize <= pr.paddedWindowSize
  {
    GetWindow(pr.waveform, pr.paddedWindowSize, pr.windowSize, pr.windowShift, o.windowType, o.blackmanCoeff,
              o.snipEdges, o.rawEnergy, o.energyFloor, o.dither, o.removeDcOffset, o.preemphasisCoefficient, p, gauss)
  }

  /** The common head of the extractors: the waveform and window properties, the
      minimum-duration test, and `_get_window`. */
  function FrontEnd(waveform: Matrix, o: FrameOptions, p: Primitives, gauss: (nat, nat) -> real): (r: Result<Front>)
    ensures r.Ok? <==>
      && Props(waveform, o).Ok?
      && (|| IsShort(Props(waveform, o).value.waveform, o)
          || (&& o.energyFloor >= 0.0
              && !PreemphasisRejectsEmpty(NumFrames(|Props(waveform, o).value.waveform|, Props(waveform, o).value.windowSize,
                                                    Props(waveform, o).value.windowShift, o.snipEdges),
                                          o.preemphasisCoefficient)
              && FeatureWindowFunction(o.windowType, Props(waveform, o).value.windowSize, o.blackmanCoeff, p).Ok?))
    ensures r.Ok? ==> (r.value.Short? <==> IsShort(Props(waveform, o).value.waveform, o))
    ensures r.Ok? && r.value.Windowed? ==>
      r.value.props == Props(waveform, o).value && WellFramed(r.value.props, r.value.window, o.snipEdges)
    ensures r.Ok? && r.value.Windowed? ==> WindowOf(r.value.props, o, p, gauss) == Ok(r.value.window)
  {
    var props := Props(waveform, o);
    if props.Err? then Err(props.message)
    else
      var pr := props.value;
      if IsShort(pr.waveform, o) then Ok(Short)
      else
        var window := GetWindow(pr.waveform, pr.paddedWindowSize, pr.windowSize, pr.windowShift, o.windowType,
                                o.blackmanCoeff, o.snipEdges, o.rawEnergy, o.energyFloor, o.dither,
                                o.removeDcOffset, o.preemphasisCoefficient, p, gauss);
        if window.Err? then Err(window.message) else Ok(Windowed(pr, window.value))
  }

  /** `max(a^2, eps).log()`: the log power of one bin with magnitude `a`. */
  function LogPower(a: real, p: Primitives): real {
    p.log(Max(a * a, p.epsilon))
  }

  /** One frame's log power spectrum, from its FFT magnitudes `a`. */
  function LogPowerRow(a: seq<real>, p: Primitives): (r: seq<real>)
    ensures |r| == |a|
    ensures forall k :: 0 <= k < |a| ==> r[k] == LogPower(a[k], p)
  {
    seq(|a|, k requires 0 <= k < |a| => LogPower(a[k], p))
  }

  /** The log power spectrum of every frame, (m, padded / 2 + 1). */
  function LogPowerRows(frames: Matrix, p: Primitives, rfftAbs: seq<real> -> seq<real>): (r: Matrix)
    requires IsHalfSpectrum(rfftAbs)
    ensures |r| == |frames|
    ensures forall i :: 0 <= i < |frames| ==> r[i] == LogPowerRow(rfftAbs(frames[i]), p)
    ensures forall i :: 0 <= i < |frames| ==> |r[i]| == |frames[i]| / 2 + 1
  {
    seq(|frames|, i requires 0 <= i < |frames| => LogPowerRow(rfftAbs(frames[i]), p))
  }

  /** With an increasing logarithm every entry of the log power spectrum is at least
      `log(eps)`: the floor that keeps silent bins finite. */
  lemma LogPowerAtLeastLogEpsilon(a: seq<real>, p: Primitives, k: nat)
    requires LogIncreasing(p.log) && p.epsilon > 0.0 && k < |a|
    ensures LogPowerRow(a, p)[k] >= p.log(p.epsilon)
  {
    if a[k] * a[k] > p.epsilon {
      assert p.log(p.epsilon) < p.log(a[k] * a[k]);
    }
  }

  /** The spectrogram before the column means: per frame the log power spectrum, with
      bin 0 replaced by the frame's log energy. */
  function SpectrogramColumns(frames: Matrix, logEnergy: seq<real>, padded: nat, p: Primitives,
                              rfftAbs: seq<real> -> seq<real>): (r: Matrix)
    requires IsHalfSpectrum(rfftAbs)
    requires IsMatrix(frames, |logEnergy|, padded)
    ensures IsMatrix(r, |frames|, padded / 2 + 1)
    ensures forall i :: 0 <= i < |frames| ==> r[i][0] == logEnergy[i]
    ensures forall i :: 0 <= i < |frames| ==> r[i][1..] == LogPowerRow(rfftAbs(frames[i]), p)[1..]
  {
    WithColumn(LogPowerRows(frames, p, rfftAbs), 0, logEnergy)
  }

  /** The spectrogram of the frames: `SpectrogramColumns`, column-mean normalised on
      request. */
  function SpectrogramFeatures(frames: Matrix, logEnergy: seq<real>, padded: nat, subtractMean: bool,
                               p: Primitives, rfftAbs: seq<real> -> seq<real>): (x: Matrix)
    requires IsHalfSpectrum(rfftAbs)
    requires IsMatrix(frames, |logEnergy|, padded)
    ensures IsMatrix(x, |frames|, padded / 2 + 1)
    ensures !subtractMean ==> x == SpectrogramColumns(frames, logEnergy, padded, p, rfftAbs)
    ensures subtractMean && |frames| > 0 ==> forall j :: 0 <= j < padded / 2 + 1 ==> Sum(Column(x, j)) == 0.0
  {
    SubtractColumnMean(SpectrogramColumns(frames, logEnergy, padded, p, rfftAbs), padded / 2 + 1, subtractMean)
  }

  /** The spectrogram of the frames, with the in-place write
      `power_spectrum[:, 0] = signal_log_energy`. */
  method SpectrogramFrames(frames: Matrix, logEnergy: seq<real>, padded: nat, subtractMean: bool,
                           p: Primitives, rfftAbs: seq<real> -> seq<real>) returns (x: Matrix)
    requires IsHalfSpectrum(rfftAbs)
    requires IsMatrix(frames, |logEnergy|, padded)
    ensures x == SpectrogramFeatures(frames, logEnergy, padded, subtractMean, p, rfftAbs)
  {
    var power := LogPowerRows(frames, p, rfftAbs);
    var a := FromMatrix(power, |frames|, padded / 2 + 1);
    SetColumn(a, 0, logEnergy);
    var withEnergy := ToMatrix(a);
    x := SubtractColumnMean(withEnergy, padded / 2 + 1, subtractMean);
  }

  /** `spectrogram`: errors of the front end, the empty result for a short signal, and
      otherwise the spectrogram of the windowed frames. */
  function SpectrogramOf(waveform: Matrix, o: FrameOptions, subtractMean: bool, p: Primitives,
                         gauss: (nat, nat) -> real, rfftAbs: seq<real> -> seq<real>): (r: Result<Features>)
    requires IsHalfSpectrum(rfftAbs)
    ensures r.Ok? <==> FrontEnd(waveform, o, p, gauss).Ok?
    ensures r.Ok? ==> (r.value.TooShort? <==> FrontEnd(waveform, o, p, gauss).value.Short?)
    ensures r.Ok? && r.value.Frames? ==>
      var front := FrontEnd(waveform, o, p, gauss).value;
      r.value.x == SpectrogramFeatures(front.window.frames, front.window.logEnergy, front.props.paddedWindowSize,
                                       subtractMean, p, rfftAbs)
  {
    var front := FrontEnd(waveform, o, p, gauss);
    if front.Err? then Err(front.message)
    else if front.value.Short? then Ok(TooShort)
    else
      var w := front.value.window;
      Ok(Frames(SpectrogramFeatures(w.frames, w.logEnergy, front.value.props.paddedWindowSize, subtractMean, p, rfftAbs)))
  }

  /** `spectrogram`. */
  method Spectrogram(waveform: Matrix, o: FrameOptions, subtractMean: bool, p: Primitives,
                     gauss: (nat, nat) -> real, rfftAbs: seq<real> -> seq<real>)
    returns (r: Result<Features>)
    requires IsHalfSpectrum(rfftAbs)
    ensures r == SpectrogramOf(waveform, o, subtractMean, p, gauss, rfftAbs)
  {
    var front := FrontEnd(waveform, o, p, gauss);
    if front.Err? {
      return Err(front.message);
    }
    if front.value.Short? {
      return Ok(TooShort);
    }
    var w := front.value.window;
    var x := SpectrogramFrames(w.frames, w.logEnergy, front.value.props.paddedWindowSize, subtractMean, p, rfftAbs);
    return Ok(Frames(x));
  }

  /** One frame's `rfft(x).abs()`, squared with `use_power`. */
  function SpectrumRow(a: seq<real>, usePower: bool): (r: seq<real>)
    ensures |r| == |a|
    ensures forall k :: 0 <= k < |a| ==> r[k] == if usePower then a[k] * a[k] else a[k]
  {
    if usePower then seq(|a|, k requires 0 <= k < |a| => a[k] * a[k]) else a
  }

  /** `pad(mel_energies, (0, 1))`: every filter gets a zero weight for the Nyquist bin. */
  function PadNyquist(bank: Matrix): (r: Matrix)
    ensures |r| == |bank| && forall b :: 0 <= b < |bank| ==> r[b] == bank[b] + [0.0]
  {
    seq(|bank|, b requires 0 <= b < |bank| => bank[b] + [0.0])
  }

  /** A zero weight at the end drops the last entry from the dot product. */
  lemma {:induction false} DotWithTrailingZero(s: seq<real>, row: seq<real>)
    requires |s| == |row| + 1
    ensures Dot(s, row + [0.0]) == Dot(s[..|row|], row)
  {
    if |row| > 0 {
      assert (row + [0.0])[1..] == row[1..] + [0.0];
      assert s[..|row|][1..] == s[1..][..|row| - 1];
      DotWithTrailingZero(s[1..], row[1..]);
    }
  }

  /** `max(x, eps).log()` with `use_log_fbank`. */
  function Compress(useLog: bool, e: real, p: Primitives): real {
    if useLog then p.log(Max(e, p.epsilon)) else e
  }

  /** One row of `spectrum @ pad(bank).T`, log-compressed on request: the Nyquist bin
      takes no part, so filter `b` weights exactly the bins below Nyquist. */
  function MelRow(spectrum: seq<real>, bank: Matrix, useLog: bool, p: Primitives): (r: seq<real>)
    requires |spectrum| >= 1 && IsMatrix(bank, |bank|, |spectrum| - 1)
    ensures |r| == |bank|
    ensures forall b :: 0 <= b < |bank| ==> r[b] == Compress(useLog, Dot(spectrum[..|spectrum| - 1], bank[b]), p)
  {
    var padded := PadNyquist(bank);
    var r := seq(|bank|, b requires 0 <= b < |bank| => Compress(useLog, Dot(spectrum, padded[b]), p));
    assert forall b :: 0 <= b < |bank| ==> r[b] == Compress(useLog, Dot(spectrum[..|spectrum| - 1], bank[b]), p) by {
      forall b | 0 <= b < |bank| ensures Dot(spectrum, padded[b]) == Dot(spectrum[..|spectrum| - 1], bank[b]) {
        DotWithTrailingZero(spectrum, bank[b]);
      }
    }
    r
  }

  /** The mel row of every frame. */
  function MelRows(frames: Matrix, bank: Matrix, mo: MelOptions, p: Primitives,
                   rfftAbs: seq<real> -> seq<real>, padded: nat): (r: Matrix)
    requires IsHalfSpectrum(rfftAbs)
    requires IsMatrix(frames, |frames|, padded) && IsMatrix(bank, |bank|, padded / 2)
    ensures IsMatrix(r, |frames|, |bank|)
    ensures forall i :: 0 <= i < |frames| ==>
      r[i] == MelRow(SpectrumRow(rfftAbs(frames[i]), mo.usePower), bank, mo.useLogFbank, p)
  {
    seq(|frames|, i requires 0 <= i < |frames| =>
      MelRow(SpectrumRow(rfftAbs(frames[i]), mo.usePower), bank, mo.useLogFbank, p))
  }

  /** The number of energy columns `fbank` adds. */
  function EnergyWidth(useEnergy: bool): nat {
    if useEnergy then 1 else 0
  }

  /** The fbank features before the column means: per frame the mel row of its spectrum,
      with the log energy attached as an extra column when `use_energy`. */
  function FbankColumns(frames: Matrix, logEnergy: seq<real>, bank: Matrix, mo: MelOptions, p: Primitives,
                        rfftAbs: seq<real> -> seq<real>, padded: nat): (r: Matrix)
    requires IsHalfSpectrum(rfftAbs)
    requires IsMatrix(frames, |logEnergy|, padded) && IsMatrix(bank, |bank|, padded / 2)
    ensures IsMatrix(r, |frames|, |bank| + EnergyWidth(mo.useEnergy))
    ensures !mo.useEnergy ==> forall i :: 0 <= i < |frames| ==>
      r[i] == MelRow(SpectrumRow(rfftAbs(frames[i]), mo.usePower), bank, mo.useLogFbank, p)
    ensures mo.useEnergy ==> forall i :: 0 <= i < |frames| ==>
      r[i] == AttachEnergyRow(MelRow(SpectrumRow(rfftAbs(frames[i]), mo.usePower), bank, mo.useLogFbank, p),
                              logEnergy[i], mo.htkCompat)
    ensures mo.useEnergy ==> forall i :: 0 <= i < |frames| ==>
      r[i][EnergyColumn(|bank|, mo.htkCompat)] == logEnergy[i]
  {
    var mel := MelRows(frames, bank, mo, p, rfftAbs, padded);
    if mo.useEnergy then AttachEnergy(mel, |bank|, logEnergy, mo.htkCompat) else mel
  }

  /** The fbank features of the frames: `FbankColumns`, column-mean normalised on request. */
  function FbankFeatures(frames: Matrix, logEnergy: seq<real>, bank: Matrix, mo: MelOptions, subtractMean: bool,
                         p: Primitives, rfftAbs: seq<real> -> seq<real>, padded: nat): (x: Matrix)
    requires IsHalfSpectrum(rfftAbs)
    requires IsMatrix(frames, |logEnergy|, padded) && IsMatrix(bank, |bank|, padded / 2)
    ensures IsMatrix(x, |frames|, |bank| + EnergyWidth(mo.useEnergy))
    ensures !subtractMean ==> x == FbankColumns(frames, logEnergy, bank, mo, p, rfftAbs, padded)
    ensures subtractMean && |frames| > 0 ==> forall j :: 0 <= j < |bank| + EnergyWidth(mo.useEnergy) ==>
      Sum(Column(x, j)) == 0.0
  {
    SubtractColumnMean(FbankColumns(frames, logEnergy, bank, mo, p, rfftAbs, padded),
                       |bank| + EnergyWidth(mo.useEnergy), subtractMean)
  }

  /** `fbank`: the front end's errors, the mel-bank errors (for a signal that is not too
      short), the empty result for a short signal, and otherwise the fbank features of the
      windowed frames under the bank `get_mel_banks` builds. */
  function FbankOf(waveform: Matrix, o: FrameOptions, mo: MelOptions, subtractMean: bool, p: Primitives,
                   gauss: (nat, nat) -> real, rfftAbs: seq<real> -> seq<real>): (r: Result<Features>)
    requires IsHalfSpectrum(rfftAbs)
    ensures r.Ok? <==>
      && FrontEnd(waveform, o, p, gauss).Ok?
      && (|| FrontEnd(waveform, o, p, gauss).value.Short?
          || MelBanksDefined(mo.numMelBins, FrontEnd(waveform, o, p, gauss).value.props.paddedWindowSize,
                             o.sampleFrequency, mo.lowFreq, mo.highFreq, mo.vtlnLow, mo.vtlnHigh, mo.vtlnWarp))
    ensures r.Ok? ==> (r.value.TooShort? <==> FrontEnd(waveform, o, p, gauss).value.Short?)
    ensures r.Ok? && r.value.Frames? ==>
      var front := FrontEnd(waveform, o, p, gauss).value;
      && mo.numMelBins > 3
      && r.value.x == FbankFeatures(front.window.frames, front.window.logEnergy,
                                    MelBankMatrix(p, o.sampleFrequency, mo.lowFreq, mo.highFreq, mo.numMelBins,
                                                  mo.vtlnLow, mo.vtlnHigh, mo.vtlnWarp, front.props.paddedWindowSize),
                                    mo, subtractMean, p, rfftAbs, front.props.paddedWindowSize)
    ensures r.Ok? && r.value.Frames? ==>
      IsMatrix(r.value.x, |FrontEnd(waveform, o, p, gauss).value.window.frames|, mo.numMelBins + EnergyWidth(mo.useEnergy))
    ensures r.Ok? && r.value.Frames? && mo.useEnergy && !subtractMean ==> forall i :: 0 <= i < |r.value.x| ==>
      r.value.x[i][EnergyColumn(mo.numMelBins, mo.htkCompat)] == FrontEnd(waveform, o, p, gauss).value.window.logEnergy[i]
  {
    var front := FrontEnd(waveform, o, p, gauss);
    if front.Err? then Err(front.message)
    else if front.value.Short? then Ok(TooShort)
    else
      var props, window := front.value.props, front.value.window;
      var checked := CheckMelBankOptions(mo.numMelBins, props.paddedWindowSize, o.sampleFrequency, mo.lowFreq,
                                         mo.highFreq, mo.vtlnLow, mo.vtlnHigh, mo.vtlnWarp);
      if checked.Err? then Err(checked.message)
      else
        var bank := MelBankMatrix(p, o.sampleFrequency, mo.lowFreq, mo.highFreq, mo.numMelBins, mo.vtlnLow,
                                  mo.vtlnHigh, mo.vtlnWarp, props.paddedWindowSize);
        Ok(Frames(FbankFeatures(window.frames, window.logEnergy, bank, mo, subtractMean, p, rfftAbs,
                                props.paddedWindowSize)))
  }

  /** `fbank`, building the filter bank with `get_mel_banks`. */
  method Fbank(waveform: Matrix, o: FrameOptions, mo: MelOptions, subtractMean: bool, p: Primitives,
               gauss: (nat, nat) -> real, rfftAbs: seq<real> -> seq<real>)
    returns (r: Result<Features>)
    requires IsHalfSpectrum(rfftAbs) && LogIncreasing(p.log)
    ensures r == FbankOf(waveform, o, mo, subtractMean, p, gauss, rfftAbs)
  {
    var front := FrontEnd(waveform, o, p, gauss);
    if front.Err? {
      return Err(front.message);
    }
    if front.value.Short? {
      return Ok(TooShort);
    }
    var props, window := front.value.props, front.value.window;
    var banks := GetMelBanks(mo.numMelBins, props.paddedWindowSize, o.sampleFrequency, mo.lowFreq, mo.highFreq,
                             mo.vtlnLow, mo.vtlnHigh, mo.vtlnWarp, p);
    if banks.Err? {
      return Err(banks.message);
    }
    var x := FbankFeatures(window.frames, window.logEnergy, banks.value.bins, mo, subtractMean, p, rfftAbs,
                           props.paddedWindowSize);
    return Ok(Frames(x));
  }

  /** `x @ y` for an (m, inner) and an (inner, cols) matrix. */
  function MatMul(x: Matrix, y: Matrix, inner: nat, cols: nat): (r: Matrix)
    requires IsMatrix(x, |x|, inner) && IsMatrix(y, inner, cols)
    ensures IsMatrix(r, |x|, cols)
    ensures forall i, j :: 0 <= i < |x| && 0 <= j < cols ==> r[i][j] == Dot(x[i], Column(y, j))
  {
    seq(|x|, i requires 0 <= i < |x| => seq(cols, j requires 0 <= j < cols => Dot(x[i], Column(y, j))))
  }

  /** A column of constant weight `c` makes the product's entry `c` times the row sum: with
      the DCT's first column, the zeroth cepstrum is sqrt(1 / num_mel_bins) times the sum
      of the log mel energies. */
  lemma ProductWithConstantColumn(x: Matrix, y: Matrix, inner: nat, cols: nat, j: nat, c: real, i: nat)
    requires IsMatrix(x, |x|, inner) && IsMatrix(y, inner, cols) && i < |x| && j < cols
    requires forall k :: 0 <= k < inner ==> y[k][j] == c
    ensures MatMul(x, y, inner, cols)[i][j] == c * Sum(x[i])
  {
    DotConstant(x[i], Column(y, j), c);
  }

  /** The number of columns `[:, :num_ceps]` keeps of `n`. */
  function Kept(numCeps: nat, n: nat): nat {
    if numCeps < n then numCeps else n
  }

  /** `_get_dct_matrix` on the basis `create_dct(n, n, 'ortho')` returns: column 0 set to
      sqrt(1 / num_mel_bins), the other columns kept, cut to the first `num_ceps` columns.
      The reciprocal of a zero bin count raises. */
  function DctMatrix(numCeps: nat, numMelBins: nat, basis: Matrix, p: Primitives): (r: Result<Matrix>)
    requires IsMatrix(basis, numMelBins, numMelBins)
    ensures r.Err? <==> numMelBins == 0
    ensures r.Ok? ==> IsMatrix(r.value, numMelBins, Kept(numCeps, numMelBins))
    ensures r.Ok? && numCeps > 0 ==> forall k :: 0 <= k < numMelBins ==>
      r.value[k][0] == p.sqrt(1.0 / (numMelBins as real))
    ensures r.Ok? ==> forall k, j :: 0 <= k < numMelBins && 1 <= j < Kept(numCeps, numMelBins) ==>
      r.value[k][j] == basis[k][j]
  {
    if numMelBins == 0 then Err(ReciprocalOfZero)
    else
      var withFirst := WithColumn(basis, 0, seq(numMelBins, k => p.sqrt(1.0 / (numMelBins as real))));
      Ok(seq(numMelBins, k requires 0 <= k < numMelBins => withFirst[k][..Kept(numCeps, numMelBins)]))
  }

  /** `_get_dct_matrix`, with the in-place write `dct_matrix[:, 0] = sqrt(1 / n)`. */
  method GetDctMatrix(numCeps: nat, numMelBins: nat, basis: Matrix, p: Primitives) returns (r: Result<Matrix>)
    requires IsMatrix(basis, numMelBins, numMelBins)
    ensures r == DctMatrix(numCeps, numMelBins, basis, p)
  {
    if numMelBins == 0 {
      return Err(ReciprocalOfZero);
    }
    var a := FromMatrix(basis, numMelBins, numMelBins);
    SetColumn(a, 0, seq(numMelBins, k => p.sqrt(1.0 / (numMelBins as real))));
    var d := ToMatrix(a);
    return Ok(seq(numMelBins, k requires 0 <= k < numMelBins => d[k][..Kept(numCeps, numMelBins)]));
  }

  /** `_get_lifter_coeffs`: `1 + L/2 * sin(pi * i / L)` for every cepstral index. */
  function LifterCoeffs(numCeps: nat, cepstralLifter: real, p: Primitives): (r: seq<real>)
    requires cepstralLifter != 0.0
    ensures |r| == numCeps
  {
    seq(numCeps, i => 1.0 + 0.5 * cepstralLifter * p.sinHalfTurns((i as real) / cepstralLifter))
  }

  function Magnitude(x: real): real { if x < 0.0 then -x else x }

  /** A sine value scaled by `h >= 0` stays within `[-h, h]`. */
  lemma ScaledSineBound(h: real, s: real)
    requires h >= 0.0 && -1.0 <= s <= 1.0
    ensures -h <= h * s <= h
  {
    assert h * (1.0 - s) >= 0.0;
    assert h * (1.0 + s) >= 0.0;
  }

  /** C0 is not liftered, and no coefficient moves more than `|L| / 2` from 1. */
  lemma LifterCoeffsBounds(numCeps: nat, cepstralLifter: real, p: Primitives, i: nat)
    requires cepstralLifter != 0.0 && i < numCeps
    requires p.sinHalfTurns(0.0) == 0.0
    requires -1.0 <= p.sinHalfTurns((i as real) / cepstralLifter) <= 1.0
    ensures i == 0 ==> LifterCoeffs(numCeps, cepstralLifter, p)[i] == 1.0
    ensures -0.5 * Magnitude(cepstralLifter) <= LifterCoeffs(numCeps, cepstralLifter, p)[i] - 1.0
    ensures LifterCoeffs(numCeps, cepstralLifter, p)[i] - 1.0 <= 0.5 * Magnitude(cepstralLifter)
  {
    var s := p.sinHalfTurns((i as real) / cepstralLifter);
    var h := 0.5 * Magnitude(cepstralLifter);
    var d := LifterCoeffs(numCeps, cepstralLifter, p)[i] - 1.0;
    assert d == 0.5 * cepstralLifter * s;
    if cepstralLifter > 0.0 {
      ScaledSineBound(h, s);
      assert d == h * s;
    } else {
      ScaledSineBound(h, -s);
      assert d == h * -s;
    }
  }

  /** The column the energy ends up in: the last with `htk_compat`, else the first. */
  function CepstralEnergyColumn(numCeps: nat, htkCompat: bool): nat
    requires numCeps > 0
  {
    if htkCompat then numCeps - 1 else 0
  }

  /** The tail of `mfcc` on the fbank features (m, num_mel_bins + use_energy): the energy
      split off, the DCT, the lifter, the energy written back into C0, the HTK layout and
      the column means. With `num_ceps == 0` the writes into column 0 raise. */
  function CepstraOf(feature: Matrix, numMelBins: nat, numCeps: nat, cepstralLifter: real, useEnergy: bool,
                     htkCompat: bool, subtractMean: bool, basis: Matrix, p: Primitives): (r: Result<Matrix>)
    requires 0 < numMelBins && numCeps <= numMelBins
    requires IsMatrix(feature, |feature|, numMelBins + EnergyWidth(useEnergy)) && IsMatrix(basis, numMelBins, numMelBins)
    ensures r.Ok? <==> numCeps > 0 || (!useEnergy && !htkCompat)
    ensures r.Ok? ==> IsMatrix(r.value, |feature|, numCeps)
    ensures r.Ok? && useEnergy && !subtractMean ==> forall i :: 0 <= i < |feature| ==>
      r.value[i][CepstralEnergyColumn(numCeps, htkCompat)] == feature[i][EnergyColumn(numMelBins, htkCompat)]
  {
    var split := if useEnergy then DetachEnergy(feature, numMelBins, htkCompat) else ([], feature);
    var dct := DctMatrix(numCeps, numMelBins, basis, p).value;
    var c := MatMul(split.1, dct, numMelBins, numCeps);
    var lifted := if cepstralLifter != 0.0 then ScaledColumns(c, LifterCoeffs(numCeps, cepstralLifter, p)) else c;
    if numCeps == 0 && (useEnergy || htkCompat) then Err(NoColumnZero)
    else
      var withEnergy := if useEnergy then WithColumn(lifted, 0, split.0) else lifted;
      var reordered := if htkCompat then HtkReorder(withEnergy, numCeps, useEnergy, p.sqrt(2.0)) else withEnergy;
      Ok(SubtractColumnMean(reordered, numCeps, subtractMean))
  }

  /** The tail of `mfcc`, with its in-place writes: `feature *= lifter_coeffs` and
      `feature[:, 0] = signal_log_energy`. */
  method Cepstra(feature: Matrix, numMelBins: nat, numCeps: nat, cepstralLifter: real, useEnergy: bool,
                 htkCompat: bool, subtractMean: bool, basis: Matrix, p: Primitives) returns (r: Result<Matrix>)
    requires 0 < numMelBins && numCeps <= numMelBins
    requires IsMatrix(feature, |feature|, numMelBins + EnergyWidth(useEnergy)) && IsMatrix(basis, numMelBins, numMelBins)
    ensures r == CepstraOf(feature, numMelBins, numCeps, cepstralLifter, useEnergy, htkCompat, subtractMean, basis, p)
  {
    var energy, mel := [], feature;
    if useEnergy {
      var split := DetachEnergy(feature, numMelBins, htkCompat);
      energy, mel := split.0, split.1;
    }
    var dct := GetDctMatrix(numCeps, numMelBins, basis, p);
    var c := MatMul(mel, dct.value, numMelBins, numCeps);
    var a := FromMatrix(c, |feature|, numCeps);
    if cepstralLifter != 0.0 {
      ScaleColumns(a, LifterCoeffs(numCeps, cepstralLifter, p));
    }
    if numCeps == 0 && (useEnergy || htkCompat) {
      return Err(NoColumnZero);
    }
    if useEnergy {
      SetColumn(a, 0, energy);
    }
    var x := ToMatrix(a);
    if htkCompat {
      x := HtkReorder(x, numCeps, useEnergy, p.sqrt(2.0));
    }
    return Ok(SubtractColumnMean(x, numCeps, subtractMean));
  }

  /** Without liftering or energy, the zeroth cepstrum is `sqrt(1 / num_mel_bins)` times the
      sum of the frame's log mel energies. */
  lemma CepstraC0IsScaledSum(feature: Matrix, numMelBins: nat, numCeps: nat, basis: Matrix, p: Primitives, i: nat)
    requires 0 < numCeps <= numMelBins && i < |feature|
    requires IsMatrix(feature, |feature|, numMelBins) && IsMatrix(basis, numMelBins, numMelBins)
    ensures CepstraOf(feature, numMelBins, numCeps, 0.0, false, false, false, basis, p).Ok?
    ensures CepstraOf(feature, numMelBins, numCeps, 0.0, false, false, false, basis, p).value[i][0]
      == p.sqrt(1.0 / (numMelBins as real)) * Sum(feature[i])
  {
    ProductC0(feature, numMelBins, numCeps, basis, p, i);
    PlainCepstra(feature, numMelBins, numCeps, false, basis, p);
  }

  /** With `htk_compat` (and no liftering or energy) that zeroth cepstrum moves to the last
      column, multiplied by `sqrt(2)`. */
  lemma HtkCepstraC0IsLast(feature: Matrix, numMelBins: nat, numCeps: nat, basis: Matrix, p: Primitives, i: nat)
    requires 0 < numCeps <= numMelBins && i < |feature|
    requires IsMatrix(feature, |feature|, numMelBins) && IsMatrix(basis, numMelBins, numMelBins)
    ensures CepstraOf(feature, numMelBins, numCeps, 0.0, false, true, false, basis, p).Ok?
    ensures CepstraOf(feature, numMelBins, numCeps, 0.0, false, true, false, basis, p).value[i][numCeps - 1]
      == p.sqrt(1.0 / (numMelBins as real)) * Sum(feature[i]) * p.sqrt(2.0)
  {
    HtkProductC0(feature, numMelBins, numCeps, basis, p, i);
    PlainCepstra(feature, numMelBins, numCeps, true, basis, p);
  }

  /** The HTK layout of the DCT product: its last column is column 0 times `sqrt(2)`. */
  lemma HtkProductC0(feature: Matrix, numMelBins: nat, numCeps: nat, basis: Matrix, p: Primitives, i: nat)
    requires 0 < numCeps <= numMelBins && i < |feature|
    requires IsMatrix(feature, |feature|, numMelBins) && IsMatrix(basis, numMelBins, numMelBins)
    ensures HtkReorder(MatMul(feature, DctMatrix(numCeps, numMelBins, basis, p).value, numMelBins, numCeps),
                       numCeps, false, p.sqrt(2.0))[i][numCeps - 1]
      == p.sqrt(1.0 / (numMelBins as real)) * Sum(feature[i]) * p.sqrt(2.0)
  {
    var c := MatMul(feature, DctMatrix(numCeps, numMelBins, basis, p).value, numMelBins, numCeps);
    ProductC0(feature, numMelBins, numCeps, basis, p, i);
    HtkReorderLast(c, numCeps, p.sqrt(2.0), i, p.sqrt(1.0 / (numMelBins as real)) * Sum(feature[i]));
  }

  /** Column 0 of the DCT product: the DCT basis's constant first column times the row sum. */
  lemma ProductC0(feature: Matrix, numMelBins: nat, numCeps: nat, basis: Matrix, p: Primitives, i: nat)
    requires 0 < numCeps <= numMelBins && i < |feature|
    requires IsMatrix(feature, |feature|, numMelBins) && IsMatrix(basis, numMelBins, numMelBins)
    ensures MatMul(feature, DctMatrix(numCeps, numMelBins, basis, p).value, numMelBins, numCeps)[i][0]
      == p.sqrt(1.0 / (numMelBins as real)) * Sum(feature[i])
  {
    ProductWithConstantColumn(feature, DctMatrix(numCeps, numMelBins, basis, p).value, numMelBins, numCeps, 0,
                              p.sqrt(1.0 / (numMelBins as real)), i);
  }

  /** Without energy, `HtkReorder` moves C0 to the last column and multiplies it by `sqrt2`. */
  lemma HtkReorderLast(c: Matrix, cols: nat, sqrt2: real, i: nat, c0: real)
    requires IsMatrix(c, |c|, cols) && cols >= 1 && i < |c| && c[i][0] == c0
    ensures HtkReorder(c, cols, false, sqrt2)[i][cols - 1] == c0 * sqrt2
  {
  }

  /** Without liftering, energy or mean subtraction the cepstra are the DCT product, in
      the HTK layout on request. */
  lemma PlainCepstra(feature: Matrix, numMelBins: nat, numCeps: nat, htkCompat: bool, basis: Matrix, p: Primitives)
    requires 0 < numCeps <= numMelBins
    requires IsMatrix(feature, |feature|, numMelBins) && IsMatrix(basis, numMelBins, numMelBins)
    ensures var c := MatMul(feature, DctMatrix(numCeps, numMelBins, basis, p).value, numMelBins, numCeps);
      CepstraOf(feature, numMelBins, numCeps, 0.0, false, htkCompat, false, basis, p)
        == Ok(if htkCompat then HtkReorder(c, numCeps, false, p.sqrt(2.0)) else c)
  {
  }

  /** The mel options `mfcc` passes to `fbank`: log mel energies of the power spectrum. */
  function MfccMelOptions(mo: MelOptions): (r: MelOptions)
    ensures r.numMelBins == mo.numMelBins && r.useEnergy == mo.useEnergy && r.htkCompat == mo.htkCompat
    ensures r.useLogFbank && r.usePower
  {
    mo.(useLogFbank := true, usePower := true)
  }

  /** The number of DCT columns `dct_matrix[:, :num_ceps]` keeps out of `num_mel_bins`:
      Python's slice keeps `num_ceps` of them for a non-negative `num_ceps`, and all but
      the last `-num_ceps` (none when that is every column) for a negative one. */
  function CepstralColumns(numCeps: int, numMelBins: nat): (c: nat)
    ensures c <= numMelBins
    ensures 0 <= numCeps <= numMelBins ==> c == numCeps
    ensures numCeps < 0 ==> c == if numMelBins + numCeps > 0 then numMelBins + numCeps else 0
  {
    if numCeps >= 0 then Kept(numCeps, numMelBins)
    else if numMelBins + numCeps > 0 then numMelBins + numCeps
    else 0
  }

  /** The part of `mfcc` after `fbank`: the `num_ceps` assertion first, then the errors of
      `fbank`, the empty result for a short signal, `torch.arange` of a negative `num_ceps`
      when liftering, and otherwise one cepstrum per kept DCT column for every frame of the
      fbank features `fb`, with the frame's log energy in C0 (or last, with `htk_compat`)
      when `use_energy`. A negative `num_ceps` passes the assertion and slices columns off
      the end of the DCT matrix. */
  function MfccOfFbank(fb: Result<Features>, mo: MelOptions, numCeps: int, cepstralLifter: real,
                       subtractMean: bool, basis: Matrix, p: Primitives): (r: Result<Features>)
    requires fb.Ok? && fb.value.Frames? ==>
      mo.numMelBins > 3 && IsMatrix(fb.value.x, |fb.value.x|, mo.numMelBins + EnergyWidth(mo.useEnergy))
    requires mo.numMelBins >= 0 ==> IsMatrix(basis, mo.numMelBins, mo.numMelBins)
    ensures r.Ok? <==>
      && numCeps <= mo.numMelBins
      && fb.Ok?
      && (|| fb.value.TooShort?
          || (&& (numCeps >= 0 || cepstralLifter == 0.0)
              && (CepstralColumns(numCeps, mo.numMelBins) > 0 || (!mo.useEnergy && !mo.htkCompat))))
    ensures numCeps < 0 && cepstralLifter != 0.0 && fb.Ok? && fb.value.Frames? ==> r == Err(NegativeRange)
    ensures r.Ok? ==> (r.value.TooShort? <==> fb.value.TooShort?)
    ensures r.Ok? && r.value.Frames? ==> IsMatrix(r.value.x, |fb.value.x|, CepstralColumns(numCeps, mo.numMelBins))
    ensures r.Ok? && r.value.Frames? && mo.useEnergy && !subtractMean ==>
      forall i :: 0 <= i < |r.value.x| ==>
        r.value.x[i][CepstralEnergyColumn(CepstralColumns(numCeps, mo.numMelBins), mo.htkCompat)]
          == fb.value.x[i][EnergyColumn(mo.numMelBins, mo.htkCompat)]
  {
    if numCeps > mo.numMelBins then Err(NumCepsTooLarge)
    else if fb.Err? then Err(fb.message)
    else if fb.value.TooShort? then Ok(TooShort)
    else
      var c := CepstraOfFbank(fb.value.x, mo, numCeps, cepstralLifter, subtractMean, basis, p);
      if c.Err? then Err(c.message) else Ok(Frames(c.value))
  }

  /** The cepstra of fbank features `x` for an integer `num_ceps` that passed the
      assertion: `torch.arange(num_ceps)` raises for a negative count when liftering;
      otherwise the cepstra of the DCT columns that `[:, :num_ceps]` keeps. */
  function CepstraOfFbank(x: Matrix, mo: MelOptions, numCeps: int, cepstralLifter: real, subtractMean: bool,
                          basis: Matrix, p: Primitives): (r: Result<Matrix>)
    requires mo.numMelBins > 3 && numCeps <= mo.numMelBins
    requires IsMatrix(x, |x|, mo.numMelBins + EnergyWidth(mo.useEnergy)) && IsMatrix(basis, mo.numMelBins, mo.numMelBins)
    ensures r.Ok? <==>
      && (numCeps >= 0 || cepstralLifter == 0.0)
      && (CepstralColumns(numCeps, mo.numMelBins) > 0 || (!mo.useEnergy && !mo.htkCompat))
    ensures numCeps < 0 && cepstralLifter != 0.0 ==> r == Err(NegativeRange)
    ensures r.Ok? ==> IsMatrix(r.value, |x|, CepstralColumns(numCeps, mo.numMelBins))
    ensures r.Ok? && mo.useEnergy && !subtractMean ==> forall i :: 0 <= i < |r.value| ==>
      r.value[i][CepstralEnergyColumn(CepstralColumns(numCeps, mo.numMelBins), mo.htkCompat)]
        == x[i][EnergyColumn(mo.numMelBins, mo.htkCompat)]
  {
    if numCeps < 0 && cepstralLifter != 0.0 then Err(NegativeRange)
    else
      CepstraOf(x, mo.numMelBins, CepstralColumns(numCeps, mo.numMelBins), cepstralLifter, mo.useEnergy,
                mo.htkCompat, subtractMean, basis, p)
  }

  /** `CepstraOfFbank`, computed with the in-place lifter and energy writes. */
  method CepstraFromFbank(x: Matrix, mo: MelOptions, numCeps: int, cepstralLifter: real, subtractMean: bool,
                          basis: Matrix, p: Primitives) returns (r: Result<Matrix>)
    requires mo.numMelBins > 3 && numCeps <= mo.numMelBins
    requires IsMatrix(x, |x|, mo.numMelBins + EnergyWidth(mo.useEnergy)) && IsMatrix(basis, mo.numMelBins, mo.numMelBins)
    ensures r == CepstraOfFbank(x, mo, numCeps, cepstralLifter, subtractMean, basis, p)
  {
    if numCeps < 0 && cepstralLifter != 0.0 {
      return Err(NegativeRange);
    }
    r := Cepstra(x, mo.numMelBins, CepstralColumns(numCeps, mo.numMelBins), cepstralLifter, mo.useEnergy,
                 mo.htkCompat, subtractMean, basis, p);
  }

  /** `mfcc`: `fbank` with log power mel energies, then the cepstra of its result. */
  function MfccOf(waveform: Matrix, o: FrameOptions, mo: MelOptions, numCeps: int, cepstralLifter: real,
                  subtractMean: bool, basis: Matrix, p: Primitives, gauss: (nat, nat) -> real,
                  rfftAbs: seq<real> -> seq<real>): (r: Result<Features>)
    requires IsHalfSpectrum(rfftAbs)
    requires mo.numMelBins >= 0 ==> IsMatrix(basis, mo.numMelBins, mo.numMelBins)
    ensures r.Ok? ==> FrontEnd(waveform, o, p, gauss).Ok? && (r.value.TooShort? <==> FrontEnd(waveform, o, p, gauss).value.Short?)
  {
    MfccOfFbank(FbankOf(waveform, o, MfccMelOptions(mo), false, p, gauss, rfftAbs), mo, numCeps, cepstralLifter,
                subtractMean, basis, p)
  }

  /** A negative `num_ceps` passes `mfcc`'s assertion: with 23 mel bins and `num_ceps = -1`
      the default lifter makes `torch.arange(-1)` raise, and without a lifter the slice
      keeps 22 DCT columns, so every frame gets 22 cepstra. */
  lemma MfccNegativeNumCeps(fb: Result<Features>, mo: MelOptions, subtractMean: bool, basis: Matrix, p: Primitives)
    requires fb.Ok? && fb.value.Frames? && mo.numMelBins == 23 && !mo.useEnergy && !mo.htkCompat
    requires IsMatrix(fb.value.x, |fb.value.x|, 23) && IsMatrix(basis, 23, 23)
    ensures MfccOfFbank(fb, mo, -1, 22.0, subtractMean, basis, p) == Err(NegativeRange)
    ensures var r := MfccOfFbank(fb, mo, -1, 0.0, subtractMean, basis, p);
      r.Ok? && r.value.Frames? && IsMatrix(r.value.x, |fb.value.x|, 22)
  {
  }

  /** `mfcc`. */
  method Mfcc(waveform: Matrix, o: FrameOptions, mo: MelOptions, numCeps: int, cepstralLifter: real,
              subtractMean: bool, basis: Matrix, p: Primitives, gauss: (nat, nat) -> real,
              rfftAbs: seq<real> -> seq<real>)
    returns (r: Result<Features>)
    requires IsHalfSpectrum(rfftAbs) && LogIncreasing(p.log)
    requires mo.numMelBins >= 0 ==> IsMatrix(basis, mo.numMelBins, mo.numMelBins)
    ensures r == MfccOf(waveform, o, mo, numCeps, cepstralLifter, subtractMean, basis, p, gauss, rfftAbs)
  {
    if numCeps > mo.numMelBins {
      return Err(NumCepsTooLarge);
    }
    var fb := Fbank(waveform, o, MfccMelOptions(mo), false, p, gauss, rfftAbs);
    if fb.Err? {
      return Err(fb.message);
    }
    if fb.value.TooShort? {
      return Ok(TooShort);
    }
    var c := CepstraFromFbank(fb.value.x, mo, numCeps, cepstralLifter, subtractMean, basis, p);
    if c.Err? {
      return Err(c.message);
    }
    return Ok(Frames(c.value));
  }

  /** `mfcc`'s tail as written, on `fbank`'s result: on the one-dimensional
      `torch.empty(0)` that `fbank` hands back for a signal shorter than `min_duration`,
      the tail indexes it as a matrix (`feature[:, ...]` with `use_energy`), takes the
      reciprocal of the bin count, or multiplies the length-0 vector by the
      (num_mel_bins, num_ceps) DCT matrix, and raises; on every other result it agrees
      with the corrected `MfccOfFbank`. */
  function MfccOfFbankAsWritten(fb: Result<Features>, mo: MelOptions, numCeps: int, cepstralLifter: real,
                                subtractMean: bool, basis: Matrix, p: Primitives): (r: Result<Features>)
    requires fb.Ok? && fb.value.Frames? ==>
      mo.numMelBins > 3 && IsMatrix(fb.value.x, |fb.value.x|, mo.numMelBins + EnergyWidth(mo.useEnergy))
    requires mo.numMelBins >= 0 ==> IsMatrix(basis, mo.numMelBins, mo.numMelBins)
    ensures fb == Ok(TooShort) ==> r.Err?
    ensures fb != Ok(TooShort) ==> r == MfccOfFbank(fb, mo, numCeps, cepstralLifter, subtractMean, basis, p)
  {
    if numCeps > mo.numMelBins then Err(NumCepsTooLarge)
    else if fb == Ok(TooShort) then
      if mo.useEnergy then Err(TooManyIndices)
      else if mo.numMelBins == 0 then Err(ReciprocalOfZero)
      else Err(ShapesMismatch)
    else MfccOfFbank(fb, mo, numCeps, cepstralLifter, subtractMean, basis, p)
  }

  /** The discrepancy: on a signal shorter than `min_duration`, whatever the options,
      `fbank` returns the empty result, `mfcc` as written raises on it, and the corrected
      `MfccOf` returns the empty result as `spectrogram` and `fbank` do. */
  lemma MfccShortInputDiffers(waveform: Matrix, o: FrameOptions, mo: MelOptions, numCeps: int,
                              cepstralLifter: real, subtractMean: bool, basis: Matrix, p: Primitives,
                              gauss: (nat, nat) -> real, rfftAbs: seq<real> -> seq<real>)
    requires IsHalfSpectrum(rfftAbs) && numCeps <= mo.numMelBins
    requires mo.numMelBins >= 0 ==> IsMatrix(basis, mo.numMelBins, mo.numMelBins)
    requires Props(waveform, o).Ok? && IsShort(Props(waveform, o).value.waveform, o)
    ensures var fb := FbankOf(waveform, o, MfccMelOptions(mo), false, p, gauss, rfftAbs);
      && fb == Ok(TooShort)
      && MfccOfFbankAsWritten(fb, mo, numCeps, cepstralLifter, subtractMean, basis, p).Err?
      && MfccOf(waveform, o, mo, numCeps, cepstralLifter, subtractMean, basis, p, gauss, rfftAbs) == Ok(TooShort)
  {
  }
}

# Kaldi-compatible feature front end and sinc resampler, in Dafny

This project models `torchaudio/compliance/kaldi.py`, a re-implementation of Kaldi's
feature front end (`spectrogram`, `fbank`, `mfcc`) and of Kaldi's windowed-sinc resampler
(`resample_waveform`). It states and proves the exact behaviour underneath the tensor calls:

- the integer frame arithmetic under both edge policies;
- the asymmetric mirror padding used when `snip_edges` is false;
- the per-frame conditioning steps and the log energy;
- the piecewise-linear VTLN warp, computed as four ordered masked overwrites;
- the triangular mel filter bank;
- the column layouts of the three extractors;
- the bookkeeping of the resampler: GCD reduction, kernel shape, padding, strided
  convolution, phase interleaving and truncation.

All signal values are Dafny `real`s, so arithmetic is exact. The logarithm, the exponential,
the square root, the sine and cosine, `x ** 0.85`, π and the machine epsilon are fields of
a `Primitives` value and are otherwise uninterpreted. Where a lemma needs more, it assumes
only that the logarithm is strictly increasing on the positive reals (`LogIncreasing`). The
real FFT is a function parameter `rfftAbs`. Its one assumed property is that a frame of
length L gives L/2 + 1 bins (`IsHalfSpectrum`). The Gaussian dither noise is a parameter
`gauss(i, j)`. The orthonormal DCT-II basis is an input matrix.

Modules, one file each:

- `common.dfy` (`Common`): the result type, matrices, sums, dot products and the
  primitives.
- `framing.dfy` (`Framing`): `_next_power_of_2`, `_get_waveform_and_window_properties` and
  `_get_strided`.
- `windowing.dfy` (`Windowing`): `_feature_window_function`, `_get_log_energy` and
  `_get_window`.
- `columns.dfy` (`Columns`): in-place column writes on `array2`, `_subtract_column_mean`,
  and the energy and HTK column layouts.
- `melscale.dfy` (`MelScales`): the mel scale and its inverse.
- `vtln.dfy` (`Vtln`): `vtln_warp_freq` and `vtln_warp_mel_freq`.
- `melbanks.dfy` (`MelBanks`): `get_mel_banks`.
- `features.dfy` (`Features`): `spectrogram`, `fbank`, `mfcc`, `_get_dct_matrix` and
  `_get_lifter_coeffs`.
- `resample.dfy` (`Resample`): `_get_sinc_resample_kernel` and `resample_waveform`.

Python assertions, arithmetic errors, `torch.arange` of a negative count, and the two shape
errors torch raises on an empty tensor (pre-emphasis of no frames, the resampler's reshape
of no channels) become `Err` values, checked in the order the source meets them. Integer
options the source does not check for sign, such as `num_ceps`, are Dafny `int`s. A signal
shorter than `min_duration` yields the distinct `TooShort` value, not a matrix. Code that updates tensors step by step is written as methods over
arrays, each proved equal to a pure specification function. This covers the four masked
overwrites of the VTLN warp, the two masked writes into the zeroed mel-bank matrix, the
loop that builds the resampling kernel, and the column overwrites and lifter scaling.

The model follows the code as written, also where the code departs from its own doc
comments, with one exception. On a signal shorter than `min_duration`, `mfcc` as written raises, and
`Features.MfccOf` and `Features.Mfcc` instead return the evidently intended empty result.
The code as written is `Features.MfccOfFbankAsWritten` (see "## Findings"). Otherwise:

- `channel` is clamped with `max(channel, 0)`. So `-1` selects channel 0 even when two
  channels are present; the code does not require a mono signal.
- `_next_power_of_2` is documented as "greater than", but it maps a power of two to itself
  (`NextPowerOf2OfPowerOfTwo`).
- `resample_waveform` with equal rates is not the identity. The rates reduce to 1/1
  (`ReducedRatesEqual`), but the kernel still applies the 0.99 low-pass windowed sinc.
- `vtln_warp_freq`'s doc comment promises `F(high_freq) == high_freq`. That holds only
  while the lower inflection point `l = vtln_low * max(1, warp)` does not exceed
  `high_freq` (`VtlnWarpFixesHighFreq`). `VtlnWarpHighFreqCounterexample` gives a case
  that the assertions accept but where it fails.
- `get_mel_banks` says "at least 3 mel bins" but asserts `num_bins > 3`. The model uses
  `> 3`.

## Model

| member | source | states |
|---|---|---|
| `Framing.NextPowerOf2` | torchaudio/compliance/kaldi.py:43-46 | the result is a power of two; it is 1 for x = 0; for x ≥ 1 it satisfies x ≤ r < 2x; for x ≥ 2 it is even |
| `Framing.NextPowerOf2OfPowerOfTwo` | torchaudio/compliance/kaldi.py:43-46 | a power of two maps to itself, contrary to the doc comment's "greater than" |
| `Framing.GetWaveformAndWindowProperties` | torchaudio/compliance/kaldi.py:131-155 | succeeds exactly when channel `max(channel, 0)` exists, 2 ≤ window_size ≤ its length, the shift is positive, the padded size is even, 0 ≤ preemphasis ≤ 1 and the sample frequency is positive; on success it returns that channel, and the padded size is even, at least the window size, and a power of two below twice the window size when rounding, else equal to it |
| `Framing.NumFramesSnipEdges` | torchaudio/compliance/kaldi.py:68-72 | with `snip_edges` there are no frames iff n < window_size; otherwise the last frame ends inside the signal and one more frame would not fit |
| `Framing.NumFramesNoSnip` | torchaudio/compliance/kaldi.py:75 | without `snip_edges`, m·shift ≤ n + shift/2 < (m+1)·shift: n/shift rounded to the nearest integer |
| `Framing.NumFramesExample` | torchaudio/compliance/kaldi.py:72 | 16000 samples with window 400 and shift 160 give 98 frames |
| `Framing.MirrorPaddedAt` | torchaudio/compliance/kaldi.py:74-85 | the padded signal has length 2n + pad, and sample k is the waveform reflected about its outer edges (…1,0 ǀ 0,1,…,n−1 ǀ n−1,…) at k − pad, for pad > 0 and for pad ≤ 0 |
| `Framing.FrameInside` | torchaudio/compliance/kaldi.py:68-88 | every frame lies inside the signal (`snip_edges`) or inside the reflected signal, within one signal length of each end |
| `Framing.NoSnipFramesFit` | torchaudio/compliance/kaldi.py:73-88 | without `snip_edges`, when there is a frame, the pad is within ±n and the last frame ends inside the padded signal |
| `Framing.StridedFits` | torchaudio/compliance/kaldi.py:87-88 | the strided view of shape (m, window_size) fits inside the signal it is taken from |
| `Framing.FrameIsKaldiFrame` | torchaudio/compliance/kaldi.py:74-88 | row i of the strided view equals Kaldi's frame i: the window_size samples from i·shift (minus the pad offset), read through the reflection |
| `Framing.Strided` | torchaudio/compliance/kaldi.py:49-88 | `_get_strided` gives an (m, window_size) matrix, m from the edge policy, whose row i is Kaldi's frame i |
| `Framing.Reverse` | torchaudio/compliance/kaldi.py:74 | `flip`: same length, entry k is entry n−1−k |
| `Framing.MirrorPadded` | torchaudio/compliance/kaldi.py:76-85 | for \|pad\| ≤ n the padded signal has 2n + pad samples |
| `Windowing.ParseWindowType` | torchaudio/compliance/kaldi.py:99-115 | a name is accepted exactly when it is one of the five window names; any other name raises |
| `Windowing.FeatureWindowFunction` | torchaudio/compliance/kaldi.py:91-115 | fails exactly for an unknown name or a one-sample Blackman window; has window_size entries; rectangular is all ones; povey is the Hann window raised to 0.85 |
| `Windowing.HannWindow` | torchaudio/compliance/kaldi.py:100 | the symmetric Hann window has n entries |
| `Windowing.HammingWindow` | torchaudio/compliance/kaldi.py:102 | the symmetric Hamming window has n entries |
| `Windowing.BlackmanWindow` | torchaudio/compliance/kaldi.py:108-113 | the generalised Blackman window is defined for every size except 1, where 2π/(N−1) divides by zero, and then has n entries |
| `Windowing.Dither` | torchaudio/compliance/kaldi.py:181-185 | every sample gets `noise(i, j) · dither` added; the shape is unchanged |
| `Windowing.CenterRow` | torchaudio/compliance/kaldi.py:187-190 | each sample loses the frame mean, and a non-empty frame then sums to zero |
| `Windowing.RemoveDcOffset` | torchaudio/compliance/kaldi.py:187-190 | frame i is frame i of the input minus its own mean, and then sums to zero; the shape is unchanged |
| `Windowing.PreemphasizeRow` | torchaudio/compliance/kaldi.py:197-201 | out[j] = x[j] − c·x[max(0, j−1)], so out[0] = (1−c)·x[0]; the length is unchanged |
| `Windowing.Preemphasize` | torchaudio/compliance/kaldi.py:197-201 | every frame is pre-emphasised (skipping c = 0 changes nothing); the shape is unchanged |
| `Windowing.ApplyWindow` | torchaudio/compliance/kaldi.py:203-206 | every frame is multiplied sample by sample with the window |
| `Windowing.PadRow` | torchaudio/compliance/kaldi.py:208-212 | the first `size` entries are unchanged, exactly padded − size zeros follow, and the energy is unchanged |
| `Windowing.PadRows` | torchaudio/compliance/kaldi.py:208-212 | every frame is right-padded with zeros to the padded length, keeping its prefix and its energy |
| `Windowing.LogEnergy` | torchaudio/compliance/kaldi.py:118-128 | raises exactly for a negative floor (`math.log`); with floor 0 it is exactly log(max(Σx², eps)); with a positive floor it is exactly the larger of that and log(floor) (at least both, and equal to one of them) |
| `Windowing.LogEnergyAboveEpsilon` | torchaudio/compliance/kaldi.py:124 | for an increasing logarithm, every log energy is at least log(eps) |
| `Windowing.ExtractFrames` | torchaudio/compliance/kaldi.py:179-190 | (m, window_size) frames, m from the edge policy; frame i is Kaldi's frame i plus gauss(i, j)·dither at sample j, centred on its mean when `remove_dc_offset`; with DC removal every frame sums to zero; without dither or DC removal frame i is Kaldi's frame i |
| `Windowing.DitheredFrame` | torchaudio/compliance/kaldi.py:179-185 | window_size samples; sample j is sample j of Kaldi's frame i plus gauss(i, j)·dither |
| `Windowing.ShapeFrames` | torchaudio/compliance/kaldi.py:197-212 | after pre-emphasis, the window and the padding the frames are (m, padded) and every padding column is zero |
| `Windowing.FinishWindow` | torchaudio/compliance/kaldi.py:192-218 | after extraction: the raw log energy of the extracted frames with `raw_energy`, then pre-emphasis, window and padding (`ShapeFrames`), else the log energy of those final frames; fails exactly for a negative floor, pre-emphasis of no frames or an unknown window type, the raw-energy floor error first and the empty-frames error before the window-type error |
| `Windowing.GetWindow` | torchaudio/compliance/kaldi.py:158-218 | `_get_window`'s steps in its order: the frames are `ShapeFrames` (pre-emphasis, window, zero padding) of `ExtractFrames` (strided, dithered, centred), and the log energies are `LogEnergy` of the extracted frames before pre-emphasis with `raw_energy`, else of the final frames; fails exactly for a negative floor, for pre-emphasis of no frames, or an unknown window type, with the raw-energy floor error first and the empty-frames error before the window-type error; gives an (m, padded) matrix and m energies with zero padding columns |
| `Columns.WithColumn` | torchaudio/compliance/kaldi.py:299 | column j becomes v and every other entry is unchanged |
| `Columns.SetColumn` | torchaudio/compliance/kaldi.py:740 | the in-place write `a[:, j] = v` leaves the array holding `WithColumn` of its old contents |
| `Columns.ScaledColumns` | torchaudio/compliance/kaldi.py:736 | entry (i, k) is multiplied by coeffs[k] |
| `Columns.ScaleColumns` | torchaudio/compliance/kaldi.py:733-736 | the in-place `feature *= lifter_coeffs` leaves the array holding `ScaledColumns` of its old contents |
| `Columns.SubtractColumnMean` | torchaudio/compliance/kaldi.py:221-227 | unchanged when not requested (or for no rows); otherwise every entry loses its column mean and every column then sums to zero |
| `Columns.SubtractColumnMeanIdempotent` | torchaudio/compliance/kaldi.py:221-227 | subtracting the column means twice equals subtracting them once |
| `Columns.AttachEnergy` | torchaudio/compliance/kaldi.py:595-602 | the width becomes num_mel_bins + 1; the energy is the last column with `htk_compat` and column 0 otherwise; the mel columns keep their order |
| `Columns.AttachEnergyRow` | torchaudio/compliance/kaldi.py:599-602 | one frame gains one entry: the energy, last with `htk_compat` and first otherwise; the mel energies follow or precede it in order |
| `Columns.DetachEnergy` | torchaudio/compliance/kaldi.py:720-725 | the split gives one energy per frame and an (m, num_mel_bins) matrix |
| `Columns.DetachAttachEnergy` | torchaudio/compliance/kaldi.py:720-725 | `mfcc`'s split recovers exactly the energy and mel columns that `fbank` attached, in both layouts |
| `Columns.HtkReorder` | torchaudio/compliance/kaldi.py:742-750 | column 0 moves to the end, scaled by √2 only when it is not the energy; the other columns shift left by one |
| `Columns.HtkReorderRotates` | torchaudio/compliance/kaldi.py:742-750 | with `use_energy` the HTK layout is a rotation of each row: same multiset of values |
| `MelScales.MelScaleIncreasing` | torchaudio/compliance/kaldi.py:313-318 | above −700 Hz the mel scale is strictly increasing |
| `Vtln.VtlnWarpFreq` | torchaudio/compliance/kaldi.py:363-391 | raises exactly when an assertion fails or the warp factor is 0; otherwise every frequency maps to the region rule `VtlnWarp` |
| `Vtln.MaskedOverwrites` | torchaudio/compliance/kaldi.py:378-389 | the four ordered overwrites (≥h, <h, <l, outside) leave at each frequency the value of the last mask that holds |
| `Vtln.VtlnWarpFixesLowFreq` | torchaudio/compliance/kaldi.py:331-333 | F(low_freq) = low_freq |
| `Vtln.VtlnWarpFixesHighFreq` | torchaudio/compliance/kaldi.py:331-334 | F(high_freq) = high_freq when l ≤ high_freq |
| `Vtln.VtlnWarpHighFreqCounterexample` | torchaudio/compliance/kaldi.py:363-389 | low 0, high 1000, cutoffs 900/950 and warp 2 pass the assertions, yet F(1000) = 500 |
| `Vtln.VtlnWarpCenter` | torchaudio/compliance/kaldi.py:341 | F(f) = f / warp for l ≤ f < h |
| `Vtln.VtlnWarpAtInflectionHigh` | torchaudio/compliance/kaldi.py:342-347 | F(h) = h / warp when l ≤ h |
| `Vtln.PiecesMeetAtInflectionLow` | torchaudio/compliance/kaldi.py:365-372 | the left and centre pieces agree at l (continuity) |
| `Vtln.PiecesMeetAtInflectionHigh` | torchaudio/compliance/kaldi.py:366-376 | the centre and right pieces agree at h (continuity) |
| `Vtln.VtlnWarpIdentityOutside` | torchaudio/compliance/kaldi.py:380-389 | F(f) = f outside [low_freq, high_freq] |
| `Vtln.VtlnWarpMelFreq` | torchaudio/compliance/kaldi.py:394-412 | same errors as the warp; otherwise each mel value maps to mel(F(inverse_mel(m))) |
| `MelBanks.MelEdgesSpanBand` | torchaudio/compliance/kaldi.py:442-460 | edge 0 is mel(low), edge num_bins + 1 is mel(high), and each edge is one mel step above the previous |
| `MelBanks.MelDeltaPositive` | torchaudio/compliance/kaldi.py:447 | for an increasing logarithm and 0 ≤ low < high, the mel step is positive |
| `MelBanks.TriangleWeightBounds` | torchaudio/compliance/kaldi.py:479-484 | every region-rule weight is in [0, 1], whatever the order of the edges |
| `MelBanks.TriangleWeightOutside` | torchaudio/compliance/kaldi.py:472-477 | for ordered edges the weight is 0 at or outside (left, right) |
| `MelBanks.ClampedIsTriangle` | torchaudio/compliance/kaldi.py:475-484 | for ordered edges, max(0, min(up, down)) equals the region rule (up on (left, center], down on (center, right), else 0) |
| `MelBanks.EdgesIncrease` | torchaudio/compliance/kaldi.py:457-460 | with a positive step, left < center < right for every unwarped filter |
| `MelBanks.UnwarpedEdges` | torchaudio/compliance/kaldi.py:457-460 | `mel_low + (bin + offset)·delta` is edge bin + offset |
| `MelBanks.FftBinMels` | torchaudio/compliance/kaldi.py:469 | padded/2 values, entry k being mel(k · sample_freq / padded) |
| `MelBanks.TriangleRow` | torchaudio/compliance/kaldi.py:479-484 | one filter's weights by the region rule, one per FFT bin |
| `MelBanks.ClampedRow` | torchaudio/compliance/kaldi.py:475-477 | the clamped row of an ordered filter is its region-rule row |
| `MelBanks.ClampedTriangles` | torchaudio/compliance/kaldi.py:475-477 | the unwarped bank's rows are the region-rule rows of the evenly spaced edges |
| `MelBanks.MaskedTriangles` | torchaudio/compliance/kaldi.py:478-484 | writing into a zero matrix, first the rising then the falling mask, leaves the region-rule weight everywhere |
| `MelBanks.WriteRising` | torchaudio/compliance/kaldi.py:479-482 | the write `bins[up_idx] = up_slope[up_idx]` into the zero matrix leaves the rising slope on (left, center] and zero elsewhere |
| `MelBanks.WriteFalling` | torchaudio/compliance/kaldi.py:481-483 | the write `bins[down_idx] = down_slope[down_idx]` over the rising slopes leaves the region-rule weight everywhere |
| `MelBanks.WarpEdges` | torchaudio/compliance/kaldi.py:462-465 | the warped edges are the evenly spaced edges moved by `vtln_warp_mel_freq` |
| `MelBanks.BinsInUnitInterval` | torchaudio/compliance/kaldi.py:479-484 | a matrix of region-rule weights has every entry in [0, 1] |
| `MelBanks.BinsAreBankRows` | torchaudio/compliance/kaldi.py:457-484 | weights computed from edges b, b+1, b+2 form the bank matrix |
| `MelBanks.BankRow` | torchaudio/compliance/kaldi.py:457-484 | filter b has padded/2 weights, the triangle on edges b, b+1, b+2 (warped iff warp ≠ 1) at each FFT bin's mel value |
| `MelBanks.MelBankMatrix` | torchaudio/compliance/kaldi.py:457-484 | the bank is (num_bins, padded/2) and row b is filter b |
| `MelBanks.CheckMelBankOptions` | torchaudio/compliance/kaldi.py:429-469 | the options pass exactly when num_bins > 3, the padded length is even and positive, 0 ≤ low < nyquist, 0 < high ≤ nyquist, low < high after the `high ≤ 0` offset, the VTLN band is valid when warp ≠ 1, and warp ≠ 0 |
| `MelBanks.VtlnOptionsDefineWarp` | torchaudio/compliance/kaldi.py:452-455 | the mel-bank VTLN assertion implies that the warp's own assertions hold |
| `MelBanks.UnwarpedMelBank` | torchaudio/compliance/kaldi.py:457-477 | the warp = 1 bank is the bank matrix, with weights in [0, 1] and the centre frequencies inverse_mel(center) |
| `MelBanks.WarpedMelBank` | torchaudio/compliance/kaldi.py:462-484 | the warp ≠ 1 bank is the bank matrix on warped edges, with weights in [0, 1] |
| `MelBanks.GetMelBanks` | torchaudio/compliance/kaldi.py:415-486 | raises exactly when the options fail, with the first failing check's message; otherwise a (num_bins, padded/2) bank equal to `MelBankMatrix`, every weight in [0, 1], plus the centre frequencies |
| `Features.FrontEnd` | torchaudio/compliance/kaldi.py:283-292 | errors of the properties or of the window (including pre-emphasis of no frames); `Short` exactly below `min_duration`; otherwise well-shaped frames for the validated geometry, and the frames and log energies are `_get_window`'s result on the validated channel, sizes and options |
| `Features.LogPowerRow` | torchaudio/compliance/kaldi.py:298 | entry k is log(max(a[k]², eps)) |
| `Features.LogPowerRows` | torchaudio/compliance/kaldi.py:295-298 | every frame gives padded/2 + 1 log powers of its FFT |
| `Features.LogPowerAtLeastLogEpsilon` | torchaudio/compliance/kaldi.py:298 | every log power is at least log(eps) |
| `Features.SpectrogramColumns` | torchaudio/compliance/kaldi.py:294-299 | (m, padded/2 + 1); column 0 holds the frame's log energy; the rest is the log power spectrum |
| `Features.SpectrogramFeatures` | torchaudio/compliance/kaldi.py:294-301 | the columns as above, with every column summing to zero when the mean is subtracted |
| `Features.SpectrogramFrames` | torchaudio/compliance/kaldi.py:294-302 | the in-place write of the energy into column 0 gives `SpectrogramFeatures` |
| `Features.SpectrogramOf` | torchaudio/compliance/kaldi.py:280-302 | the front end's errors, the empty result for a short signal, otherwise the spectrogram features |
| `Features.Spectrogram` | torchaudio/compliance/kaldi.py:230-302 | `spectrogram` computes `SpectrogramOf` |
| `Features.SpectrumRow` | torchaudio/compliance/kaldi.py:577-579 | the magnitude, squared with `use_power` |
| `Features.PadNyquist` | torchaudio/compliance/kaldi.py:587 | every filter gets one trailing zero weight |
| `Features.DotWithTrailingZero` | torchaudio/compliance/kaldi.py:586-590 | the zero weight removes the Nyquist bin from the product |
| `Features.MelRow` | torchaudio/compliance/kaldi.py:586-593 | mel energy b is the weighted sum of the bins below Nyquist, log(max(·, eps)) with `use_log_fbank` |
| `Features.MelRows` | torchaudio/compliance/kaldi.py:576-593 | every frame's mel row |
| `Features.FbankColumns` | torchaudio/compliance/kaldi.py:576-602 | width num_mel_bins (+1 with `use_energy`); row i is frame i's mel row, with its log energy attached first (last with `htk_compat`) when `use_energy` |
| `Features.FbankFeatures` | torchaudio/compliance/kaldi.py:576-605 | the columns as above, with every column summing to zero when the mean is subtracted |
| `Features.FbankOf` | torchaudio/compliance/kaldi.py:562-605 | the front end's errors, then the mel-bank errors; the empty result for a short signal; otherwise the fbank features under `MelBankMatrix`, of shape (m, num_mel_bins + use_energy), with each frame's log energy in the energy column when `use_energy` and no mean subtraction |
| `Features.Fbank` | torchaudio/compliance/kaldi.py:489-605 | `fbank` computes `FbankOf` |
| `Features.MatMul` | torchaudio/compliance/kaldi.py:731 | entry (i, j) is row i dotted with column j |
| `Features.ProductWithConstantColumn` | torchaudio/compliance/kaldi.py:616 | a constant column c gives c times the row sum |
| `Features.DctMatrix` | torchaudio/compliance/kaldi.py:608-618 | raises exactly for zero mel bins; otherwise (num_mel_bins, min(num_ceps, num_mel_bins)), column 0 equal to sqrt(1/num_mel_bins), other kept columns those of the basis |
| `Features.GetDctMatrix` | torchaudio/compliance/kaldi.py:608-618 | the in-place column-0 write gives `DctMatrix` |
| `Features.LifterCoeffs` | torchaudio/compliance/kaldi.py:621-626 | one coefficient per cepstral index |
| `Features.LifterCoeffsBounds` | torchaudio/compliance/kaldi.py:621-626 | C0's coefficient is 1, and no coefficient is more than \|L\|/2 from 1 |
| `Features.CepstraOf` | torchaudio/compliance/kaldi.py:720-753 | fails exactly when num_ceps = 0 and column 0 is written (`use_energy` or `htk_compat`); gives (m, num_ceps); with `use_energy` and no mean subtraction the frame's energy is in column 0 (last with `htk_compat`) |
| `Features.Cepstra` | torchaudio/compliance/kaldi.py:720-753 | the in-place lifter and energy writes give `CepstraOf` |
| `Features.PlainCepstra` | torchaudio/compliance/kaldi.py:728-750 | with no lifter, energy or mean subtraction the cepstra are the DCT product, in HTK layout on request |
| `Features.ProductC0` | torchaudio/compliance/kaldi.py:616 | column 0 of the DCT product is sqrt(1/num_mel_bins) times the row sum |
| `Features.HtkReorderLast` | torchaudio/compliance/kaldi.py:742-750 | without energy, the HTK layout's last column is column 0 times √2 |
| `Features.CepstraC0IsScaledSum` | torchaudio/compliance/kaldi.py:728-753 | with no lifter, energy or `htk_compat`, C0 = sqrt(1/num_mel_bins)·Σ log mel energies |
| `Features.HtkCepstraC0IsLast` | torchaudio/compliance/kaldi.py:728-753 | with `htk_compat` and no lifter or energy, the last cepstrum is sqrt(1/num_mel_bins)·Σ log mel energies·√2 |
| `Features.MfccOfFbank` | torchaudio/compliance/kaldi.py:703-753 | given fbank's result, for any integer `num_ceps`: the `num_ceps ≤ num_mel_bins` assertion first, then fbank's errors; the empty result for fbank's empty result; then `torch.arange`'s error for a negative `num_ceps` with a non-zero lifter; otherwise one column per DCT column that `[:, :num_ceps]` keeps (num_ceps, or num_mel_bins + num_ceps when negative), with fbank's energy column copied to the cepstral energy column when `use_energy` and no mean subtraction |
| `Features.CepstraOfFbank` | torchaudio/compliance/kaldi.py:727-753 | for an integer `num_ceps` ≤ num_mel_bins: fails exactly for a negative `num_ceps` with a non-zero lifter (`torch.arange`, first) or for no kept column with `use_energy` or `htk_compat`; otherwise one cepstrum per kept DCT column, with the energy column copied |
| `Features.CepstraFromFbank` | torchaudio/compliance/kaldi.py:727-753 | the in-place lifter and energy writes compute `CepstraOfFbank` |
| `Features.MfccNegativeNumCeps` | torchaudio/compliance/kaldi.py:617-625 | with 23 mel bins and `num_ceps = -1`, the default lifter 22 raises in `torch.arange`, and lifter 0 gives 22 cepstra per frame |
| `Features.MfccOf` | torchaudio/compliance/kaldi.py:703-753 | when `mfcc` succeeds, the front end succeeded, and the result is empty exactly for a signal shorter than `min_duration`; this is the intended behaviour, where the code as written raises (`MfccOfFbankAsWritten`, "## Findings") |
| `Features.Mfcc` | torchaudio/compliance/kaldi.py:629-753 | `mfcc` computes `MfccOf` for any integer `num_ceps`, including its empty result on a short signal where the code as written raises (`MfccOfFbankAsWritten`) |
| `Features.MfccOfFbankAsWritten` | torchaudio/compliance/kaldi.py:702-731 | `mfcc`'s tail as written on `fbank`'s result: it raises on the empty result `fbank` returns for a short signal, and otherwise agrees with `MfccOfFbank` |
| `Features.MfccShortInputDiffers` | torchaudio/compliance/kaldi.py:567-569 | for any options with num_ceps ≤ num_mel_bins and a short signal, `fbank` returns the empty result, the code as written raises on it, and the corrected `MfccOf` returns the empty result |
| `Resample.GcdDividesBoth` | torchaudio/compliance/kaldi.py:838 | the gcd is 0 only for (0, 0) and otherwise divides both rates |
| `Resample.GcdGreatest` | torchaudio/compliance/kaldi.py:838 | every common divisor divides the gcd |
| `Resample.ReducedCoprime` | torchaudio/compliance/kaldi.py:838-840 | after dividing by the gcd the rates are coprime |
| `Resample.GcdSelf` | torchaudio/compliance/kaldi.py:838-840 | gcd(a, a) = a, so equal rates reduce to 1 |
| `Resample.ReducedRates` | torchaudio/compliance/kaldi.py:836-840 | `int()` then division by the gcd: fails exactly when both truncate to 0; reduced × gcd gives the truncated rates; the results are coprime |
| `Resample.ReducedRatesEqual` | torchaudio/compliance/kaldi.py:836-840 | equal rates reduce to 1/1 |
| `Resample.ReducedRatesIdempotent` | torchaudio/compliance/kaldi.py:836-840 | the reduced rates are positive, and reducing them again changes nothing |
| `Resample.CeilDiv` | torchaudio/compliance/kaldi.py:849 | the least c with c·b ≥ a |
| `Resample.Ceil` | torchaudio/compliance/kaldi.py:784 | the least integer at or above x |
| `Resample.BaseFreq` | torchaudio/compliance/kaldi.py:760-765 | the cutoff is 0.99·min(orig, new): at most 0.99 times each rate and equal to 0.99 times one of them; so it is non-negative and zero exactly when a rate is zero |
| `Resample.Width` | torchaudio/compliance/kaldi.py:784 | width = ceil(lowpass_filter_width·orig / base): at least the quotient and less than it plus one |
| `Resample.Clamp` | torchaudio/compliance/kaldi.py:793 | the nearest point of [−lowpass_filter_width, lowpass_filter_width] to t: t inside the range, the lower bound below it, the upper bound above it |
| `Resample.PositionIsSampleTime` | torchaudio/compliance/kaldi.py:767-791 | tap j of phase t mod new sits at (m/orig − t/new)·base, where m = (t div new)·orig + j − width is the input sample it meets in output t: the sinc argument of the interpolation formula |
| `Resample.PhaseRow` | torchaudio/compliance/kaldi.py:789-800 | 2·width + orig taps; tap j is the windowed sinc at the clamped position of index j − width |
| `Resample.FirstTapClamped` | torchaudio/compliance/kaldi.py:784-793 | the first tap of every phase is clamped to −lowpass_filter_width: the filter spans the whole window |
| `Resample.Phases` | torchaudio/compliance/kaldi.py:789-800 | `new` filters of 2·width + orig taps, filter i the phase row of i |
| `Resample.ScaleRow` | torchaudio/compliance/kaldi.py:802-803 | every tap of a filter is multiplied by the scale |
| `Resample.SincResampleKernel` | torchaudio/compliance/kaldi.py:756-803 | fails exactly for a non-positive filter width or a zero rate; otherwise `new` rows of 2·width + orig taps, each the phase row scaled by base/orig |
| `Resample.PhaseTaps` | torchaudio/compliance/kaldi.py:791-800 | the positions, the in-place `clamp_` and the windowed sinc give the phase row |
| `Resample.GetSincResampleKernel` | torchaudio/compliance/kaldi.py:756-803 | the loop appending one filter per phase gives `SincResampleKernel` |
| `Resample.ZeroPad` | torchaudio/compliance/kaldi.py:846 | `width` zeros on the left, `width + orig` on the right, the row unchanged between them |
| `Resample.WindowsFit` | torchaudio/compliance/kaldi.py:846-847 | every convolution window of every phase lies inside the padded row: length/orig + 1 outputs per phase |
| `Resample.TargetLengthFits` | torchaudio/compliance/kaldi.py:847-850 | ceil(new·len/orig) ≤ new·(len/orig + 1), so the truncation is well defined |
| `Resample.PhaseInRange` | torchaudio/compliance/kaldi.py:848 | an interleaved output index falls in a produced slot of its phase |
| `Resample.ResampleRow` | torchaudio/compliance/kaldi.py:845-850 | ceil(new·len/orig) samples; sample t is phase t mod new's filter dotted with the padded row from (t div new)·orig |
| `Resample.OutputSampleIsTapSum` | torchaudio/compliance/kaldi.py:767-783 | output t is the sum over taps j of phase t mod new's filter times input sample (t div new)·orig + j − width, zero off the row |
| `Resample.PaddedWindowIsSamples` | torchaudio/compliance/kaldi.py:846-847 | the padded row's window from `start` holds input samples start − width onwards, zero off the row |
| `Resample.ResampleRows` | torchaudio/compliance/kaldi.py:845-850 | every channel resampled with the same kernel |
| `Resample.ResampleReduced` | torchaudio/compliance/kaldi.py:842-850 | fails exactly for a zero reduced rate, a non-positive filter width, or no channels (the reshape error, after the kernel's errors); otherwise every channel resampled |
| `Resample.ResampleOf` | torchaudio/compliance/kaldi.py:833-850 | fails exactly unless both rates are at least 1, the filter width is positive and there is at least one channel; otherwise the reduced resampler on the gcd-reduced rates |
| `Resample.ResampleWaveform` | torchaudio/compliance/kaldi.py:806-850 | `resample_waveform` computes `ResampleOf` |

## Findings

| source | as written | input that shows it | evidently intended | confidence | as-written member | corrected member |
|---|---|---|---|---|---|---|
| torchaudio/compliance/kaldi.py:567-569 | `fbank` returns the one-dimensional `torch.empty(0)` for a signal shorter than `min_duration`; `mfcc` then indexes it as a matrix, or multiplies it by the (23, 13) DCT matrix, and raises | `mfcc` with default options and `min_duration` longer than the signal | `mfcc` returns the empty result, as `spectrogram` and `fbank` do | not executed | `Features.MfccOfFbankAsWritten` | `Features.MfccOf` |

## Left out

- The real FFT is the parameter `rfftAbs`. Only its output length is assumed.
- Dither randomness: `torch.rand` and the Box–Muller transform become an arbitrary noise
  function `gauss(i, j)`, scaled by `dither` and added to each sample.
- The DCT-II basis from `create_dct` is an input matrix. Only the column-0 overwrite and
  the truncation are modelled.
- Window values, the mel scale, the liftering sine and the resampling taps go through
  uninterpreted primitives (`log`, `exp`, `sqrt`, `cos(2πx)`, `sin(πx)`, `x ** 0.85`, π).
  No numeric property of them is assumed beyond the monotone logarithm. So the mel round
  trip `mel(inverse_mel(m)) ≈ m` is not stated, and neither is the sine bound.
  `LifterCoeffsBounds` takes the sine's range as a hypothesis.
- The float32 `EPSILON` is an arbitrary real `p.epsilon`. Lemmas that use it require it
  to be positive.
- The millisecond-to-sample conversion `int(sample_frequency * frame_shift * 0.001)`
  truncates a float. `windowSize` and `windowShift` are integer inputs instead.
- Floating-point rounding is not modelled: arithmetic is exact over `real`. The
  resampler's `math.ceil(new * length / orig)` is exact integer ceiling division.
- Device and dtype plumbing, `_get_epsilon`, and `as_strided` aliasing are not modelled.
  Frames are copies.
- `waveform.dim()` assertions: the model's types fix the dimensions.
- `Windowing.HannWindow`: states only the length, because the values come from the
  uninterpreted cosine.
- `Windowing.HammingWindow`: states only the length, for the same reason.
- `Features.LifterCoeffs`: states only the length. Its values are bounded by
  `LifterCoeffsBounds` under a hypothesis on the sine.
- `Windowing.ShapeFrames`: states the shape and the zero padding. The pre-emphasised,
  windowed values are stated by `PreemphasizeRow` and `ApplyWindow`, which it composes.
- `Features.CepstraOf`: states the shape, the failure condition and the energy column. The
  other coefficients are stated through `PlainCepstra`, `CepstraC0IsScaledSum` and
  `HtkCepstraC0IsLast` in the unliftered, energy-free case.
- `Features.CepstraOfFbank`: states the failure condition, the shape and the energy
  column, not every coefficient (see `CepstraOf`).
- `Features.MfccOfFbank`: states the shape and the energy column, not every coefficient
  (see `CepstraOf`).
- `Features.MfccOf`: states the error-free front end and the empty result; the shape and
  the energy column are stated by `MfccOfFbank` on `FbankOf`'s result, whose shape and
  energy column `FbankOf` states.
- `Vtln.VtlnWarpFixesHighFreq`: requires l ≤ high_freq, which is weaker than the doc
  comment's unconditional promise. The code does not keep that promise otherwise
  (`VtlnWarpHighFreqCounterexample`).
- The `resample_waveform` claims that equal rates give the identity, and that a low-pass
  round trip preserves a sinusoid, are not stated. The first does not hold of the code:
  the 0.99 low-pass kernel is still applied. The second is approximate and needs the
  trigonometric functions.

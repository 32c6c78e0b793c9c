/** Frame extraction: the FFT length, the validated window properties, and the slicing
    of one channel into overlapping frames under the two edge policies. */
module Framing {
  import opened Common

  function Pow2(k: nat): (r: nat)
    ensures r >= 1
  {
    if k == 0 then 1 else 2 * Pow2(k - 1)
  }

  /** r is 1, 2, 4, 8, ... */
  predicate IsPowerOfTwo(r: nat)
    decreases r
  {
    r == 1 || (r > 1 && r % 2 == 0 && IsPowerOfTwo(r / 2))
  }

  function Abs(x: int): nat { if x < 0 then -x else x }

  /** Python's `int.bit_length`: the number of binary digits of |n| (0 for n = 0). */
  function BitLength(n: nat): nat {
    if n == 0 then 0 else 1 + BitLength(n / 2)
  }

  /** `_next_power_of_2`: 1 for 0, otherwise 2 to the bit length of x - 1. */
  function NextPowerOf2(x: int): (r: nat)
    ensures IsPowerOfTwo(r)
    ensures x == 0 ==> r == 1
    ensures x >= 1 ==> x <= r < 2 * x
    ensures x >= 2 ==> r % 2 == 0
  {
    var r := if x == 0 then 1 else Pow2(BitLength(Abs(x - 1)));
    Pow2IsPowerOfTwo(if x == 0 then 0 else BitLength(Abs(x - 1)));
    BitLengthBounds(Abs(x - 1));
    PowerOfTwoIsOneOrEven(r);
    r
  }

  lemma {:induction false} Pow2IsPowerOfTwo(k: nat)
    ensures IsPowerOfTwo(Pow2(k))
  {
    if k > 0 {
      Pow2IsPowerOfTwo(k - 1);
      assert Pow2(k) / 2 == Pow2(k - 1);
    }
  }

  /** 2^(b-1) <= n < 2^b for b the bit length of n. */
  lemma {:induction false} BitLengthBounds(n: nat)
    ensures n < Pow2(BitLength(n))
    ensures n >= 1 ==> BitLength(n) >= 1 && Pow2(BitLength(n) - 1) <= n
  {
    if n > 0 {
      BitLengthBounds(n / 2);
    }
  }

  /** Although its doc comment says "greater than", `_next_power_of_2` maps a power of
      two to itself. */
  lemma {:induction false} NextPowerOf2OfPowerOfTwo(k: nat)
    ensures NextPowerOf2(Pow2(k)) == Pow2(k)
  {
    var p := Pow2(k);
    var r := NextPowerOf2(p);
    if k > 0 {
      Pow2IsPowerOfTwo(k);
      PowersOfTwoEqualWithinFactorTwo(p, r);
    }
  }

  /** Two powers of two p <= r < 2p are equal. */
  lemma {:induction false} PowersOfTwoEqualWithinFactorTwo(p: nat, r: nat)
    requires IsPowerOfTwo(p) && IsPowerOfTwo(r)
    requires p <= r < 2 * p
    ensures p == r
    decreases p
  {
    if p > 1 && r > 1 {
      PowersOfTwoEqualWithinFactorTwo(p / 2, r / 2);
    }
  }

  /** The integer part of `_get_waveform_and_window_properties`: the chosen channel and
      the frame geometry in samples. */
  datatype WindowProperties = WindowProperties(
    waveform: seq<real>, windowShift: nat, windowSize: nat, paddedWindowSize: nat)

  /** Selects the channel and checks the frame geometry, in the order of the source's
      asserts. `windowShift` and `windowSize` are already in samples. */
  function GetWaveformAndWindowProperties(
    waveform: Matrix, channel: int, sampleFrequency: real, windowShift: int, windowSize: int,
    roundToPowerOfTwo: bool, preemphasisCoefficient: real): (r: Result<WindowProperties>)
    ensures r.Ok? <==>
      && (if channel < 0 then 0 else channel) < |waveform|
      && 2 <= windowSize <= |waveform[if channel < 0 then 0 else channel]|
      && 0 < windowShift
      && (!roundToPowerOfTwo ==> windowSize % 2 == 0)
      && 0.0 <= preemphasisCoefficient <= 1.0
      && sampleFrequency > 0.0
    ensures r.Ok? ==>
      && r.value.waveform == waveform[if channel < 0 then 0 else channel]
      && r.value.windowSize as int == windowSize
      && r.value.windowShift as int == windowShift
      && 2 <= r.value.windowSize <= |r.value.waveform|
      && r.value.windowSize <= r.value.paddedWindowSize
      && r.value.paddedWindowSize % 2 == 0
      && (roundToPowerOfTwo ==> IsPowerOfTwo(r.value.paddedWindowSize)
                                 && r.value.paddedWindowSize < 2 * r.value.windowSize)
      && (!roundToPowerOfTwo ==> r.value.paddedWindowSize == r.value.windowSize)
  {
    var ch := if channel < 0 then 0 else channel;
    if ch >= |waveform| then Err("Invalid channel")
    else
      var w := waveform[ch];
      var padded := if roundToPowerOfTwo then NextPowerOf2(windowSize) else Abs(windowSize);
      if !(2 <= windowSize <= |w|) then Err("choose a window size that is [2, len(waveform)]")
      else if !(0 < windowShift) then Err("`window_shift` must be greater than 0")
      else if padded % 2 != 0 then Err("the padded `window_size` must be divisible by two")
      else if !(0.0 <= preemphasisCoefficient <= 1.0) then Err("`preemphasis_coefficient` must be between [0,1]")
      else if !(sampleFrequency > 0.0) then Err("`sample_frequency` must be greater than zero")
      else Ok(WindowProperties(w, windowShift, windowSize, padded))
  }

  lemma PowerOfTwoIsOneOrEven(r: nat)
    requires IsPowerOfTwo(r)
    ensures r == 1 || r % 2 == 0
  {
  }

  /** The number of frames `m` under each edge policy. */
  function NumFrames(n: nat, windowSize: nat, windowShift: nat, snipEdges: bool): nat
    requires windowShift > 0
  {
    if snipEdges then
      if n < windowSize then 0 else 1 + (n - windowSize) / windowShift
    else
      (n + windowShift / 2) / windowShift
  }

  /** With `snip_edges`, the frames are exactly those that fit: the last one ends inside
      the signal and one more would not. */
  lemma NumFramesSnipEdges(n: nat, windowSize: nat, windowShift: nat)
    requires windowShift > 0
    ensures var m := NumFrames(n, windowSize, windowShift, true);
      && (n < windowSize <==> m == 0)
      && (m > 0 ==> (m - 1) * windowShift + windowSize <= n < m * windowShift + windowSize)
  {
    var m := NumFrames(n, windowSize, windowShift, true);
    if n >= windowSize {
      var q := (n - windowSize) / windowShift;
      assert q * windowShift + (n - windowSize) % windowShift == n - windowSize;
      assert (m - 1) * windowShift == q * windowShift;
      assert m * windowShift == q * windowShift + windowShift;
    }
  }

  /** Without `snip_edges`, the frame count is n / shift rounded to the nearest integer
      (halves rounding up for even shifts). */
  lemma NumFramesNoSnip(n: nat, windowSize: nat, windowShift: nat)
    requires windowShift > 0
    ensures var m := NumFrames(n, windowSize, windowShift, false);
      m * windowShift <= n + windowShift / 2 < (m + 1) * windowShift
  {
    var a := n + windowShift / 2;
    var m := a / windowShift;
    assert m * windowShift + a % windowShift == a;
    assert (m + 1) * windowShift == m * windowShift + windowShift;
  }

  /** One second at 16 kHz with 25 ms frames and a 10 ms shift gives 98 frames. */
  lemma NumFramesExample()
    ensures NumFrames(16000, 400, 160, true) == 98
  {
  }

  /** `torch.flip(waveform, [0])`. */
  function Reverse(s: seq<real>): (r: seq<real>)
    ensures |r| == |s| && forall k :: 0 <= k < |s| ==> r[k] == s[|s| - 1 - k]
  {
    seq(|s|, k requires 0 <= k < |s| => s[|s| - 1 - k])
  }

  /** The signal the `snip_edges=false` branch strides over: the reversed head (`pad > 0`)
      or the trimmed waveform (`pad <= 0`), followed by the reversed waveform. Python
      slices clamp, and so do these. */
  function MirrorPadded(w: seq<real>, pad: int): (r: seq<real>)
    ensures -|w| <= pad <= |w| ==> |r| == 2 * |w| + pad
  {
    var rev := Reverse(w);
    if pad > 0 then
      rev[(if pad < |rev| then |rev| - pad else 0)..] + w + rev
    else
      w[(if -pad < |w| then -pad else |w|)..] + rev
  }

  /** Kaldi's per-sample reflection: sample `t` of the signal, reflected about the
      outer edges of the first and the last sample (…, 1, 0 | 0, 1, …, n-1 | n-1, …). */
  function Mirror(w: seq<real>, t: int): real
    requires -|w| <= t < 2 * |w|
  {
    if t < 0 then w[-t - 1] else if t < |w| then w[t] else w[2 * |w| - 1 - t]
  }

  /** Sample `k` of the padded signal is the reflected sample `k - pad`. */
  lemma MirrorPaddedAt(w: seq<real>, pad: int, k: int)
    requires -|w| <= pad <= |w|
    requires 0 <= k < 2 * |w| + pad
    ensures |MirrorPadded(w, pad)| == 2 * |w| + pad
    ensures -|w| <= k - pad < 2 * |w| && MirrorPadded(w, pad)[k] == Mirror(w, k - pad)
  {
    var n := |w|;
    var rev := Reverse(w);
    var p := MirrorPadded(w, pad);
    var t := k - pad;
    if pad > 0 {
      var head := rev[n - pad..];
      assert p == head + w + rev;
      ConcatAt3(head, w, rev, k);
      if k < pad {
        assert p[k] == rev[n - pad + k] == w[-t - 1];
      } else if k < pad + n {
        assert p[k] == w[t];
      } else {
        assert p[k] == rev[t - n] == w[2 * n - 1 - t];
      }
    } else {
      var tail := w[-pad..];
      assert p == tail + [] + rev;
      ConcatAt3(tail, [], rev, k);
      if k < n + pad {
        assert p[k] == w[t];
      } else {
        assert p[k] == rev[t - n] == w[2 * n - 1 - t];
      }
    }
  }

  lemma ConcatAt3(a: seq<real>, b: seq<real>, c: seq<real>, k: int)
    requires 0 <= k < |a| + |b| + |c|
    ensures (a + b + c)[k] ==
      if k < |a| then a[k] else if k < |a| + |b| then b[k - |a|] else c[k - |a| - |b|]
  {
  }

  lemma MulLeft(i: nat, j: nat, s: nat)
    requires i <= j
    ensures 0 <= i * s <= j * s
  {
  }

  /** How far the `snip_edges=false` frames reach back before sample 0: frame i starts
      at `i*shift - Offset`, so its centre sits at `i*shift + shift/2`. */
  function Offset(windowSize: nat, windowShift: nat): int {
    windowSize / 2 - windowShift / 2
  }

  /** Frame `i` exists and lies inside the waveform (`snip_edges`) or inside the
      reflected waveform, one signal length beyond each end. */
  lemma FrameInside(n: nat, windowSize: nat, windowShift: nat, snipEdges: bool, i: nat)
    requires windowShift > 0 && (snipEdges || windowSize <= n)
    requires i < NumFrames(n, windowSize, windowShift, snipEdges)
    ensures snipEdges ==> i * windowShift + windowSize <= n
    ensures !snipEdges ==> var s := i * windowShift - Offset(windowSize, windowShift);
      -(n as int) <= Offset(windowSize, windowShift) <= n &&
      -(n as int) <= s && s + windowSize <= 2 * n
  {
    var m := NumFrames(n, windowSize, windowShift, snipEdges);
    MulLeft(i, m - 1, windowShift);
    if snipEdges {
      NumFramesSnipEdges(n, windowSize, windowShift);
    } else {
      NoSnipFramesFit(n, windowSize, windowShift);
    }
  }

  /** Kaldi's `ExtractWindow`, the reference the strided view is measured against: frame
      `i` is the `windowSize` samples from `i*shift` on (`snip_edges`), or from
      `i*shift - Offset` on, each read through the reflection at both ends. */
  function KaldiFrame(w: seq<real>, windowSize: nat, windowShift: nat, snipEdges: bool, i: nat): (f: seq<real>)
    requires windowShift > 0 && (snipEdges || windowSize <= |w|)
    requires i < NumFrames(|w|, windowSize, windowShift, snipEdges)
    ensures |f| == windowSize
  {
    FrameInside(|w|, windowSize, windowShift, snipEdges, i);
    var s := i * windowShift;
    if snipEdges then w[s .. s + windowSize]
    else
      var t := s - Offset(windowSize, windowShift);
      seq(windowSize, j requires 0 <= j < windowSize => Mirror(w, t + j))
  }

  /** The `m` rows `sig[i*shift .. i*shift+size)` of a strided view (copied here; the
      source aliases them). */
  function FramesOf(sig: seq<real>, m: nat, size: nat, shift: nat): (r: Matrix)
    requires m == 0 || (m - 1) * shift + size <= |sig|
    ensures |r| == m && forall i :: 0 <= i < m ==> r[i] == Frame(sig, m, size, shift, i)
  {
    seq(m, i requires 0 <= i < m => Frame(sig, m, size, shift, i))
  }

  /** Frame `i`, the slice `sig[i*shift .. i*shift+size)`. */
  function Frame(sig: seq<real>, m: nat, size: nat, shift: nat, i: nat): (f: seq<real>)
    requires i < m && (m - 1) * shift + size <= |sig|
    ensures |f| == size
  {
    MulLeft(i, m - 1, shift);
    sig[i * shift .. i * shift + size]
  }

  /** `_get_strided`: the (m, window_size) matrix of frames, taken as strided slices of
      the waveform (`snip_edges`) or of the waveform with reversed copies around it. Each
      row is Kaldi's frame. The caller has checked `size <= len(waveform)`. */
  function Strided(w: seq<real>, windowSize: nat, windowShift: nat, snipEdges: bool): (r: Matrix)
    requires windowShift > 0
    requires snipEdges || windowSize <= |w|
    ensures IsMatrix(r, NumFrames(|w|, windowSize, windowShift, snipEdges), windowSize)
    ensures forall i :: 0 <= i < |r| ==> r[i] == KaldiFrame(w, windowSize, windowShift, snipEdges, i)
  {
    var m := NumFrames(|w|, windowSize, windowShift, snipEdges);
    var sig := if snipEdges then w else MirrorPadded(w, Offset(windowSize, windowShift));
    StridedFits(w, windowSize, windowShift, snipEdges);
    var r := FramesOf(sig, m, windowSize, windowShift);
    assert forall i :: 0 <= i < m ==> r[i] == KaldiFrame(w, windowSize, windowShift, snipEdges, i) by {
      forall i | 0 <= i < m ensures r[i] == KaldiFrame(w, windowSize, windowShift, snipEdges, i) {
        FrameIsKaldiFrame(w, windowSize, windowShift, snipEdges, i);
      }
    }
    r
  }

  /** The strided signal holds all the frames. */
  lemma StridedFits(w: seq<real>, windowSize: nat, windowShift: nat, snipEdges: bool)
    requires windowShift > 0 && (snipEdges || windowSize <= |w|)
    ensures var m := NumFrames(|w|, windowSize, windowShift, snipEdges);
      var sig := if snipEdges then w else MirrorPadded(w, Offset(windowSize, windowShift));
      m == 0 || (m - 1) * windowShift + windowSize <= |sig|
  {
    if snipEdges {
      NumFramesSnipEdges(|w|, windowSize, windowShift);
    } else {
      NoSnipFramesFit(|w|, windowSize, windowShift);
    }
  }

  /** Row `i` of the strided view is Kaldi's frame `i`. */
  lemma FrameIsKaldiFrame(w: seq<real>, windowSize: nat, windowShift: nat, snipEdges: bool, i: nat)
    requires windowShift > 0 && (snipEdges || windowSize <= |w|)
    requires i < NumFrames(|w|, windowSize, windowShift, snipEdges)
    ensures var m := NumFrames(|w|, windowSize, windowShift, snipEdges);
      var sig := if snipEdges then w else MirrorPadded(w, Offset(windowSize, windowShift));
      (m - 1) * windowShift + windowSize <= |sig| &&
      Frame(sig, m, windowSize, windowShift, i) == KaldiFrame(w, windowSize, windowShift, snipEdges, i)
  {
    var m := NumFrames(|w|, windowSize, windowShift, snipEdges);
    var pad := Offset(windowSize, windowShift);
    StridedFits(w, windowSize, windowShift, snipEdges);
    FrameInside(|w|, windowSize, windowShift, snipEdges, i);
    if !snipEdges {
      var sig := MirrorPadded(w, pad);
      var s := i * windowShift;
      var f := Frame(sig, m, windowSize, windowShift, i);
      var k := KaldiFrame(w, windowSize, windowShift, false, i);
      assert f == sig[s .. s + windowSize];
      assert k == seq(windowSize, j requires 0 <= j < windowSize => Mirror(w, s - pad + j));
      forall j | 0 <= j < windowSize ensures f[j] == k[j] {
        MirrorPaddedAt(w, pad, s + j);
      }
    }
  }

  /** Without `snip_edges`, either there are no frames or the reflection stays within
      one signal length of each end and every frame lies inside the padded signal. */
  lemma NoSnipFramesFit(n: nat, windowSize: nat, windowShift: nat)
    requires windowShift > 0 && windowSize <= n
    ensures var m := NumFrames(n, windowSize, windowShift, false);
      var pad := Offset(windowSize, windowShift);
      m == 0 || (-(n as int) <= pad <= n && (m - 1) * windowShift + windowSize <= 2 * n + pad)
  {
    var m := NumFrames(n, windowSize, windowShift, false);
    NumFramesNoSnip(n, windowSize, windowShift);
    var h, g := windowShift / 2, windowSize / 2;
    assert 2 * h <= windowShift && 0 <= g <= windowSize;
    if m > 0 {
      var p := m * windowShift;
      assert p <= n + h;
      assert windowShift <= p by { MulLeft(1, m, windowShift); }
      assert (m - 1) * windowShift == p - windowShift;
    }
  }
}

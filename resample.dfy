/** Kaldi's sinc resampler, `resample_waveform`: the rates reduced by their greatest
    common divisor, a bank of `new` windowed-sinc filters (one per output phase), a
    zero-padded strided convolution per phase, the phases interleaved, and the result
    cut to `ceil(new * length / orig)` samples. */
module Resample {
  import opened Common

  const AssertionFailed: string := "AssertionError"
  const DivisionByZero: string := "float division by zero"
  const IntegerDivisionByZero: string := "integer division or modulo by zero"
  /** torch's `reshape(num_wavs, -1)` of a tensor with no elements. */
  const AmbiguousReshape: string :=
    "cannot reshape tensor of 0 elements into shape [0, -1] because the unspecified dimension size -1 can be any value and is ambiguous"

  /** `math.gcd` on non-negative integers, by Euclid's algorithm. */
  function Gcd(a: nat, b: nat): nat
    decreases b
  {
    if b == 0 then a else Gcd(b, a % b)
  }

  /** The quotient and remainder of `n` by a positive `d`. */
  lemma DivMod(n: nat, d: nat)
    requires d > 0
    ensures n == (n / d) * d + n % d && 0 <= n % d < d
  {
  }

  /** A multiple of `g` leaves no remainder. */
  lemma MultipleMod(k: int, g: nat)
    requires g > 0
    ensures (k * g) % g == 0
  {
    var q, r := (k * g) / g, (k * g) % g;
    var d := k - q;
    assert d * g == r by {
      assert k * g == q * g + r;
      assert d * g == k * g - q * g;
    }
    NonZeroMultiple(d, g);
  }

  /** A non-zero multiple of `g` is at least `g` away from zero. */
  lemma NonZeroMultiple(d: int, g: nat)
    ensures d >= 1 ==> d * g >= g
    ensures d <= -1 ==> d * g <= -(g as int)
  {
    if d >= 1 {
      NonNegativeMultiple(d - 1, g);
      assert d * g == (d - 1) * g + g;
    } else if d <= -1 {
      NonNegativeMultiple(-d - 1, g);
      assert -(d * g) == (-d - 1) * g + g;
    }
  }

  lemma NonNegativeMultiple(x: nat, g: nat)
    ensures x * g >= 0
  {
  }

  /** `m * x + y` is a multiple of every common divisor of `x` and `y`. */
  lemma CombinationMod(m: int, x: nat, y: nat, g: nat)
    requires g > 0 && x % g == 0 && y % g == 0
    ensures (m * x + y) % g == 0
  {
    var x', y' := x / g, y / g;
    DivMod(x, g);
    DivMod(y, g);
    assert m * x + y == (m * x' + y') * g;
    MultipleMod(m * x' + y', g);
  }

  /** A positive multiple of `m` is at least `m`. */
  lemma DivisorBound(n: nat, m: nat)
    requires n > 0 && m > 0 && n % m == 0
    ensures m <= n
  {
    var q := n / m;
    DivMod(n, m);
    assert q >= 1;
    assert q * m == (q - 1) * m + m;
  }

  /** `Gcd(a, b)` is zero exactly when both arguments are, and otherwise divides both. */
  lemma {:induction false} GcdDividesBoth(a: nat, b: nat)
    ensures Gcd(a, b) == 0 <==> a == 0 && b == 0
    ensures Gcd(a, b) > 0 ==> a % Gcd(a, b) == 0 && b % Gcd(a, b) == 0
    decreases b
  {
    if b > 0 {
      GcdDividesBoth(b, a % b);
      var g := Gcd(b, a % b);
      DivMod(a, b);
      CombinationMod(a / b, b, a % b, g);
    }
  }

  /** Every common divisor of `a` and `b` divides `Gcd(a, b)`. */
  lemma {:induction false} GcdGreatest(a: nat, b: nat, d: nat)
    requires d > 0 && a % d == 0 && b % d == 0
    ensures Gcd(a, b) % d == 0
    decreases b
  {
    if b > 0 {
      var q := a / b;
      DivMod(a, b);
      assert a % b == -q * b + a;
      CombinationMod(-q, b, a, d);
      GcdGreatest(b, a % b, d);
      assert Gcd(a, b) == Gcd(b, a % b);
    }
  }

  /** Dividing both rates by their gcd leaves coprime rates. */
  lemma ReducedCoprime(a: nat, b: nat)
    requires a > 0 || b > 0
    ensures var g := Gcd(a, b); g > 0 && Gcd(a / g, b / g) == 1
  {
    GcdDividesBoth(a, b);
    var g := Gcd(a, b);
    var a', b' := a / g, b / g;
    QuotientTimes(a, g);
    QuotientTimes(b, g);
    assert a' > 0 || b' > 0;
    GcdDividesBoth(a', b');
    var d := Gcd(a', b');
    ScaledDivisor(a', d, g);
    ScaledDivisor(b', d, g);
    GcdGreatest(a, b, d * g);
    DivisorBound(g, d * g);
    FactorAtMostOne(d, g);
  }

  /** If `d` divides `x` then `d * g` divides `x * g`. */
  lemma ScaledDivisor(x: nat, d: nat, g: nat)
    requires d > 0 && g > 0 && x % d == 0
    ensures (x * g) % (d * g) == 0
  {
    var q := x / d;
    QuotientTimes(x, d);
    assert x * g == q * (d * g) by {
      Regroup(q, d, g);
    }
    MultipleMod(q, d * g);
  }

  /** A factor that does not enlarge a positive number is at most one. */
  lemma FactorAtMostOne(d: nat, g: nat)
    requires g > 0 && d * g <= g
    ensures d <= 1
  {
  }

  /** An exact quotient times its divisor gives back the dividend. */
  lemma QuotientTimes(n: nat, d: nat)
    requires d > 0 && n % d == 0
    ensures n / d * d == n
  {
    DivMod(n, d);
  }

  lemma Regroup(x: nat, y: nat, z: nat)
    ensures x * y * z == x * (y * z)
  {
  }

  /** Equal rates reduce to 1 / 1. */
  lemma GcdSelf(a: nat)
    requires a > 0
    ensures Gcd(a, a) == a && a / Gcd(a, a) == 1
  {
    assert a % a == 0;
  }

  /** `math.ceil(a / b)` for naturals. */
  function CeilDiv(a: nat, b: nat): (c: nat)
    requires b > 0
    ensures c * b >= a && (c == 0 || (c - 1) * b < a)
  {
    var c := (a + b - 1) / b;
    DivMod(a + b - 1, b);
    c
  }

  /** `math.ceil(x)` for a non-negative real. */
  function Ceil(x: real): (c: int)
    requires x >= 0.0
    ensures c as real >= x && (c as real) - 1.0 < x && c >= 0
  {
    -((-x).Floor)
  }

  /** `min(orig, new) * 0.99`: the cutoff, just under the lower Nyquist rate. */
  function BaseFreq(orig: nat, newRate: nat): (b: real)
    ensures b <= 0.99 * (orig as real) && b <= 0.99 * (newRate as real)
    ensures b == 0.99 * (orig as real) || b == 0.99 * (newRate as real)
    ensures b >= 0.0
    ensures b == 0.0 <==> orig == 0 || newRate == 0
  {
    (if orig <= newRate then orig else newRate) as real * 0.99
  }

  /** The filter half-width in input samples, `ceil(lowpass_filter_width * orig / base)`. */
  function Width(lowpassFilterWidth: nat, orig: nat, base: real): (w: nat)
    requires base > 0.0
    ensures w as real >= (lowpassFilterWidth * orig) as real / base
    ensures (w as real) - 1.0 < (lowpassFilterWidth * orig) as real / base
  {
    Ceil((lowpassFilterWidth * orig) as real / base)
  }

  /** The time, in units of the cutoff period, of tap `j` of phase `i`:
      `(-i / newRate + (j - width) / orig) * base`. */
  function Position(i: nat, j: nat, orig: nat, newRate: nat, width: nat, base: real): real
    requires orig > 0 && newRate > 0
  {
    (-(i as real) / (newRate as real) + ((j - width) as real) / (orig as real)) * base
  }

  /** The filter position of tap `j` in phase `t % new` is the time of the input sample
      `m` that tap meets in output `t` (window start `(t / new) * orig`, shifted back by
      the left padding `width`) minus the time of output `t`, both in seconds times `base`. */
  lemma PositionIsSampleTime(t: nat, j: nat, orig: nat, newRate: nat, width: nat, base: real)
    requires orig > 0 && newRate > 0
    ensures var m := (t / newRate) * orig + j - width;
      Position(t % newRate, j, orig, newRate, width, base)
        == ((m as real) / (orig as real) - (t as real) / (newRate as real)) * base
  {
    var q, i := t / newRate, t % newRate;
    var m := q * orig + j - width;
    var o, n := orig as real, newRate as real;
    assert (m as real) / o == q as real + ((j - width) as real) / o by {
      assert m as real == (q as real) * o + (j - width) as real;
    }
    assert (t as real) / n == q as real + (i as real) / n by {
      assert t == q * newRate + i;
      assert t as real == (q as real) * n + i as real;
    }
  }

  /** `t.clamp_(-lowpass_filter_width, lowpass_filter_width)`. */
  function Clamp(t: real, lowpassFilterWidth: nat): (c: real)
    ensures -(lowpassFilterWidth as real) <= c <= lowpassFilterWidth as real
    ensures -(lowpassFilterWidth as real) <= t <= lowpassFilterWidth as real ==> c == t
    ensures t < -(lowpassFilterWidth as real) ==> c == -(lowpassFilterWidth as real)
    ensures t > lowpassFilterWidth as real ==> c == lowpassFilterWidth as real
  {
    if t < -(lowpassFilterWidth as real) then -(lowpassFilterWidth as real)
    else if t > lowpassFilterWidth as real then lowpassFilterWidth as real
    else t
  }

  /** The windowed sinc at a clamped time `t`: `cos(pi t / w / 2)^2` times `sin(pi t) / (pi t)`,
      with 1 where `pi t == 0`. */
  function KernelTap(p: Primitives, lowpassFilterWidth: nat, t: real): real
    requires lowpassFilterWidth > 0
  {
    var window := p.cosTurns(t / (4.0 * lowpassFilterWidth as real));
    var sinc := if p.pi * t == 0.0 then 1.0 else p.sinHalfTurns(t) / (p.pi * t);
    sinc * (window * window)
  }

  /** The unscaled filter of phase `i`: one tap per entry of `arange(-width, width + orig)`. */
  function PhaseRow(p: Primitives, orig: nat, newRate: nat, lowpassFilterWidth: nat, width: nat, base: real, i: nat)
    : (row: seq<real>)
    requires orig > 0 && newRate > 0 && lowpassFilterWidth > 0
    ensures |row| == 2 * width + orig
    ensures forall j :: 0 <= j < |row| ==>
      row[j] == KernelTap(p, lowpassFilterWidth, Clamp(Position(i, j, orig, newRate, width, base), lowpassFilterWidth))
  {
    seq(2 * width + orig, j requires 0 <= j < 2 * width + orig =>
      KernelTap(p, lowpassFilterWidth, Clamp(Position(i, j, orig, newRate, width, base), lowpassFilterWidth)))
  }

  /** The first tap of every phase lies a full half-width or more before the phase's
      output time, so the clamp pins it at `-lowpass_filter_width`. */
  lemma FirstTapClamped(orig: nat, newRate: nat, lowpassFilterWidth: nat, i: nat)
    requires orig > 0 && newRate > 0 && lowpassFilterWidth > 0 && i < newRate
    ensures var base := BaseFreq(orig, newRate);
      Clamp(Position(i, 0, orig, newRate, Width(lowpassFilterWidth, orig, base), base), lowpassFilterWidth)
        == -(lowpassFilterWidth as real)
  {
    var base := BaseFreq(orig, newRate);
    FirstPositionBelow(i, orig, newRate, lowpassFilterWidth, Width(lowpassFilterWidth, orig, base), base);
  }

  /** Tap 0 of phase `i` lies at least `lowpass_filter_width` cutoff periods back once the
      half-width `w` reaches `lowpass_filter_width * orig / base` samples. */
  lemma FirstPositionBelow(i: nat, orig: nat, newRate: nat, lowpassFilterWidth: nat, w: nat, base: real)
    requires orig > 0 && newRate > 0 && base > 0.0
    requires w as real >= (lowpassFilterWidth * orig) as real / base
    ensures Position(i, 0, orig, newRate, w, base) <= -(lowpassFilterWidth as real)
  {
    var l, o := lowpassFilterWidth as real, orig as real;
    ProductAsReal(lowpassFilterWidth, orig);
    WidthReachesCutoff(l, o, w as real, base);
    var a := (i as real) / (newRate as real);
    NonNegativeProduct(a, base);
    FirstPosition(i, orig, newRate, w, base);
    var u, v := a * base, ((w as real) / o) * base;
    var t := Position(i, 0, orig, newRate, w, base);
    assert t == -u - v && u >= 0.0 && v >= l;
  }

  /** The position of tap 0, split into the phase's delay and the half-width. */
  lemma FirstPosition(i: nat, orig: nat, newRate: nat, w: nat, base: real)
    requires orig > 0 && newRate > 0
    ensures Position(i, 0, orig, newRate, w, base) ==
      -(((i as real) / (newRate as real)) * base) - ((w as real) / (orig as real)) * base
  {
    assert ((0 - w) as real) / (orig as real) == -((w as real) / (orig as real));
  }

  lemma ProductAsReal(x: nat, y: nat)
    ensures (x * y) as real == (x as real) * (y as real)
  {
  }

  /** A half-width of at least `l * o / base` samples spans `l` cutoff periods. */
  lemma WidthReachesCutoff(l: real, o: real, w: real, base: real)
    requires o > 0.0 && base > 0.0 && w >= (l * o) / base
    ensures (w / o) * base >= l
  {
    var x := (l * o) / base;
    assert x * base == l * o;
    assert w * base >= x * base;
    assert (w / o) * base == (w * base) / o;
    assert (w * base) / o >= (l * o) / o;
  }

  lemma NonNegativeProduct(u: real, v: real)
    requires u >= 0.0 && v >= 0.0
    ensures u * v >= 0.0
  {
  }

  /** The `newRate` phase filters, before scaling. */
  function Phases(p: Primitives, orig: nat, newRate: nat, lowpassFilterWidth: nat, width: nat, base: real)
    : (rows: Matrix)
    requires orig > 0 && newRate > 0 && lowpassFilterWidth > 0
    ensures IsMatrix(rows, newRate, 2 * width + orig)
    ensures forall i :: 0 <= i < newRate ==> rows[i] == PhaseRow(p, orig, newRate, lowpassFilterWidth, width, base, i)
  {
    seq(newRate, i requires 0 <= i < newRate => PhaseRow(p, orig, newRate, lowpassFilterWidth, width, base, i))
  }

  /** One filter multiplied by `scale`. */
  function ScaleRow(row: seq<real>, scale: real): (r: seq<real>)
    ensures |r| == |row|
    ensures forall j :: 0 <= j < |row| ==> r[j] == row[j] * scale
  {
    seq(|row|, j requires 0 <= j < |row| => row[j] * scale)
  }

  /** Every filter multiplied by `scale` (`mul_(scale)` on the stacked filters). */
  function ScaleRows(x: Matrix, scale: real): (r: Matrix)
    ensures |r| == |x|
    ensures forall i :: 0 <= i < |x| ==> r[i] == ScaleRow(x[i], scale)
  {
    seq(|x|, i requires 0 <= i < |x| => ScaleRow(x[i], scale))
  }

  /** The filter bank and its half-width. */
  datatype Kernel = Kernel(filters: Matrix, width: nat)

  /** `_get_sinc_resample_kernel`: the width assertion, the division by the cutoff (zero
      when a rate is zero), and `newRate` filters of `2 * width + orig` taps, filter `i`
      sampled at `Position(i, j)`, clamped, and scaled by `base / orig`. */
  function SincResampleKernel(orig: nat, newRate: nat, lowpassFilterWidth: int, p: Primitives): (r: Result<Kernel>)
    ensures r.Ok? <==> lowpassFilterWidth > 0 && orig > 0 && newRate > 0
    ensures r.Ok? ==> IsMatrix(r.value.filters, newRate, 2 * r.value.width + orig)
    ensures r.Ok? ==> r.value.width == Width(lowpassFilterWidth, orig, BaseFreq(orig, newRate))
    ensures r.Ok? ==> forall i :: 0 <= i < newRate ==>
      r.value.filters[i] == ScaleRow(PhaseRow(p, orig, newRate, lowpassFilterWidth, r.value.width, BaseFreq(orig, newRate), i),
                                     BaseFreq(orig, newRate) / orig as real)
  {
    if lowpassFilterWidth <= 0 then Err(AssertionFailed)
    else
      var base := BaseFreq(orig, newRate);
      if base == 0.0 then Err(DivisionByZero)
      else
        var width := Width(lowpassFilterWidth, orig, base);
        var filters := ScaleRows(Phases(p, orig, newRate, lowpassFilterWidth, width, base), base / orig as real);
        Ok(Kernel(filters, width))
  }

  /** One phase's filter, computed as the source does it in place: the positions, then
      `clamp_`, then the windowed sinc. */
  method PhaseTaps(p: Primitives, orig: nat, newRate: nat, lowpassFilterWidth: nat, width: nat, base: real, i: nat)
    returns (row: seq<real>)
    requires orig > 0 && newRate > 0 && lowpassFilterWidth > 0
    ensures row == PhaseRow(p, orig, newRate, lowpassFilterWidth, width, base, i)
  {
    var n := 2 * width + orig;
    var t := new real[n];
    for j := 0 to n
      invariant forall j' :: 0 <= j' < j ==> t[j'] == Position(i, j', orig, newRate, width, base)
    {
      t[j] := (-(i as real) / (newRate as real) + ((j - width) as real) / (orig as real)) * base;
    }
    for j := 0 to n
      invariant forall j' :: 0 <= j' < j ==> t[j'] == Clamp(Position(i, j', orig, newRate, width, base), lowpassFilterWidth)
      invariant forall j' :: j <= j' < n ==> t[j'] == Position(i, j', orig, newRate, width, base)
    {
      if t[j] < -(lowpassFilterWidth as real) {
        t[j] := -(lowpassFilterWidth as real);
      } else if t[j] > lowpassFilterWidth as real {
        t[j] := lowpassFilterWidth as real;
      }
    }
    for j := 0 to n
      invariant forall j' :: 0 <= j' < j ==>
        t[j'] == KernelTap(p, lowpassFilterWidth, Clamp(Position(i, j', orig, newRate, width, base), lowpassFilterWidth))
      invariant forall j' :: j <= j' < n ==> t[j'] == Clamp(Position(i, j', orig, newRate, width, base), lowpassFilterWidth)
    {
      t[j] := KernelTap(p, lowpassFilterWidth, t[j]);
    }
    row := t[..];
  }

  /** `_get_sinc_resample_kernel`, with its loop over the phases appending to `kernels`. */
  method GetSincResampleKernel(orig: nat, newRate: nat, lowpassFilterWidth: int, p: Primitives) returns (r: Result<Kernel>)
    ensures r == SincResampleKernel(orig, newRate, lowpassFilterWidth, p)
  {
    if lowpassFilterWidth <= 0 {
      return Err(AssertionFailed);
    }
    var base := BaseFreq(orig, newRate);
    if base == 0.0 {
      return Err(DivisionByZero);
    }
    var width := Width(lowpassFilterWidth, orig, base);
    var kernels: Matrix := [];
    for i := 0 to newRate
      invariant |kernels| == i
      invariant forall i' :: 0 <= i' < i ==> kernels[i'] == PhaseRow(p, orig, newRate, lowpassFilterWidth, width, base, i')
    {
      var row := PhaseTaps(p, orig, newRate, lowpassFilterWidth, width, base, i);
      kernels := kernels + [row];
    }
    assert kernels == Phases(p, orig, newRate, lowpassFilterWidth, width, base);
    return Ok(Kernel(ScaleRows(kernels, base / orig as real), width));
  }

  /** `F.pad(row, (left, right))`. */
  function ZeroPad(row: seq<real>, left: nat, right: nat): (r: seq<real>)
    ensures |r| == left + |row| + right
    ensures r[left .. left + |row|] == row
    ensures forall k :: 0 <= k < left || left + |row| <= k < |r| ==> r[k] == 0.0
  {
    Zeros(left) + row + Zeros(right)
  }

  /** Output `s` of one `conv1d` channel with stride `stride`: the filter against the
      window of the padded input starting at `s * stride`. */
  function ConvAt(padded: seq<real>, taps: seq<real>, stride: nat, s: nat): real
    requires s * stride + |taps| <= |padded|
  {
    Dot(taps, padded[s * stride .. s * stride + |taps|])
  }

  /** The number of outputs per phase: `(length + 2 width + orig - (2 width + orig)) / orig + 1`. */
  function OutputsPerPhase(length: nat, orig: nat): nat
    requires orig > 0
  {
    length / orig + 1
  }

  /** Every output window of every phase lies inside the padded row. */
  lemma WindowsFit(length: nat, orig: nat, width: nat, s: nat)
    requires orig > 0 && s < OutputsPerPhase(length, orig)
    ensures s * orig + (2 * width + orig) <= width + length + (width + orig)
  {
    DivMod(length, orig);
    assert s <= length / orig;
    assert s * orig <= (length / orig) * orig;
  }

  /** The truncation is well defined: `ceil(new * length / orig)` outputs never exceed
      the `newRate * (length / orig + 1)` the phases produce. */
  lemma TargetLengthFits(length: nat, orig: nat, newRate: nat)
    requires orig > 0
    ensures CeilDiv(newRate * length, orig) <= newRate * OutputsPerPhase(length, orig)
  {
    var q := length / orig;
    var n := newRate * (q + 1);
    DivMod(length, orig);
    assert length <= (q + 1) * orig;
    ScaleMonotoneNat((q + 1) * orig, length, newRate);
    assert newRate * length <= n * orig by {
      Regroup(q + 1, orig, newRate);
      Regroup(newRate, q + 1, orig);
    }
    var c := CeilDiv(newRate * length, orig);
    if c > n {
      ScaleMonotoneNat(c - 1, n, orig);
    }
  }

  /** Output `t` of a row of `length` samples: phase `t % new`'s filter against the padded
      row from input offset `(t / new) * orig`. */
  function OutputSample(row: seq<real>, k: Kernel, orig: nat, newRate: nat, t: nat): real
    requires orig > 0 && newRate > 0 && IsMatrix(k.filters, newRate, 2 * k.width + orig)
    requires t < newRate * OutputsPerPhase(|row|, orig)
  {
    PhaseInRange(|row|, orig, newRate, t);
    WindowsFit(|row|, orig, k.width, t / newRate);
    ConvAt(ZeroPad(row, k.width, k.width + orig), k.filters[t % newRate], orig, t / newRate)
  }

  /** Input sample `m` of a row, zero outside it (the zero padding `conv1d` sees). */
  function InputAt(row: seq<real>, m: int): real
  {
    if 0 <= m < |row| then row[m] else 0.0
  }

  /** Output `t` is the sum over the taps `j` of phase `t % new`'s filter times input
      sample `(t / new) * orig + j - width`, zero off the row; with
      `PositionIsSampleTime` each tap's weight is the windowed sinc at that sample's time
      minus output `t`'s time. */
  lemma OutputSampleIsTapSum(row: seq<real>, k: Kernel, orig: nat, newRate: nat, t: nat)
    requires orig > 0 && newRate > 0 && IsMatrix(k.filters, newRate, 2 * k.width + orig)
    requires t < newRate * OutputsPerPhase(|row|, orig)
    ensures OutputSample(row, k, orig, newRate, t)
      == Dot(k.filters[t % newRate],
             seq(2 * k.width + orig, j => InputAt(row, (t / newRate) * orig + j - k.width)))
  {
    PhaseInRange(|row|, orig, newRate, t);
    WindowsFit(|row|, orig, k.width, t / newRate);
    PaddedWindowIsSamples(row, k.width, orig, (t / newRate) * orig);
  }

  /** The window of the padded row starting at `start` holds input samples
      `start - width ..`, zero off the row. */
  lemma PaddedWindowIsSamples(row: seq<real>, width: nat, orig: nat, start: nat)
    requires start + 2 * width + orig <= 2 * width + |row| + orig
    ensures ZeroPad(row, width, width + orig)[start .. start + 2 * width + orig]
      == seq(2 * width + orig, j => InputAt(row, start + j - width))
  {
    var padded := ZeroPad(row, width, width + orig);
    var window := padded[start .. start + 2 * width + orig];
    var samples := seq(2 * width + orig, j => InputAt(row, start + j - width));
    forall j | 0 <= j < 2 * width + orig
      ensures window[j] == samples[j]
    {
      var n := start + j;
      assert window[j] == padded[n];
      assert samples[j] == InputAt(row, n - width);
      if width <= n < width + |row| {
        assert padded[n] == padded[width .. width + |row|][n - width] == row[n - width];
      } else {
        assert padded[n] == 0.0;
      }
    }
  }

  /** The output index `t` falls in a produced phase slot. */
  lemma PhaseInRange(length: nat, orig: nat, newRate: nat, t: nat)
    requires orig > 0 && newRate > 0 && t < newRate * OutputsPerPhase(length, orig)
    ensures t / newRate < OutputsPerPhase(length, orig)
  {
    DivMod(t, newRate);
    if t / newRate >= OutputsPerPhase(length, orig) {
      ScaleMonotoneNat(t / newRate, OutputsPerPhase(length, orig), newRate);
    }
  }

  lemma ScaleMonotoneNat(u: nat, v: nat, c: nat)
    requires u >= v
    ensures u * c >= v * c
  {
  }

  /** The samples of the output of one row. */
  function ResampledLength(length: nat, orig: nat, newRate: nat): nat
    requires orig > 0
  {
    CeilDiv(newRate * length, orig)
  }

  /** One waveform row resampled: the phases' convolutions interleaved, cut to
      `ceil(new * length / orig)` samples. */
  function ResampleRow(row: seq<real>, k: Kernel, orig: nat, newRate: nat): (r: seq<real>)
    requires orig > 0 && newRate > 0 && IsMatrix(k.filters, newRate, 2 * k.width + orig)
    ensures |r| == ResampledLength(|row|, orig, newRate)
    ensures |r| <= newRate * OutputsPerPhase(|row|, orig)
    ensures forall t :: 0 <= t < |r| ==> r[t] == OutputSample(row, k, orig, newRate, t)
  {
    var target := ResampledLength(|row|, orig, newRate);
    TargetLengthFits(|row|, orig, newRate);
    seq(target, t requires 0 <= t < target => OutputSample(row, k, orig, newRate, t))
  }

  /** The rates after `int()` and the gcd reduction. */
  datatype Rates = Rates(orig: nat, newRate: nat)

  /** `int(orig_freq)`, `int(new_freq)` (truncation of positive floats) divided by their gcd. */
  function ReducedRates(origFreq: real, newFreq: real): (r: Result<Rates>)
    requires origFreq > 0.0 && newFreq > 0.0
    ensures r.Ok? <==> origFreq >= 1.0 || newFreq >= 1.0
    ensures r.Ok? ==> r.value.orig * Gcd(origFreq.Floor, newFreq.Floor) == origFreq.Floor
    ensures r.Ok? ==> r.value.newRate * Gcd(origFreq.Floor, newFreq.Floor) == newFreq.Floor
    ensures r.Ok? ==> Gcd(r.value.orig, r.value.newRate) == 1
  {
    var o, n: nat := origFreq.Floor, newFreq.Floor;
    var g := Gcd(o, n);
    GcdDividesBoth(o, n);
    if g == 0 then Err(IntegerDivisionByZero)
    else
      DivMod(o, g);
      DivMod(n, g);
      ReducedCoprime(o, n);
      Ok(Rates(o / g, n / g))
  }

  /** Equal rates reduce to 1 / 1: one phase, advancing one input sample per output. */
  lemma ReducedRatesEqual(f: real)
    requires f >= 1.0
    ensures ReducedRates(f, f) == Ok(Rates(1, 1))
  {
    GcdSelf(f.Floor);
  }

  /** The reduction is stable: reducing the reduced rates again leaves them unchanged. */
  lemma ReducedRatesIdempotent(origFreq: real, newFreq: real)
    requires origFreq >= 1.0 && newFreq >= 1.0
    ensures ReducedRates(origFreq, newFreq).value.orig > 0
    ensures ReducedRates(origFreq, newFreq).value.newRate > 0
    ensures var r := ReducedRates(origFreq, newFreq).value;
      ReducedRates(r.orig as real, r.newRate as real) == Ok(r)
  {
    var r := ReducedRates(origFreq, newFreq).value;
    var g := Gcd(origFreq.Floor, newFreq.Floor);
    assert r.orig * g >= 1 && r.newRate * g >= 1;
    assert (r.orig as real).Floor == r.orig && (r.newRate as real).Floor == r.newRate;
    assert Gcd(r.orig, r.newRate) == 1;
  }

  /** Every channel resampled with the same kernel. */
  function ResampleRows(waveform: Matrix, k: Kernel, orig: nat, newRate: nat): (r: Matrix)
    requires orig > 0 && newRate > 0 && IsMatrix(k.filters, newRate, 2 * k.width + orig)
    ensures |r| == |waveform|
    ensures forall c :: 0 <= c < |r| ==> r[c] == ResampleRow(waveform[c], k, orig, newRate)
  {
    seq(|waveform|, c requires 0 <= c < |waveform| => ResampleRow(waveform[c], k, orig, newRate))
  }

  /** The resampler after the gcd reduction: the kernel's errors, then the reshape of the
      convolution output, which torch refuses when there are no channels, then every
      channel resampled to `ceil(new * length / orig)` samples. */
  function ResampleReduced(waveform: Matrix, orig: nat, newRate: nat, lowpassFilterWidth: int, p: Primitives)
    : (r: Result<Matrix>)
    ensures r.Ok? <==> orig > 0 && newRate > 0 && lowpassFilterWidth > 0 && |waveform| > 0
    ensures SincResampleKernel(orig, newRate, lowpassFilterWidth, p).Ok? && |waveform| == 0 ==>
      r == Err(AmbiguousReshape)
    ensures r.Ok? ==> r.value == ResampleRows(waveform, SincResampleKernel(orig, newRate, lowpassFilterWidth, p).value, orig, newRate)
  {
    var kernel := SincResampleKernel(orig, newRate, lowpassFilterWidth, p);
    if kernel.Err? then Err(kernel.message)
    else if |waveform| == 0 then Err(AmbiguousReshape)
    else Ok(ResampleRows(waveform, kernel.value, orig, newRate))
  }

  /** `resample_waveform` on a (channels, length) waveform: the rate assertion, `int()` and
      the gcd reduction, and the reduced resampler. A rate below 1 truncates to 0 and makes
      a division fail. */
  function ResampleOf(waveform: Matrix, length: nat, origFreq: real, newFreq: real, lowpassFilterWidth: int,
                      p: Primitives): (r: Result<Matrix>)
    requires IsMatrix(waveform, |waveform|, length)
    ensures r.Ok? <==> origFreq >= 1.0 && newFreq >= 1.0 && lowpassFilterWidth > 0 && |waveform| > 0
    ensures r.Ok? ==> origFreq > 0.0 && newFreq > 0.0 && ReducedRates(origFreq, newFreq).Ok?
    ensures r.Ok? ==> var rates := ReducedRates(origFreq, newFreq).value;
      r == ResampleReduced(waveform, rates.orig, rates.newRate, lowpassFilterWidth, p)
  {
    if !(origFreq > 0.0 && newFreq > 0.0) then Err(AssertionFailed)
    else
      var rates := ReducedRates(origFreq, newFreq);
      if rates.Err? then Err(rates.message)
      else ResampleReduced(waveform, rates.value.orig, rates.value.newRate, lowpassFilterWidth, p)
  }

  /** `resample_waveform`, building the kernel with its phase loop. */
  method ResampleWaveform(waveform: Matrix, length: nat, origFreq: real, newFreq: real, lowpassFilterWidth: int,
                          p: Primitives) returns (r: Result<Matrix>)
    requires IsMatrix(waveform, |waveform|, length)
    ensures r == ResampleOf(waveform, length, origFreq, newFreq, lowpassFilterWidth, p)
  {
    if !(origFreq > 0.0 && newFreq > 0.0) {
      return Err(AssertionFailed);
    }
    var rates := ReducedRates(origFreq, newFreq);
    if rates.Err? {
      return Err(rates.message);
    }
    var orig, newRate := rates.value.orig, rates.value.newRate;
    var kernel := GetSincResampleKernel(orig, newRate, lowpassFilterWidth, p);
    if kernel.Err? {
      return Err(kernel.message);
    }
    if |waveform| == 0 {
      return Err(AmbiguousReshape);
    }
    return Ok(ResampleRows(waveform, kernel.value, orig, newRate));
  }
}

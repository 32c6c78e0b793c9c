/** Shared vocabulary of the Kaldi-compatible front end: results with an error path,
    real matrices given row by row, sums, and the numeric primitives (logarithm,
    exponential, trigonometry, the FFT) that the front end consumes but does not define. */
module Common {

  /** The value of a call, or the exception (a failed `assert`, a Python error) it raises. */
  datatype Result<T> = Ok(value: T) | Err(message: string)

  /** A dense real matrix, row by row. */
  type Matrix = seq<seq<real>>

  /** `x` has shape (rows, cols). */
  predicate IsMatrix(x: Matrix, rows: nat, cols: nat) {
    |x| == rows && forall i :: 0 <= i < |x| ==> |x[i]| == cols
  }

  function Max(a: real, b: real): real { if a >= b then a else b }

  function Min(a: real, b: real): real { if a <= b then a else b }

  function Sum(s: seq<real>): real {
    if |s| == 0 then 0.0 else s[0] + Sum(s[1..])
  }

  /** The sum of squares, `x.pow(2).sum()`. */
  function SumSquares(s: seq<real>): real {
    if |s| == 0 then 0.0 else s[0] * s[0] + SumSquares(s[1..])
  }

  /** The dot product, the reduction inside a matrix product or a convolution. */
  function Dot(a: seq<real>, b: seq<real>): real
    requires |a| == |b|
  {
    if |a| == 0 then 0.0 else a[0] * b[0] + Dot(a[1..], b[1..])
  }

  function Zeros(n: nat): (r: seq<real>)
    ensures |r| == n && forall k :: 0 <= k < n ==> r[k] == 0.0
  {
    seq(n, k => 0.0)
  }

  /** The mean of a non-empty row. */
  function Mean(s: seq<real>): real
    requires |s| > 0
  {
    Sum(s) / (|s| as real)
  }

  /** Column `j` of a matrix whose rows all have more than `j` entries. */
  function Column(x: Matrix, j: nat): (c: seq<real>)
    requires forall i :: 0 <= i < |x| ==> j < |x[i]|
    ensures |c| == |x| && forall i :: 0 <= i < |x| ==> c[i] == x[i][j]
  {
    seq(|x|, i requires 0 <= i < |x| => x[i][j])
  }

  /** The transcendental functions the front end calls, left uninterpreted. */
  datatype Primitives = Primitives(
    log: real -> real,          // natural logarithm (math.log, Tensor.log)
    exp: real -> real,          // exponential
    sqrt: real -> real,         // square root
    cosTurns: real -> real,     // x |-> cos(2 * pi * x)
    pow085: real -> real,       // x |-> x ** 0.85
    sinHalfTurns: real -> real, // x |-> sin(pi * x)
    pi: real,                   // math.pi
    epsilon: real)              // the float32 machine epsilon

  /** The one property of the logarithm the lemmas rely on: it is strictly increasing on
      the positive reals. */
  ghost predicate LogIncreasing(log: real -> real) {
    forall x, y :: 0.0 < x < y ==> log(x) < log(y)
  }

  /** The contract of the real FFT collaborator: a frame of length L has L/2 + 1 bins.
      `rfftAbs(x)` stands for `rfft(x).abs()`. */
  ghost predicate IsHalfSpectrum(rfftAbs: seq<real> -> seq<real>) {
    forall x :: |rfftAbs(x)| == |x| / 2 + 1
  }

  lemma {:induction false} SumConcat(a: seq<real>, b: seq<real>)
    ensures Sum(a + b) == Sum(a) + Sum(b)
  {
    if |a| > 0 {
      assert (a + b)[1..] == a[1..] + b;
      SumConcat(a[1..], b);
    } else {
      assert a + b == b;
    }
  }

  lemma {:induction false} SumSquaresConcat(a: seq<real>, b: seq<real>)
    ensures SumSquares(a + b) == SumSquares(a) + SumSquares(b)
  {
    if |a| > 0 {
      assert (a + b)[1..] == a[1..] + b;
      SumSquaresConcat(a[1..], b);
    } else {
      assert a + b == b;
    }
  }

  lemma {:induction false} SumSquaresZeros(n: nat)
    ensures SumSquares(Zeros(n)) == 0.0
  {
    if n > 0 {
      assert Zeros(n)[1..] == Zeros(n - 1);
      SumSquaresZeros(n - 1);
    }
  }

  lemma {:induction false} SumSquaresNonNegative(s: seq<real>)
    ensures SumSquares(s) >= 0.0
  {
    if |s| > 0 {
      SumSquaresNonNegative(s[1..]);
    }
  }

  /** Subtracting `c` from every entry lowers the sum by `|s| * c`. */
  lemma {:induction false} SumMinusConstant(s: seq<real>, c: real)
    ensures Sum(seq(|s|, k requires 0 <= k < |s| => s[k] - c)) == Sum(s) - (|s| as real) * c
  {
    var t := seq(|s|, k requires 0 <= k < |s| => s[k] - c);
    if |s| > 0 {
      assert t[1..] == seq(|s[1..]|, k requires 0 <= k < |s[1..]| => s[1..][k] - c);
      SumMinusConstant(s[1..], c);
    }
  }

  /** A dot product against a constant vector is a scaled sum. */
  lemma {:induction false} DotConstant(a: seq<real>, b: seq<real>, c: real)
    requires |a| == |b|
    requires forall k :: 0 <= k < |b| ==> b[k] == c
    ensures Dot(a, b) == c * Sum(a)
  {
    if |a| > 0 {
      DotConstant(a[1..], b[1..], c);
    }
  }

  /** The sum of an all-zero row. */
  lemma {:induction false} SumOfZeros(s: seq<real>)
    requires forall k :: 0 <= k < |s| ==> s[k] == 0.0
    ensures Sum(s) == 0.0 && SumSquares(s) == 0.0
  {
    if |s| > 0 {
      SumOfZeros(s[1..]);
    }
  }

  lemma {:induction false} DotZeros(a: seq<real>, b: seq<real>)
    requires |a| == |b|
    requires forall k :: 0 <= k < |a| ==> a[k] == 0.0
    ensures Dot(a, b) == 0.0
  {
    if |a| > 0 {
      DotZeros(a[1..], b[1..]);
    }
  }
}

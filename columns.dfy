/** Column manipulations of the feature matrices: the in-place column overwrites and
    scalings done on tensors (held here in 2-D arrays), the column-mean subtraction,
    and the energy-column layouts of `fbank` and `mfcc`. */
module Columns {
  import opened Common

  /** The matrix an array holds. */
  function ToMatrix(a: array2<real>): (x: Matrix)
    reads a
    ensures IsMatrix(x, a.Length0, a.Length1)
    ensures forall i, j :: 0 <= i < a.Length0 && 0 <= j < a.Length1 ==> x[i][j] == a[i, j]
  {
    seq(a.Length0, i requires 0 <= i < a.Length0 reads a =>
      seq(a.Length1, j requires 0 <= j < a.Length1 reads a => a[i, j]))
  }

  /** A fresh array holding a (rows, cols) matrix. */
  method FromMatrix(x: Matrix, rows: nat, cols: nat) returns (a: array2<real>)
    requires IsMatrix(x, rows, cols)
    ensures fresh(a) && a.Length0 == rows && a.Length1 == cols
    ensures ToMatrix(a) == x
  {
    a := new real[rows, cols];
    for i := 0 to rows
      invariant forall i', j :: 0 <= i' < i && 0 <= j < cols ==> a[i', j] == x[i'][j]
    {
      for j := 0 to cols
        invariant forall i', j' :: 0 <= i' < i && 0 <= j' < cols ==> a[i', j'] == x[i'][j']
        invariant forall j' :: 0 <= j' < j ==> a[i, j'] == x[i][j']
      {
        a[i, j] := x[i][j];
      }
    }
    assert forall i :: 0 <= i < rows ==> ToMatrix(a)[i] == x[i];
  }

  /** `x` with column `j` replaced by `v`. */
  function WithColumn(x: Matrix, j: nat, v: seq<real>): (r: Matrix)
    requires |v| == |x| && forall i :: 0 <= i < |x| ==> j < |x[i]|
    ensures |r| == |x| && forall i :: 0 <= i < |x| ==> |r[i]| == |x[i]|
    ensures Column(r, j) == v
    ensures forall i, k :: 0 <= i < |x| && 0 <= k < |x[i]| && k != j ==> r[i][k] == x[i][k]
  {
    seq(|x|, i requires 0 <= i < |x| => x[i][j := v[i]])
  }

  /** `a[:, j] = v`: overwrites column `j` in place. */
  method SetColumn(a: array2<real>, j: nat, v: seq<real>)
    requires j < a.Length1 && |v| == a.Length0
    modifies a
    ensures ToMatrix(a) == WithColumn(old(ToMatrix(a)), j, v)
  {
    ghost var before := ToMatrix(a);
    for i := 0 to a.Length0
      invariant forall i', k :: 0 <= i' < a.Length0 && 0 <= k < a.Length1 ==>
        a[i', k] == if i' < i && k == j then v[i'] else before[i'][k]
    {
      a[i, j] := v[i];
    }
    assert forall i :: 0 <= i < a.Length0 ==> ToMatrix(a)[i] == WithColumn(before, j, v)[i];
  }

  /** `x` with every column `k` multiplied by `coeffs[k]`. */
  function ScaledColumns(x: Matrix, coeffs: seq<real>): (r: Matrix)
    requires forall i :: 0 <= i < |x| ==> |x[i]| == |coeffs|
    ensures IsMatrix(r, |x|, |coeffs|)
    ensures forall i, k :: 0 <= i < |x| && 0 <= k < |coeffs| ==> r[i][k] == x[i][k] * coeffs[k]
  {
    seq(|x|, i requires 0 <= i < |x| =>
      seq(|coeffs|, k requires 0 <= k < |coeffs| => x[i][k] * coeffs[k]))
  }

  /** `a *= coeffs` with `coeffs` broadcast along the rows. */
  method ScaleColumns(a: array2<real>, coeffs: seq<real>)
    requires |coeffs| == a.Length1
    modifies a
    ensures ToMatrix(a) == ScaledColumns(old(ToMatrix(a)), coeffs)
  {
    ghost var before := ToMatrix(a);
    for i := 0 to a.Length0
      invariant forall i', k :: 0 <= i' < a.Length0 && 0 <= k < a.Length1 ==>
        a[i', k] == if i' < i then before[i'][k] * coeffs[k] else before[i'][k]
    {
      for k := 0 to a.Length1
        invariant forall i', k' :: 0 <= i' < a.Length0 && 0 <= k' < a.Length1 ==>
          a[i', k'] == if i' < i || (i' == i && k' < k) then before[i'][k'] * coeffs[k'] else before[i'][k']
      {
        a[i, k] := a[i, k] * coeffs[k];
      }
    }
    forall i | 0 <= i < a.Length0 ensures ToMatrix(a)[i] == ScaledColumns(before, coeffs)[i] {
      assert forall k :: 0 <= k < a.Length1 ==> ToMatrix(a)[i][k] == ScaledColumns(before, coeffs)[i][k];
    }
  }

  /** The mean of every column of a non-empty (m, cols) matrix. */
  function ColumnMeans(x: Matrix, cols: nat): (c: seq<real>)
    requires |x| > 0 && IsMatrix(x, |x|, cols)
    ensures |c| == cols && forall j :: 0 <= j < cols ==> c[j] == Mean(Column(x, j))
  {
    seq(cols, j requires 0 <= j < cols => Mean(Column(x, j)))
  }

  /** `_subtract_column_mean`: with `subtractMean`, every column has its mean removed and
      then sums to zero; a matrix without rows is returned as it is. */
  function SubtractColumnMean(x: Matrix, cols: nat, subtractMean: bool): (r: Matrix)
    requires IsMatrix(x, |x|, cols)
    ensures IsMatrix(r, |x|, cols)
    ensures !subtractMean || |x| == 0 ==> r == x
    ensures subtractMean && |x| > 0 ==> forall i, j :: 0 <= i < |x| && 0 <= j < cols ==>
      r[i][j] == x[i][j] - Mean(Column(x, j))
    ensures subtractMean && |x| > 0 ==> forall j :: 0 <= j < cols ==> Sum(Column(r, j)) == 0.0
  {
    if !subtractMean || |x| == 0 then x
    else
      var means := ColumnMeans(x, cols);
      var r := seq(|x|, i requires 0 <= i < |x| =>
        seq(cols, j requires 0 <= j < cols => x[i][j] - means[j]));
      assert forall j :: 0 <= j < cols ==> Sum(Column(r, j)) == 0.0 by {
        forall j | 0 <= j < cols ensures Sum(Column(r, j)) == 0.0 {
          ColumnMinusMean(x, r, j, means[j]);
        }
      }
      r
  }

  /** Column `j` of `r` is column `j` of `x` less its mean, so it sums to zero. */
  lemma ColumnMinusMean(x: Matrix, r: Matrix, j: nat, c: real)
    requires |x| > 0 && |r| == |x|
    requires forall i :: 0 <= i < |x| ==> j < |x[i]| && j < |r[i]| && r[i][j] == x[i][j] - c
    requires c == Mean(Column(x, j))
    ensures Sum(Column(r, j)) == 0.0
  {
    var col := Column(x, j);
    assert Column(r, j) == seq(|col|, k requires 0 <= k < |col| => col[k] - c);
    SumMinusConstant(col, c);
  }

  /** Subtracting the column means twice is the same as once. */
  lemma SubtractColumnMeanIdempotent(x: Matrix, cols: nat)
    requires IsMatrix(x, |x|, cols)
    ensures var once := SubtractColumnMean(x, cols, true);
      SubtractColumnMean(once, cols, true) == once
  {
    var once := SubtractColumnMean(x, cols, true);
    if |x| > 0 {
      var twice := SubtractColumnMean(once, cols, true);
      forall i | 0 <= i < |x| ensures twice[i] == once[i] {
        forall j | 0 <= j < cols ensures twice[i][j] == once[i][j] {
          assert Sum(Column(once, j)) == 0.0;
        }
      }
    }
  }

  /** Where `fbank` puts the energy: after the mel bins with `htk_compat`, before them
      otherwise. */
  function EnergyColumn(numMelBins: nat, htkCompat: bool): nat {
    if htkCompat then numMelBins else 0
  }

  /** The index of the first mel bin once the energy is attached. */
  function MelOffset(htkCompat: bool): nat {
    if htkCompat then 0 else 1
  }

  /** The `use_energy` tail of `fbank`: the energy column is concatenated last
      (`htk_compat`) or first. */
  function AttachEnergy(mel: Matrix, numMelBins: nat, energy: seq<real>, htkCompat: bool): (r: Matrix)
    requires IsMatrix(mel, |mel|, numMelBins) && |energy| == |mel|
    ensures IsMatrix(r, |mel|, numMelBins + 1)
    ensures forall i :: 0 <= i < |mel| ==> r[i] == AttachEnergyRow(mel[i], energy[i], htkCompat)
    ensures forall i :: 0 <= i < |mel| ==> r[i][EnergyColumn(numMelBins, htkCompat)] == energy[i]
    ensures forall i, k :: 0 <= i < |mel| && 0 <= k < numMelBins ==>
      r[i][k + MelOffset(htkCompat)] == mel[i][k]
  {
    seq(|mel|, i requires 0 <= i < |mel| => AttachEnergyRow(mel[i], energy[i], htkCompat))
  }

  /** One frame with its energy attached: last with `htk_compat`, first otherwise. */
  function AttachEnergyRow(mel: seq<real>, e: real, htkCompat: bool): (r: seq<real>)
    ensures |r| == |mel| + 1
    ensures r[EnergyColumn(|mel|, htkCompat)] == e
    ensures forall k :: 0 <= k < |mel| ==> r[k + MelOffset(htkCompat)] == mel[k]
  {
    if htkCompat then mel + [e] else [e] + mel
  }

  /** The split at the head of `mfcc` with `use_energy`: the energy column, and the
      `numMelBins` columns from the mel offset on. */
  function DetachEnergy(feature: Matrix, numMelBins: nat, htkCompat: bool): (r: (seq<real>, Matrix))
    requires IsMatrix(feature, |feature|, numMelBins + 1)
    ensures |r.0| == |feature| && IsMatrix(r.1, |feature|, numMelBins)
  {
    var off := MelOffset(htkCompat);
    (Column(feature, EnergyColumn(numMelBins, htkCompat)),
     seq(|feature|, i requires 0 <= i < |feature| => feature[i][off .. numMelBins + off]))
  }

  /** `mfcc` recovers exactly the energy and the mel energies that `fbank` attached. */
  lemma DetachAttachEnergy(mel: Matrix, numMelBins: nat, energy: seq<real>, htkCompat: bool)
    requires IsMatrix(mel, |mel|, numMelBins) && |energy| == |mel|
    ensures DetachEnergy(AttachEnergy(mel, numMelBins, energy, htkCompat), numMelBins, htkCompat) == (energy, mel)
  {
    var f := AttachEnergy(mel, numMelBins, energy, htkCompat);
    var d := DetachEnergy(f, numMelBins, htkCompat);
    var off := MelOffset(htkCompat);
    forall i | 0 <= i < |mel| ensures d.1[i] == mel[i] && d.0[i] == energy[i] {
      assert d.1[i] == f[i][off .. numMelBins + off];
      assert d.0[i] == f[i][EnergyColumn(numMelBins, htkCompat)];
      if htkCompat {
        assert f[i] == mel[i] + [energy[i]];
        assert (mel[i] + [energy[i]])[0 .. numMelBins] == mel[i];
      } else {
        assert f[i] == [energy[i]] + mel[i];
        assert ([energy[i]] + mel[i])[1 .. numMelBins + 1] == mel[i];
      }
    }
    assert d.1 == mel;
    assert d.0 == energy;
  }

  /** The `htk_compat` tail of `mfcc`: column 0 moves to the end, scaled by `sqrt2` unless
      it already holds the energy, and the other columns move left by one. */
  function HtkReorder(x: Matrix, cols: nat, useEnergy: bool, sqrt2: real): (r: Matrix)
    requires IsMatrix(x, |x|, cols) && cols >= 1
    ensures IsMatrix(r, |x|, cols)
    ensures forall i, k :: 0 <= i < |x| && 0 <= k < cols - 1 ==> r[i][k] == x[i][k + 1]
    ensures forall i :: 0 <= i < |x| ==>
      r[i][cols - 1] == if useEnergy then x[i][0] else x[i][0] * sqrt2
  {
    var energy := seq(|x|, i requires 0 <= i < |x| => x[i][0]);
    var scaled := if useEnergy then energy else seq(|x|, i requires 0 <= i < |x| => energy[i] * sqrt2);
    seq(|x|, i requires 0 <= i < |x| => x[i][1..] + [scaled[i]])
  }

  /** With `use_energy` the HTK layout only rotates each row. */
  lemma HtkReorderRotates(x: Matrix, cols: nat, sqrt2: real, i: nat)
    requires IsMatrix(x, |x|, cols) && cols >= 1 && i < |x|
    ensures multiset(HtkReorder(x, cols, true, sqrt2)[i]) == multiset(x[i])
  {
    var r := HtkReorder(x, cols, true, sqrt2);
    assert r[i] == x[i][1..] + [x[i][0]];
    assert x[i] == [x[i][0]] + x[i][1..];
  }
}

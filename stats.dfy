/** Sums and means over real samples (numpy's `sum`, `mean`, `mean(axis=0)`) in exact arithmetic. */
module Stats {

  datatype Option<T> = None | Some(value: T)

  /** A real or positive infinity (numpy's `np.inf`). */
  datatype Ext = Fin(val: real) | PosInf

  function Sum(s: seq<real>): real
    decreases |s|
  {
    if s == [] then 0.0 else Sum(s[..|s| - 1]) + s[|s| - 1]
  }

  /** `np.mean` of a non-empty sample. */
  function Mean(s: seq<real>): real
    requires |s| > 0
  {
    Sum(s) / |s| as real
  }

  /** Summing from the front gives the same total as summing from the back. */
  lemma {:induction false} SumCons(x: real, s: seq<real>)
    ensures Sum([x] + s) == x + Sum(s)
    decreases |s|
  {
    if s != [] {
      assert ([x] + s)[..|[x] + s| - 1] == [x] + s[..|s| - 1];
      SumCons(x, s[..|s| - 1]);
    }
  }

  /** The sum of values each in [lo, hi] lies in [n*lo, n*hi]. */
  lemma {:induction false} SumBounds(s: seq<real>, lo: real, hi: real)
    requires forall i :: 0 <= i < |s| ==> lo <= s[i] <= hi
    ensures |s| as real * lo <= Sum(s) <= |s| as real * hi
    decreases |s|
  {
    if s != [] {
      SumBounds(s[..|s| - 1], lo, hi);
    }
  }

  /** The sum of a constant sample. */
  lemma {:induction false} SumConstant(s: seq<real>, c: real)
    requires forall i :: 0 <= i < |s| ==> s[i] == c
    ensures Sum(s) == |s| as real * c
    decreases |s|
  {
    if s != [] {
      SumConstant(s[..|s| - 1], c);
    }
  }

  /** The mean of values each in [lo, hi] lies in [lo, hi]. */
  lemma MeanBounds(s: seq<real>, lo: real, hi: real)
    requires |s| > 0
    requires forall i :: 0 <= i < |s| ==> lo <= s[i] <= hi
    ensures lo <= Mean(s) <= hi
  {
    SumBounds(s, lo, hi);
    var n := |s| as real;
    assert n * lo <= Sum(s) <= n * hi;
    assert lo == (n * lo) / n;
    assert hi == (n * hi) / n;
  }

  /** The sum is monotone, pointwise. */
  lemma {:induction false} SumMonotone(a: seq<real>, b: seq<real>)
    requires |a| == |b|
    requires forall i :: 0 <= i < |a| ==> a[i] <= b[i]
    ensures Sum(a) <= Sum(b)
    decreases |a|
  {
    if a != [] {
      SumMonotone(a[..|a| - 1], b[..|b| - 1]);
    }
  }

  /** s[idx[0]], ..., s[idx[k-1]]: a resample of s at the given indices. */
  function Pick(s: seq<real>, idx: seq<int>): (r: seq<real>)
    requires forall i :: 0 <= i < |idx| ==> 0 <= idx[i] < |s|
    ensures |r| == |idx|
  {
    seq(|idx|, i requires 0 <= i < |idx| => s[idx[i]])
  }

  /** Column j of a matrix of rows. */
  function Column(rows: seq<seq<real>>, j: nat): (c: seq<real>)
    requires forall i :: 0 <= i < |rows| ==> j < |rows[i]|
    ensures |c| == |rows|
  {
    seq(|rows|, i requires 0 <= i < |rows| => rows[i][j])
  }

  /** Every row has exactly `width` entries. */
  predicate IsMatrix(rows: seq<seq<real>>, height: nat, width: nat)
  {
    |rows| == height && forall i :: 0 <= i < |rows| ==> |rows[i]| == width
  }

  /** `np.mean(rows, axis=0)` for a non-empty matrix. */
  function ColumnMeans(rows: seq<seq<real>>, width: nat): (r: seq<real>)
    requires |rows| > 0 && IsMatrix(rows, |rows|, width)
    ensures |r| == width
  {
    seq(width, j requires 0 <= j < width => Mean(Column(rows, j)))
  }

  function Square(x: real): (y: real)
    ensures y >= 0.0
  {
    x * x
  }

  /** Squared deviations of every sample from the sample mean. */
  function SquaredDeviations(s: seq<real>): (d: seq<real>)
    requires |s| > 0
    ensures |d| == |s|
    ensures forall i :: 0 <= i < |s| ==> d[i] >= 0.0
  {
    var m := Mean(s);
    seq(|s|, i requires 0 <= i < |s| => Square(s[i] - m))
  }

  /** `np.var(s, ddof=1)`: the unbiased sample variance, defined for two or more samples. */
  function SampleVariance(s: seq<real>): (v: real)
    requires |s| >= 2
    ensures v >= 0.0
  {
    var d := SquaredDeviations(s);
    SumMonotone(seq(|s|, i requires 0 <= i < |s| => 0.0), d);
    SumConstant(seq(|s|, i requires 0 <= i < |s| => 0.0), 0.0);
    Sum(d) / (|s| - 1) as real
  }

  /** `root` is a square root on the non-negative reals (the foreign `np.sqrt`). */
  ghost predicate IsSqrt(root: real -> real)
  {
    forall x :: x >= 0.0 ==> root(x) >= 0.0 && root(x) * root(x) == x
  }

  /** A square root applied to a non-negative value. */
  lemma RootOf(root: real -> real, x: real)
    requires IsSqrt(root) && x >= 0.0
    ensures root(x) >= 0.0 && root(x) * root(x) == x
  {
  }
}

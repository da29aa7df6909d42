/** The statistics `bootstrap_CI` reduces each bootstrap sample to, and how many values
    ("intervals") each of them has. Quantiles (numpy's linear interpolation) and square
    roots are foreign numeric calls and are passed in as functions. */
module Aggregates {
  import opened Stats
  import opened Curves

  /** The statistic a confidence interval is asked for. */
  datatype PlotType = MeanCurve | QuantileCurve | AreaMean | AreaStdDev | SolveTimeQuantile | Solvability

  /** The name the source uses for each statistic. */
  function PlotTypeName(pt: PlotType): string
  {
    match pt
    case MeanCurve => "mean"
    case QuantileCurve => "quantile"
    case AreaMean => "area_mean"
    case AreaStdDev => "area_std_dev"
    case SolveTimeQuantile => "solve_time_quantile"
    case Solvability => "solvability"
  }

  /** Reads a statistic's name; None for a name the source does not know (where it fails with
      `n_intervals` unbound). */
  function ParsePlotType(s: string): (r: Option<PlotType>)
    ensures r.Some? ==> PlotTypeName(r.value) == s
  {
    if s == "mean" then Some(MeanCurve)
    else if s == "quantile" then Some(QuantileCurve)
    else if s == "area_mean" then Some(AreaMean)
    else if s == "area_std_dev" then Some(AreaStdDev)
    else if s == "solve_time_quantile" then Some(SolveTimeQuantile)
    else if s == "solvability" then Some(Solvability)
    else None
  }

  /** Every statistic is read back from its own name. */
  lemma ParseName(pt: PlotType)
    ensures ParsePlotType(PlotTypeName(pt)) == Some(pt)
  {
    match pt
    case MeanCurve =>
    case QuantileCurve =>
      assert "quantile" != "mean";
    case AreaMean =>
    case AreaStdDev =>
    case SolveTimeQuantile =>
    case Solvability =>
      assert "solvability" != "solve_time_quantile";
  }

  /** `n_intervals`: one value per grid point for the curve statistics, one value otherwise. */
  function NIntervals(pt: PlotType, width: nat): nat
  {
    if pt.MeanCurve? || pt.QuantileCurve? || pt.Solvability? then width else 1
  }

  /** The statistics that are computed from the normalised progress curves whatever `normalize` says. */
  predicate UsesProgCurves(pt: PlotType, normalize: bool)
  {
    !(pt.MeanCurve? || pt.QuantileCurve?) || normalize
  }

  /** The foreign numeric calls: numpy's quantile of reals and of solve times (where infinity takes
      part), and a square root. */
  datatype Numerics = Numerics(
    quantile: (seq<real>, real) -> real,
    timeQuantile: (seq<SolveTime>, real) -> SolveTime,
    sqrt: real -> real)

  /** `[area_under_prog_curve(c, frac) for c in curves]`. */
  function Areas(curves: seq<seq<real>>, frac: seq<real>): (a: seq<real>)
    requires forall i :: 0 <= i < |curves| ==> |curves[i]| == |frac|
    ensures |a| == |curves|
    ensures forall i :: 0 <= i < |curves| ==> a[i] == LeftRiemannSum(curves[i], frac)
  {
    var a := seq(|curves|, i requires 0 <= i < |curves| => Area(curves[i], frac));
    forall i | 0 <= i < |curves| ensures a[i] == LeftRiemannSum(curves[i], frac) {
      AreaIsLeftRiemannSum(curves[i], frac);
    }
    a
  }

  /** `[solve_time_of_prog_curve(c, frac, tol) for c in curves]`. */
  function SolveTimes(curves: seq<seq<real>>, frac: seq<real>, tol: real): (t: seq<SolveTime>)
    requires forall i :: 0 <= i < |curves| ==> |curves[i]| == |frac|
    ensures |t| == |curves|
  {
    seq(|curves|, i requires 0 <= i < |curves| => SolveTimeOf(curves[i], frac, tol))
  }

  /** `np.quantile(rows, q=beta, axis=0)`. */
  function ColumnQuantiles(rows: seq<seq<real>>, width: nat, q: (seq<real>, real) -> real, beta: real): (r: seq<real>)
    requires IsMatrix(rows, |rows|, width)
    ensures |r| == width
  {
    seq(width, j requires 0 <= j < width => q(Column(rows, j), beta))
  }

  function Finite(s: seq<real>): (r: seq<Ext>)
    ensures |r| == |s| && forall i :: 0 <= i < |s| ==> r[i] == Fin(s[i])
  {
    seq(|s|, i requires 0 <= i < |s| => Fin(s[i]))
  }

  /** `np.std(a, ddof=1)`: the square root of the sample variance; None for fewer than two values. */
  function StdDev(a: seq<real>, sqrt: real -> real): (r: Option<real>)
    ensures r.Some? <==> |a| >= 2
  {
    if |a| < 2 then None else Some(sqrt(SampleVariance(a)))
  }

  /** With a true square root, the standard deviation is non-negative and its square is the sample
      variance. */
  lemma StdDevSquared(a: seq<real>, sqrt: real -> real)
    requires IsSqrt(sqrt) && |a| >= 2
    ensures StdDev(a, sqrt).value >= 0.0 && StdDev(a, sqrt).value * StdDev(a, sqrt).value == SampleVariance(a)
  {
    RootOf(sqrt, SampleVariance(a));
  }

  /** `compute_area_stats` without intervals: the areas under the curves, their mean and their
      sample standard deviation. */
  datatype AreaStats = AreaStats(areas: seq<real>, mean: real, stdDev: Option<real>)

  function AreaStatsOf(curves: seq<seq<real>>, frac: seq<real>, sqrt: real -> real): (r: AreaStats)
    requires |curves| > 0 && forall i :: 0 <= i < |curves| ==> |curves[i]| == |frac|
    ensures |r.areas| == |curves| && forall i :: 0 <= i < |curves| ==> r.areas[i] == LeftRiemannSum(curves[i], frac)
    ensures r.mean == Mean(r.areas)
    ensures r.stdDev == StdDev(r.areas, sqrt)
    ensures r.stdDev.Some? <==> |curves| >= 2
  {
    var a := Areas(curves, frac);
    AreaStats(a, Mean(a), StdDev(a, sqrt))
  }

  /** `np.mean(solve_matrix, axis=0)` for the solve times of the curves: a fraction per grid point. */
  function SolvabilityOf(curves: seq<seq<real>>, frac: seq<real>, tol: real): (r: seq<Ext>)
    requires |curves| > 0 && forall i :: 0 <= i < |curves| ==> |curves[i]| == |frac|
    ensures |r| == |frac|
    ensures forall j :: 0 <= j < |frac| ==> r[j].Fin? && 0.0 <= r[j].val <= 1.0
  {
    var times := SolveTimes(curves, frac, tol);
    SolvabilityCurveInUnitInterval(times, frac);
    Finite(SolvabilityCurve(times, frac))
  }

  /** The statistic pt of the curves (the progress curves or the estimated objectives). */
  function Statistic(pt: PlotType, curves: seq<seq<real>>, frac: seq<real>, tol: real, beta: real, num: Numerics): (r: Option<seq<Ext>>)
    requires |curves| > 0 && IsMatrix(curves, |curves|, |frac|)
    ensures r.None? <==> pt.AreaStdDev? && |curves| < 2
    ensures r.Some? ==> |r.value| == NIntervals(pt, |frac|)
  {
    match pt
    case MeanCurve => Some(Finite(ColumnMeans(curves, |frac|)))
    case QuantileCurve => Some(Finite(ColumnQuantiles(curves, |frac|, num.quantile, beta)))
    case AreaMean => Some([Fin(Mean(Areas(curves, frac)))])
    case AreaStdDev =>
      var sd := StdDev(Areas(curves, frac), num.sqrt);
      if sd.Some? then Some([Fin(sd.value)]) else None
    case SolveTimeQuantile => Some([num.timeQuantile(SolveTimes(curves, frac, tol), beta)])
    case Solvability => Some(SolvabilityOf(curves, frac, tol))
  }

  /** The statistic pt of one bootstrap sample (est, prog), as one row of `bs_aggregate_objects`.
      None where the source would produce NaN: a statistic of the progress curves when the
      sample's optimality gap is zero (prog is None), or a standard deviation of fewer than two
      areas. */
  function Aggregate(pt: PlotType, normalize: bool, est: seq<seq<real>>, prog: Option<seq<seq<real>>>,
                     frac: seq<real>, tol: real, beta: real, num: Numerics): (r: Option<seq<Ext>>)
    requires |est| > 0 && IsMatrix(est, |est|, |frac|)
    requires prog.Some? ==> IsMatrix(prog.value, |est|, |frac|)
    ensures r.None? <==> (UsesProgCurves(pt, normalize) && prog.None?) || (pt.AreaStdDev? && |est| < 2)
    ensures r.Some? ==> |r.value| == NIntervals(pt, |frac|)
    ensures r.Some? && pt.AreaStdDev? ==> r.value == [Fin(StdDev(Areas(prog.value, frac), num.sqrt).value)]
    ensures r.Some? && pt.Solvability? ==>
      forall j :: 0 <= j < |frac| ==> r.value[j].Fin? && 0.0 <= r.value[j].val <= 1.0
  {
    if UsesProgCurves(pt, normalize) && prog.None? then None
    else if UsesProgCurves(pt, normalize) then Statistic(pt, prog.value, frac, tol, beta, num)
    else Statistic(pt, est, frac, tol, beta, num)
  }

  /** On a non-decreasing grid a bootstrapped solvability curve never decreases. */
  lemma SolvabilityAggregateNonDecreasing(est: seq<seq<real>>, prog: seq<seq<real>>, frac: seq<real>, tol: real, beta: real, num: Numerics)
    requires |est| > 0 && IsMatrix(est, |est|, |frac|) && IsMatrix(prog, |est|, |frac|)
    requires NonDecreasing(frac)
    ensures var r := Aggregate(Solvability, true, est, Some(prog), frac, tol, beta, num);
      r.Some? && forall j, k :: 0 <= j <= k < |frac| ==> r.value[j].val <= r.value[k].val
  {
    SolvabilityCurveNonDecreasing(SolveTimes(prog, frac, tol), frac);
  }

  /** `np.max((upper - lower) / 2)`: the largest half-width among the intervals. */
  function MaxHalfwidth(lower: seq<real>, upper: seq<real>): (h: real)
    requires |lower| == |upper| > 0
    ensures forall i :: 0 <= i < |lower| ==> (upper[i] - lower[i]) / 2.0 <= h
    ensures exists i :: 0 <= i < |lower| && h == (upper[i] - lower[i]) / 2.0
    decreases |lower|
  {
    var last := (upper[|upper| - 1] - lower[|lower| - 1]) / 2.0;
    if |lower| == 1 then last
    else
      var rest := MaxHalfwidth(lower[..|lower| - 1], upper[..|upper| - 1]);
      if rest < last then last else rest
  }
}

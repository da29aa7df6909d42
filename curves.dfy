/** Derived curves of an experiment: the shared budget grid, the step lookup onto it,
    normalisation, area under a progress curve, solve times and the solvability curve.
    Sample values are exact reals; floating point is not modelled. */
module Curves {
  import opened Stats

  // ----- the unique-budget grid -----

  predicate StrictlyIncreasing(s: seq<nat>)
  {
    forall i, j :: 0 <= i < j < |s| ==> s[i] < s[j]
  }

  predicate NonDecreasing(s: seq<real>)
  {
    forall i, j :: 0 <= i <= j < |s| ==> s[i] <= s[j]
  }

  /** Budget v was recorded by some macroreplication. */
  predicate Recorded(bs: seq<seq<nat>>, v: nat)
  {
    exists m :: 0 <= m < |bs| && v in bs[m]
  }

  /** All budget lists, one after another: `[b for budget_list in bs for b in budget_list]`. */
  function Flatten(bs: seq<seq<nat>>): (flat: seq<nat>)
    ensures forall v :: v in flat <==> Recorded(bs, v)
    decreases |bs|
  {
    if bs == [] then []
    else
      var front := bs[..|bs| - 1];
      var flat := Flatten(front) + bs[|bs| - 1];
      assert forall v :: Recorded(bs, v) <==> Recorded(front, v) || v in bs[|bs| - 1] by {
        forall v ensures Recorded(bs, v) ==> Recorded(front, v) || v in bs[|bs| - 1] {
          if Recorded(bs, v) {
            var m :| 0 <= m < |bs| && v in bs[m];
            if m < |bs| - 1 {
              assert v in front[m];
            }
          }
        }
        forall v ensures Recorded(front, v) ==> Recorded(bs, v) {
          if Recorded(front, v) {
            var m :| 0 <= m < |front| && v in front[m];
            assert v in bs[m];
          }
        }
      }
      flat
  }

  /** Insert b into a strictly increasing list, keeping it strictly increasing and duplicate-free. */
  function Insert(s: seq<nat>, b: nat): (r: seq<nat>)
    requires StrictlyIncreasing(s)
    ensures StrictlyIncreasing(r)
    ensures forall v :: v in r <==> v in s || v == b
    decreases |s|
  {
    if s == [] then [b]
    else
      HeadBelowTail(s);
      if b < s[0] then
        ConsIncreasing(b, s);
        [b] + s
      else if b == s[0] then s
      else
        var rest := Insert(s[1..], b);
        ConsIncreasing(s[0], rest);
        [s[0]] + rest
  }

  /** The head of a strictly increasing list lies below every later element. */
  lemma HeadBelowTail(s: seq<nat>)
    requires StrictlyIncreasing(s) && |s| > 0
    ensures forall v :: v in s[1..] ==> s[0] < v
    ensures forall v :: v in s <==> v == s[0] || v in s[1..]
  {
    forall v | v in s[1..] ensures s[0] < v {
      var k :| 0 <= k < |s[1..]| && s[1..][k] == v;
      assert s[k + 1] == v;
    }
    assert s == [s[0]] + s[1..];
  }

  /** Putting a value below every element in front keeps a list strictly increasing. */
  lemma ConsIncreasing(x: nat, t: seq<nat>)
    requires StrictlyIncreasing(t)
    requires forall v :: v in t ==> x < v
    ensures StrictlyIncreasing([x] + t)
  {
    var r := [x] + t;
    forall i, j | 0 <= i < j < |r| ensures r[i] < r[j] {
      assert r[j] == t[j - 1];
      if i == 0 {
        assert t[j - 1] in t;
      } else {
        assert r[i] == t[i - 1];
      }
    }
  }

  /** The sorted distinct values of a list. */
  function Dedup(flat: seq<nat>): (r: seq<nat>)
    ensures StrictlyIncreasing(r)
    ensures forall v :: v in r <==> v in flat
    decreases |flat|
  {
    if flat == [] then []
    else
      var front := flat[..|flat| - 1];
      assert flat == front + [flat[|flat| - 1]];
      Insert(Dedup(front), flat[|flat| - 1])
  }

  /** `np.unique` of every recorded budget: `unique_budgets`.
      The grid is strictly increasing and holds exactly the recorded budgets. */
  function UniqueBudgets(bs: seq<seq<nat>>): (grid: seq<nat>)
    ensures StrictlyIncreasing(grid)
    ensures forall v :: v in grid <==> Recorded(bs, v)
  {
    Dedup(Flatten(bs))
  }

  /** `unique_budgets / problem.budget`. */
  function FracBudgets(grid: seq<nat>, budget: nat): (f: seq<real>)
    requires budget > 0
    ensures |f| == |grid|
    ensures forall i :: 0 <= i < |grid| ==> f[i] * budget as real == grid[i] as real
  {
    seq(|grid|, i requires 0 <= i < |grid| => grid[i] as real / budget as real)
  }

  /** The fraction grid is strictly increasing too, and lies in [0, 1] when no budget exceeds the problem's. */
  lemma FracBudgetsOrdered(grid: seq<nat>, budget: nat)
    requires budget > 0
    requires StrictlyIncreasing(grid)
    ensures forall i, j :: 0 <= i < j < |grid| ==> FracBudgets(grid, budget)[i] < FracBudgets(grid, budget)[j]
    ensures NonDecreasing(FracBudgets(grid, budget))
    ensures (forall i :: 0 <= i < |grid| ==> grid[i] <= budget) ==>
              forall i :: 0 <= i < |grid| ==> 0.0 <= FracBudgets(grid, budget)[i] <= 1.0
  {
    var f := FracBudgets(grid, budget);
    var B := budget as real;
    forall i, j | 0 <= i < j < |grid| ensures f[i] < f[j] {
      DivideOrdered(grid[i] as real, grid[j] as real, B);
    }
    if forall i :: 0 <= i < |grid| ==> grid[i] <= budget {
      forall i | 0 <= i < |grid| ensures 0.0 <= f[i] <= 1.0 {
        DivideOrdered(0.0, grid[i] as real, B);
        DivideOrdered(grid[i] as real, B, B);
      }
    }
  }

  /** Dividing by a positive number keeps the order. */
  lemma DivideOrdered(a: real, b: real, d: real)
    requires d > 0.0 && a <= b
    ensures a / d <= b / d
    ensures a < b ==> a / d < b / d
    ensures b / d == 1.0 <== b == d
  {
  }

  // ----- the step lookup -----

  /** `np.max(np.where(budgets <= g))`: the index of the latest recommendation made at or
      before budget g; None where numpy would fail on an empty selection. */
  function LatestAtOrBefore(budgets: seq<nat>, g: nat): (r: Option<nat>)
    ensures r.Some? ==> r.value < |budgets| && budgets[r.value] <= g
    ensures r.Some? ==> forall k :: r.value < k < |budgets| ==> budgets[k] > g
    ensures r.None? <==> forall k :: 0 <= k < |budgets| ==> budgets[k] > g
    decreases |budgets|
  {
    if budgets == [] then None
    else if budgets[|budgets| - 1] <= g then Some(|budgets| - 1)
    else LatestAtOrBefore(budgets[..|budgets| - 1], g)
  }

  /** The looked-up index never moves backwards as the grid point grows (whether or not the
      budgets are sorted), and a lookup that succeeds at g succeeds at every later grid point. */
  lemma LatestAtOrBeforeMonotone(budgets: seq<nat>, g1: nat, g2: nat)
    requires g1 <= g2
    requires LatestAtOrBefore(budgets, g1).Some?
    ensures LatestAtOrBefore(budgets, g2).Some?
    ensures LatestAtOrBefore(budgets, g1).value <= LatestAtOrBefore(budgets, g2).value
  {
    var j1 := LatestAtOrBefore(budgets, g1).value;
    assert budgets[j1] <= g2;
  }

  /** A list whose first budget is 0 can be looked up at every grid point. */
  lemma FirstBudgetZeroLooksUp(budgets: seq<nat>, g: nat)
    requires |budgets| > 0 && budgets[0] == 0
    ensures LatestAtOrBefore(budgets, g).Some?
  {
    assert budgets[0] <= g;
  }

  // ----- normalisation -----

  /** One progress-curve value `(est - f*) / (f0 - f*)`, given the gap f0 - f* (non-zero). */
  function Normalize(est: real, fstar: real, gap: real): real
    requires gap != 0.0
  {
    (est - fstar) / gap
  }

  /** The initial solution's value maps to 1 and the reference optimum's to 0. */
  lemma NormalizeEnds(f0: real, fstar: real)
    requires f0 != fstar
    ensures Normalize(f0, fstar, f0 - fstar) == 1.0
    ensures Normalize(fstar, fstar, f0 - fstar) == 0.0
  {
    DivideSelf(f0 - fstar);
  }

  lemma DivideSelf(x: real)
    requires x != 0.0
    ensures x / x == 1.0
  {
  }

  // ----- area under a progress curve -----

  /** `s[:-1]`. */
  function AllButLast(s: seq<real>): (r: seq<real>)
    ensures |r| == if |s| == 0 then 0 else |s| - 1
  {
    if s == [] then [] else s[..|s| - 1]
  }

  /** `np.diff`. */
  function Diff(s: seq<real>): (d: seq<real>)
    ensures |d| == if |s| == 0 then 0 else |s| - 1
  {
    if s == [] then [] else seq(|s| - 1, i requires 0 <= i < |s| - 1 => s[i + 1] - s[i])
  }

  /** `np.dot` of two 1-d arrays of equal length. */
  function Dot(a: seq<real>, b: seq<real>): real
    requires |a| == |b|
  {
    Sum(seq(|a|, i requires 0 <= i < |a| => a[i] * b[i]))
  }

  /** `area_under_prog_curve`: `np.dot(prog_curve[:-1], np.diff(frac_inter_budgets))`.
      The shapes must agree, as numpy demands. */
  function Area(curve: seq<real>, frac: seq<real>): real
    requires |AllButLast(curve)| == |Diff(frac)|
  {
    Dot(AllButLast(curve), Diff(frac))
  }

  /** Reference definition: the left-endpoint Riemann sum of the step curve,
      sum over i < n-1 of curve[i] * (frac[i+1] - frac[i]). */
  function LeftRiemannSum(curve: seq<real>, frac: seq<real>): real
    requires |curve| == |frac|
    decreases |curve|
  {
    if |curve| < 2 then 0.0
    else curve[0] * (frac[1] - frac[0]) + LeftRiemannSum(curve[1..], frac[1..])
  }

  /** The numpy expression is the left-endpoint Riemann sum; in particular the last curve
      value never contributes. */
  lemma {:induction false} AreaIsLeftRiemannSum(curve: seq<real>, frac: seq<real>)
    requires |curve| == |frac|
    ensures Area(curve, frac) == LeftRiemannSum(curve, frac)
    decreases |curve|
  {
    if |curve| >= 2 {
      var a, d := AllButLast(curve), Diff(frac);
      var p := seq(|a|, i requires 0 <= i < |a| => a[i] * d[i]);
      var a', d' := AllButLast(curve[1..]), Diff(frac[1..]);
      var p' := seq(|a'|, i requires 0 <= i < |a'| => a'[i] * d'[i]);
      assert |p| == |p'| + 1;
      forall i | 1 <= i < |p| ensures p[i] == p'[i - 1] {
        assert a[i] == curve[i] && a'[i - 1] == curve[1..][i - 1] == curve[i];
        assert d[i] == frac[i + 1] - frac[i];
        assert d'[i - 1] == frac[1..][i] - frac[1..][i - 1] == frac[i + 1] - frac[i];
      }
      assert p[0] == curve[0] * (frac[1] - frac[0]) by {
        assert a[0] == curve[0] && d[0] == frac[1] - frac[0];
      }
      assert p == [curve[0] * (frac[1] - frac[0])] + p';
      SumCons(curve[0] * (frac[1] - frac[0]), p');
      AreaIsLeftRiemannSum(curve[1..], frac[1..]);
    }
  }

  /** Changing the last curve value leaves the area unchanged. */
  lemma AreaIgnoresLastValue(curve: seq<real>, frac: seq<real>, v: real)
    requires |curve| == |frac| && |curve| > 0
    ensures Area(curve[|curve| - 1 := v], frac) == Area(curve, frac)
  {
    assert AllButLast(curve[|curve| - 1 := v]) == AllButLast(curve);
  }

  /** The differences of a grid add up to its span. */
  lemma {:induction false} DiffTelescopes(frac: seq<real>)
    requires |frac| > 0
    ensures Sum(Diff(frac)) == frac[|frac| - 1] - frac[0]
    decreases |frac|
  {
    if |frac| > 1 {
      var front := frac[..|frac| - 1];
      var d := Diff(frac);
      assert d[..|d| - 1] == Diff(front);
      DiffTelescopes(front);
    }
  }

  /** A fraction of a non-negative length lies between 0 and that length. */
  lemma ScaleBounds(c: real, d: real)
    requires 0.0 <= c <= 1.0 && 0.0 <= d
    ensures 0.0 <= c * d <= d
  {
    assert c * d <= 1.0 * d;
  }

  /** A curve with values in [0, 1] on a non-decreasing grid has area between 0 and the grid's span. */
  lemma AreaBounds(curve: seq<real>, frac: seq<real>)
    requires |curve| == |frac| && |curve| > 0
    requires NonDecreasing(frac)
    requires forall i :: 0 <= i < |curve| ==> 0.0 <= curve[i] <= 1.0
    ensures 0.0 <= Area(curve, frac) <= frac[|frac| - 1] - frac[0]
  {
    var a, d := AllButLast(curve), Diff(frac);
    var p := seq(|a|, i requires 0 <= i < |a| => a[i] * d[i]);
    var zeros := seq(|a|, i requires 0 <= i < |a| => 0.0);
    forall i | 0 <= i < |a| ensures zeros[i] <= p[i] <= d[i] {
      var c, w := a[i], d[i];
      assert c == curve[i] && w == frac[i + 1] - frac[i];
      assert frac[i] <= frac[i + 1];
      ScaleBounds(c, w);
      assert p[i] == c * w;
    }
    SumMonotone(zeros, p);
    SumMonotone(p, d);
    SumConstant(zeros, 0.0);
    DiffTelescopes(frac);
  }

  /** The curve [1, 0.5, 0] on the grid [0, 0.5, 1] has area 1 * 0.5 + 0.5 * 0.5 = 0.75. */
  lemma AreaExample()
    ensures Area([1.0, 0.5, 0.0], [0.0, 0.5, 1.0]) == 0.75
  {
    AreaIsLeftRiemannSum([1.0, 0.5, 0.0], [0.0, 0.5, 1.0]);
    assert [1.0, 0.5, 0.0][1..] == [0.5, 0.0];
    assert [0.0, 0.5, 1.0][1..] == [0.5, 1.0];
    assert [0.5, 0.0][1..] == [0.0];
    assert [0.5, 1.0][1..] == [1.0];
  }

  // ----- solve times -----

  /** A solve time: a fraction of the budget, or infinity for a curve that is never solved. */
  type SolveTime = Ext

  /** The order of the extended reals: everything is at or before infinity. */
  predicate TimeLeq(a: SolveTime, b: SolveTime)
  {
    b.PosInf? || (a.Fin? && a.val <= b.val)
  }

  /** The index of the first curve value strictly below tol. */
  function FirstBelow(curve: seq<real>, tol: real): (r: Option<nat>)
    ensures r.Some? ==> r.value < |curve| && curve[r.value] < tol
    ensures r.Some? ==> forall k :: 0 <= k < r.value ==> curve[k] >= tol
    ensures r.None? <==> forall k :: 0 <= k < |curve| ==> curve[k] >= tol
    decreases |curve|
  {
    if curve == [] then None
    else if curve[0] < tol then Some(0)
    else match FirstBelow(curve[1..], tol)
      case None => None
      case Some(i) => Some(i + 1)
  }

  /** The solve time of a curve: the grid fraction at its first value below tol, or infinity. */
  function SolveTimeOf(curve: seq<real>, frac: seq<real>, tol: real): (t: SolveTime)
    requires |curve| <= |frac|
    ensures t.PosInf? <==> forall k :: 0 <= k < |curve| ==> curve[k] >= tol
    ensures t.Fin? ==> exists i :: 0 <= i < |curve| && curve[i] < tol && t.val == frac[i] &&
                                      forall k :: 0 <= k < i ==> curve[k] >= tol
  {
    match FirstBelow(curve, tol)
    case None => PosInf
    case Some(i) => Fin(frac[i])
  }

  /** `solve_time_of_prog_curve`: a pass over the curve that stops at the first value below tol. */
  method SolveTimeOfProgCurve(curve: seq<real>, frac: seq<real>, tol: real) returns (t: SolveTime)
    requires |curve| <= |frac|
    ensures t.PosInf? <==> forall k :: 0 <= k < |curve| ==> curve[k] >= tol
    ensures t.Fin? ==> exists i :: 0 <= i < |curve| && curve[i] < tol && t.val == frac[i] &&
                                      forall k :: 0 <= k < i ==> curve[k] >= tol
    ensures t == SolveTimeOf(curve, frac, tol)
  {
    t := PosInf;
    var i := 0;
    while i < |curve|
      invariant 0 <= i <= |curve|
      invariant forall k :: 0 <= k < i ==> curve[k] >= tol
    {
      if curve[i] < tol {
        t := Fin(frac[i]);
        FirstIsUnique(curve, tol, i);
        return;
      }
      i := i + 1;
    }
  }

  /** An index below tol with nothing below tol before it is the one FirstBelow finds. */
  lemma FirstIsUnique(curve: seq<real>, tol: real, i: nat)
    requires i < |curve| && curve[i] < tol
    requires forall k :: 0 <= k < i ==> curve[k] >= tol
    ensures FirstBelow(curve, tol) == Some(i)
  {
    var r := FirstBelow(curve, tol);
    assert r.Some?;
  }

  /** A larger tolerance is crossed no later. */
  lemma SolveTimeMonotoneInTolerance(curve: seq<real>, frac: seq<real>, tol1: real, tol2: real)
    requires |curve| <= |frac|
    requires tol1 <= tol2
    requires NonDecreasing(frac)
    ensures TimeLeq(SolveTimeOf(curve, frac, tol2), SolveTimeOf(curve, frac, tol1))
  {
    var r1, r2 := FirstBelow(curve, tol1), FirstBelow(curve, tol2);
    if r1.Some? {
      assert curve[r1.value] < tol2;
      assert r2.Some?;
    }
  }

  /** The curve [1, 0.05, 0] on the grid [0, 0.5, 1] with tolerance 0.1 is solved at 0.5. */
  lemma SolveTimeExample()
    ensures SolveTimeOf([1.0, 0.05, 0.0], [0.0, 0.5, 1.0], 0.1) == Fin(0.5)
  {
    FirstIsUnique([1.0, 0.05, 0.0], 0.1, 1);
  }

  // ----- solvability -----

  /** `solve_time <= frac`, with infinity above every fraction. */
  predicate SolvedBy(t: SolveTime, b: real)
  {
    t.Fin? && t.val <= b
  }

  /** One entry of the solve matrix. */
  function Indicator(t: SolveTime, b: real): real
  {
    if SolvedBy(t, b) then 1.0 else 0.0
  }

  /** The solve matrix: rows are macroreplications, columns grid points. */
  function SolveMatrixOf(times: seq<SolveTime>, frac: seq<real>): (m: seq<seq<real>>)
    ensures IsMatrix(m, |times|, |frac|)
  {
    seq(|times|, i requires 0 <= i < |times| =>
      seq(|frac|, j requires 0 <= j < |frac| => Indicator(times[i], frac[j])))
  }

  /** The solve-matrix loop: a matrix of zeros with a 1 wherever a macroreplication is solved
      by a grid point. */
  method SolveMatrix(times: seq<SolveTime>, frac: seq<real>) returns (m: array2<real>)
    ensures fresh(m) && m.Length0 == |times| && m.Length1 == |frac|
    ensures forall i, j :: 0 <= i < |times| && 0 <= j < |frac| ==>
              (m[i, j] == 1.0 <==> SolvedBy(times[i], frac[j])) && (m[i, j] == 0.0 <==> !SolvedBy(times[i], frac[j]))
    ensures forall i, j :: 0 <= i < |times| && 0 <= j < |frac| ==> m[i, j] == SolveMatrixOf(times, frac)[i][j]
  {
    m := new real[|times|, |frac|]((_, _) => 0.0);
    var mrep := 0;
    while mrep < |times|
      invariant 0 <= mrep <= |times|
      invariant forall i, j :: 0 <= i < |times| && 0 <= j < |frac| ==>
                  m[i, j] == if i < mrep then Indicator(times[i], frac[j]) else 0.0
    {
      var b := 0;
      while b < |frac|
        invariant 0 <= b <= |frac|
        invariant forall i, j :: 0 <= i < |times| && 0 <= j < |frac| ==>
                    m[i, j] == if i < mrep || (i == mrep && j < b) then Indicator(times[i], frac[j]) else 0.0
      {
        if SolvedBy(times[mrep], frac[b]) {
          m[mrep, b] := 1.0;
        }
        b := b + 1;
      }
      mrep := mrep + 1;
    }
  }

  /** Each row of the solve matrix is 0s then 1s along a non-decreasing grid. */
  lemma SolveRowIsStep(t: SolveTime, frac: seq<real>, j: nat, k: nat)
    requires NonDecreasing(frac)
    requires j <= k < |frac|
    ensures Indicator(t, frac[j]) <= Indicator(t, frac[k])
  {
  }

  /** `np.mean(solve_matrix, axis=0)`: the fraction of macroreplications solved by each grid point. */
  function SolvabilityCurve(times: seq<SolveTime>, frac: seq<real>): (c: seq<real>)
    requires |times| > 0
    ensures |c| == |frac|
  {
    ColumnMeans(SolveMatrixOf(times, frac), |frac|)
  }

  /** The solvability curve lies in [0, 1]. */
  lemma SolvabilityCurveInUnitInterval(times: seq<SolveTime>, frac: seq<real>)
    requires |times| > 0
    ensures forall j :: 0 <= j < |frac| ==> 0.0 <= SolvabilityCurve(times, frac)[j] <= 1.0
  {
    var m := SolveMatrixOf(times, frac);
    forall j | 0 <= j < |frac| ensures 0.0 <= SolvabilityCurve(times, frac)[j] <= 1.0 {
      MeanBounds(Column(m, j), 0.0, 1.0);
    }
  }

  /** On a non-decreasing grid the solvability curve never decreases. */
  lemma SolvabilityCurveNonDecreasing(times: seq<SolveTime>, frac: seq<real>)
    requires |times| > 0
    requires NonDecreasing(frac)
    ensures NonDecreasing(SolvabilityCurve(times, frac))
  {
    forall j, k | 0 <= j <= k < |frac| ensures SolvabilityCurve(times, frac)[j] <= SolvabilityCurve(times, frac)[k] {
      SolvabilityStep(times, frac, j, k);
    }
  }

  lemma SolvabilityStep(times: seq<SolveTime>, frac: seq<real>, j: nat, k: nat)
    requires |times| > 0
    requires NonDecreasing(frac)
    requires j <= k < |frac|
    ensures SolvabilityCurve(times, frac)[j] <= SolvabilityCurve(times, frac)[k]
  {
    var m := SolveMatrixOf(times, frac);
    var cj, ck := Column(m, j), Column(m, k);
    forall i | 0 <= i < |times| ensures cj[i] <= ck[i] {
      SolveRowIsStep(times[i], frac, j, k);
    }
    SumMonotone(cj, ck);
    DivideOrdered(Sum(cj), Sum(ck), |times| as real);
  }
}

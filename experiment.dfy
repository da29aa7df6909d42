/** The `Experiment` of one solver on one problem: its fields are filled in phases. `Run`
    records the solver's trajectories, `PostReplicate` re-evaluates them and builds the curves,
    and the statistics are computed from those on demand. Each method demands the phase the
    source needs its fields from. */
module Experiments {
  import opened Streams
  import opened Stats
  import opened Curves
  import opened PostReplication
  import opened Bootstrap
  import opened Trials
  import opened Aggregates

  datatype Phase = Created | Ran | PostReplicated

  /** The cells of a post-replicated experiment's matrix are x0's samples, x*'s samples or those of
      a fresh solution, which is what bootstrapping needs of them. */
  lemma PostReplicateWellFormed(st: Setup, nRngs: nat, budget: nat, allXs: seq<seq<X>>, budgets: seq<seq<nat>>)
    requires Ready(st, budget, allXs, budgets)
    ensures var o := PostReplication.PostReplicate(st, nRngs, budget, allXs, budgets);
      WellFormed(Data(o.postReplicates, o.init.samples, o.ref.samples, st.nPostreps, st.nPostrepsInitOpt), |o.grid|)
  {
    var o := PostReplication.PostReplicate(st, nRngs, budget, allXs, budgets);
    var refs := SimulateReferences(st, nRngs);
    var d := Data(o.postReplicates, o.init.samples, o.ref.samples, st.nPostreps, st.nPostrepsInitOpt);
    forall m, b | 0 <= m < |o.postReplicates| && 0 <= b < |o.grid|
      ensures CellOk(d, o.postReplicates[m][b])
    {
      var j := LatestAtOrBefore(budgets[m], o.grid[b]).value;
      assert o.postReplicates[m][b] == o.solns[m][j].samples;
      assert ReevaluatedAs(st, refs.0, refs.1, allXs[m][j], o.solns[m][j]);
    }
  }

  /** `array2` rows as a sequence of rows. */
  ghost function RowsOf(a: array2<real>): (rows: seq<seq<real>>)
    reads a
    ensures IsMatrix(rows, a.Length0, a.Length1)
    ensures forall i, j :: 0 <= i < a.Length0 && 0 <= j < a.Length1 ==> rows[i][j] == a[i, j]
  {
    seq(a.Length0, i requires 0 <= i < a.Length0 reads a =>
      seq(a.Length1, j requires 0 <= j < a.Length1 reads a => a[i, j]))
  }

  /** An array whose every entry is that of a matrix of the same shape has that matrix as rows. */
  lemma RowsAre(a: array2<real>, m: seq<seq<real>>)
    requires IsMatrix(m, a.Length0, a.Length1)
    requires forall i, j :: 0 <= i < a.Length0 && 0 <= j < a.Length1 ==> a[i, j] == m[i][j]
    ensures RowsOf(a) == m
  {
    forall i | 0 <= i < a.Length0
      ensures RowsOf(a)[i] == m[i]
    {
    }
  }

  /** `np.mean(a, axis=0)`: the mean of every column, summed row by row. */
  method ColumnMeansOf(a: array2<real>) returns (c: seq<real>)
    requires a.Length0 > 0
    ensures c == ColumnMeans(RowsOf(a), a.Length1)
  {
    ghost var rows := RowsOf(a);
    c := [];
    for j := 0 to a.Length1
      invariant |c| == j
      invariant forall k :: 0 <= k < j ==> c[k] == Mean(Column(rows, k))
    {
      ghost var col := Column(rows, j);
      var s := 0.0;
      for i := 0 to a.Length0
        invariant s == Sum(col[..i])
      {
        assert col[..i + 1][..i] == col[..i];
        s := s + a[i, j];
      }
      assert col[..a.Length0] == col;
      c := c + [s / a.Length0 as real];
    }
  }

  /** The start of `post_replicate`: stream-0 generators, one per oracle generator; x0 and then x*
      are simulated nPostrepsInitOpt times each, with a reset of every generator to the start of
      its substream after each when budgets share random numbers. */
  method SimulateInitialAndOptimal(st: Setup, nRngs: nat) returns (init: Solution, ref: Solution, rngs: seq<Rng>)
    requires Simulates(st.sim)
    ensures (init, ref, rngs) == SimulateReferences(st, nRngs)
  {
    rngs := PostRepRngs(nRngs);
    var out := st.sim(st.x0, st.nPostrepsInitOpt, rngs);
    init := Solution(st.x0, out.samples);
    rngs := DrawAll(rngs, out.draws);
    if st.crnBudget {
      rngs := ResetEach(rngs);
    }
    out := st.sim(st.xstar, st.nPostrepsInitOpt, rngs);
    ref := Solution(st.xstar, out.samples);
    rngs := DrawAll(rngs, out.draws);
    if st.crnBudget {
      rngs := ResetEach(rngs);
    }
  }

  /** What `run` records: nothing before it, one trajectory per macroreplication after it. */
  ghost predicate RunRecorded(phase: Phase, n: nat, xs: seq<seq<X>>, budgets: seq<seq<nat>>, solns: seq<seq<Solution>>)
  {
    && (phase == Created ==> xs == [] && budgets == [] && solns == [])
    && (phase != Created ==> n > 0 && |xs| == n && Aligned(xs, budgets))
  }

  /** Solve times, once computed, are those of the progress curves at the recorded tolerance. */
  ghost predicate TimesAt(phase: Phase, tol: Option<real>, times: seq<SolveTime>, prog: Option<seq<seq<real>>>, frac: seq<real>)
  {
    tol.Some? ==>
      && phase == PostReplicated && prog.Some?
      && IsMatrix(prog.value, |prog.value|, |frac|)
      && times == SolveTimes(prog.value, frac, tol.value)
  }

  /** How the fields `post_replicate` fills relate to each other and to the n recorded
      trajectories: one reevaluated solution per recommended one, one fraction per grid budget,
      a bootstrappable post-replicate matrix, and one estimated objective and (if defined) one
      progress-curve value per macroreplication and grid point. */
  ghost predicate Replicated(n: nat, budgets: seq<seq<nat>>, o: Outcome, nPostreps: nat, nPostrepsInitOpt: nat)
  {
    && Aligned(o.solns, budgets) && |o.fracGrid| == |o.grid| && |o.postReplicates| == n
    && WellFormed(Data(o.postReplicates, o.init.samples, o.ref.samples, nPostreps, nPostrepsInitOpt), |o.grid|)
    && CellsNonEmpty(o.postReplicates)
    && IsMatrix(o.est, n, |o.fracGrid|) && (o.prog.Some? ==> IsMatrix(o.prog.value, n, |o.fracGrid|))
  }

  /** The steps of `post_replicate` after the setup: x0 and x* are simulated, every recommended
      solution is reevaluated, the grid of unique budgets is built and every curve is read off it. */
  method PostReplicateSteps(st: Setup, nRngs: nat, budget: nat, xs: seq<seq<X>>, budgets: seq<seq<nat>>) returns (o: Outcome)
    requires Ready(st, budget, xs, budgets)
    ensures o == PostReplication.PostReplicate(st, nRngs, budget, xs, budgets)
    ensures Replicated(|xs|, budgets, o, st.nPostreps, st.nPostrepsInitOpt)
  {
    var init, ref, rngs := SimulateInitialAndOptimal(st, nRngs);
    var solns;
    solns, rngs := ReevaluateMacroreps(st, init, ref, xs, rngs);
    var grid := UniqueBudgets(budgets);
    var fracGrid := FracBudgets(grid, budget);
    var posts := LookupPostReplicates(solns, budgets, grid);
    var est := EstObjective(posts);
    var prog := ProgCurvesIfDefined(est, Mean(init.samples), Mean(ref.samples));
    o := Outcome(init, ref, solns, grid, fracGrid, posts, est, prog);
    PostReplicateWellFormed(st, nRngs, budget, xs, budgets);
  }

  class Experiment {
    // The problem and solver: collaborators that are not modelled.
    const solve: Solver         // `solver.solve`
    const sim: Simulator        // `problem.simulate`
    const x0: X                 // `problem.initial_solution`
    const xstar: X              // `problem.ref_optimal_solution`
    const nRngs: nat            // `problem.oracle.n_rngs`
    const budget: nat           // `problem.budget`

    var phase: Phase
    var solverRng: Rng          // the generator attached to the solver

    // Filled by Run.
    var nMacroreps: nat
    var allRecommendedXs: seq<seq<X>>
    var allIntermediateBudgets: seq<seq<nat>>

    // Filled by PostReplicate.
    var nPostreps: nat
    var nPostrepsInitOpt: nat
    var initialSoln: Solution
    var refOptSoln: Solution
    var allReevaluatedSolns: seq<seq<Solution>>
    var uniqueBudgets: seq<nat>
    var uniqueFracBudgets: seq<real>
    var allPostReplicates: seq<seq<seq<real>>>
    var allEstObjective: seq<seq<real>>
    var allProgCurves: Option<seq<seq<real>>>   // None when f(x0) == f(x*)

    // Filled by the statistics.
    var areas: seq<real>
    var areaMean: real
    var areaStdDev: Option<real>                // None for a single macroreplication
    var solveTol: Option<real>                  // None until solve times are computed
    var solveTimes: seq<SolveTime>
    var solveTimeQuantile: SolveTime

    /** The fields `post_replicate` fills, as one outcome. */
    function Filled(): Outcome
      reads this`initialSoln, this`refOptSoln, this`allReevaluatedSolns, this`uniqueBudgets, this`uniqueFracBudgets,
            this`allPostReplicates, this`allEstObjective, this`allProgCurves
    {
      Outcome(initialSoln, refOptSoln, allReevaluatedSolns, uniqueBudgets, uniqueFracBudgets,
              allPostReplicates, allEstObjective, allProgCurves)
    }

    /** What bootstrapping reads of a post-replicated experiment. */
    function BootstrapData(): Data
      reads this`allPostReplicates, this`initialSoln, this`refOptSoln, this`nPostreps, this`nPostrepsInitOpt
    {
      Data(allPostReplicates, initialSoln.samples, refOptSoln.samples, nPostreps, nPostrepsInitOpt)
    }

    /** The class invariant: the collaborators keep their promises, and every phase's fields are
        as the phases before it left them. */
    ghost predicate Valid()
      reads this`phase, this`nMacroreps, this`allRecommendedXs, this`allIntermediateBudgets, this`allReevaluatedSolns,
            this`uniqueBudgets, this`uniqueFracBudgets, this`allPostReplicates, this`initialSoln, this`refOptSoln,
            this`nPostreps, this`nPostrepsInitOpt, this`allEstObjective, this`allProgCurves, this`solveTol,
            this`solveTimes
    {
      && Solves(solve) && Simulates(sim) && budget > 0
      && RunRecorded(phase, nMacroreps, allRecommendedXs, allIntermediateBudgets, allReevaluatedSolns)
      && (phase == PostReplicated ==>
            Replicated(nMacroreps, allIntermediateBudgets, Filled(), nPostreps, nPostrepsInitOpt))
      && TimesAt(phase, solveTol, solveTimes, allProgCurves, uniqueFracBudgets)
    }

    /** `Experiment(solver_name, problem_name)`: nothing recorded yet. */
    constructor (solve: Solver, sim: Simulator, x0: X, xstar: X, nRngs: nat, budget: nat)
      requires Solves(solve) && Simulates(sim) && budget > 0
      ensures Valid() && phase == Created && solveTol.None?
      ensures this.solve == solve && this.sim == sim && this.x0 == x0 && this.xstar == xstar
      ensures this.nRngs == nRngs && this.budget == budget
    {
      this.solve, this.sim, this.x0, this.xstar, this.nRngs, this.budget := solve, sim, x0, xstar, nRngs, budget;
      phase := Created;
      allRecommendedXs, allIntermediateBudgets, allReevaluatedSolns := [], [], [];
      solveTol := None;
    }

    /** `run(n_macroreps, crn_across_solns)`: the solver's generator is attached at [2, 2, 0]; then
        macroreplication mrep runs with the oracle generators of stream mrep + 2, and its
        recommended solutions and intermediate budgets are recorded. */
    method Run(n: nat, crnAcrossSolns: bool)
      requires Valid() && phase == Created && n > 0
      modifies this`nMacroreps, this`allRecommendedXs, this`allIntermediateBudgets, this`solverRng, this`phase
      ensures Valid() && phase == Ran && nMacroreps == n
      ensures var t := RunTrials(solve, nRngs, n, crnAcrossSolns);
        allRecommendedXs == t.allXs && allIntermediateBudgets == t.allBudgets && solverRng == t.solverRng
      ensures solveTol == old(solveTol)
    {
      nMacroreps := n;
      // Stream 2, substream 2: the solver's generator.
      var xs, budgets, rng := [], [], SolverRng();
      for mrep := 0 to n
        invariant Record(xs, budgets, rng) == RunTrials(solve, nRngs, mrep, crnAcrossSolns)
      {
        var oracleRngs := MacrorepOracleRngs(mrep, nRngs);
        var out := solve(oracleRngs, rng, crnAcrossSolns);
        xs, budgets, rng := xs + [out.xs], budgets + [out.budgets], out.solverRng;
      }
      allRecommendedXs, allIntermediateBudgets, solverRng := xs, budgets, rng;
      phase := Ran;
    }

    /** `post_replicate(n_postreps, n_postreps_init_opt, crn_across_budget, crn_across_macroreps)`:
        every field it fills is the corresponding part of PostReplication.PostReplicate. */
    method PostReplicate(nPostreps: nat, nPostrepsInitOpt: nat, crnAcrossBudget: bool, crnAcrossMacroreps: bool)
      requires Valid() && phase == Ran
      requires nPostreps > 0 && nPostrepsInitOpt > 0
      requires LookupDefined(allIntermediateBudgets, UniqueBudgets(allIntermediateBudgets))
      modifies this`nPostreps, this`nPostrepsInitOpt, this`initialSoln, this`refOptSoln, this`allReevaluatedSolns,
        this`uniqueBudgets, this`uniqueFracBudgets, this`allPostReplicates, this`allEstObjective, this`allProgCurves,
        this`solveTol, this`phase
      ensures Valid() && phase == PostReplicated
      ensures this.nPostreps == nPostreps && this.nPostrepsInitOpt == nPostrepsInitOpt
      ensures Filled() == PostReplication.PostReplicate(Setup(sim, x0, xstar, nPostreps, nPostrepsInitOpt, crnAcrossBudget, crnAcrossMacroreps),
                                            nRngs, budget, allRecommendedXs, allIntermediateBudgets)
      ensures solveTol.None?
    {
      var st := Setup(sim, x0, xstar, nPostreps, nPostrepsInitOpt, crnAcrossBudget, crnAcrossMacroreps);
      var o := PostReplicateSteps(st, nRngs, budget, allRecommendedXs, allIntermediateBudgets);
      Install(o, nPostreps, nPostrepsInitOpt);
    }

    /** The end of `post_replicate`: its fields are filled from its outcome o, and the
        experiment is post-replicated. */
    method Install(o: Outcome, nPostreps: nat, nPostrepsInitOpt: nat)
      requires Valid() && phase == Ran
      requires Replicated(nMacroreps, allIntermediateBudgets, o, nPostreps, nPostrepsInitOpt)
      modifies this`nPostreps, this`nPostrepsInitOpt, this`initialSoln, this`refOptSoln, this`allReevaluatedSolns,
        this`uniqueBudgets, this`uniqueFracBudgets, this`allPostReplicates, this`allEstObjective, this`allProgCurves,
        this`solveTol, this`phase
      ensures Valid() && phase == PostReplicated && solveTol.None?
      ensures this.nPostreps == nPostreps && this.nPostrepsInitOpt == nPostrepsInitOpt
      ensures Filled() == o
    {
      Store(o);
      this.nPostreps, this.nPostrepsInitOpt := nPostreps, nPostrepsInitOpt;
      solveTol := None;
      phase := PostReplicated;
    }

    /** Fills the fields of `post_replicate` that hold its outcome o. */
    method Store(o: Outcome)
      modifies this`initialSoln, this`refOptSoln, this`allReevaluatedSolns, this`uniqueBudgets, this`uniqueFracBudgets,
        this`allPostReplicates, this`allEstObjective, this`allProgCurves
      ensures Filled() == o
    {
      initialSoln, refOptSoln, allReevaluatedSolns := o.init, o.ref, o.solns;
      uniqueBudgets, uniqueFracBudgets, allPostReplicates := o.grid, o.fracGrid, o.postReplicates;
      allEstObjective, allProgCurves := o.est, o.prog;
    }

    /** `compute_area_stats(compute_CIs=False)`: the area under every progress curve, their mean and
        their sample standard deviation. ok is false, and nothing changes, when the progress curves
        are undefined (f(x0) == f(x*)). */
    method ComputeAreaStats(sqrt: real -> real) returns (ok: bool)
      requires Valid() && phase == PostReplicated
      modifies this`areas, this`areaMean, this`areaStdDev
      ensures Valid()
      ensures ok <==> allProgCurves.Some?
      ensures ok ==> AreaStats(areas, areaMean, areaStdDev) == AreaStatsOf(allProgCurves.value, uniqueFracBudgets, sqrt)
      ensures !ok ==> areas == old(areas) && areaMean == old(areaMean) && areaStdDev == old(areaStdDev)
    {
      ok := allProgCurves.Some?;
      if ok {
        SetAreaStats(AreaStatsOf(allProgCurves.value, uniqueFracBudgets, sqrt));
      }
    }

    /** Records the area statistics st; the invariant does not read them. */
    method SetAreaStats(st: AreaStats)
      requires Valid()
      modifies this`areas, this`areaMean, this`areaStdDev
      ensures Valid() && AreaStats(areas, areaMean, areaStdDev) == st
    {
      areas, areaMean, areaStdDev := st.areas, st.mean, st.stdDev;
    }

    /** `compute_solvability_quantile(compute_CIs=False, solve_tol, beta)`: the solve time of every
        progress curve, one call of `solve_time_of_prog_curve` each, and their beta quantile. ok is
        false, and nothing changes, when the progress curves are undefined. */
    method ComputeSolvabilityQuantile(tol: real, beta: real, timeQuantile: (seq<SolveTime>, real) -> SolveTime) returns (ok: bool)
      requires Valid() && phase == PostReplicated
      modifies this`solveTol, this`solveTimes, this`solveTimeQuantile
      ensures Valid()
      ensures ok <==> allProgCurves.Some?
      ensures ok ==> solveTol == Some(tol) && solveTimes == SolveTimes(allProgCurves.value, uniqueFracBudgets, tol)
      ensures ok ==> solveTimeQuantile == timeQuantile(solveTimes, beta)
      ensures !ok ==> solveTol == old(solveTol) && solveTimes == old(solveTimes) && solveTimeQuantile == old(solveTimeQuantile)
    {
      ok := allProgCurves.Some?;
      if ok {
        var times := SolveTimesOf(allProgCurves.value, uniqueFracBudgets, tol);
        SetSolveTimes(tol, times, timeQuantile(times, beta));
      }
    }

    /** Records the solve times of the progress curves at tolerance tol and their quantile q. */
    method SetSolveTimes(tol: real, times: seq<SolveTime>, q: SolveTime)
      requires Valid() && phase == PostReplicated && allProgCurves.Some?
      requires times == SolveTimes(allProgCurves.value, uniqueFracBudgets, tol)
      modifies this`solveTol, this`solveTimes, this`solveTimeQuantile
      ensures Valid() && solveTol == Some(tol) && solveTimes == times && solveTimeQuantile == q
    {
      solveTol, solveTimes, solveTimeQuantile := Some(tol), times, q;
    }

    /** The estimator of `plot_solvability_curve`: the solve times are computed, the solve matrix is
        filled and its column means are the fraction of macroreplications solved by each grid point. */
    method SolvabilityEstimate(tol: real, timeQuantile: (seq<SolveTime>, real) -> SolveTime) returns (ok: bool, estimator: seq<real>)
      requires Valid() && phase == PostReplicated
      modifies this`solveTol, this`solveTimes, this`solveTimeQuantile
      ensures Valid()
      ensures ok <==> allProgCurves.Some?
      ensures ok ==> solveTol == Some(tol) && solveTimes == SolveTimes(allProgCurves.value, uniqueFracBudgets, tol)
      ensures ok ==> solveTimeQuantile == timeQuantile(solveTimes, 0.5)
      ensures ok ==> estimator == SolvabilityCurve(solveTimes, uniqueFracBudgets)
      ensures !ok ==> solveTol == old(solveTol) && solveTimes == old(solveTimes) && solveTimeQuantile == old(solveTimeQuantile)
    {
      ok := ComputeSolvabilityQuantile(tol, 0.5, timeQuantile);
      if ok {
        var solveMatrix := SolveMatrix(solveTimes, uniqueFracBudgets);
        RowsAre(solveMatrix, SolveMatrixOf(solveTimes, uniqueFracBudgets));
        estimator := ColumnMeansOf(solveMatrix);
      } else {
        estimator := [];
      }
    }

    /** The sampling loop of `bootstrap_CI`: a generator at [1, 0, 0]; bootstrap sample k (with CRN
        across budgets, none across macroreplications) starts at substream k, and row k of the
        `n_bootstraps` by `n_intervals` matrix holds its statistic. ok is false when some sample's
        statistic is undefined (a zero bootstrapped gap). */
    method BootstrapAggregates(u: Rng -> real, pt: PlotType, normalize: bool, nBootstraps: nat, beta: real, num: Numerics)
        returns (ok: bool, agg: array2<Ext>)
      requires Valid() && phase == PostReplicated && Uniform(u)
      requires (pt.SolveTimeQuantile? || pt.Solvability?) ==> solveTol.Some?
      ensures fresh(agg) && agg.Length0 == nBootstraps && agg.Length1 == NIntervals(pt, |uniqueBudgets|)
      ensures var all := SampleAggregates(nBootstraps, u, BootstrapData(), uniqueFracBudgets, TolOrZero(solveTol), pt, normalize, beta, num);
        && (ok <==> forall k :: 0 <= k < nBootstraps ==> all[k].Some?)
        && forall k, j :: 0 <= k < nBootstraps && 0 <= j < agg.Length1 && all[k].Some? ==> agg[k, j] == all[k].value[j]
    {
      var d := BootstrapData();
      assert WellFormed(d, |uniqueFracBudgets|) && |d.postReplicates| > 0;
      ok, agg := BootstrapLoop(u, d, uniqueFracBudgets, TolOrZero(solveTol), pt, normalize, nBootstraps, beta, num);
    }
  }

  /** The solve time of every curve, one call of `solve_time_of_prog_curve` each. */
  method SolveTimesOf(curves: seq<seq<real>>, frac: seq<real>, tol: real) returns (times: seq<SolveTime>)
    requires IsMatrix(curves, |curves|, |frac|)
    ensures times == SolveTimes(curves, frac, tol)
  {
    times := [];
    for mrep := 0 to |curves|
      invariant times == SolveTimes(curves[..mrep], frac, tol)
    {
      var t := SolveTimeOfProgCurve(curves[mrep], frac, tol);
      assert curves[..mrep + 1] == curves[..mrep] + [curves[mrep]];
      times := times + [t];
    }
    assert curves[..|curves|] == curves;
  }

  /** The sampling loop of `bootstrap_CI` over the post-replicates d: a generator at [1, 0, 0],
      sample k drawn from substream k, and row k of the result holding its statistic. */
  method BootstrapLoop(u: Rng -> real, d: Data, frac: seq<real>, tol: real, pt: PlotType, normalize: bool, nBootstraps: nat,
                       beta: real, num: Numerics) returns (ok: bool, agg: array2<Ext>)
    requires Uniform(u) && WellFormed(d, |frac|) && |d.postReplicates| > 0
    ensures fresh(agg) && agg.Length0 == nBootstraps && agg.Length1 == NIntervals(pt, |frac|)
    ensures var all := SampleAggregates(nBootstraps, u, d, frac, tol, pt, normalize, beta, num);
      && (ok <==> forall k :: 0 <= k < nBootstraps ==> all[k].Some?)
      && forall k, j :: 0 <= k < nBootstraps && 0 <= j < agg.Length1 && all[k].Some? ==> agg[k, j] == all[k].value[j]
  {
    // Stream 1: bootstrapping.
    var rng := Create(BootstrapStream, 0, 0);
    var all := [];
    for k := 0 to nBootstraps
      invariant rng == Rng(BootstrapStream, k, 0, 0)
      invariant all == SampleAggregates(k, u, d, frac, tol, pt, normalize, beta, num)
    {
      var a;
      a, rng := DrawAggregate(k, u, d, frac, tol, pt, normalize, beta, num, rng);
      all := all + [a];
    }
    ok, agg := FillAggregates(all, NIntervals(pt, |frac|));
  }

  /** `bs_aggregate_objects`: an `n_bootstraps` by n matrix of zeros whose row k is overwritten by
      sample k's statistic; ok is false when some statistic is undefined. */
  method FillAggregates(all: seq<Option<seq<Ext>>>, n: nat) returns (ok: bool, agg: array2<Ext>)
    requires forall k :: 0 <= k < |all| && all[k].Some? ==> |all[k].value| == n
    ensures fresh(agg) && agg.Length0 == |all| && agg.Length1 == n
    ensures ok <==> forall k :: 0 <= k < |all| ==> all[k].Some?
    ensures forall k, j :: 0 <= k < |all| && 0 <= j < n && all[k].Some? ==> agg[k, j] == all[k].value[j]
    ensures forall k, j :: 0 <= k < |all| && 0 <= j < n && all[k].None? ==> agg[k, j] == Fin(0.0)
  {
    agg := new Ext[|all|, n]((_, _) => Fin(0.0));
    ok := true;
    for k := 0 to |all|
      invariant ok <==> forall k' :: 0 <= k' < k ==> all[k'].Some?
      invariant forall k', j :: 0 <= k' < k && 0 <= j < n && all[k'].Some? ==> agg[k', j] == all[k'].value[j]
      invariant forall k', j :: 0 <= k' < |all| && 0 <= j < n && (k' >= k || all[k'].None?) ==> agg[k', j] == Fin(0.0)
    {
      if all[k].Some? {
        WriteRow(agg, k, all[k].value);
      } else {
        ok := false;
      }
    }
  }

  /** Bootstrap sample k and its statistic, from the generator at the start of substream k; the
      generator is left at the start of substream k + 1. */
  method DrawAggregate(k: nat, u: Rng -> real, d: Data, frac: seq<real>, tol: real, pt: PlotType, normalize: bool,
                       beta: real, num: Numerics, rng: Rng) returns (a: Option<seq<Ext>>, after: Rng)
    requires Uniform(u) && WellFormed(d, |frac|) && |d.postReplicates| > 0
    requires rng == Rng(BootstrapStream, k, 0, 0)
    ensures a == SampleAggregateAt(k, u, d, frac, tol, pt, normalize, beta, num)
    ensures after == Rng(BootstrapStream, k + 1, 0, 0)
  {
    var s := Resample(u, d, |frac|, true, false, rng);
    a := Aggregate(pt, normalize, s.est, s.prog, frac, tol, beta, num);
    after := s.after;
  }

  /** `bs_aggregate_objects[k] = row`: row k of agg is overwritten, every other row is kept. */
  method WriteRow(agg: array2<Ext>, k: nat, row: seq<Ext>)
    requires k < agg.Length0 && |row| == agg.Length1
    modifies agg
    ensures forall j :: 0 <= j < agg.Length1 ==> agg[k, j] == row[j]
    ensures forall k', j :: 0 <= k' < agg.Length0 && k' != k && 0 <= j < agg.Length1 ==> agg[k', j] == old(agg[k', j])
  {
    for j := 0 to agg.Length1
      invariant forall j' :: 0 <= j' < j ==> agg[k, j'] == row[j']
      invariant forall k', j' :: 0 <= k' < agg.Length0 && k' != k && 0 <= j' < agg.Length1 ==> agg[k', j'] == old(agg[k', j'])
    {
      agg[k, j] := row[j];
    }
  }

  function TolOrZero(tol: Option<real>): real
  {
    if tol.Some? then tol.value else 0.0
  }

  /** The statistic pt of the bootstrap sample drawn from substream k of the bootstrap stream, with
      CRN across budgets and none across macroreplications. */
  function SampleAggregateAt(k: nat, u: Rng -> real, d: Data, frac: seq<real>, tol: real, pt: PlotType, normalize: bool,
                             beta: real, num: Numerics): (r: Option<seq<Ext>>)
    requires Uniform(u) && WellFormed(d, |frac|) && |d.postReplicates| > 0
    ensures r.Some? ==> |r.value| == NIntervals(pt, |frac|)
  {
    var s := Resample(u, d, |frac|, true, false, Rng(BootstrapStream, k, 0, 0));
    Aggregate(pt, normalize, s.est, s.prog, frac, tol, beta, num)
  }

  /** The statistics of the first n bootstrap samples, in the order they are drawn. */
  function SampleAggregates(n: nat, u: Rng -> real, d: Data, frac: seq<real>, tol: real, pt: PlotType, normalize: bool,
                            beta: real, num: Numerics): (all: seq<Option<seq<Ext>>>)
    requires Uniform(u) && WellFormed(d, |frac|) && |d.postReplicates| > 0
    ensures |all| == n
    ensures forall k :: 0 <= k < n && all[k].Some? ==> |all[k].value| == NIntervals(pt, |frac|)
  {
    if n == 0 then []
    else SampleAggregates(n - 1, u, d, frac, tol, pt, normalize, beta, num) + [SampleAggregateAt(n - 1, u, d, frac, tol, pt, normalize, beta, num)]
  }
}

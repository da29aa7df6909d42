/** Post-replication: re-simulating every recommended solution with stream-0 generators,
    the step lookup of its post-replicates onto the unique-budget grid, the estimated
    objective curves and their normalisation into progress curves.

    `problem.simulate` is a collaborator that is not modelled: it is a parameter that, given
    a solution, a number of replications and the oracle's generators, returns the objective
    samples and how many draws it made from each generator. */
module PostReplication {
  import opened Streams
  import opened Stats
  import opened Curves

  /** A decision vector (a tuple of floats in the source). */
  type X = seq<real>

  /** A solution with the first objective of each of its replications, in order. */
  datatype Solution = Solution(x: X, samples: seq<real>)

  /** What one call of `problem.simulate(solution, m)` produces. */
  datatype SimOutput = SimOutput(samples: seq<real>, draws: seq<nat>)

  type Simulator = (X, nat, seq<Rng>) -> SimOutput

  /** m replications give m samples. */
  ghost predicate Simulates(sim: Simulator)
  {
    forall x, m, rs :: |sim(x, m, rs).samples| == m
  }

  /** The settings of one post-replication pass. */
  datatype Setup = Setup(
    sim: Simulator,
    x0: X,                  // the problem's initial solution
    xstar: X,               // the problem's reference optimal solution
    nPostreps: nat,         // post-replications at each recommended solution
    nPostrepsInitOpt: nat,  // post-replications at x0 and x*
    crnBudget: bool,        // common random numbers across budgets
    crnMacro: bool)         // common random numbers across macroreplications

  /** `problem.simulate` at x from generators rs: the new solution and the generators after its draws. */
  function Simulate(sim: Simulator, x: X, m: nat, rs: seq<Rng>): (r: (Solution, seq<Rng>))
    requires Simulates(sim)
    ensures r.0.x == x && |r.0.samples| == m && |r.1| == |rs|
    ensures r.0.samples == sim(x, m, rs).samples
  {
    var out := sim(x, m, rs);
    (Solution(x, out.samples), DrawAll(rs, out.draws))
  }

  /** `reset_substream` on every generator when the flag is set. */
  function ResetIf(crn: bool, rs: seq<Rng>): (out: seq<Rng>)
    ensures |out| == |rs|
  {
    if crn then ResetAll(rs) else rs
  }

  /** After a macroreplication, every generator moves on by as many substreams as there are
      generators, or is reset when macroreplications share random numbers. */
  function EndMacrorep(crnMacro: bool, rs: seq<Rng>): (out: seq<Rng>)
    ensures |out| == |rs|
  {
    if crnMacro then ResetAll(rs) else AdvanceAll(rs, |rs|)
  }

  /** The first substream of the block a macroreplication's generators use. */
  function Base(crnMacro: bool, mrep: nat, nRngs: nat): nat
  {
    if crnMacro then 0 else mrep * nRngs
  }

  // ----- the specification of the pass -----

  /** How recommendation x is reevaluated: x0 reuses the initial solution, x* (if not x0) the
      reference solution, and any other x gets a fresh solution of nPostreps samples. */
  predicate ReevaluatedAs(st: Setup, init: Solution, ref: Solution, x: X, s: Solution)
  {
    if x == st.x0 then s == init
    else if x == st.xstar then s == ref
    else s.x == x && |s.samples| == st.nPostreps
  }

  /** Reevaluates the recommended solutions xs of one macroreplication, starting from generators rs:
      x0 and x* reuse their solutions, any other solution is simulated afresh. Also returns the
      generators after the last one. */
  function ReevaluateMacrorep(st: Setup, init: Solution, ref: Solution, xs: seq<X>, rs: seq<Rng>): (r: (seq<Solution>, seq<Rng>))
    requires Simulates(st.sim)
    ensures |r.0| == |xs| && |r.1| == |rs|
    ensures forall j :: 0 <= j < |xs| ==> ReevaluatedAs(st, init, ref, xs[j], r.0[j])
    decreases |xs|
  {
    if xs == [] then ([], rs)
    else
      var prev := ReevaluateMacrorep(st, init, ref, xs[..|xs| - 1], rs);
      var x := xs[|xs| - 1];
      if x == st.x0 then (prev.0 + [init], prev.1)
      else if x == st.xstar then (prev.0 + [ref], prev.1)
      else
        var next := Simulate(st.sim, x, st.nPostreps, prev.1);
        (prev.0 + [next.0], ResetIf(st.crnBudget, next.1))
  }

  /** Reevaluates every macroreplication in turn, ending each one as EndMacrorep says. */
  function ReevaluateAll(st: Setup, init: Solution, ref: Solution, allXs: seq<seq<X>>, rs: seq<Rng>): (r: (seq<seq<Solution>>, seq<Rng>))
    requires Simulates(st.sim)
    ensures |r.0| == |allXs| && |r.1| == |rs|
    ensures forall m :: 0 <= m < |allXs| ==> |r.0[m]| == |allXs[m]|
    ensures forall m, j :: 0 <= m < |allXs| && 0 <= j < |allXs[m]| ==> ReevaluatedAs(st, init, ref, allXs[m][j], r.0[m][j])
    decreases |allXs|
  {
    if allXs == [] then ([], rs)
    else
      var front := allXs[..|allXs| - 1];
      var prev := ReevaluateAll(st, init, ref, front, rs);
      var row := ReevaluateMacrorep(st, init, ref, allXs[|allXs| - 1], prev.1);
      var rows := prev.0 + [row.0];
      assert forall m :: 0 <= m < |front| ==> rows[m] == prev.0[m] && allXs[m] == front[m];
      (rows, EndMacrorep(st.crnMacro, row.1))
  }

  /** The generators x* is simulated from: the stream-0 generators after x0's draws, reset to the
      starts of their substreams when budgets share random numbers. */
  function ReferenceRngs(st: Setup, nRngs: nat): (rs: seq<Rng>)
    ensures |rs| == nRngs && InSubstreams(rs, PostRepStream, 0)
    ensures st.crnBudget ==> rs == PostRepRngs(nRngs)
  {
    var rs0 := PostRepRngs(nRngs);
    var draws := st.sim(st.x0, st.nPostrepsInitOpt, rs0).draws;
    assert rs0 == SubstreamStarts(PostRepStream, 0, nRngs);
    SubstreamStartsInSubstreams(PostRepStream, 0, nRngs);
    InSubstreamsDiscipline(rs0, PostRepStream, 0, draws);
    InSubstreamsDiscipline(DrawAll(rs0, draws), PostRepStream, 0, []);
    ResetIf(st.crnBudget, DrawAll(rs0, draws))
  }

  /** x0 and x*, each simulated nPostrepsInitOpt times from the stream-0 generators, and the
      generators the macroreplications then start from. */
  function SimulateReferences(st: Setup, nRngs: nat): (r: (Solution, Solution, seq<Rng>))
    requires Simulates(st.sim)
    ensures r.0.x == st.x0 && |r.0.samples| == st.nPostrepsInitOpt
    ensures r.1.x == st.xstar && |r.1.samples| == st.nPostrepsInitOpt
    ensures r.0.samples == st.sim(st.x0, st.nPostrepsInitOpt, PostRepRngs(nRngs)).samples
    ensures r.1.samples == st.sim(st.xstar, st.nPostrepsInitOpt, ReferenceRngs(st, nRngs)).samples
    ensures |r.2| == nRngs && InSubstreams(r.2, PostRepStream, 0)
    ensures st.crnBudget ==> r.2 == SubstreamStarts(PostRepStream, 0, nRngs)
  {
    var initial := Simulate(st.sim, st.x0, st.nPostrepsInitOpt, PostRepRngs(nRngs));
    var mid := ResetIf(st.crnBudget, initial.1);
    assert mid == ReferenceRngs(st, nRngs);
    var reference := Simulate(st.sim, st.xstar, st.nPostrepsInitOpt, mid);
    InSubstreamsDiscipline(mid, PostRepStream, 0, st.sim(st.xstar, st.nPostrepsInitOpt, mid).draws);
    InSubstreamsDiscipline(reference.1, PostRepStream, 0, []);
    (initial.0, reference.0, ResetIf(st.crnBudget, reference.1))
  }

  /** The oracle's generators just before recommendation j of macroreplication m is reevaluated. */
  function GeneratorsAt(st: Setup, init: Solution, ref: Solution, allXs: seq<seq<X>>, rs: seq<Rng>, m: nat, j: nat): seq<Rng>
    requires Simulates(st.sim)
    requires m < |allXs| && j <= |allXs[m]|
  {
    ReevaluateMacrorep(st, init, ref, allXs[m][..j], ReevaluateAll(st, init, ref, allXs[..m], rs).1).1
  }

  // ----- where each simulation draws from -----

  /** The reevaluation of recommendation j only depends on the recommendations before it. */
  lemma {:induction false} MacrorepPrefix(st: Setup, init: Solution, ref: Solution, xs: seq<X>, rs: seq<Rng>, j: nat)
    requires Simulates(st.sim)
    requires j < |xs|
    ensures ReevaluateMacrorep(st, init, ref, xs, rs).0[j] == ReevaluateMacrorep(st, init, ref, xs[..j + 1], rs).0[j]
    decreases |xs|
  {
    if j + 1 < |xs| {
      var front := xs[..|xs| - 1];
      assert front[..j + 1] == xs[..j + 1];
      MacrorepPrefix(st, init, ref, front, rs, j);
    } else {
      assert xs[..j + 1] == xs;
    }
  }

  /** Row m of the pass is macroreplication m reevaluated from the generators the earlier rows left. */
  lemma {:induction false} ReevaluateAllRow(st: Setup, init: Solution, ref: Solution, allXs: seq<seq<X>>, rs: seq<Rng>, m: nat)
    requires Simulates(st.sim)
    requires m < |allXs|
    ensures ReevaluateAll(st, init, ref, allXs, rs).0[m]
      == ReevaluateMacrorep(st, init, ref, allXs[m], ReevaluateAll(st, init, ref, allXs[..m], rs).1).0
    decreases |allXs|
  {
    if m + 1 < |allXs| {
      var front := allXs[..|allXs| - 1];
      assert front[..m] == allXs[..m];
      ReevaluateAllRow(st, init, ref, front, rs, m);
    } else {
      assert allXs[..|allXs| - 1] == allXs[..m];
    }
  }

  /** Every freshly simulated recommendation is simulated nPostreps times from GeneratorsAt. */
  lemma FreshSimulationSource(st: Setup, init: Solution, ref: Solution, allXs: seq<seq<X>>, rs: seq<Rng>, m: nat, j: nat)
    requires Simulates(st.sim)
    requires m < |allXs| && j < |allXs[m]|
    requires allXs[m][j] != st.x0 && allXs[m][j] != st.xstar
    ensures ReevaluateAll(st, init, ref, allXs, rs).0[m][j]
      == Solution(allXs[m][j], st.sim(allXs[m][j], st.nPostreps, GeneratorsAt(st, init, ref, allXs, rs, m, j)).samples)
  {
    var start := ReevaluateAll(st, init, ref, allXs[..m], rs).1;
    ReevaluateAllRow(st, init, ref, allXs, rs, m);
    MacrorepPrefix(st, init, ref, allXs[m], start, j);
    assert allXs[m][..j + 1][..j] == allXs[m][..j];
  }

  /** Within a macroreplication the generators never leave their block of substreams; with CRN
      across budgets, every fresh simulation starts from the very start of the block. */
  lemma {:induction false} MacrorepKeepsBlock(st: Setup, init: Solution, ref: Solution, xs: seq<X>, rs: seq<Rng>, s: nat, base: nat)
    requires Simulates(st.sim)
    requires InSubstreams(rs, s, base)
    ensures InSubstreams(ReevaluateMacrorep(st, init, ref, xs, rs).1, s, base)
    ensures st.crnBudget && rs == SubstreamStarts(s, base, |rs|) ==> ReevaluateMacrorep(st, init, ref, xs, rs).1 == rs
    decreases |xs|
  {
    if xs != [] {
      var front := xs[..|xs| - 1];
      MacrorepKeepsBlock(st, init, ref, front, rs, s, base);
      var prev := ReevaluateMacrorep(st, init, ref, front, rs).1;
      var x := xs[|xs| - 1];
      if x != st.x0 && x != st.xstar {
        var out := st.sim(x, st.nPostreps, prev);
        InSubstreamsDiscipline(prev, s, base, out.draws);
        InSubstreamsDiscipline(DrawAll(prev, out.draws), s, base, []);
      }
    }
  }

  /** Before macroreplication m >= 1 every generator sits at the start of its substream in block
      Base(m); before any macroreplication they are in that block. */
  lemma {:induction false} GeneratorsBeforeMacrorep(st: Setup, init: Solution, ref: Solution, allXs: seq<seq<X>>, rs: seq<Rng>, s: nat)
    requires Simulates(st.sim)
    requires InSubstreams(rs, s, 0)
    ensures InSubstreams(ReevaluateAll(st, init, ref, allXs, rs).1, s, Base(st.crnMacro, |allXs|, |rs|))
    ensures |allXs| >= 1 ==> ReevaluateAll(st, init, ref, allXs, rs).1 == SubstreamStarts(s, Base(st.crnMacro, |allXs|, |rs|), |rs|)
    ensures st.crnBudget && rs == SubstreamStarts(s, 0, |rs|) ==>
      ReevaluateAll(st, init, ref, allXs, rs).1 == SubstreamStarts(s, Base(st.crnMacro, |allXs|, |rs|), |rs|)
    decreases |allXs|
  {
    var n := |rs|;
    var k := |allXs|;
    if k > 0 {
      var front := allXs[..k - 1];
      GeneratorsBeforeMacrorep(st, init, ref, front, rs, s);
      var prev := ReevaluateAll(st, init, ref, front, rs).1;
      var b := Base(st.crnMacro, k - 1, n);
      MacrorepKeepsBlock(st, init, ref, allXs[k - 1], prev, s, b);
      var row := ReevaluateMacrorep(st, init, ref, allXs[k - 1], prev).1;
      assert ReevaluateAll(st, init, ref, allXs, rs).1 == EndMacrorep(st.crnMacro, row);
      EndMacrorepLands(st.crnMacro, row, s, k);
      SubstreamStartsInSubstreams(s, Base(st.crnMacro, k, n), n);
    }
  }

  /** Ending macroreplication k - 1 puts the generators at the substream starts of block Base(k). */
  lemma EndMacrorepLands(crnMacro: bool, rs: seq<Rng>, s: nat, k: nat)
    requires k > 0 && InSubstreams(rs, s, Base(crnMacro, k - 1, |rs|))
    ensures EndMacrorep(crnMacro, rs) == SubstreamStarts(s, Base(crnMacro, k, |rs|), |rs|)
  {
    var n := |rs|;
    var b := Base(crnMacro, k - 1, n);
    InSubstreamsDiscipline(rs, s, b, []);
    if !crnMacro {
      assert b + n == k * n;
    }
  }

  /** The generators of GeneratorsAt(m, j) are in block Base(m); with CRN across budgets and a
      CRN-reset after x0 and x*, they are exactly the block's substream starts. */
  lemma GeneratorsAtBlock(st: Setup, nRngs: nat, allXs: seq<seq<X>>, m: nat, j: nat)
    requires Simulates(st.sim)
    requires m < |allXs| && j <= |allXs[m]|
    ensures var refs := SimulateReferences(st, nRngs);
      InSubstreams(GeneratorsAt(st, refs.0, refs.1, allXs, refs.2, m, j), PostRepStream, Base(st.crnMacro, m, nRngs))
    ensures var refs := SimulateReferences(st, nRngs);
      st.crnBudget ==> GeneratorsAt(st, refs.0, refs.1, allXs, refs.2, m, j) == SubstreamStarts(PostRepStream, Base(st.crnMacro, m, nRngs), nRngs)
  {
    var refs := SimulateReferences(st, nRngs);
    GeneratorsBeforeMacrorep(st, refs.0, refs.1, allXs[..m], refs.2, PostRepStream);
    var start := ReevaluateAll(st, refs.0, refs.1, allXs[..m], refs.2).1;
    MacrorepKeepsBlock(st, refs.0, refs.1, allXs[m][..j], start, PostRepStream, Base(st.crnMacro, m, nRngs));
  }

  /** With CRN across budgets, x0 and x* are simulated from the same generators, and every fresh
      solution of macroreplication m is simulated from the starts of the substreams of block
      Base(m): substreams 0..nRngs-1 for every macroreplication when macroreplications share random
      numbers, substreams m*nRngs..m*nRngs+nRngs-1 otherwise. */
  lemma CrnAcrossBudgetAddresses(st: Setup, nRngs: nat, allXs: seq<seq<X>>, m: nat, j: nat)
    requires Simulates(st.sim) && st.crnBudget
    requires m < |allXs| && j < |allXs[m]|
    ensures SimulateReferences(st, nRngs).0.samples == st.sim(st.x0, st.nPostrepsInitOpt, PostRepRngs(nRngs)).samples
    ensures SimulateReferences(st, nRngs).1.samples == st.sim(st.xstar, st.nPostrepsInitOpt, PostRepRngs(nRngs)).samples
    ensures var refs := SimulateReferences(st, nRngs);
      allXs[m][j] != st.x0 && allXs[m][j] != st.xstar ==>
      ReevaluateAll(st, refs.0, refs.1, allXs, refs.2).0[m][j]
        == Solution(allXs[m][j], st.sim(allXs[m][j], st.nPostreps, SubstreamStarts(PostRepStream, Base(st.crnMacro, m, nRngs), nRngs)).samples)
  {
    var refs := SimulateReferences(st, nRngs);
    if allXs[m][j] != st.x0 && allXs[m][j] != st.xstar {
      FreshSimulationSource(st, refs.0, refs.1, allXs, refs.2, m, j);
      GeneratorsAtBlock(st, nRngs, allXs, m, j);
    }
  }

  /** Without CRN across macroreplications, two different macroreplications never draw from the
      same substream of stream 0. */
  lemma MacrorepBlocksDisjoint(st: Setup, nRngs: nat, allXs: seq<seq<X>>, m1: nat, j1: nat, m2: nat, j2: nat, i1: nat, i2: nat)
    requires Simulates(st.sim) && !st.crnMacro
    requires m1 < |allXs| && j1 <= |allXs[m1]| && m2 < |allXs| && j2 <= |allXs[m2]| && m1 != m2
    requires i1 < nRngs && i2 < nRngs
    ensures var refs := SimulateReferences(st, nRngs);
      GeneratorsAt(st, refs.0, refs.1, allXs, refs.2, m1, j1)[i1].substream
        != GeneratorsAt(st, refs.0, refs.1, allXs, refs.2, m2, j2)[i2].substream
  {
    GeneratorsAtBlock(st, nRngs, allXs, m1, j1);
    GeneratorsAtBlock(st, nRngs, allXs, m2, j2);
    if m1 < m2 {
      BlocksApart(m1, m2, nRngs, i1, i2);
    } else {
      BlocksApart(m2, m1, nRngs, i2, i1);
    }
  }

  lemma BlocksApart(a: nat, b: nat, n: nat, i: nat, k: nat)
    requires a < b && i < n && k < n
    ensures a * n + i < b * n + k
  {
    assert (a + 1) * n <= b * n;
  }

  // ----- the step lookup and the curves -----

  /** Every macroreplication has a recommendation at or before every grid point (numpy raises
      on an empty selection otherwise). */
  predicate LookupDefined(budgets: seq<seq<nat>>, grid: seq<nat>)
  {
    forall m, b :: 0 <= m < |budgets| && 0 <= b < |grid| ==> LatestAtOrBefore(budgets[m], grid[b]).Some?
  }

  /** One budget per recommended solution, macroreplication by macroreplication. */
  predicate Aligned<T>(rows: seq<seq<T>>, budgets: seq<seq<nat>>)
  {
    |rows| == |budgets| && forall m :: 0 <= m < |rows| ==> |rows[m]| == |budgets[m]|
  }

  /** `all_post_replicates`: for each macroreplication and grid point, the samples of the latest
      solution recommended at or before that budget. */
  function PostReplicatesOf(solns: seq<seq<Solution>>, budgets: seq<seq<nat>>, grid: seq<nat>): (p: seq<seq<seq<real>>>)
    requires Aligned(solns, budgets) && LookupDefined(budgets, grid)
    ensures |p| == |solns| && forall m :: 0 <= m < |p| ==> |p[m]| == |grid|
  {
    seq(|solns|, m requires 0 <= m < |solns| =>
      seq(|grid|, b requires 0 <= b < |grid| => solns[m][LatestAtOrBefore(budgets[m], grid[b]).value].samples))
  }

  /** No cell of the post-replicate matrix is empty. */
  predicate CellsNonEmpty(p: seq<seq<seq<real>>>)
  {
    forall m, b :: 0 <= m < |p| && 0 <= b < |p[m]| ==> |p[m][b]| > 0
  }

  /** `all_est_objective`: the mean of every cell. */
  function EstObjective(p: seq<seq<seq<real>>>): (est: seq<seq<real>>)
    requires CellsNonEmpty(p)
    ensures |est| == |p| && forall m :: 0 <= m < |p| ==> |est[m]| == |p[m]|
  {
    seq(|p|, m requires 0 <= m < |p| => seq(|p[m]|, b requires 0 <= b < |p[m]| => Mean(p[m][b])))
  }

  /** `all_prog_curves`: every estimate normalised by the optimality gap. */
  function ProgCurves(est: seq<seq<real>>, fstar: real, gap: real): (prog: seq<seq<real>>)
    requires gap != 0.0
    ensures |prog| == |est| && forall m :: 0 <= m < |est| ==> |prog[m]| == |est[m]|
  {
    seq(|est|, m requires 0 <= m < |est| => seq(|est[m]|, b requires 0 <= b < |est[m]| => Normalize(est[m][b], fstar, gap)))
  }

  /** Everything `post_replicate` computes. `prog` is None when the initial optimality gap is
      zero, where the source divides by zero. */
  datatype Outcome = Outcome(
    init: Solution,
    ref: Solution,
    solns: seq<seq<Solution>>,
    grid: seq<nat>,
    fracGrid: seq<real>,
    postReplicates: seq<seq<seq<real>>>,
    est: seq<seq<real>>,
    prog: Option<seq<seq<real>>>)

  /** What post-replication demands of the experiment it runs on. */
  ghost predicate Ready(st: Setup, budget: nat, allXs: seq<seq<X>>, budgets: seq<seq<nat>>)
  {
    Simulates(st.sim) && st.nPostreps > 0 && st.nPostrepsInitOpt > 0 && budget > 0
    && Aligned(allXs, budgets) && LookupDefined(budgets, UniqueBudgets(budgets))
  }

  /** `post_replicate` on the recommended solutions allXs found at the intermediate budgets. */
  function PostReplicate(st: Setup, nRngs: nat, budget: nat, allXs: seq<seq<X>>, budgets: seq<seq<nat>>): (o: Outcome)
    requires Ready(st, budget, allXs, budgets)
    ensures |o.solns| == |allXs| && |o.postReplicates| == |allXs| && |o.est| == |allXs|
    ensures o.init.x == st.x0 && |o.init.samples| == st.nPostrepsInitOpt
    ensures o.ref.x == st.xstar && |o.ref.samples| == st.nPostrepsInitOpt
    ensures |o.fracGrid| == |o.grid|
    ensures CellsNonEmpty(o.postReplicates)
    ensures forall m :: 0 <= m < |allXs| ==> |o.postReplicates[m]| == |o.grid| && |o.est[m]| == |o.grid|
    ensures o.prog.Some? <==> Mean(o.init.samples) != Mean(o.ref.samples)
    ensures o.prog.Some? ==> |o.prog.value| == |allXs| && forall m :: 0 <= m < |allXs| ==> |o.prog.value[m]| == |o.grid|
  {
    var refs := SimulateReferences(st, nRngs);
    var solns := ReevaluateAll(st, refs.0, refs.1, allXs, refs.2).0;
    var grid := UniqueBudgets(budgets);
    var p := PostReplicatesOf(solns, budgets, grid);
    ReevaluatedCellsNonEmpty(st, refs.0, refs.1, allXs, solns, budgets, grid);
    var est := EstObjective(p);
    var f0, fstar := Mean(refs.0.samples), Mean(refs.1.samples);
    Outcome(refs.0, refs.1, solns, grid, FracBudgets(grid, budget), p, est, ProgCurvesIfDefined(est, f0, fstar))
  }

  /** All progress curves, or None when the optimality gap f(x0) - f(x*) is zero. */
  function ProgCurvesIfDefined(est: seq<seq<real>>, f0: real, fstar: real): (r: Option<seq<seq<real>>>)
    ensures r.Some? <==> f0 != fstar
    ensures r.Some? ==> |r.value| == |est| && forall m :: 0 <= m < |est| ==> |r.value[m]| == |est[m]|
  {
    if f0 - fstar == 0.0 then None else Some(ProgCurves(est, fstar, f0 - fstar))
  }

  /** The post-replicate matrix of reevaluated solutions has no empty cell. */
  lemma ReevaluatedCellsNonEmpty(st: Setup, init: Solution, ref: Solution, allXs: seq<seq<X>>, solns: seq<seq<Solution>>,
                                 budgets: seq<seq<nat>>, grid: seq<nat>)
    requires Aligned(allXs, budgets) && Aligned(solns, budgets) && LookupDefined(budgets, grid)
    requires forall m, j :: 0 <= m < |allXs| && 0 <= j < |allXs[m]| ==> ReevaluatedAs(st, init, ref, allXs[m][j], solns[m][j])
    requires st.nPostreps > 0 && |init.samples| > 0 && |ref.samples| > 0
    ensures CellsNonEmpty(PostReplicatesOf(solns, budgets, grid))
  {
    var p := PostReplicatesOf(solns, budgets, grid);
    forall m, b | 0 <= m < |p| && 0 <= b < |p[m]| ensures |p[m][b]| > 0 {
      var j := LatestAtOrBefore(budgets[m], grid[b]).value;
      assert p[m][b] == solns[m][j].samples;
      assert ReevaluatedAs(st, init, ref, allXs[m][j], solns[m][j]);
    }
  }

  /** Wherever the looked-up recommendation is x0 the progress curve is exactly 1, and wherever it
      is x* (and not x0) it is exactly 0: those cells reuse the very samples f0 and f* come from.
      The solutions are any that are reevaluated as ReevaluateAll guarantees. */
  lemma ReusedLookupsNormalize(st: Setup, init: Solution, ref: Solution, allXs: seq<seq<X>>, solns: seq<seq<Solution>>,
                               budgets: seq<seq<nat>>, grid: seq<nat>, m: nat, b: nat)
    requires Aligned(allXs, budgets) && Aligned(solns, budgets) && LookupDefined(budgets, grid)
    requires forall m, j :: 0 <= m < |allXs| && 0 <= j < |allXs[m]| ==> ReevaluatedAs(st, init, ref, allXs[m][j], solns[m][j])
    requires st.nPostreps > 0 && |init.samples| > 0 && |ref.samples| > 0 && Mean(init.samples) != Mean(ref.samples)
    requires m < |allXs| && b < |grid|
    ensures CellsNonEmpty(PostReplicatesOf(solns, budgets, grid))
    ensures var prog := ProgCurves(EstObjective(PostReplicatesOf(solns, budgets, grid)), Mean(ref.samples), Mean(init.samples) - Mean(ref.samples));
      var j := LatestAtOrBefore(budgets[m], grid[b]).value;
      (allXs[m][j] == st.x0 ==> prog[m][b] == 1.0) && (allXs[m][j] != st.x0 && allXs[m][j] == st.xstar ==> prog[m][b] == 0.0)
  {
    ReevaluatedCellsNonEmpty(st, init, ref, allXs, solns, budgets, grid);
    var p := PostReplicatesOf(solns, budgets, grid);
    var f0, fstar := Mean(init.samples), Mean(ref.samples);
    var j := LatestAtOrBefore(budgets[m], grid[b]).value;
    assert p[m][b] == solns[m][j].samples;
    assert ReevaluatedAs(st, init, ref, allXs[m][j], solns[m][j]);
    assert ProgCurves(EstObjective(p), fstar, f0 - fstar)[m][b] == Normalize(Mean(p[m][b]), fstar, f0 - fstar);
    NormalizeEnds(f0, fstar);
  }

  /** Along the grid, the looked-up recommendation of a macroreplication never moves backwards. */
  lemma LookupNonDecreasing(budgets: seq<seq<nat>>, m: nat, b1: nat, b2: nat)
    requires LookupDefined(budgets, UniqueBudgets(budgets))
    requires m < |budgets| && b1 <= b2 < |UniqueBudgets(budgets)|
    ensures LatestAtOrBefore(budgets[m], UniqueBudgets(budgets)[b1]).value
      <= LatestAtOrBefore(budgets[m], UniqueBudgets(budgets)[b2]).value
  {
    var grid := UniqueBudgets(budgets);
    assert grid[b1] <= grid[b2];
    LatestAtOrBeforeMonotone(budgets[m], grid[b1], grid[b2]);
  }

  // ----- the loops of the source -----

  /** `for rng in rng_list: rng.reset_substream()`. */
  method ResetEach(rs: seq<Rng>) returns (out: seq<Rng>)
    ensures out == ResetAll(rs)
  {
    out := rs;
    for i := 0 to |rs|
      invariant |out| == |rs|
      invariant forall k :: 0 <= k < i ==> out[k] == ResetSubstream(rs[k])
      invariant forall k :: i <= k < |rs| ==> out[k] == rs[k]
    {
      out := out[i := ResetSubstream(out[i])];
    }
  }

  /** `for rng in rng_list: for _ in range(n): rng.advance_substream()`. */
  method AdvanceEach(rs: seq<Rng>, n: nat) returns (out: seq<Rng>)
    ensures out == AdvanceAll(rs, n)
  {
    out := rs;
    for i := 0 to |rs|
      invariant |out| == |rs|
      invariant forall k :: 0 <= k < i ==> out[k] == AdvanceSubstreamTimes(rs[k], n)
      invariant forall k :: i <= k < |rs| ==> out[k] == rs[k]
    {
      for t := 0 to n
        invariant |out| == |rs|
        invariant out[i] == AdvanceSubstreamTimes(rs[i], t)
        invariant forall k :: 0 <= k < |rs| && k != i ==> out[k] == (if k < i then AdvanceSubstreamTimes(rs[k], n) else rs[k])
      {
        out := out[i := AdvanceSubstream(out[i])];
      }
    }
  }

  /** The inner loop of `post_replicate`: reevaluates the recommended solutions of one
      macroreplication from the generators rs. */
  method ReevaluateRecommended(st: Setup, init: Solution, ref: Solution, xs: seq<X>, rs: seq<Rng>)
      returns (evaluated: seq<Solution>, rngs: seq<Rng>)
    requires Simulates(st.sim)
    ensures (evaluated, rngs) == ReevaluateMacrorep(st, init, ref, xs, rs)
  {
    evaluated, rngs := [], rs;
    for j := 0 to |xs|
      invariant (evaluated, rngs) == ReevaluateMacrorep(st, init, ref, xs[..j], rs)
    {
      var x := xs[j];
      assert xs[..j + 1][..j] == xs[..j];
      if x == st.x0 {
        evaluated := evaluated + [init];
      } else if x == st.xstar {
        evaluated := evaluated + [ref];
      } else {
        var out := st.sim(x, st.nPostreps, rngs);
        evaluated := evaluated + [Solution(x, out.samples)];
        rngs := DrawAll(rngs, out.draws);
        if st.crnBudget {
          rngs := ResetEach(rngs);
        }
      }
    }
    assert xs[..|xs|] == xs;
  }

  /** The macroreplication loop of `post_replicate`, from the generators rs left after x0 and x*:
      the reevaluated solutions of every macroreplication and the generators after the last one. */
  method ReevaluateMacroreps(st: Setup, init: Solution, ref: Solution, allXs: seq<seq<X>>, rs: seq<Rng>)
      returns (solns: seq<seq<Solution>>, rngs: seq<Rng>)
    requires Simulates(st.sim)
    ensures (solns, rngs) == ReevaluateAll(st, init, ref, allXs, rs)
  {
    solns, rngs := [], rs;
    for mrep := 0 to |allXs|
      invariant (solns, rngs) == ReevaluateAll(st, init, ref, allXs[..mrep], rs)
    {
      assert allXs[..mrep + 1][..mrep] == allXs[..mrep];
      var evaluated;
      evaluated, rngs := ReevaluateRecommended(st, init, ref, allXs[mrep], rngs);
      solns := solns + [evaluated];
      if !st.crnMacro {
        rngs := AdvanceEach(rngs, |rngs|);
      } else {
        rngs := ResetEach(rngs);
      }
    }
    assert allXs[..|allXs|] == allXs;
  }

  /** The nested loop filling `all_post_replicates`: cell (m, b) holds the samples of the latest
      solution of macroreplication m recommended at or before grid budget b. */
  method LookupPostReplicates(solns: seq<seq<Solution>>, budgets: seq<seq<nat>>, grid: seq<nat>) returns (p: seq<seq<seq<real>>>)
    requires Aligned(solns, budgets) && LookupDefined(budgets, grid)
    ensures p == PostReplicatesOf(solns, budgets, grid)
    ensures |p| == |solns| && forall m :: 0 <= m < |p| ==> |p[m]| == |grid|
    ensures forall m, b :: 0 <= m < |solns| && 0 <= b < |grid| ==> HoldsLatest(p, solns, budgets, grid, m, b)
  {
    ghost var spec := PostReplicatesOf(solns, budgets, grid);
    p := [];
    for m := 0 to |solns|
      invariant |p| == m
      invariant forall m' :: 0 <= m' < m ==> p[m'] == spec[m']
    {
      var row: seq<seq<real>> := [];
      for b := 0 to |grid|
        invariant |row| == b
        invariant forall b' :: 0 <= b' < b ==> row[b'] == spec[m][b']
      {
        var j := LatestAtOrBefore(budgets[m], grid[b]).value;
        row := row + [solns[m][j].samples];
      }
      p := p + [row];
    }
    assert p == spec;
    forall m, b | 0 <= m < |solns| && 0 <= b < |grid|
      ensures HoldsLatest(p, solns, budgets, grid, m, b)
    {
      var j := LatestAtOrBefore(budgets[m], grid[b]).value;
      assert p[m][b] == spec[m][b] == solns[m][j].samples;
      assert IsLatestAtOrBefore(budgets[m], grid[b], j);
    }
  }

  /** j is the largest index whose budget is at most g. */
  predicate IsLatestAtOrBefore(budgets: seq<nat>, g: nat, j: int)
  {
    0 <= j < |budgets| && budgets[j] <= g && forall k :: j < k < |budgets| ==> budgets[k] > g
  }

  /** Cell (m, b) holds the samples of the latest solution of macroreplication m recommended at
      or before grid budget b. */
  ghost predicate HoldsLatest(p: seq<seq<seq<real>>>, solns: seq<seq<Solution>>, budgets: seq<seq<nat>>, grid: seq<nat>, m: nat, b: nat)
    requires Aligned(solns, budgets)
    requires m < |p| && b < |p[m]| && m < |solns| && b < |grid|
  {
    exists j :: IsLatestAtOrBefore(budgets[m], grid[b], j) && p[m][b] == solns[m][j].samples
  }
}

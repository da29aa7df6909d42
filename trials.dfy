/** The trial runner: `n_macroreps` runs of the solver on the problem, each macroreplication
    with oracle generators of its own stream, the solver with one generator that it keeps
    drawing from across macroreplications.

    `solver.solve` is a collaborator that is not modelled: it is a parameter that, given the
    oracle's generators, the solver's generator and the CRN flag, returns the recommended
    solutions, the budgets at which they were recommended and the solver's generator after
    the run. */
module Trials {
  import opened Streams
  import opened PostReplication

  /** What one call of `solver.solve(problem, crn_across_solns)` gives back. */
  datatype SolveOutput = SolveOutput(xs: seq<X>, budgets: seq<nat>, solverRng: Rng)

  type Solver = (seq<Rng>, Rng, bool) -> SolveOutput

  /** One budget per recommended solution. */
  ghost predicate Solves(solve: Solver)
  {
    forall rs, r, crn :: |solve(rs, r, crn).xs| == |solve(rs, r, crn).budgets|
  }

  /** The recorded trajectories of the first n macroreplications and the solver's generator after them. */
  datatype Record = Record(allXs: seq<seq<X>>, allBudgets: seq<seq<nat>>, solverRng: Rng)

  /** The macroreplication loop of `run`: macroreplication m hands the oracle the generators
      MacrorepOracleRngs(m) and the solver its generator as the previous macroreplication left it. */
  function RunTrials(solve: Solver, nRngs: nat, n: nat, crn: bool): (t: Record)
    requires Solves(solve)
    ensures |t.allXs| == n && Aligned(t.allXs, t.allBudgets)
    decreases n
  {
    if n == 0 then Record([], [], SolverRng())
    else
      var prev := RunTrials(solve, nRngs, n - 1, crn);
      var out := solve(MacrorepOracleRngs(n - 1, nRngs), prev.solverRng, crn);
      Record(prev.allXs + [out.xs], prev.allBudgets + [out.budgets], out.solverRng)
  }

  /** Macroreplication m of a run of n is the solver's answer to the generators of stream
      MacrorepStream(m), with the solver's generator as the first m macroreplications left it. */
  lemma {:induction false} TrialInputs(solve: Solver, nRngs: nat, n: nat, crn: bool, m: nat)
    requires Solves(solve)
    requires m < n
    ensures var out := solve(MacrorepOracleRngs(m, nRngs), RunTrials(solve, nRngs, m, crn).solverRng, crn);
      RunTrials(solve, nRngs, n, crn).allXs[m] == out.xs && RunTrials(solve, nRngs, n, crn).allBudgets[m] == out.budgets
    decreases n
  {
    if m < n - 1 {
      TrialInputs(solve, nRngs, n - 1, crn, m);
    }
  }

  /** As written, the first macroreplication's oracle is handed, among its generators, one at the
      very address the solver's generator starts from ([2, 2, 0]) when the problem uses three or
      more generators; with the documented numbering (streams 3 onwards) it would not be. */
  lemma FirstTrialSharesSolverAddress(solve: Solver, nRngs: nat, crn: bool)
    requires Solves(solve)
    requires nRngs >= 3
    ensures RunTrials(solve, nRngs, 0, crn).solverRng == MacrorepOracleRngs(0, nRngs)[2]
    ensures forall i :: 0 <= i < nRngs ==> Rng(DocumentedMacrorepStream(0), i, 0, 0) != SolverRng()
  {
  }
}

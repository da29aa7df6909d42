# SimOpt experiment engine, modelled in Dafny

This project models the experiment engine of SimOpt (`simopt/wrapper_base.py`). An `Experiment`
pairs one solver with one simulation-optimisation problem and fills its fields in phases:

- `run` runs the solver for `n_macroreps` macroreplications and records, for each one, the
  recommended solutions and the budgets at which they were recommended;
- `post_replicate` re-simulates every recommended solution (and the initial solution x0 and the
  reference optimal solution x*) with generators of stream 0, builds the grid of unique budgets,
  looks up the latest recommendation at or before each grid budget, and derives the estimated
  objective curves and the progress curves normalised by the optimality gap f(x0) - f(x*);
- `compute_area_stats`, `compute_solvability_quantile` and the solve matrix of
  `plot_solvability_curve` summarise the progress curves;
- `bootstrap_sample` and the sampling loop of `bootstrap_CI` resample macroreplications and
  post-replicates to produce the bootstrap statistics that the confidence intervals are read from.

The model has these modules:

| file | module | what it holds |
|---|---|---|
| `streams.dfy` | `Streams` | generators as addresses `(stream, substream, subsubstream, offset)`, their reset, advance and draw operations, `choices`, and the reserved stream plan |
| `stats.dfy` | `Stats` | sums, means, columns, the sample variance |
| `curves.dfy` | `Curves` | the unique-budget grid, the step lookup, normalisation, area, solve time, the solve matrix and the solvability curve |
| `postrep.dfy` | `PostReplication` | the post-replication pass as a function, with methods for its loops and lemmas about the generator addresses it uses |
| `bootstrap.dfy` | `Bootstrap` | one bootstrap sample as a function, the loops of `bootstrap_sample` over `array2` matrices, and lemmas about the subsubstream discipline |
| `trials.dfy` | `Trials` | the macroreplication loop of `run` |
| `aggregates.dfy` | `Aggregates` | the statistic of a bootstrap sample for each plot type, and `n_intervals` |
| `experiment.dfy` | `Experiments` | the `Experiment` class, whose phase-guarded methods update its fields, and the sampling loop of `bootstrap_CI` |

Collaborators that are not part of this model become parameters:
- `solver.solve` is a function from the oracle's generators, the solver's generator and the CRN flag to the recommended solutions, the budgets and the solver's generator afterwards.
- `problem.simulate` is a function from a solution, a replication count and the oracle's generators to the objective samples and the number of draws taken from each generator.
- The uniform that MRG32k3a yields at an address is a function `u` into [0, 1).
- `np.quantile` and the square root are functions (`Aggregates.Numerics`).

Sample values are `real`.

A macroreplication's stream follows the code (line 131: stream `mrep + 2`), not the comment above it
(lines 121-122: streams 3 onwards). The lemmas `Streams.Macrorep0SharesOverheadStream` and
`Trials.FirstTrialSharesSolverAddress` show the consequence. Macroreplication 0 runs on the overhead
stream 2, and with three or more oracle generators it is handed a generator at the address `[2, 2, 0]`,
which is where the solver's own generator starts. `Streams.DocumentedPlanIsCollisionFree` shows that the
documented numbering avoids every reserved stream.

## Model

| member | source | states |
|---|---|---|
| Streams.ResetSubstream | simopt/wrapper_base.py:169-172 | `reset_substream`: the start of the generator's current substream (subsubstream 0, no draws); Streams.ResetUndoesDraws states that it forgets draws |
| Streams.AdvanceSubstream | simopt/wrapper_base.py:203-205 | `advance_substream`: the start of the next substream of the same stream; Streams.AdvanceSubstreamTimesLands states where repeated calls land |
| Streams.ResetSubsubstream | simopt/wrapper_base.py:397-400 | `reset_subsubstream`: the start of the current subsubstream, in the same substream |
| Streams.AdvanceSubsubstream | simopt/wrapper_base.py:389-390 | `advance_subsubstream`: the start of the next subsubstream, in the same substream |
| Streams.Draw | simopt/wrapper_base.py:394 | k draws move the generator k positions on within its subsubstream and change nothing else of its address |
| Streams.AdvanceSubstreamTimesLands | simopt/wrapper_base.py:203-205 | advancing a generator's substream n > 0 times puts it at the start of substream + n |
| Streams.ResetUndoesDraws | simopt/wrapper_base.py:194-197 | resetting the substream or subsubstream forgets every draw made since its start |
| Streams.SubstreamStartsInSubstreams | simopt/wrapper_base.py:163 | generators created at substreams base, base+1, … of one stream each sit in their own substream |
| Streams.InSubstreamsDiscipline | simopt/wrapper_base.py:194-209 | draws keep each generator in its substream; resetting all returns them to their substream starts; advancing each by their count lands on the next block of substreams |
| Streams.Choices | simopt/wrapper_base.py:388 | `choices(range(n), k)` gives k indices, each in [0, n), index i being floor(u * n) for the uniform at the i-th position after the start |
| Streams.ScaledIndex | simopt/wrapper_base.py:394 | floor(v * n) of a uniform v in [0, 1) is an index in [0, n) |
| Streams.MacrorepStreamsDistinct | simopt/wrapper_base.py:129-131 | distinct macroreplications get disjoint sets of oracle generators, and none uses stream 0 (post-replication) or stream 1 (bootstrap) |
| Streams.Macrorep0SharesOverheadStream | simopt/wrapper_base.py:123-131 | as written, macroreplication 0's oracle generator i is overhead generator i, and it includes the solver's generator when the oracle has three or more generators; later macroreplications avoid stream 2 |
| Streams.DocumentedPlanIsCollisionFree | simopt/wrapper_base.py:113-122 | the documented numbering (mrep + 3) avoids streams 0, 1 and 2, gives distinct macroreplications distinct streams, and is one more than the code's |
| Stats.MeanBounds | simopt/wrapper_base.py:312 | a mean of values in [lo, hi] lies in [lo, hi] |
| Stats.SampleVariance | simopt/wrapper_base.py:333 | the ddof = 1 sample variance of two or more values is non-negative |
| Curves.Flatten | simopt/wrapper_base.py:212 | a budget is in the flattened list exactly when some macroreplication recorded it |
| Curves.Insert | simopt/wrapper_base.py:213 | inserting into a strictly increasing list keeps it strictly increasing and adds exactly that element |
| Curves.Dedup | simopt/wrapper_base.py:213 | `np.unique`: the result is strictly increasing and has exactly the input's elements |
| Curves.UniqueBudgets | simopt/wrapper_base.py:212-213 | `unique_budgets` is strictly increasing and holds exactly the budgets some macroreplication recorded |
| Curves.FracBudgets | simopt/wrapper_base.py:214 | each fraction times the problem's budget is the grid budget at the same index |
| Curves.FracBudgetsOrdered | simopt/wrapper_base.py:214 | the fractions are strictly increasing, and lie in [0, 1] when no grid budget exceeds the problem's budget |
| Curves.LatestAtOrBefore | simopt/wrapper_base.py:227 | `np.max(np.where(budgets <= g))`: the largest index whose budget is at most g; None exactly when every budget exceeds g |
| Curves.LatestAtOrBeforeMonotone | simopt/wrapper_base.py:227 | a larger grid budget never looks up an earlier recommendation |
| Curves.FirstBudgetZeroLooksUp | simopt/wrapper_base.py:227 | when a trajectory's first budget is 0, the lookup succeeds at every grid budget |
| Curves.NormalizeEnds | simopt/wrapper_base.py:233 | normalising by the gap maps f(x0) to 1 and f(x*) to 0 |
| Curves.Area | simopt/wrapper_base.py:755 | `np.dot(curve[:-1], np.diff(frac))`, computed as written; Curves.AreaIsLeftRiemannSum relates it to an independent Riemann sum |
| Curves.AreaIsLeftRiemannSum | simopt/wrapper_base.py:755 | `np.dot(curve[:-1], np.diff(frac))` equals the left-endpoint Riemann sum, the sum over i < n-1 of curve[i] · (frac[i+1] - frac[i]) |
| Curves.AreaIgnoresLastValue | simopt/wrapper_base.py:755 | the last value of a progress curve does not change its area |
| Curves.AreaBounds | simopt/wrapper_base.py:755 | a curve with values in [0, 1] on a non-decreasing grid has area between 0 and frac[last] - frac[0] |
| Curves.AreaExample | simopt/wrapper_base.py:755 | the curve [1, 0.5, 0] on [0, 0.5, 1] has area 0.75 |
| Curves.FirstBelow | simopt/wrapper_base.py:782-785 | the first index whose value is below the tolerance, every earlier value being at least it; None exactly when no value is below |
| Curves.SolveTimeOf | simopt/wrapper_base.py:780-786 | the solve time is infinity exactly when no value is below the tolerance, and otherwise frac[i] for the first i below it |
| Curves.SolveTimeOfProgCurve | simopt/wrapper_base.py:759-786 | the loop returns infinity exactly when no value is below the tolerance, and otherwise frac[i] for the first i below it |
| Curves.FirstIsUnique | simopt/wrapper_base.py:782-785 | an index below the tolerance with every earlier value at or above it is the crossing the search finds |
| Curves.SolveTimeMonotoneInTolerance | simopt/wrapper_base.py:759-786 | on a non-decreasing grid a larger tolerance never gives a later solve time |
| Curves.SolveTimeExample | simopt/wrapper_base.py:780-786 | the curve [1, 0.05, 0] on [0, 0.5, 1] at tolerance 0.1 is solved at 0.5 |
| Curves.SolveMatrix | simopt/wrapper_base.py:305-310 | entry (m, b) of the fresh matrix is 1 when solve time m is at most frac[b], and 0 otherwise |
| Curves.SolveRowIsStep | simopt/wrapper_base.py:309-310 | on a non-decreasing grid each row of the solve matrix is 0s followed by 1s |
| Curves.SolvabilityCurve | simopt/wrapper_base.py:312 | `np.mean(solve_matrix, axis=0)`: one value per grid point, the column mean of the 0/1 solve matrix; its range and monotonicity are the two lemmas below |
| Curves.SolvabilityCurveInUnitInterval | simopt/wrapper_base.py:312 | every value of the solvability curve (a column mean of the solve matrix) lies in [0, 1] |
| Curves.SolvabilityCurveNonDecreasing | simopt/wrapper_base.py:305-312 | on a non-decreasing grid the solvability curve is non-decreasing |
| Curves.SolvabilityStep | simopt/wrapper_base.py:305-312 | on a non-decreasing grid the fraction solved at a later grid point is at least the fraction at an earlier one |
| PostReplication.Simulate | simopt/wrapper_base.py:168 | `problem.simulate` at x with m replications yields a solution at x with m samples and one generator per generator given |
| PostReplication.ReevaluateMacrorep | simopt/wrapper_base.py:184-197 | each recommendation of a macroreplication is reevaluated as x0's solution, x*'s solution, or a fresh solution at x with `n_postreps` samples |
| PostReplication.ReevaluateAll | simopt/wrapper_base.py:182-209 | every recommendation of every macroreplication is reevaluated that way, one row per macroreplication |
| PostReplication.ReferenceRngs | simopt/wrapper_base.py:169-176 | the generators x* is simulated from are in substreams 0..n_rngs-1 of stream 0, and are the fresh stream-0 generators when budgets share random numbers |
| PostReplication.SimulateReferences | simopt/wrapper_base.py:163-180 | x0 is simulated `n_postreps_init_opt` times from the fresh stream-0 generators and x* from ReferenceRngs; the generators handed on stay in substreams 0..n_rngs-1 of stream 0, at their starts when budgets share random numbers |
| PostReplication.FreshSimulationSource | simopt/wrapper_base.py:190-192 | a recommendation other than x0 and x* is simulated afresh from the generators as the pass left them at that point |
| PostReplication.MacrorepKeepsBlock | simopt/wrapper_base.py:184-197 | during a macroreplication each generator stays in its substream; with CRN across budgets the generators end where they started |
| PostReplication.GeneratorsBeforeMacrorep | simopt/wrapper_base.py:200-209 | after k macroreplications the generators sit at the starts of substreams k · n_rngs, …, or of substreams 0, … with CRN across macroreplications |
| PostReplication.EndMacrorepLands | simopt/wrapper_base.py:200-209 | the end of macroreplication k - 1 moves the generators to the starts of block k |
| PostReplication.GeneratorsAtBlock | simopt/wrapper_base.py:163-209 | every simulation in macroreplication m draws from stream 0 within block m; with CRN across budgets it starts at the block's substream starts |
| PostReplication.CrnAcrossBudgetAddresses | simopt/wrapper_base.py:169-197 | with CRN across budgets, x0 and x* are simulated from the same generator addresses, and every fresh solution of macroreplication m from the starts of block m |
| PostReplication.MacrorepBlocksDisjoint | simopt/wrapper_base.py:200-205 | without CRN across macroreplications, two macroreplications never share a substream |
| PostReplication.PostReplicatesOf | simopt/wrapper_base.py:224-229 | the post-replicate matrix has one row per macroreplication and one cell per grid budget |
| PostReplication.EstObjective | simopt/wrapper_base.py:232 | `all_est_objective` has one row per macroreplication and one mean per cell; the cells are non-empty (PostReplication.ReevaluatedCellsNonEmpty) |
| PostReplication.ProgCurves | simopt/wrapper_base.py:233 | `all_prog_curves` has the shape of the estimates, each value being normalised by the gap; PostReplication.ReusedLookupsNormalize states the values at x0's and x*'s cells |
| PostReplication.PostReplicate | simopt/wrapper_base.py:144-236 | the pass yields one reevaluated row, post-replicate row and estimate row per macroreplication, `n_postreps_init_opt` samples at x0 and x*, no empty cell, and progress curves exactly when f(x0) ≠ f(x*) |
| PostReplication.ProgCurvesIfDefined | simopt/wrapper_base.py:217-219 | progress curves exist exactly when the optimality gap is non-zero, with the shape of the estimates |
| PostReplication.ReevaluatedCellsNonEmpty | simopt/wrapper_base.py:229-232 | every looked-up cell holds samples, so every mean of `all_est_objective` is defined |
| PostReplication.ReusedLookupsNormalize | simopt/wrapper_base.py:186-189 | wherever the looked-up recommendation is x0 the progress curve is exactly 1, and where it is x* (and not x0) exactly 0 |
| PostReplication.LookupNonDecreasing | simopt/wrapper_base.py:227 | along the grid the looked-up recommendation index never decreases |
| PostReplication.ResetEach | simopt/wrapper_base.py:171-172 | the loop resets every generator to the start of its substream |
| PostReplication.AdvanceEach | simopt/wrapper_base.py:203-205 | the nested loop advances every generator's substream n times |
| PostReplication.ReevaluateRecommended | simopt/wrapper_base.py:184-197 | the inner loop of `post_replicate` computes the reevaluated solutions and generators of PostReplication.ReevaluateMacrorep |
| PostReplication.ReevaluateMacroreps | simopt/wrapper_base.py:182-209 | the macroreplication loop computes the reevaluated rows and generators of PostReplication.ReevaluateAll |
| PostReplication.LookupPostReplicates | simopt/wrapper_base.py:224-229 | cell (m, b) holds exactly the samples of the latest solution of macroreplication m recommended at or before grid budget b |
| Bootstrap.ResampleOuter | simopt/wrapper_base.py:388-410 | one resampled macroreplication index in [0, M) per macroreplication |
| Bootstrap.ResampleRow | simopt/wrapper_base.py:415-433 | a resampled row has one value per cell and keeps the generator in its subsubstream |
| Bootstrap.ResampleRows | simopt/wrapper_base.py:412-439 | k resampled rows of the grid's width, with the generator kept in its substream |
| Bootstrap.Resample | simopt/wrapper_base.py:363-442 | a bootstrap sample has shape (M, \|grid\|) for estimates and progress curves, and leaves the generator at the start of the next substream |
| Bootstrap.OuterAddresses | simopt/wrapper_base.py:386-410 | macroreplication indices come from subsubstream sss; x0's indices from the start of sss + 1; x*'s from the same place with CRN across budgets and just after x0's otherwise; the rows begin at sss + 2 |
| Bootstrap.RowsStartAt | simopt/wrapper_base.py:434-439 | row k starts at subsubstream sss + 2 + k, or at sss + 2 for every row with CRN across macroreplications |
| Bootstrap.CrnRowDrawsFromStart | simopt/wrapper_base.py:426-433 | with CRN across budgets every cell of a row draws its indices from the row's start, and the row leaves the generator there |
| Bootstrap.RowsPrefix | simopt/wrapper_base.py:412-413 | row bs of the sample resamples macroreplication mreps[bs] from where the earlier rows left the generator |
| Bootstrap.CrnAcrossBudgetCells | simopt/wrapper_base.py:412-439 | with CRN across budgets cell (bs, b) depends only on the cell's samples and its row's starting address |
| Bootstrap.CrnAcrossBudgetCommonValues | simopt/wrapper_base.py:426-433 | with CRN across budgets two cells of a row holding the same samples get the same bootstrapped value |
| Bootstrap.ReusedCells | simopt/wrapper_base.py:416-423 | a cell holding x0's samples takes the bootstrapped f(x0), and one holding x*'s (and not x0's) takes f(x*) |
| Bootstrap.ReusedCellsNormalize | simopt/wrapper_base.py:416-430 | in a sample, x0's cells normalise to exactly 1 and x*'s cells to exactly 0 |
| Bootstrap.ResampleCell | simopt/wrapper_base.py:416-433 | one step of the inner loop computes Bootstrap.CellValue and the generator Bootstrap.AfterCell gives |
| Bootstrap.FillRow | simopt/wrapper_base.py:415-433 | the inner loop writes the row Bootstrap.ResampleRow gives into row bs of the matrix, leaves every other row unchanged, and returns ResampleRow's generator |
| Bootstrap.FillRows | simopt/wrapper_base.py:412-439 | the outer loop writes every row of Bootstrap.ResampleRows into the matrix and returns its generator |
| Bootstrap.NormalizeInto | simopt/wrapper_base.py:430 | every progress-curve cell is the normalised estimate at the same position |
| Bootstrap.OuterDraws | simopt/wrapper_base.py:388-410 | the first draws of `bootstrap_sample` compute the outer indices and bootstrapped f(x0) and f(x*) of Bootstrap.ResampleOuter |
| Bootstrap.BootstrapSample | simopt/wrapper_base.py:363-442 | the fresh matrices hold the sample's estimates, and its progress curves exactly when the bootstrapped gap is non-zero; the generator ends at the start of the next substream |
| Trials.RunTrials | simopt/wrapper_base.py:129-138 | one recorded trajectory per macroreplication, each with one budget per recommended solution |
| Trials.TrialInputs | simopt/wrapper_base.py:129-138 | trajectory m is the solver's answer to the oracle generators of macroreplication m, with the solver's generator as the earlier macroreplications left it |
| Trials.FirstTrialSharesSolverAddress | simopt/wrapper_base.py:121-131 | the first macroreplication's oracle generator 2 is the solver's generator [2, 2, 0]; the documented stream of macroreplication 0 contains no such generator |
| Aggregates.ParsePlotType | simopt/wrapper_base.py:483-486 | a recognised plot-type name reads back as the statistic of that name |
| Aggregates.ParseName | simopt/wrapper_base.py:493-512 | every statistic is read back from its own name |
| Aggregates.NIntervals | simopt/wrapper_base.py:483-486 | `n_intervals`: the grid's width for the mean, quantile and solvability curves, 1 for the area mean, area standard deviation and solve-time quantile |
| Aggregates.Areas | simopt/wrapper_base.py:331 | the area of each curve is its left-endpoint Riemann sum |
| Aggregates.StdDev | simopt/wrapper_base.py:333 | `np.std(ddof=1)` is defined exactly for two or more values |
| Aggregates.StdDevSquared | simopt/wrapper_base.py:333 | with a true square root the standard deviation is non-negative and squares to the sample variance |
| Aggregates.AreaStatsOf | simopt/wrapper_base.py:331-333 | the areas are the curves' Riemann sums, the mean is their mean, and the standard deviation is defined exactly for two or more macroreplications |
| Aggregates.SolvabilityOf | simopt/wrapper_base.py:513-521 | the bootstrapped solvability curve has one finite value in [0, 1] per grid point |
| Aggregates.Statistic | simopt/wrapper_base.py:493-521 | the statistic has `n_intervals` values (\|grid\| for the curves, 1 otherwise) and is undefined only for the standard deviation of fewer than two areas |
| Aggregates.Aggregate | simopt/wrapper_base.py:493-521 | undefined exactly when it needs the progress curves of a sample with a zero gap, or the standard deviation of fewer than two areas; otherwise `n_intervals` values, the solvability values lying in [0, 1] |
| Aggregates.SolvabilityAggregateNonDecreasing | simopt/wrapper_base.py:512-521 | on a non-decreasing grid a bootstrapped solvability curve is non-decreasing |
| Aggregates.MaxHalfwidth | simopt/wrapper_base.py:540 | the result is at least every half-width and equals one of them |
| Experiments.PostReplicateWellFormed | simopt/wrapper_base.py:184-193 | every post-replicate cell holds x0's samples, x*'s samples or `n_postreps` fresh samples, which is the matrix bootstrapping expects |
| Experiments.ColumnMeansOf | simopt/wrapper_base.py:312 | `np.mean(matrix, axis=0)` is the column means of the matrix's rows |
| Experiments.SimulateInitialAndOptimal | simopt/wrapper_base.py:163-180 | the steps for x0 and x* compute the solutions and generators of PostReplication.SimulateReferences |
| Experiments.PostReplicateSteps | simopt/wrapper_base.py:163-233 | the steps of `post_replicate` compute the outcome of PostReplication.PostReplicate, which is aligned with the trajectories and bootstrappable |
| Experiments.Experiment.constructor | simopt/wrapper_base.py:92-98 | a new experiment holds its solver and problem and has recorded nothing |
| Experiments.Experiment.Run | simopt/wrapper_base.py:100-138 | the recorded trajectories and the solver's generator are those of Trials.RunTrials; only `n_macroreps`, the two lists, the solver's generator and the phase change |
| Experiments.Experiment.PostReplicate | simopt/wrapper_base.py:144-233 | the post-replication fields hold exactly the outcome of the pass over the recorded trajectories, and the class invariant holds |
| Experiments.Experiment.ComputeAreaStats | simopt/wrapper_base.py:320-333 | when progress curves exist, the areas, their mean and their standard deviation are those of the curves; otherwise the fields are unchanged |
| Experiments.Experiment.ComputeSolvabilityQuantile | simopt/wrapper_base.py:341-357 | when progress curves exist, the tolerance is recorded, the solve times are those of the curves, and the quantile is taken of them; otherwise the fields are unchanged |
| Experiments.Experiment.SolvabilityEstimate | simopt/wrapper_base.py:302-312 | when progress curves exist, the tolerance, the solve times of the curves and their median (the default beta 0.5) are recorded and the estimator is their solvability curve; otherwise those fields are unchanged |
| Experiments.Experiment.BootstrapAggregates | simopt/wrapper_base.py:482-521 | row k of the fresh `n_bootstraps` by `n_intervals` matrix is the statistic of the k-th bootstrap sample of the experiment; ok exactly when every statistic is defined |
| Experiments.SolveTimesOf | simopt/wrapper_base.py:356 | the loop computes the solve time of every curve |
| Experiments.BootstrapLoop | simopt/wrapper_base.py:482-521 | sample k is drawn from substream k of stream 1 with CRN across budgets and none across macroreplications, and row k holds its statistic |
| Experiments.FillAggregates | simopt/wrapper_base.py:487-521 | every row of the zero matrix whose statistic is defined is overwritten by it, the others stay zero; ok exactly when all are defined |
| Experiments.DrawAggregate | simopt/wrapper_base.py:488-521 | sample k and its statistic come from the start of substream k, and the generator ends at the start of substream k + 1 |
| Experiments.WriteRow | simopt/wrapper_base.py:495 | row k is overwritten by the given values and every other row is unchanged |

## Left out

- Plotting and report text (`plot_progress_curves`, `plot_solvability_curve` drawing, `plot_bootstrap_CIs`, `stylize_*`, `save_plot`) are matplotlib side effects. Only the estimator of `plot_solvability_curve` is modelled.
- The pickle files (`record_experiment_results`, `read_experiment_results`) and `MetaExperiment` are file I/O and are left out.
- The confidence-interval bounds of `bootstrap_CI` (lines 526-539) are left out. They are floating-point calls into `scipy.stats.norm` and `np.quantile`. The model stops at the matrix of bootstrap statistics and `max_halfwidth`.
- The `compute_CIs=True` branches of `compute_area_stats` and `compute_solvability_quantile` call those bounds and are left out for the same reason.
- MRG32k3a arithmetic is not modelled. A generator is its address, and the uniform at an address is a parameter.
- `solver.solve` and `problem.simulate` are parameters. `Solution` objects are reduced to a decision vector and its first-objective samples.
- `simopt/models/ProdSys.py`, `simopt/oracles/facilitySizing.py` and `simopt/directory.py` are not part of this model.
- Floating point is modelled as exact `real` arithmetic. `np.quantile` and the square root are uninterpreted functions.
- Experiments.Experiment.Run: requires a new experiment, and `PostReplicate` requires one that has run once. The source appends to its lists when these are called again; repeated calls are not modelled.
- Experiments.Experiment.PostReplicate: requires that every macroreplication has a recommendation at or before every grid budget. The source raises a numpy error otherwise, and that error path is not modelled.
- PostReplication.PostReplicate: requires `n_postreps > 0` and `n_postreps_init_opt > 0`. The source places no such bound; with zero post-replications `np.mean` of an empty list yields NaN, and that case is not modelled.
- Experiments.Experiment.PostReplicate: requires `n_postreps > 0` and `n_postreps_init_opt > 0`, for the same reason.
- Bootstrap.Resample: assumes post-replicates shaped by a post-replication pass with `n_postreps > 0` and `n_postreps_init_opt > 0` (Bootstrap.WellFormed); with zero post-replications the source resamples empty lists and yields NaN.
- PostReplication.PostReplicate: gives no progress curves (None) when f(x0) = f(x*). The source divides by zero there and stores infinities or NaNs.
- Bootstrap.Resample: also gives None progress curves when the bootstrapped gap is zero, where the source stores infinities or NaNs.
- Aggregates.Aggregate: is None where the source would produce NaN: a progress-curve statistic of a zero-gap sample, or the standard deviation of fewer than two areas.
- Experiments.FillAggregates: writes zero in the row of a sample whose statistic is undefined and reports it through ok. The source writes NaN there.
- Experiments.Experiment.ComputeAreaStats: leaves the fields unchanged when the progress curves are undefined. It records the standard deviation of a single macroreplication as None, where numpy gives NaN.
- Experiments.Experiment.ComputeSolvabilityQuantile: leaves the fields unchanged when the progress curves are undefined.
- Bootstrap.NormalizeInto: normalises in a second pass over the matrix, while the source normalises each cell right after estimating it. No normalised value feeds a later estimate, so the matrices are the same.
- Experiments.BootstrapLoop: collects the statistics first and writes the matrix afterwards, where the source writes row k during iteration k. Each row is written once from the statistic of sample k, so the matrix is the same.
- Aggregates.ParsePlotType: an unknown plot-type name gives None. The source fails on an unbound `n_intervals`.
- Curves.SolveTimeOfProgCurve: requires the curve to be no longer than the grid. The source indexes the grid by the curve's positions, and the two always have the same length.

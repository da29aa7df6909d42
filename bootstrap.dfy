/** One bootstrap sample of the estimated objective and progress curves: macroreplications are
    resampled with replacement, then the post-replicates of x0, of x* and of every looked-up
    solution. Which subsubstream of the bootstrap generator each batch of indices comes from is
    part of the specification. */
module Bootstrap {
  import opened Streams
  import opened Stats
  import opened Curves
  import opened PostReplication

  /** The post-replicated experiment that bootstrapping reads. */
  datatype Data = Data(
    postReplicates: seq<seq<seq<real>>>,  // n_macroreps rows of |grid| cells
    initSamples: seq<real>,               // x0's post-replicates
    refSamples: seq<real>,                // x*'s post-replicates
    nPostreps: nat,
    nPostrepsInitOpt: nat)

  /** Uniforms in [0, 1): what the generator yields at each position. */
  ghost predicate Uniform(u: Rng -> real)
  {
    forall q :: 0.0 <= u(q) < 1.0
  }

  /** A cell is x0's samples, x*'s samples, or nPostreps samples of a fresh solution. */
  predicate CellOk(d: Data, cell: seq<real>)
  {
    cell == d.initSamples || cell == d.refSamples || |cell| == d.nPostreps
  }

  /** nPostrepsInitOpt > 0 samples at x0 and at x*. */
  predicate ReferencesOk(d: Data)
  {
    d.nPostrepsInitOpt > 0 && |d.initSamples| == d.nPostrepsInitOpt && |d.refSamples| == d.nPostrepsInitOpt
  }

  /** The shape post-replication leaves behind: an n_macroreps by width matrix of good cells,
      and nPostrepsInitOpt samples at x0 and x*. */
  predicate WellFormed(d: Data, width: nat)
  {
    d.nPostreps > 0 && ReferencesOk(d)
    && forall m :: 0 <= m < |d.postReplicates| ==>
         |d.postReplicates[m]| == width && forall b :: 0 <= b < width ==> CellOk(d, d.postReplicates[m][b])
  }

  /** The mean of n samples drawn with replacement from the n samples given, with indices
      `choices(range(n), k=n)` starting at r. */
  function ResampledMean(u: Rng -> real, samples: seq<real>, r: Rng): real
    requires Uniform(u) && |samples| > 0
  {
    Mean(Pick(samples, Choices(u, r, |samples|, |samples|)))
  }

  /** The outer draws: resampled macroreplications, bootstrapped f(x0) and f(x*), and the
      generator before the first row. */
  datatype Outer = Outer(mreps: seq<int>, f0: real, fstar: real, after: Rng)

  function ResampleOuter(u: Rng -> real, d: Data, crnBudget: bool, r: Rng): (o: Outer)
    requires Uniform(u) && ReferencesOk(d)
    ensures |o.mreps| == |d.postReplicates|
    ensures forall i :: 0 <= i < |o.mreps| ==> 0 <= o.mreps[i] < |d.postReplicates|
  {
    var M := |d.postReplicates|;
    var L := d.nPostrepsInitOpt;
    var mreps := Choices(u, r, M, M);
    var r1 := AdvanceSubsubstream(Draw(r, M));
    var f0 := ResampledMean(u, d.initSamples, r1);
    var r2 := if crnBudget then ResetSubsubstream(Draw(r1, L)) else Draw(r1, L);
    var fstar := ResampledMean(u, d.refSamples, r2);
    Outer(mreps, f0, fstar, AdvanceSubsubstream(Draw(r2, L)))
  }

  /** The bootstrapped estimate of one cell: f(x0) or f(x*) when the cell holds their samples,
      otherwise the mean of its samples resampled from r. */
  function CellValue(u: Rng -> real, d: Data, o: Outer, cell: seq<real>, r: Rng): real
    requires Uniform(u) && CellOk(d, cell) && d.nPostreps > 0
  {
    if cell == d.initSamples then o.f0
    else if cell == d.refSamples then o.fstar
    else ResampledMean(u, cell, r)
  }

  /** The generator after one cell: it moves past the cell's draws, and is reset to the start of the
      subsubstream when budgets share random numbers. */
  function AfterCell(d: Data, crnBudget: bool, cell: seq<real>, r: Rng): Rng
  {
    var drawn := if cell == d.initSamples || cell == d.refSamples then r else Draw(r, d.nPostreps);
    if crnBudget then ResetSubsubstream(drawn) else drawn
  }

  /** The cells of one resampled row, left to right, from generator r. */
  function ResampleRow(u: Rng -> real, d: Data, o: Outer, crnBudget: bool, cells: seq<seq<real>>, r: Rng): (res: (seq<real>, Rng))
    requires Uniform(u) && d.nPostreps > 0
    requires forall b :: 0 <= b < |cells| ==> CellOk(d, cells[b])
    ensures |res.0| == |cells|
    ensures res.1.stream == r.stream && res.1.substream == r.substream && res.1.subsubstream == r.subsubstream
    decreases |cells|
  {
    if cells == [] then ([], r)
    else
      var prev := ResampleRow(u, d, o, crnBudget, cells[..|cells| - 1], r);
      var cell := cells[|cells| - 1];
      (prev.0 + [CellValue(u, d, o, cell, prev.1)], AfterCell(d, crnBudget, cell, prev.1))
  }

  /** After a row the generator moves to the next subsubstream, or back to the start of the
      current one when macroreplications share random numbers. */
  function AfterRow(crnMacro: bool, r: Rng): Rng
  {
    if crnMacro then ResetSubsubstream(r) else AdvanceSubsubstream(r)
  }

  /** The first k resampled rows, from generator r. */
  function ResampleRows(u: Rng -> real, d: Data, width: nat, o: Outer, crnBudget: bool, crnMacro: bool, k: nat, r: Rng): (res: (seq<seq<real>>, Rng))
    requires Uniform(u) && WellFormed(d, width)
    requires k <= |o.mreps| && forall i :: 0 <= i < |o.mreps| ==> 0 <= o.mreps[i] < |d.postReplicates|
    ensures |res.0| == k && forall i :: 0 <= i < k ==> |res.0[i]| == width
    ensures res.1.stream == r.stream && res.1.substream == r.substream
    decreases k
  {
    if k == 0 then ([], r)
    else
      var prev := ResampleRows(u, d, width, o, crnBudget, crnMacro, k - 1, r);
      var row := ResampleRow(u, d, o, crnBudget, d.postReplicates[o.mreps[k - 1]], prev.1);
      (prev.0 + [row.0], AfterRow(crnMacro, row.1))
  }

  /** A bootstrap sample: the estimated objectives, the progress curves (None when the bootstrapped
      gap f(x0) - f(x*) is zero, where the source divides by zero) and the generator after it. */
  datatype Sample = Sample(est: seq<seq<real>>, prog: Option<seq<seq<real>>>, after: Rng)

  /** `bootstrap_sample(bootstrap_rng, crn_across_budget, crn_across_macroreps)`. */
  function Resample(u: Rng -> real, d: Data, width: nat, crnBudget: bool, crnMacro: bool, r: Rng): (s: Sample)
    requires Uniform(u) && WellFormed(d, width)
    ensures |s.est| == |d.postReplicates| && forall i :: 0 <= i < |s.est| ==> |s.est[i]| == width
    ensures s.prog.Some? ==> |s.prog.value| == |s.est| && forall i :: 0 <= i < |s.est| ==> |s.prog.value[i]| == width
    ensures s.after == Rng(r.stream, r.substream + 1, 0, 0)
  {
    var o := ResampleOuter(u, d, crnBudget, r);
    var rows := ResampleRows(u, d, width, o, crnBudget, crnMacro, |o.mreps|, o.after);
    var gap := o.f0 - o.fstar;
    Sample(rows.0, if gap == 0.0 then None else Some(ProgCurves(rows.0, o.fstar, gap)), AdvanceSubstream(rows.1))
  }

  // ----- where the indices come from -----

  /** The macroreplication indices come from subsubstream sss of the generator; x0's indices from
      the start of subsubstream sss + 1; x*'s from the same position when budgets share random
      numbers (so x0 and x* are resampled at the same indices), and from just after x0's otherwise. */
  lemma OuterAddresses(u: Rng -> real, d: Data, width: nat, crnBudget: bool, r: Rng)
    requires Uniform(u) && WellFormed(d, width)
    ensures var o := ResampleOuter(u, d, crnBudget, r);
      var L := d.nPostrepsInitOpt;
      var x0At := Rng(r.stream, r.substream, r.subsubstream + 1, 0);
      var xstarAt := if crnBudget then x0At else Draw(x0At, L);
      && o.mreps == Choices(u, r, |d.postReplicates|, |d.postReplicates|)
      && o.f0 == Mean(Pick(d.initSamples, Choices(u, x0At, L, L)))
      && o.fstar == Mean(Pick(d.refSamples, Choices(u, xstarAt, L, L)))
      && o.after == Rng(r.stream, r.substream, r.subsubstream + 2, 0)
  {
  }

  /** Before row bs the generator is at the start of subsubstream sss + 2 + bs, or of sss + 2 for
      every row when macroreplications share random numbers. */
  function RowStart(r: Rng, crnMacro: bool, bs: nat): Rng
  {
    Rng(r.stream, r.substream, r.subsubstream + 2 + (if crnMacro then 0 else bs), 0)
  }

  lemma {:induction false} RowsStartAt(u: Rng -> real, d: Data, width: nat, o: Outer, crnBudget: bool, crnMacro: bool, k: nat, r: Rng)
    requires Uniform(u) && WellFormed(d, width)
    requires k <= |o.mreps| && forall i :: 0 <= i < |o.mreps| ==> 0 <= o.mreps[i] < |d.postReplicates|
    requires o.after == RowStart(r, crnMacro, 0)
    ensures ResampleRows(u, d, width, o, crnBudget, crnMacro, k, o.after).1 == RowStart(r, crnMacro, k)
    decreases k
  {
    if k > 0 {
      RowsStartAt(u, d, width, o, crnBudget, crnMacro, k - 1, r);
    }
  }

  /** With CRN across budgets, every resampled cell of a row draws its indices from the row's
      starting position, and the row leaves the generator there. */
  lemma {:induction false} CrnRowDrawsFromStart(u: Rng -> real, d: Data, o: Outer, cells: seq<seq<real>>, r: Rng)
    requires Uniform(u) && d.nPostreps > 0 && r.offset == 0
    requires forall b :: 0 <= b < |cells| ==> CellOk(d, cells[b])
    ensures ResampleRow(u, d, o, true, cells, r).1 == r
    ensures forall b :: 0 <= b < |cells| ==> ResampleRow(u, d, o, true, cells, r).0[b] == CellValue(u, d, o, cells[b], r)
    decreases |cells|
  {
    if cells != [] {
      var front := cells[..|cells| - 1];
      CrnRowDrawsFromStart(u, d, o, front, r);
      var res := ResampleRow(u, d, o, true, cells, r);
      forall b | 0 <= b < |cells| ensures res.0[b] == CellValue(u, d, o, cells[b], r) {
        if b < |front| {
          assert cells[b] == front[b];
        }
      }
    }
  }

  /** Row bs of the sample resamples macroreplication mreps[bs]. */
  lemma {:induction false} RowsPrefix(u: Rng -> real, d: Data, width: nat, o: Outer, crnBudget: bool, crnMacro: bool, k: nat, r: Rng, bs: nat)
    requires Uniform(u) && WellFormed(d, width)
    requires k <= |o.mreps| && forall i :: 0 <= i < |o.mreps| ==> 0 <= o.mreps[i] < |d.postReplicates|
    requires bs < k
    ensures ResampleRows(u, d, width, o, crnBudget, crnMacro, k, r).0[bs]
      == ResampleRow(u, d, o, crnBudget, d.postReplicates[o.mreps[bs]], ResampleRows(u, d, width, o, crnBudget, crnMacro, bs, r).1).0
    decreases k
  {
    if bs < k - 1 {
      RowsPrefix(u, d, width, o, crnBudget, crnMacro, k - 1, r, bs);
    }
  }

  /** With CRN across budgets, every cell of the sample is a function of the cell's own samples and
      of its row's start alone: cell (bs, b) of macroreplication mreps[bs] is resampled from
      RowStart(bs). */
  lemma CrnAcrossBudgetCells(u: Rng -> real, d: Data, width: nat, crnMacro: bool, r: Rng, bs: nat, b: nat)
    requires Uniform(u) && WellFormed(d, width)
    requires bs < |d.postReplicates| && b < width
    ensures var o := ResampleOuter(u, d, true, r);
      0 <= o.mreps[bs] < |d.postReplicates|
      && Resample(u, d, width, true, crnMacro, r).est[bs][b]
        == CellValue(u, d, o, d.postReplicates[o.mreps[bs]][b], RowStart(r, crnMacro, bs))
  {
    var o := ResampleOuter(u, d, true, r);
    OuterAddresses(u, d, width, true, r);
    RowsStartAt(u, d, width, o, true, crnMacro, bs, r);
    RowsPrefix(u, d, width, o, true, crnMacro, |o.mreps|, o.after, bs);
    CrnRowDrawsFromStart(u, d, o, d.postReplicates[o.mreps[bs]], RowStart(r, crnMacro, bs));
  }

  /** With CRN across budgets, two cells of one row holding the same samples get the same
      bootstrapped value. */
  lemma CrnAcrossBudgetCommonValues(u: Rng -> real, d: Data, width: nat, crnMacro: bool, r: Rng, bs: nat, b1: nat, b2: nat)
    requires Uniform(u) && WellFormed(d, width)
    requires bs < |d.postReplicates| && b1 < width && b2 < width
    requires var o := ResampleOuter(u, d, true, r);
      d.postReplicates[o.mreps[bs]][b1] == d.postReplicates[o.mreps[bs]][b2]
    ensures Resample(u, d, width, true, crnMacro, r).est[bs][b1] == Resample(u, d, width, true, crnMacro, r).est[bs][b2]
  {
    CrnAcrossBudgetCells(u, d, width, crnMacro, r, bs, b1);
    CrnAcrossBudgetCells(u, d, width, crnMacro, r, bs, b2);
  }

  /** A cell holding x0's samples reuses the bootstrapped f(x0) and normalises to 1; a cell
      holding x*'s samples (and not x0's) reuses f(x*) and normalises to 0. */
  lemma {:induction false} ReusedCells(u: Rng -> real, d: Data, o: Outer, crnBudget: bool, cells: seq<seq<real>>, r: Rng, b: nat)
    requires Uniform(u) && d.nPostreps > 0
    requires forall b :: 0 <= b < |cells| ==> CellOk(d, cells[b])
    requires b < |cells|
    ensures cells[b] == d.initSamples ==> ResampleRow(u, d, o, crnBudget, cells, r).0[b] == o.f0
    ensures cells[b] != d.initSamples && cells[b] == d.refSamples ==> ResampleRow(u, d, o, crnBudget, cells, r).0[b] == o.fstar
    decreases |cells|
  {
    if b < |cells| - 1 {
      var front := cells[..|cells| - 1];
      assert cells[b] == front[b];
      ReusedCells(u, d, o, crnBudget, front, r, b);
    }
  }

  lemma ReusedCellsNormalize(u: Rng -> real, d: Data, width: nat, crnBudget: bool, crnMacro: bool, r: Rng, bs: nat, b: nat)
    requires Uniform(u) && WellFormed(d, width)
    requires bs < |d.postReplicates| && b < width
    requires Resample(u, d, width, crnBudget, crnMacro, r).prog.Some?
    ensures var o := ResampleOuter(u, d, crnBudget, r);
      var s := Resample(u, d, width, crnBudget, crnMacro, r);
      0 <= o.mreps[bs] < |d.postReplicates|
      && (d.postReplicates[o.mreps[bs]][b] == d.initSamples ==> s.est[bs][b] == o.f0 && s.prog.value[bs][b] == 1.0)
      && (d.postReplicates[o.mreps[bs]][b] != d.initSamples && d.postReplicates[o.mreps[bs]][b] == d.refSamples ==>
            s.est[bs][b] == o.fstar && s.prog.value[bs][b] == 0.0)
  {
    var o := ResampleOuter(u, d, crnBudget, r);
    var s := Resample(u, d, width, crnBudget, crnMacro, r);
    var start := ResampleRows(u, d, width, o, crnBudget, crnMacro, bs, o.after).1;
    RowsPrefix(u, d, width, o, crnBudget, crnMacro, |o.mreps|, o.after, bs);
    ReusedCells(u, d, o, crnBudget, d.postReplicates[o.mreps[bs]], start, b);
    assert s.prog.value[bs][b] == Normalize(s.est[bs][b], o.fstar, o.f0 - o.fstar);
    NormalizeEnds(o.f0, o.fstar);
  }

  // ----- the loops of the source -----

  /** One cell of the inner loop: x0's and x*'s bootstrapped values are reused, any other cell's
      samples are resampled from r; with CRN across budgets the generator is then reset. */
  method ResampleCell(u: Rng -> real, d: Data, o: Outer, crnBudget: bool, cell: seq<real>, r0: Rng) returns (v: real, r: Rng)
    requires Uniform(u) && CellOk(d, cell) && d.nPostreps > 0
    ensures v == CellValue(u, d, o, cell, r0) && r == AfterCell(d, crnBudget, cell, r0)
  {
    r := r0;
    if cell == d.initSamples {
      v := o.f0;
    } else if cell == d.refSamples {
      v := o.fstar;
    } else {
      var postreps := Choices(u, r, d.nPostreps, d.nPostreps);
      v := Mean(Pick(cell, postreps));
      r := Draw(r, d.nPostreps);
    }
    if crnBudget {
      r := ResetSubsubstream(r);
    }
  }

  /** One more cell extends the row by that cell's value. */
  lemma RowStep(u: Rng -> real, d: Data, o: Outer, crnBudget: bool, cells: seq<seq<real>>, r0: Rng, b: nat)
    requires Uniform(u) && d.nPostreps > 0
    requires forall b :: 0 <= b < |cells| ==> CellOk(d, cells[b])
    requires b < |cells|
    ensures var prev := ResampleRow(u, d, o, crnBudget, cells[..b], r0);
      ResampleRow(u, d, o, crnBudget, cells[..b + 1], r0)
        == (prev.0 + [CellValue(u, d, o, cells[b], prev.1)], AfterCell(d, crnBudget, cells[b], prev.1))
  {
    assert cells[..b + 1][..b] == cells[..b];
  }

  /** The inner loop of `bootstrap_sample` for row bs: resamples the cells of one macroreplication
      into row bs of est. */
  method FillRow(u: Rng -> real, d: Data, o: Outer, crnBudget: bool, cells: seq<seq<real>>, r0: Rng,
                 est: array2<real>, bs: nat) returns (r: Rng)
    requires Uniform(u) && d.nPostreps > 0
    requires forall b :: 0 <= b < |cells| ==> CellOk(d, cells[b])
    requires bs < est.Length0 && est.Length1 == |cells|
    modifies est
    ensures r == ResampleRow(u, d, o, crnBudget, cells, r0).1
    ensures forall j :: 0 <= j < |cells| ==> est[bs, j] == ResampleRow(u, d, o, crnBudget, cells, r0).0[j]
    ensures forall i, j :: 0 <= i < est.Length0 && i != bs && 0 <= j < est.Length1 ==> est[i, j] == old(est[i, j])
  {
    r := r0;
    ghost var vals: seq<real> := [];
    for b := 0 to |cells|
      invariant (vals, r) == ResampleRow(u, d, o, crnBudget, cells[..b], r0)
      invariant forall j :: 0 <= j < b ==> est[bs, j] == vals[j]
      invariant forall i, j :: 0 <= i < est.Length0 && i != bs && 0 <= j < est.Length1 ==> est[i, j] == old(est[i, j])
    {
      RowStep(u, d, o, crnBudget, cells, r0, b);
      var v;
      v, r := ResampleCell(u, d, o, crnBudget, cells[b], r);
      est[bs, b] := v;
      vals := vals + [v];
    }
    assert cells[..|cells|] == cells;
  }

  /** The outer loop of `bootstrap_sample`: fills every row of est in turn, from o.after. */
  method FillRows(u: Rng -> real, d: Data, width: nat, o: Outer, crnBudget: bool, crnMacro: bool, est: array2<real>)
      returns (r: Rng)
    requires Uniform(u) && WellFormed(d, width)
    requires |o.mreps| == |d.postReplicates| && forall i :: 0 <= i < |o.mreps| ==> 0 <= o.mreps[i] < |d.postReplicates|
    requires est.Length0 == |d.postReplicates| && est.Length1 == width
    modifies est
    ensures var rows := ResampleRows(u, d, width, o, crnBudget, crnMacro, |o.mreps|, o.after);
      && r == rows.1
      && forall i, j :: 0 <= i < est.Length0 && 0 <= j < width ==> est[i, j] == rows.0[i][j]
  {
    r := o.after;
    ghost var rows: seq<seq<real>> := [];
    for bs := 0 to |o.mreps|
      invariant (rows, r) == ResampleRows(u, d, width, o, crnBudget, crnMacro, bs, o.after)
      invariant forall i, j :: 0 <= i < bs && 0 <= j < width ==> est[i, j] == rows[i][j]
    {
      var cells := d.postReplicates[o.mreps[bs]];
      ghost var row := ResampleRow(u, d, o, crnBudget, cells, r);
      r := FillRow(u, d, o, crnBudget, cells, r, est, bs);
      r := AfterRow(crnMacro, r);
      rows := rows + [row.0];
    }
  }

  /** The normalisation `(est - f(x*)) / (f(x0) - f(x*))` of every cell into prog. The source
      normalises each cell right after estimating it; as no cell's normalised value feeds a later
      estimate, doing it in a second pass gives the same matrices. */
  method NormalizeInto(est: array2<real>, prog: array2<real>, fstar: real, gap: real)
    requires gap != 0.0 && est != prog
    requires prog.Length0 == est.Length0 && prog.Length1 == est.Length1
    modifies prog
    ensures forall i, j :: 0 <= i < est.Length0 && 0 <= j < est.Length1 ==> prog[i, j] == Normalize(est[i, j], fstar, gap)
  {
    for i := 0 to est.Length0
      invariant forall i', j :: 0 <= i' < i && 0 <= j < est.Length1 ==> prog[i', j] == Normalize(est[i', j], fstar, gap)
    {
      for j := 0 to est.Length1
        invariant forall i', j' :: 0 <= i' < i && 0 <= j' < est.Length1 ==> prog[i', j'] == Normalize(est[i', j'], fstar, gap)
        invariant forall j' :: 0 <= j' < j ==> prog[i, j'] == Normalize(est[i, j'], fstar, gap)
      {
        prog[i, j] := (est[i, j] - fstar) / gap;
      }
    }
  }

  /** The first draws of `bootstrap_sample`: the resampled macroreplications from subsubstream 0,
      then f(x0) and f(x*) from subsubstream 1. */
  method OuterDraws(u: Rng -> real, d: Data, crnBudget: bool, rng: Rng) returns (o: Outer)
    requires Uniform(u) && ReferencesOk(d)
    ensures o == ResampleOuter(u, d, crnBudget, rng)
  {
    var M := |d.postReplicates|;
    var L := d.nPostrepsInitOpt;
    var r := rng;
    var mreps := Choices(u, r, M, M);
    r := AdvanceSubsubstream(Draw(r, M));
    var f0 := Mean(Pick(d.initSamples, Choices(u, r, L, L)));
    r := Draw(r, L);
    if crnBudget {
      r := ResetSubsubstream(r);
    }
    var fstar := Mean(Pick(d.refSamples, Choices(u, r, L, L)));
    r := AdvanceSubsubstream(Draw(r, L));
    o := Outer(mreps, f0, fstar, r);
  }

  /** `bootstrap_sample`: fills the n_macroreps by width matrices of bootstrapped estimates and
      progress curves as Resample specifies, and returns the generator after it. ok is false exactly
      when the bootstrapped gap is zero; prog then holds no progress curves. */
  method BootstrapSample(u: Rng -> real, d: Data, width: nat, crnBudget: bool, crnMacro: bool, rng: Rng)
      returns (est: array2<real>, prog: array2<real>, ok: bool, after: Rng)
    requires Uniform(u) && WellFormed(d, width)
    ensures fresh(est) && fresh(prog)
    ensures est.Length0 == |d.postReplicates| && est.Length1 == width
    ensures prog.Length0 == |d.postReplicates| && prog.Length1 == width
    ensures var s := Resample(u, d, width, crnBudget, crnMacro, rng);
      && (forall i, j :: 0 <= i < est.Length0 && 0 <= j < width ==> est[i, j] == s.est[i][j])
      && (ok <==> s.prog.Some?)
      && (ok ==> forall i, j :: 0 <= i < est.Length0 && 0 <= j < width ==> prog[i, j] == s.prog.value[i][j])
      && after == s.after
  {
    var M := |d.postReplicates|;
    var o := OuterDraws(u, d, crnBudget, rng);
    SampleFromRows(u, d, width, crnBudget, crnMacro, rng);
    ghost var rows := ResampleRows(u, d, width, o, crnBudget, crnMacro, |o.mreps|, o.after);
    // Subsubstreams 2 onwards: the rows.
    est := new real[M, width];
    prog := new real[M, width];
    var r := FillRows(u, d, width, o, crnBudget, crnMacro, est);
    after := AdvanceSubstream(r);
    ok := o.f0 - o.fstar != 0.0;
    if ok {
      NormalizeInto(est, prog, o.fstar, o.f0 - o.fstar);
    }
  }

  /** Resample in terms of its outer draws and its rows. */
  lemma SampleFromRows(u: Rng -> real, d: Data, width: nat, crnBudget: bool, crnMacro: bool, r: Rng)
    requires Uniform(u) && WellFormed(d, width)
    ensures var o := ResampleOuter(u, d, crnBudget, r);
      var rows := ResampleRows(u, d, width, o, crnBudget, crnMacro, |o.mreps|, o.after);
      var s := Resample(u, d, width, crnBudget, crnMacro, r);
      && s.est == rows.0 && s.after == AdvanceSubstream(rows.1)
      && (s.prog.Some? <==> o.f0 - o.fstar != 0.0)
      && (s.prog.Some? ==> forall i, j :: 0 <= i < |rows.0| && 0 <= j < |rows.0[i]| ==> s.prog.value[i][j] == Normalize(rows.0[i][j], o.fstar, o.f0 - o.fstar))
  {
  }
}

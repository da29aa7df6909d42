/** Random-number streams of the experiment engine.

    An MRG32k3a generator is addressed by a stream, a substream within it and a
    subsubstream within that.  The generator arithmetic is not modelled: a
    generator is its address plus the number of draws it has made since the
    start of its current subsubstream.  Re-deriving the same address yields the
    same generator state, so everything the engine draws is a function of these
    records. */
module Streams {

  datatype Rng = Rng(stream: nat, substream: nat, subsubstream: nat, offset: nat)

  /** `MRG32k3a(s_ss_sss_index=[s, ss, sss])`: a fresh generator at the start of that subsubstream. */
  function Create(s: nat, ss: nat, sss: nat): Rng
  {
    Rng(s, ss, sss, 0)
  }

  /** Back to the start of the current substream (which is the start of its subsubstream 0). */
  function ResetSubstream(r: Rng): Rng
  {
    Rng(r.stream, r.substream, 0, 0)
  }

  /** To the start of the next substream. */
  function AdvanceSubstream(r: Rng): Rng
  {
    Rng(r.stream, r.substream + 1, 0, 0)
  }

  /** Back to the start of the current subsubstream. */
  function ResetSubsubstream(r: Rng): Rng
  {
    Rng(r.stream, r.substream, r.subsubstream, 0)
  }

  /** To the start of the next subsubstream. */
  function AdvanceSubsubstream(r: Rng): Rng
  {
    Rng(r.stream, r.substream, r.subsubstream + 1, 0)
  }

  /** k draws from the current position. */
  function Draw(r: Rng, k: nat): Rng
  {
    r.(offset := r.offset + k)
  }

  /** The start address of a generator's current subsubstream, with no draws made yet. */
  predicate AtSubsubstreamStart(r: Rng)
  {
    r.offset == 0
  }

  /** The start address of a generator's current substream. */
  predicate AtSubstreamStart(r: Rng)
  {
    r.subsubstream == 0 && r.offset == 0
  }

  /** `advance_substream` called n times in a row. */
  function AdvanceSubstreamTimes(r: Rng, n: nat): Rng
    decreases n
  {
    if n == 0 then r else AdvanceSubstream(AdvanceSubstreamTimes(r, n - 1))
  }

  lemma {:induction false} AdvanceSubstreamTimesLands(r: Rng, n: nat)
    requires n > 0
    ensures AdvanceSubstreamTimes(r, n) == Rng(r.stream, r.substream + n, 0, 0)
    decreases n
  {
    if n > 1 {
      AdvanceSubstreamTimesLands(r, n - 1);
    }
  }

  /** Resetting undoes any number of draws, at either level. */
  lemma ResetUndoesDraws(r: Rng, k: nat)
    ensures ResetSubstream(Draw(r, k)) == ResetSubstream(r)
    ensures ResetSubsubstream(Draw(r, k)) == ResetSubsubstream(r)
    ensures Draw(Draw(r, k), 0) == Draw(r, k)
  {
  }

  // ----- lists of generators (an oracle's `rng_list`) -----

  /** `reset_substream` on every generator of the list. */
  function ResetAll(rs: seq<Rng>): (out: seq<Rng>)
    ensures |out| == |rs|
  {
    seq(|rs|, i requires 0 <= i < |rs| => ResetSubstream(rs[i]))
  }

  /** `advance_substream` called n times on every generator of the list. */
  function AdvanceAll(rs: seq<Rng>, n: nat): (out: seq<Rng>)
    ensures |out| == |rs|
  {
    seq(|rs|, i requires 0 <= i < |rs| => AdvanceSubstreamTimes(rs[i], n))
  }

  /** Generator i makes draws[i] draws (none if draws is shorter than the list). */
  function DrawAll(rs: seq<Rng>, draws: seq<nat>): (out: seq<Rng>)
    ensures |out| == |rs|
  {
    seq(|rs|, i requires 0 <= i < |rs| => Draw(rs[i], if i < |draws| then draws[i] else 0))
  }

  /** n generators in stream s at the starts of substreams base, base+1, ..., base+n-1. */
  function SubstreamStarts(s: nat, base: nat, n: nat): (out: seq<Rng>)
    ensures |out| == n
  {
    seq(n, i requires 0 <= i < n => Rng(s, base + i, 0, 0))
  }

  /** Generator i of the list is somewhere in substream base + i of stream s. */
  predicate InSubstreams(rs: seq<Rng>, s: nat, base: nat)
  {
    forall i :: 0 <= i < |rs| ==> rs[i].stream == s && rs[i].substream == base + i
  }

  lemma SubstreamStartsInSubstreams(s: nat, base: nat, n: nat)
    ensures InSubstreams(SubstreamStarts(s, base, n), s, base)
  {
  }

  /** Draws keep every generator in its substream; resetting brings it back to the substream start;
      advancing n substreams on each of n generators shifts the whole block by n. */
  lemma InSubstreamsDiscipline(rs: seq<Rng>, s: nat, base: nat, draws: seq<nat>)
    requires InSubstreams(rs, s, base)
    ensures InSubstreams(DrawAll(rs, draws), s, base)
    ensures ResetAll(rs) == SubstreamStarts(s, base, |rs|)
    ensures AdvanceAll(rs, |rs|) == SubstreamStarts(s, base + |rs|, |rs|)
  {
    forall i | 0 <= i < |rs|
      ensures AdvanceAll(rs, |rs|)[i] == SubstreamStarts(s, base + |rs|, |rs|)[i]
    {
      AdvanceSubstreamTimesLands(rs[i], |rs|);
    }
  }

  // ----- drawing indices -----

  /** `rng.choices(range(n), k=k)`: k successive uniforms u in [0, 1), each mapped to floor(u * n).
      `u` gives the uniform the generator produces at a position; the arithmetic is not modelled. */
  function Choices(u: Rng -> real, r: Rng, n: nat, k: nat): (idx: seq<int>)
    requires forall q :: 0.0 <= u(q) < 1.0
    requires n > 0 || k == 0
    ensures |idx| == k
    ensures forall i :: 0 <= i < k ==> 0 <= idx[i] < n
    ensures forall i :: 0 <= i < k ==> idx[i] == (u(Draw(r, i)) * n as real).Floor
  {
    var idx := seq(k, i requires 0 <= i < k => ScaledIndex(u(Draw(r, i)), n));
    assert forall i :: 0 <= i < k ==> idx[i] == ScaledIndex(u(Draw(r, i)), n);
    idx
  }

  /** floor(v * n) for a uniform v lies in [0, n). */
  function ScaledIndex(v: real, n: nat): (j: int)
    requires 0.0 <= v < 1.0 && n > 0
    ensures 0 <= j < n
    ensures j == (v * n as real).Floor
  {
    var p := v * n as real;
    assert 0.0 <= p < n as real by {
      assert v * n as real < 1.0 * n as real;
    }
    p.Floor
  }

  // ----- the reserved stream plan -----

  /** Stream 0: post-replications. */
  const PostRepStream: nat := 0
  /** Stream 1: bootstrapping. */
  const BootstrapStream: nat := 1
  /** Stream 2: overhead (problem instance, initial solution, feasible solutions, solver). */
  const OverheadStream: nat := 2

  /** The four overhead generators created before the macroreplications: rng0, rng1, the solver's and rng3. */
  function OverheadRngs(): (out: seq<Rng>)
    ensures |out| == 4
  {
    [Create(OverheadStream, 0, 0), Create(OverheadStream, 1, 0), Create(OverheadStream, 2, 0), Create(OverheadStream, 3, 0)]
  }

  /** The generator attached to the solver. */
  function SolverRng(): Rng
  {
    Create(OverheadStream, 2, 0)
  }

  /** Stream of macroreplication mrep (0-based), as the code computes it. */
  function MacrorepStream(mrep: nat): nat
  {
    mrep + 2
  }

  /** Stream of macroreplication mrep (0-based), as the comment above describes it (streams 3, ..., n+2). */
  function DocumentedMacrorepStream(mrep: nat): nat
  {
    mrep + 3
  }

  /** The oracle generators attached for macroreplication mrep: one per substream 0..nRngs-1. */
  function MacrorepOracleRngs(mrep: nat, nRngs: nat): (out: seq<Rng>)
    ensures |out| == nRngs
  {
    seq(nRngs, ss requires 0 <= ss < nRngs => Create(MacrorepStream(mrep), ss, 0))
  }

  /** The oracle generators attached for post-replication: stream 0, substreams 0..nRngs-1. */
  function PostRepRngs(nRngs: nat): (out: seq<Rng>)
    ensures |out| == nRngs
  {
    seq(nRngs, ss requires 0 <= ss < nRngs => Create(PostRepStream, ss, 0))
  }

  /** Distinct macroreplications draw from disjoint generators, and none of them uses the
      post-replication or bootstrap streams. */
  lemma MacrorepStreamsDistinct(m1: nat, m2: nat, nRngs: nat)
    requires m1 != m2
    ensures forall i, j :: 0 <= i < nRngs && 0 <= j < nRngs ==>
      MacrorepOracleRngs(m1, nRngs)[i] != MacrorepOracleRngs(m2, nRngs)[j]
    ensures forall i :: 0 <= i < nRngs ==>
      MacrorepOracleRngs(m1, nRngs)[i].stream !in {PostRepStream, BootstrapStream}
  {
  }

  /** As written, macroreplication 0 runs on the overhead stream: its oracle generator i
      is the overhead generator i, and with three or more oracle generators one of them is
      the solver's own generator. Every later macroreplication is clear of stream 2. */
  lemma Macrorep0SharesOverheadStream(nRngs: nat)
    ensures forall i :: 0 <= i < nRngs && i < 4 ==> MacrorepOracleRngs(0, nRngs)[i] == OverheadRngs()[i]
    ensures nRngs >= 3 ==> SolverRng() in MacrorepOracleRngs(0, nRngs)
    ensures forall m: nat, i :: m >= 1 && 0 <= i < nRngs ==> MacrorepOracleRngs(m, nRngs)[i].stream != OverheadStream
  {
    if nRngs >= 3 {
      assert MacrorepOracleRngs(0, nRngs)[2] == SolverRng();
    }
  }

  /** With the numbering the comment describes, no macroreplication stream meets a reserved stream. */
  lemma DocumentedPlanIsCollisionFree(m: nat)
    ensures DocumentedMacrorepStream(m) !in {PostRepStream, BootstrapStream, OverheadStream}
    ensures forall m2: nat :: m2 != m ==> DocumentedMacrorepStream(m2) != DocumentedMacrorepStream(m)
    ensures MacrorepStream(m) + 1 == DocumentedMacrorepStream(m)
  {
  }
}

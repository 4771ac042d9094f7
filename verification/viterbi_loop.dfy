/**
  The decoder's loops as the source writes them: a loop over the states for
  the first column, a loop over the time steps, within it a loop over the
  current states, and within that Python's `max`, which walks the generated
  tuples once keeping the best so far.  Every loop is shown to compute
  exactly the recursive definitions of module Viterbi.  Which exception a
  call raises is decided before any loop runs, by `Precheck`; the source
  raises it part way through lines 33-50, and since the decoder prints
  nothing and changes nothing its caller can see, the outcome is the same.
 */
module ViterbiLoop {
  import opened Model
  import PyMax
  import opened Viterbi

  /** Python's `max` over `c`: keep the first item, move to a later one only when it is strictly above. */
  method MaxOf(c: seq<PyMax.Cand>) returns (best: PyMax.Cand)
    requires |c| > 0
    ensures best == PyMax.Max(c)
  {
    best := c[0];
    assert c[..1] == [c[0]];
    var j := 1;
    while j < |c|
      invariant 1 <= j <= |c|
      invariant best == PyMax.Max(c[..j])
    {
      assert c[..j+1][..j] == c[..j];
      if PyMax.Above(c[j], best) {
        best := c[j];
      }
      j := j + 1;
    }
    assert c[..|c|] == c;
  }

  /** Lines 33-35: the first column, one state at a time. */
  method Initial(p: Task) returns (col: Layer)
    ensures col == First(p)
  {
    col := map[];
    var i := 0;
    while i < |p.states|
      invariant 0 <= i <= |p.states|
      invariant forall s {:trigger s in col} :: s in col <==> s in p.states[..i]
      invariant forall s {:trigger col[s]} :: s in col ==> col[s] == Cell(p.h.start[s] * p.h.emit[s][p.obs[0]], [s])
    {
      var s := p.states[i];
      assert p.states[..i+1] == p.states[..i] + [s];
      col := col[s := Cell(p.h.start[s] * p.h.emit[s][p.obs[0]], [s])];
      i := i + 1;
    }
    assert p.states[..i] == p.states;
    assert forall s :: s in col <==> s in First(p);
    assert forall s :: s in col ==> col[s] == First(p)[s];
  }

  /** The sweep over one more state overwrites that state's cell with the one lines 43-45 compute. */
  lemma SweepStep(p: Task, t: nat, i: nat)
    requires 1 <= t < |p.obs| && i < |p.states|
    ensures Sweep(p, t, p.states[..i+1])
         == Sweep(p, t, p.states[..i])[p.states[i] := Extend(p, t, Column(p, t - 1), p.states[i])]
  {
    assert p.states[..i+1][..i] == p.states[..i];
  }

  /** Lines 39-47 for one step `t > 0`: every current state, in order, extends its best predecessor's path. */
  method Round(p: Task, t: nat, prev: Layer) returns (col: Layer)
    requires 1 <= t < |p.obs|
    requires prev == Column(p, t - 1)
    ensures col == Column(p, t)
  {
    col := map[];
    var i := 0;
    while i < |p.states|
      invariant 0 <= i <= |p.states|
      invariant col == Sweep(p, t, p.states[..i])
    {
      var c := p.states[i];
      var best := MaxOf(Candidates(p.h, p.states, prev, c, p.obs[t]));
      CandidateMember(p.h, p.states, prev, c, p.obs[t], best);
      SweepStep(p, t, i);
      col := col[c := Cell(best.0, prev[best.1].path + [c])];
      i := i + 1;
    }
    assert p.states[..i] == p.states;
  }

  /**
    `viterbi(obs_seq, states, start_p, trans_p, emit_p)`: `Precheck` first
    decides whether, and with which exception, the call fails; a call that
    passes runs the loops of lines 33-50 and returns what `Viterbi.Viterbi`
    defines.
   */
  method Run(h: Hmm, states: seq<State>, obs: seq<Symbol>) returns (r: Result<Decoded>)
    ensures r == Viterbi.Viterbi(h, states, obs)
  {
    var check := Precheck(h, states, obs);
    if check.Failure? {
      return Failure(check.error);
    }
    var p: Task := Problem(h, states, obs);
    var col := Initial(p);
    var t := 1;
    while t < |obs|
      invariant 1 <= t <= |obs|
      invariant col == Column(p, t - 1)
    {
      col := Round(p, t, col);
      t := t + 1;
    }
    var best := MaxOf(Finals(states, col));
    FinalMember(states, col, best);
    r := Success(Decoded(col[best.1].path, best.0));
    ViterbiDecodes(p);
    assert Decode(p) == Finish(states, col);
  }
}

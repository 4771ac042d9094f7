/**
  The Viterbi decoder `viterbi(obs_seq, states, start_p, trans_p, emit_p)` of
  weather_prediction_hmm.py.  The lattice column for time step `t` maps every
  state `s` to its cell: the best joint probability `V[t][s]` of a state path
  of length t+1 ending in `s` that emits `obs[0..t]`, together with that path
  itself (`path[s]`, kept whole rather than as back pointers).
 */
module Viterbi {
  import opened Model
  import PyStr
  import PyMax

  /** The arguments `obs_seq`, `states` and the three tables of one call of the decoder. */
  datatype Problem = Problem(h: Hmm, states: seq<State>, obs: seq<Symbol>)

  /** The calls that return normally: some state, some observation, and every lookup defined. */
  predicate Runs(p: Problem) {
    |p.states| > 0 && |p.obs| > 0 && Covers(p.h, p.states, p.obs)
  }

  /** A call the decoder runs to completion. */
  type Task = p: Problem | Runs(p)
    witness Problem(Hmm(map["" := 0.0], map["" := map["" := 0.0]], map["" := map["" := 0.0]]), [""], [""])

  /** A completed call whose tables hold no negative entry. */
  type Weighted = p: Task | NonNegative(p.h)
    witness Problem(Hmm(map["" := 0.0], map["" := map["" := 0.0]], map["" := map["" := 0.0]]), [""], [""])

  /** `V[t][s]` and `path[s]` for one state at one time step. */
  datatype Cell = Cell(prob: real, path: seq<State>)

  type Layer = map<State, Cell>

  /** The decoder's return value `(path[state], prob)`. */
  datatype Decoded = Decoded(path: seq<State>, prob: real)

  /** Every state has a cell in `col`. */
  predicate Filled(states: seq<State>, col: Layer) {
    forall s {:trigger s in col} :: s in states ==> s in col
  }

  /** The score `V[t-1][p] * trans_p[p][c] * emit_p[c][o]` of reaching `c` from `p`. */
  function Score(h: Hmm, prev: Layer, p: State, c: State, o: Symbol): real
    requires p in prev && Linked(h, p, c) && c in h.emit && o in h.emit[c]
  {
    prev[p].prob * h.trans[p][c] * h.emit[c][o]
  }

  /** The tuples `(score, prev_state)` for `prev_state in states` that line 43 maximises, in the order of `states`. */
  function Candidates(h: Hmm, states: seq<State>, prev: Layer, c: State, o: Symbol): (cands: seq<PyMax.Cand>)
    requires Filled(states, prev)
    requires forall p :: p in states ==> Linked(h, p, c)
    requires c in h.emit && o in h.emit[c]
    ensures |cands| == |states|
    decreases |states|
  {
    if |states| == 0 then []
    else [(Score(h, prev, states[0], c, o), states[0])] + Candidates(h, states[1..], prev, c, o)
  }

  /** The i-th candidate is the i-th state with its score. */
  lemma {:induction false} CandidateAt(h: Hmm, states: seq<State>, prev: Layer, c: State, o: Symbol, i: int)
    requires Filled(states, prev)
    requires forall p :: p in states ==> Linked(h, p, c)
    requires c in h.emit && o in h.emit[c]
    requires 0 <= i < |states|
    ensures Candidates(h, states, prev, c, o)[i] == (Score(h, prev, states[i], c, o), states[i])
    decreases i
  {
    if i > 0 {
      CandidateAt(h, states[1..], prev, c, o, i - 1);
    }
  }

  /** Every candidate is a state paired with its score. */
  lemma {:induction false} CandidateMember(h: Hmm, states: seq<State>, prev: Layer, c: State, o: Symbol, x: PyMax.Cand)
    requires Filled(states, prev)
    requires forall p :: p in states ==> Linked(h, p, c)
    requires c in h.emit && o in h.emit[c]
    requires x in Candidates(h, states, prev, c, o)
    ensures x.1 in states && x.0 == Score(h, prev, x.1, c, o)
  {
    var i :| 0 <= i < |states| && Candidates(h, states, prev, c, o)[i] == x;
    CandidateAt(h, states, prev, c, o, i);
  }

  /** Every state is offered as a predecessor with its score. */
  lemma {:induction false} Offered(h: Hmm, states: seq<State>, prev: Layer, c: State, o: Symbol, p: State)
    requires Filled(states, prev)
    requires forall p :: p in states ==> Linked(h, p, c)
    requires c in h.emit && o in h.emit[c]
    requires p in states
    ensures (Score(h, prev, p, c, o), p) in Candidates(h, states, prev, c, o)
  {
    var i :| 0 <= i < |states| && states[i] == p;
    CandidateAt(h, states, prev, c, o, i);
  }

  /** No predecessor scores more than the tuple `max` picks at line 43. */
  lemma {:induction false} CandidatesBound(h: Hmm, states: seq<State>, prev: Layer, c: State, o: Symbol)
    requires Filled(states, prev)
    requires forall p :: p in states ==> Linked(h, p, c)
    requires c in h.emit && o in h.emit[c] && |states| > 0
    ensures forall q :: q in states ==> Score(h, prev, q, c, o) <= PyMax.Max(Candidates(h, states, prev, c, o)).0
  {
    forall q | q in states
      ensures Score(h, prev, q, c, o) <= PyMax.Max(Candidates(h, states, prev, c, o)).0
    {
      Offered(h, states, prev, c, o, q);
      PyMax.MaxProb(Candidates(h, states, prev, c, o), (Score(h, prev, q, c, o), q));
    }
  }

  /** The tuples `(V[-1][s], s)` for `s in states` that line 50 maximises, in the order of `states`. */
  function Finals(states: seq<State>, last: Layer): (cands: seq<PyMax.Cand>)
    requires Filled(states, last)
    ensures |cands| == |states|
    decreases |states|
  {
    if |states| == 0 then []
    else [(last[states[0]].prob, states[0])] + Finals(states[1..], last)
  }

  /** The i-th final candidate is the i-th state with its probability. */
  lemma {:induction false} FinalAt(states: seq<State>, last: Layer, i: int)
    requires Filled(states, last) && 0 <= i < |states|
    ensures Finals(states, last)[i] == (last[states[i]].prob, states[i])
    decreases i
  {
    if i > 0 {
      FinalAt(states[1..], last, i - 1);
    }
  }

  /** Every final candidate is a state paired with its probability. */
  lemma {:induction false} FinalMember(states: seq<State>, last: Layer, x: PyMax.Cand)
    requires Filled(states, last) && x in Finals(states, last)
    ensures x.1 in states && x.0 == last[x.1].prob
  {
    var i :| 0 <= i < |states| && Finals(states, last)[i] == x;
    FinalAt(states, last, i);
  }

  /** Every state is offered as a final state with its probability. */
  lemma {:induction false} FinalOffered(states: seq<State>, last: Layer, s: State)
    requires Filled(states, last) && s in states
    ensures (last[s].prob, s) in Finals(states, last)
  {
    var i :| 0 <= i < |states| && states[i] == s;
    FinalAt(states, last, i);
  }

  /** The base case: `V[0][s] = start_p[s] * emit_p[s][obs[0]]` and `path[s] = [s]`. */
  function First(p: Task): (col: Layer)
    ensures Filled(p.states, col)
  {
    map s | s in p.states :: Cell(p.h.start[s] * p.h.emit[s][p.obs[0]], [s])
  }

  /** Lines 43-45 for one current state `c` at step `t`: the best `(score, prev_state)` and the extended path. */
  function Extend(p: Task, t: nat, prev: Layer, c: State): Cell
    requires 1 <= t < |p.obs| && c in p.states && Filled(p.states, prev)
  {
    var best := PyMax.Max(Candidates(p.h, p.states, prev, c, p.obs[t]));
    CandidateMember(p.h, p.states, prev, c, p.obs[t], best);
    Cell(best.0, prev[best.1].path + [c])
  }

  /** The cell for `c` extends some state's previous path by `c` with that state's score, and no predecessor scores more. */
  lemma {:induction false} ExtendPicks(p: Task, t: nat, prev: Layer, c: State)
    requires 1 <= t < |p.obs| && c in p.states && Filled(p.states, prev)
    ensures var cell := Extend(p, t, prev, c);
      && (exists q :: q in p.states && cell == Cell(Score(p.h, prev, q, c, p.obs[t]), prev[q].path + [c]))
      && forall q :: q in p.states ==> Score(p.h, prev, q, c, p.obs[t]) <= cell.prob
  {
    var best := PyMax.Max(Candidates(p.h, p.states, prev, c, p.obs[t]));
    CandidateMember(p.h, p.states, prev, c, p.obs[t], best);
    CandidatesBound(p.h, p.states, prev, c, p.obs[t]);
  }

  /**
    One round of the loop at lines 38-47 over the first states of `todo`:
    every current state, in order, takes the best `(score, prev_state)` tuple
    against the column for step t-1 and extends that predecessor's path by
    itself.
   */
  function Sweep(p: Task, t: nat, todo: seq<State>): (col: Layer)
    requires 1 <= t < |p.obs|
    requires forall c :: c in todo ==> c in p.states
    ensures Filled(todo, col)
    decreases t, 0, |todo|
  {
    if |todo| == 0 then map[]
    else
      var c := todo[|todo|-1];
      Sweep(p, t, todo[..|todo|-1])[c := Extend(p, t, Column(p, t - 1), c)]
  }

  /** The lattice column for time step `t`: lines 33-35 for the first, one round of lines 39-47 for each later one. */
  function Column(p: Task, t: nat): (col: Layer)
    requires t < |p.obs|
    ensures Filled(p.states, col)
    decreases t, 1, 0
  {
    if t == 0 then First(p)
    else Sweep(p, t, p.states)
  }

  /** The cell of state `s` at step `t` holds a path of t+1 states ending in `s`, and that path's joint probability. */
  predicate CellOk(p: Task, t: nat, s: State, cell: Cell)
    requires t < |p.obs|
  {
    && |cell.path| == t + 1
    && cell.path[t] == s
    && Over(cell.path, p.states)
    && Scorable(p.h, cell.path, p.obs)
    && cell.prob == Joint(p.h, cell.path, p.obs)
  }

  /**
    Every state's cell in `col` is valid for step `t`.  (The trigger keeps the
    quantifier from firing on the memberships that `Over` produces.)
   */
  predicate LayerOk(p: Task, t: nat, col: Layer)
    requires t < |p.obs| && Filled(p.states, col)
  {
    forall s {:trigger CellOk(p, t, s, col[s])} :: s in p.states ==> CellOk(p, t, s, col[s])
  }

  /** Extending a valid cell of step t-1 by one more state gives a valid cell of step t. */
  lemma {:induction false} ExtendPathOk(p: Task, t: nat, prev: Layer, q: State, c: State)
    requires 1 <= t < |p.obs| && q in p.states && c in p.states && q in prev
    requires CellOk(p, t - 1, q, prev[q])
    ensures CellOk(p, t, c, Cell(Score(p.h, prev, q, c, p.obs[t]), prev[q].path + [c]))
  {
    var path := prev[q].path;
    JointExtend(p.h, path, p.obs, c);
    assert Over(path + [c], p.states) by {
      forall i | 0 <= i < |path| + 1 ensures (path + [c])[i] in p.states {
        if i < t { assert (path + [c])[i] == path[i]; }
      }
    }
  }

  /** The cell lines 43-45 compute for `c` from a valid column extends the best predecessor's path by `c`. */
  lemma {:induction false} ExtendOk(p: Task, t: nat, prev: Layer, c: State)
    requires 1 <= t < |p.obs| && c in p.states && Filled(p.states, prev)
    requires LayerOk(p, t - 1, prev)
    ensures CellOk(p, t, c, Extend(p, t, prev, c))
  {
    var best := PyMax.Max(Candidates(p.h, p.states, prev, c, p.obs[t]));
    var q := best.1;
    CandidateMember(p.h, p.states, prev, c, p.obs[t], best);
    assert CellOk(p, t - 1, q, prev[q]);
    assert Extend(p, t, prev, c) == Cell(Score(p.h, prev, q, c, p.obs[t]), prev[q].path + [c]);
    ExtendPathOk(p, t, prev, q, c);
  }

  /** After a sweep over `todo`, the cell of each swept state is the one lines 43-45 compute for it. */
  lemma {:induction false} SweepAt(p: Task, t: nat, todo: seq<State>, c: State)
    requires 1 <= t < |p.obs|
    requires forall c :: c in todo ==> c in p.states
    requires c in todo
    ensures Sweep(p, t, todo)[c] == Extend(p, t, Column(p, t - 1), c)
    decreases |todo|
  {
    var n := |todo| - 1;
    if todo[n] != c {
      assert c in todo[..n] by {
        var i :| 0 <= i < |todo| && todo[i] == c;
        assert todo[..n][i] == c;
      }
      SweepAt(p, t, todo[..n], c);
    }
  }

  /** The cell of `c` at a step t > 0 is the one lines 43-45 compute for it from the column for step t-1. */
  lemma {:induction false} ColumnAt(p: Task, t: nat, c: State)
    requires 1 <= t < |p.obs| && c in p.states
    ensures Column(p, t)[c] == Extend(p, t, Column(p, t - 1), c)
  {
    SweepAt(p, t, p.states, c);
  }

  /** Lines 33-35 establish the invariant for the first column. */
  lemma {:induction false} FirstOk(p: Task)
    ensures LayerOk(p, 0, First(p))
  {
    forall s | s in p.states
      ensures CellOk(p, 0, s, First(p)[s])
    {
      assert First(p)[s] == Cell(p.h.start[s] * p.h.emit[s][p.obs[0]], [s]);
    }
  }

  /** A round of lines 39-47 keeps the invariant: the column for step t is valid when the one for step t-1 is. */
  lemma {:induction false} ColumnStepOk(p: Task, t: nat)
    requires 1 <= t < |p.obs|
    requires LayerOk(p, t - 1, Column(p, t - 1))
    ensures LayerOk(p, t, Column(p, t))
  {
    forall c | c in p.states
      ensures CellOk(p, t, c, Column(p, t)[c])
    {
      ColumnAt(p, t, c);
      ExtendOk(p, t, Column(p, t - 1), c);
    }
  }

  /** The loop invariant of lines 38-47, established by lines 33-35 and kept by every round. */
  lemma {:induction false} ColumnInvariant(p: Task, t: nat)
    requires t < |p.obs|
    ensures LayerOk(p, t, Column(p, t))
    decreases t
  {
    if t == 0 {
      FirstOk(p);
    } else {
      ColumnInvariant(p, t - 1);
      ColumnStepOk(p, t);
    }
  }

  /** Multiplying both sides of `a <= b` by the same nonnegative factor keeps the order. */
  lemma ScaleMono(a: real, b: real, x: real)
    requires a <= b && 0.0 <= x
    ensures a * x <= b * x
  {
  }

  /** A path's score against the previous column bounds its joint probability. */
  lemma {:induction false} ExtendBound(p: Weighted, t: nat, prev: Layer, q: seq<State>, c: State)
    requires 1 <= t < |p.obs| && c in p.states
    requires |q| == t && Scorable(p.h, q, p.obs) && q[t-1] in p.states && q[t-1] in prev
    requires Joint(p.h, q, p.obs) <= prev[q[t-1]].prob
    ensures Scorable(p.h, q + [c], p.obs)
    ensures Joint(p.h, q + [c], p.obs) <= Score(p.h, prev, q[t-1], c, p.obs[t])
  {
    var r := q[t-1];
    JointExtend(p.h, q, p.obs, c);
    var j, tr, em := Joint(p.h, q, p.obs), p.h.trans[r][c], p.h.emit[c][p.obs[t]];
    ScaleMono(j, prev[r].prob, tr);
    ScaleMono(j * tr, prev[r].prob * tr, em);
  }

  /**
    Lines 43-45 keep the bound: if the first t states of `path` are no more
    probable than the cell of `prev` they end in, the whole path is no more
    probable than the cell computed for its last state.
   */
  lemma {:induction false} ExtendOptimal(p: Weighted, t: nat, prev: Layer, path: seq<State>)
    requires 1 <= t < |p.obs| && Filled(p.states, prev)
    requires |path| == t + 1 && Over(path, p.states)
    requires Scorable(p.h, path[..t], p.obs) && Joint(p.h, path[..t], p.obs) <= prev[path[t-1]].prob
    ensures Scorable(p.h, path, p.obs)
    ensures Joint(p.h, path, p.obs) <= Extend(p, t, prev, path[t]).prob
  {
    var q, c, r := path[..t], path[t], path[t-1];
    assert path == q + [c];
    ExtendBound(p, t, prev, q, c);
    Offered(p.h, p.states, prev, c, p.obs[t], r);
    PyMax.MaxProb(Candidates(p.h, p.states, prev, c, p.obs[t]), (Score(p.h, prev, r, c, p.obs[t]), r));
  }

  /** A round keeps the bound of `ColumnOptimal` from step t-1 to step t. */
  lemma {:induction false} ColumnStepOptimal(p: Weighted, t: nat, path: seq<State>)
    requires 1 <= t < |p.obs|
    requires |path| == t + 1 && Over(path, p.states)
    requires Scorable(p.h, path[..t], p.obs)
    requires Joint(p.h, path[..t], p.obs) <= Column(p, t - 1)[path[t-1]].prob
    ensures Scorable(p.h, path, p.obs)
    ensures Joint(p.h, path, p.obs) <= Column(p, t)[path[t]].prob
  {
    ExtendOptimal(p, t, Column(p, t - 1), path);
    ColumnAt(p, t, path[t]);
  }

  /**
    Every path of t+1 states over `states` is scorable and no more probable
    than the cell of `col` for the state it ends in.
   */
  ghost predicate Dominates(p: Task, t: nat, col: Layer)
    requires t < |p.obs| && Filled(p.states, col)
  {
    forall path {:trigger Over(path, p.states)} :: |path| == t + 1 && Over(path, p.states) ==>
      Scorable(p.h, path, p.obs) && Joint(p.h, path, p.obs) <= col[path[t]].prob
  }

  /** The first column holds the joint probability of every one-state path. */
  lemma {:induction false} FirstOptimal(p: Task)
    ensures Dominates(p, 0, Column(p, 0))
  {
    forall path | |path| == 1 && Over(path, p.states)
      ensures Scorable(p.h, path, p.obs) && Joint(p.h, path, p.obs) <= Column(p, 0)[path[0]].prob
    {
      CoveredPathScorable(p.h, p.states, p.obs, path);
      assert Column(p, 0)[path[0]] == First(p)[path[0]];
    }
  }

  /** A round keeps the bound: the column for step t-1 dominates, hence so does the column for step t. */
  lemma {:induction false} StepOptimal(p: Weighted, t: nat)
    requires 1 <= t < |p.obs|
    ensures Dominates(p, t, Column(p, t))
    decreases t, 0
  {
    ColumnOptimal(p, t - 1);
    forall path | |path| == t + 1 && Over(path, p.states)
      ensures Scorable(p.h, path, p.obs) && Joint(p.h, path, p.obs) <= Column(p, t)[path[t]].prob
    {
      var q := path[..t];
      assert q[t-1] == path[t-1];
      assert Over(q, p.states);
      ColumnStepOptimal(p, t, path);
    }
  }

  /**
    With nonnegative tables, the cell of `s` at step `t` is at least as
    probable as every path of t+1 states that ends in `s`.
   */
  lemma {:induction false} ColumnOptimal(p: Weighted, t: nat)
    requires t < |p.obs|
    ensures Dominates(p, t, Column(p, t))
    decreases t, 1
  {
    if t == 0 {
      FirstOptimal(p);
    } else {
      StepOptimal(p, t);
    }
  }

  /**
    `cell`, computed for state `c` at step `t` from `prev`, extends the
    predecessor line 43 picks: its score is the cell's probability, and every
    other state scores less, or the same with a smaller name.
   */
  predicate PicksBest(p: Task, t: nat, prev: Layer, c: State, cell: Cell)
    requires 1 <= t < |p.obs| && Filled(p.states, prev) && c in p.states
  {
    && |cell.path| == t + 1
    && cell.path[t-1] in p.states
    && cell.prob == Score(p.h, prev, cell.path[t-1], c, p.obs[t])
    && forall q :: q in p.states ==>
         || Score(p.h, prev, q, c, p.obs[t]) < cell.prob
         || (Score(p.h, prev, q, c, p.obs[t]) == cell.prob && (q == cell.path[t-1] || PyStr.Less(q, cell.path[t-1])))
  }

  /** Lines 43-45 pick the best-scoring predecessor, and among equals the greatest name. */
  lemma {:induction false} ExtendTieBreak(p: Task, t: nat, prev: Layer, c: State)
    requires 1 <= t < |p.obs| && Filled(p.states, prev) && c in p.states
    requires LayerOk(p, t - 1, prev)
    ensures PicksBest(p, t, prev, c, Extend(p, t, prev, c))
  {
    var cands := Candidates(p.h, p.states, prev, c, p.obs[t]);
    var best := PyMax.Max(cands);
    CandidateMember(p.h, p.states, prev, c, p.obs[t], best);
    assert CellOk(p, t - 1, best.1, prev[best.1]);
    forall q | q in p.states
      ensures || Score(p.h, prev, q, c, p.obs[t]) < best.0
              || (Score(p.h, prev, q, c, p.obs[t]) == best.0 && (q == best.1 || PyStr.Less(q, best.1)))
    {
      Offered(p.h, p.states, prev, c, p.obs[t], q);
      PyMax.MaxProb(cands, (Score(p.h, prev, q, c, p.obs[t]), q));
    }
  }

  /** The predecessor chosen at step `t` for state `c`: the greatest-named among the best-scoring ones. */
  lemma {:induction false} StepTieBreak(p: Task, t: nat, c: State)
    requires 1 <= t < |p.obs| && c in p.states
    ensures PicksBest(p, t, Column(p, t - 1), c, Column(p, t)[c])
  {
    ColumnInvariant(p, t - 1);
    ColumnAt(p, t, c);
    ExtendTieBreak(p, t, Column(p, t - 1), c);
  }

  /** Line 50: the final `max` picks the most probable cell, and among equals the greatest state name. */
  lemma {:induction false} FinalTieBreak(states: seq<State>, last: Layer)
    requires |states| > 0 && Filled(states, last)
    ensures var best := PyMax.Max(Finals(states, last));
      && best.1 in states
      && best.0 == last[best.1].prob
      && forall s :: s in states ==>
           last[s].prob < best.0 || (last[s].prob == best.0 && (s == best.1 || PyStr.Less(s, best.1)))
  {
    var cands := Finals(states, last);
    FinalMember(states, last, PyMax.Max(cands));
    forall s | s in states
      ensures last[s].prob < PyMax.Max(cands).0
              || (last[s].prob == PyMax.Max(cands).0 && (s == PyMax.Max(cands).1 || PyStr.Less(s, PyMax.Max(cands).1)))
    {
      FinalOffered(states, last, s);
      PyMax.MaxProb(cands, (last[s].prob, s));
    }
  }

  /** Lines 49-51 applied to a last column: the best `(probability, state)` tuple and that state's path. */
  function Finish(states: seq<State>, last: Layer): (r: Decoded)
    requires |states| > 0 && Filled(states, last)
  {
    var best := PyMax.Max(Finals(states, last));
    FinalMember(states, last, best);
    Decoded(last[best.1].path, best.0)
  }

  /** The finishing step returns a probability at least that of every cell of the last column. */
  lemma {:induction false} FinishBound(states: seq<State>, last: Layer, s: State)
    requires |states| > 0 && Filled(states, last) && s in states
    ensures last[s].prob <= Finish(states, last).prob
  {
    FinalTieBreak(states, last);
  }

  /** The finishing step returns the best cell of a valid last column, ties going to the greatest state name. */
  lemma {:induction false} FinishTieBreak(p: Task, last: Layer)
    requires Filled(p.states, last) && LayerOk(p, |p.obs| - 1, last)
    ensures var r := Finish(p.states, last);
      && |r.path| == |p.obs|
      && var f := r.path[|p.obs| - 1];
         && f in p.states
         && r.prob == last[f].prob
         && forall s :: s in p.states ==>
              last[s].prob < r.prob || (last[s].prob == r.prob && (s == f || PyStr.Less(s, f)))
  {
    var best := PyMax.Max(Finals(p.states, last));
    FinalTieBreak(p.states, last);
    assert CellOk(p, |p.obs| - 1, best.1, last[best.1]);
  }

  /** The decoder's result: the last column, finished by lines 49-51. */
  function Decode(p: Task): (r: Decoded)
    ensures |r.path| == |p.obs|
    ensures Over(r.path, p.states)
    ensures Scorable(p.h, r.path, p.obs)
    ensures r.prob == Joint(p.h, r.path, p.obs)
  {
    var t := |p.obs| - 1;
    var last := Column(p, t);
    var best := PyMax.Max(Finals(p.states, last));
    FinalMember(p.states, last, best);
    ColumnInvariant(p, t);
    assert CellOk(p, t, best.1, last[best.1]);
    Finish(p.states, last)
  }

  /** The returned probability is the maximum of the last column and ties go to the greatest state name. */
  lemma {:induction false} DecodeTieBreak(p: Task)
    ensures var r, last := Decode(p), Column(p, |p.obs| - 1);
      var f := r.path[|p.obs| - 1];
      && f in p.states
      && r.prob == last[f].prob
      && forall s :: s in p.states ==>
           last[s].prob < r.prob || (last[s].prob == r.prob && (s == f || PyStr.Less(s, f)))
  {
    ColumnInvariant(p, |p.obs| - 1);
    FinishTieBreak(p, Column(p, |p.obs| - 1));
  }

  /**
    A single observation decodes to the one-state path of the state whose
    `start_p[s] * emit_p[s][obs[0]]` is largest, ties going to the greatest name.
   */
  lemma {:induction false} DecodeSingle(p: Task)
    requires |p.obs| == 1
    ensures var r := Decode(p);
      var f := r.path[0];
      && r.path == [f]
      && f in p.states
      && r.prob == p.h.start[f] * p.h.emit[f][p.obs[0]]
      && forall s :: s in p.states ==>
           var x := p.h.start[s] * p.h.emit[s][p.obs[0]];
           x < r.prob || (x == r.prob && (s == f || PyStr.Less(s, f)))
  {
    DecodeTieBreak(p);
    var r := Decode(p);
    assert r.path == [r.path[0]];
  }

  /** With nonnegative tables the decoded path is at least as probable as every path over `states` of the same length. */
  lemma {:induction false} DecodeOptimal(p: Weighted)
    ensures forall q :: |q| == |p.obs| && Over(q, p.states) ==>
              Scorable(p.h, q, p.obs) && Joint(p.h, q, p.obs) <= Decode(p).prob
  {
    var t := |p.obs| - 1;
    var last := Column(p, t);
    assert Decode(p) == Finish(p.states, last);
    ColumnOptimal(p, t);
    forall q | |q| == |p.obs| && Over(q, p.states)
      ensures Scorable(p.h, q, p.obs) && Joint(p.h, q, p.obs) <= Finish(p.states, last).prob
    {
      FinishBound(p.states, last, q[t]);
    }
  }

  /**
    The exception the source raises, following its evaluation order: `max` of
    nothing at line 50 when there are no states; otherwise a missing
    `start_p`/`emit_p` row for the first state, then `obs_seq[0]` of an empty
    sequence, then any other missing key.
   */
  function Precheck(h: Hmm, states: seq<State>, obs: seq<Symbol>): (r: Result<()>)
    ensures r.Success? <==> Runs(Problem(h, states, obs))
    ensures r == Failure(ValueError) <==> |states| == 0
    ensures r == Failure(IndexError) <==> |states| > 0 && |obs| == 0 && states[0] in h.start && states[0] in h.emit
  {
    if |states| == 0 then Failure(ValueError)
    else if states[0] !in h.start || states[0] !in h.emit then Failure(KeyError)
    else if |obs| == 0 then Failure(IndexError)
    else if !Covers(h, states, obs) then Failure(KeyError)
    else Success(())
  }

  /**
    `viterbi(obs_seq, states, start_p, trans_p, emit_p)`: the decoded path has
    one state per observation, its probability is that path's joint
    probability, and with nonnegative tables no path over `states` of the same
    length is more probable.
   */
  function Viterbi(h: Hmm, states: seq<State>, obs: seq<Symbol>): (r: Result<Decoded>)
    ensures r.Success? <==> |states| > 0 && |obs| > 0 && Covers(h, states, obs)
    ensures r.Failure? ==> Precheck(h, states, obs) == Failure(r.error)
    ensures r.Success? ==> && |r.value.path| == |obs|
                           && Over(r.value.path, states)
                           && Scorable(h, r.value.path, obs)
                           && r.value.prob == Joint(h, r.value.path, obs)
    ensures r.Success? && NonNegative(h) ==>
              forall q :: |q| == |obs| && Over(q, states) ==> Scorable(h, q, obs) && Joint(h, q, obs) <= r.value.prob
  {
    match Precheck(h, states, obs)
    case Failure(e) => Failure(e)
    case Success(_) =>
      var p: Task := Problem(h, states, obs);
      assert NonNegative(h) ==> forall q :: |q| == |obs| && Over(q, states) ==>
          Scorable(h, q, obs) && Joint(h, q, obs) <= Decode(p).prob by {
        if NonNegative(h) {
          var w: Weighted := p;
          DecodeOptimal(w);
        }
      }
      Success(Decode(p))
  }

  /** A call that passes the checks returns the decoded result. */
  lemma ViterbiDecodes(p: Task)
    ensures Viterbi(p.h, p.states, p.obs) == Success(Decode(p))
  {
    assert Precheck(p.h, p.states, p.obs) == Success(());
  }
}

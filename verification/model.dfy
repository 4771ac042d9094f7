/**
  The hidden Markov model of weather_prediction_hmm.py: hidden states and
  observation symbols are names, and the three probability tables are
  dictionaries keyed by those names, used as given (nothing checks that a row
  sums to one).  Python's exceptions become the `Failure` arm of `Result`.
 */
module Model {

  type State = string
  type Symbol = string

  /** The tables `start_p`, `trans_p` and `emit_p` the decoder receives. */
  datatype Hmm = Hmm(
    start: map<State, real>,
    trans: map<State, map<State, real>>,
    emit: map<State, map<Symbol, real>>)

  /** The Python exceptions the modelled code can raise. */
  datatype Error = IndexError | KeyError | ValueError

  datatype Result<T> = Success(value: T) | Failure(error: Error)

  /** Every table entry is a probability-like weight, at least zero. */
  predicate NonNegative(h: Hmm) {
    && (forall s {:trigger h.start[s]} :: s in h.start ==> h.start[s] >= 0.0)
    && (forall p, c {:trigger h.trans[p][c]} :: p in h.trans && c in h.trans[p] ==> h.trans[p][c] >= 0.0)
    && (forall s, o {:trigger h.emit[s][o]} :: s in h.emit && o in h.emit[s] ==> h.emit[s][o] >= 0.0)
  }

  /** Every element of `path` is one of `states`. */
  predicate Over(path: seq<State>, states: seq<State>) {
    forall i :: 0 <= i < |path| ==> path[i] in states
  }

  /** `trans[a][b]` is defined. */
  predicate Linked(h: Hmm, a: State, b: State) {
    a in h.trans && b in h.trans[a]
  }

  /** Step `i` of `path` follows a defined transition, `trans[path[i-1]][path[i]]`. */
  predicate Step(h: Hmm, path: seq<State>, i: int)
    requires 1 <= i < |path|
  {
    Linked(h, path[i-1], path[i])
  }

  /**
    Every table lookup the joint probability of `path` emitting the first
    |path| symbols of `obs` makes is defined.
   */
  predicate Scorable(h: Hmm, path: seq<State>, obs: seq<Symbol>) {
    && 1 <= |path| <= |obs|
    && path[0] in h.start
    && (forall i :: 0 <= i < |path| ==> path[i] in h.emit && obs[i] in h.emit[path[i]])
    && (forall i {:trigger Step(h, path, i)} :: 1 <= i < |path| ==> Step(h, path, i))
  }

  /**
    Every lookup the decoder makes for `states` and `obs` is defined: the
    start and emission entries of every state for every observed symbol, and,
    once there is a second time step, every transition between two states.
   */
  predicate Covers(h: Hmm, states: seq<State>, obs: seq<Symbol>) {
    && (forall s {:trigger s in h.start} :: s in states ==> s in h.start)
    && (forall s {:trigger s in h.emit} :: s in states ==> s in h.emit)
    && (forall s, t {:trigger obs[t] in h.emit[s]} :: s in states && 0 <= t < |obs| ==> s in h.emit && obs[t] in h.emit[s])
    && (|obs| >= 2 ==> forall p, c {:trigger Linked(h, p, c)} :: p in states && c in states ==> Linked(h, p, c))
  }

  /**
    The joint probability that the chain walks `path` and emits the first
    |path| symbols of `obs`: start·emit for the first step, then trans·emit
    for every later step, multiplied left to right as the decoder does.
   */
  function Joint(h: Hmm, path: seq<State>, obs: seq<Symbol>): (r: real)
    requires Scorable(h, path, obs)
    decreases |path|
  {
    var n := |path| - 1;
    if n == 0 then h.start[path[0]] * h.emit[path[0]][obs[0]]
    else
      assert Step(h, path, n);
      PrefixScorable(h, path, obs, n);
      Joint(h, path[..n], obs) * h.trans[path[n-1]][path[n]] * h.emit[path[n]][obs[n]]
  }

  /** Every nonempty prefix of a scorable path is scorable. */
  lemma {:induction false} PrefixScorable(h: Hmm, path: seq<State>, obs: seq<Symbol>, k: int)
    requires Scorable(h, path, obs) && 1 <= k <= |path|
    ensures Scorable(h, path[..k], obs)
  {
    forall i | 1 <= i < k
      ensures Step(h, path[..k], i)
    {
      assert Step(h, path, i);
    }
  }

  /** A path over `states` no longer than `obs` is scorable whenever the tables cover `states`. */
  lemma {:induction false} CoveredPathScorable(h: Hmm, states: seq<State>, obs: seq<Symbol>, path: seq<State>)
    requires Covers(h, states, obs)
    requires 1 <= |path| <= |obs| && Over(path, states)
    ensures Scorable(h, path, obs)
  {
    forall i | 1 <= i < |path|
      ensures Step(h, path, i)
    {
      assert Linked(h, path[i-1], path[i]) by {
        assert path[i-1] in states && path[i] in states;
      }
    }
  }

  /** Extending a path by one step multiplies its joint probability by trans·emit. */
  lemma {:induction false} JointExtend(h: Hmm, path: seq<State>, obs: seq<Symbol>, s: State)
    requires Scorable(h, path, obs) && |path| < |obs|
    requires Linked(h, path[|path|-1], s) && s in h.emit && obs[|path|] in h.emit[s]
    ensures Scorable(h, path + [s], obs)
    ensures Joint(h, path + [s], obs)
         == Joint(h, path, obs) * h.trans[path[|path|-1]][s] * h.emit[s][obs[|path|]]
  {
    var n := |path|;
    var p' := path + [s];
    forall i | 1 <= i < |p'|
      ensures Step(h, p', i)
    {
      if i < n {
        assert Step(h, path, i);
      }
    }
    assert p'[..n] == path;
  }
}

/**
  The two sampling helpers of weather_prediction_hmm.py,
  `generate_weather_sequence` and `generate_observation_sequence`.  The
  random draw `random.choices(list(row.keys()), weights=row.values())[0]` is
  a `Chooser`: a caller-supplied function from a table row and the number of
  draws made before it to the key drawn, or to the exception
  `random.choices` raises.  The tables the source reads from module globals
  are parameters here.
 */
module Generators {
  import opened Model

  /** One call of `random.choices` on a row, told how many draws came before it. */
  type Chooser = (map<string, real>, nat) -> Result<string>

  /** A draw that succeeds names a key of its row, and a draw from an empty row fails with IndexError. */
  ghost predicate Sound(choose: Chooser) {
    forall row, n :: && (choose(row, n).Success? ==> choose(row, n).value in row)
                     && (|row| == 0 ==> choose(row, n) == Failure(IndexError))
  }

  /** Every state after the first is a key of its predecessor's transition row. */
  ghost predicate Chained(trans: map<State, map<State, real>>, walk: seq<State>) {
    forall i :: 0 <= i < |walk| - 1 ==> walk[i] in trans && walk[i+1] in trans[walk[i]]
  }

  /**
    The weather sequence after `k` rounds of the loop at lines 65-69: the
    start state followed by k drawn states, round `k` drawing from the row of
    the last state so far.  A missing row raises KeyError.
   */
  function Rounds(trans: map<State, map<State, real>>, choose: Chooser, start: State, k: nat): (r: Result<seq<State>>)
    requires Sound(choose)
    ensures r.Success? ==> |r.value| == k + 1 && r.value[0] == start && Chained(trans, r.value)
    decreases k
  {
    if k == 0 then Success([start])
    else
      match Rounds(trans, choose, start, k - 1)
      case Failure(e) => Failure(e)
      case Success(walk) =>
        var last := walk[|walk|-1];
        if last !in trans then Failure(KeyError)
        else
          match choose(trans[last], k - 1)
          case Failure(e) => Failure(e)
          case Success(next) => Success(walk + [next])
  }

  /** `generate_weather_sequence(length, start_state)`: `length - 1` rounds, none when `length` is at most 1. */
  function WeatherSequence(trans: map<State, map<State, real>>, choose: Chooser, length: int, start: State): (r: Result<seq<State>>)
    requires Sound(choose)
    ensures r.Success? ==> |r.value| == (if length > 1 then length else 1)
    ensures r.Success? ==> r.value[0] == start && Chained(trans, r.value)
    ensures length <= 1 ==> r == Success([start])
  {
    Rounds(trans, choose, start, if length > 1 then length - 1 else 0)
  }

  /** Every row reached is present, and every draw from a row that is present succeeds. */
  ghost predicate Closed(trans: map<State, map<State, real>>, choose: Chooser) {
    forall s, n {:trigger choose(trans[s], n)} :: s in trans ==>
      choose(trans[s], n).Success? && choose(trans[s], n).value in trans
  }

  /** With a closed transition table, the rounds never fail. */
  lemma {:induction false} RoundsSucceed(trans: map<State, map<State, real>>, choose: Chooser, start: State, k: nat)
    requires Sound(choose) && Closed(trans, choose) && start in trans
    ensures Rounds(trans, choose, start, k).Success?
    ensures Rounds(trans, choose, start, k).value[k] in trans
    decreases k
  {
    if k > 0 {
      RoundsSucceed(trans, choose, start, k - 1);
    }
  }

  /** The sequence generator fails only on a missing row or a failed draw. */
  lemma {:induction false} RoundsError(trans: map<State, map<State, real>>, choose: Chooser, start: State, k: nat)
    requires Sound(choose)
    requires Rounds(trans, choose, start, k).Failure?
    ensures var e := Rounds(trans, choose, start, k).error;
      e == KeyError || exists s, n: nat :: s in trans && n < k && choose(trans[s], n) == Failure(e)
    decreases k
  {
    if Rounds(trans, choose, start, k - 1).Failure? {
      RoundsError(trans, choose, start, k - 1);
    }
  }

  /** Once a round fails, every later count of rounds fails the same way. */
  lemma {:induction false} RoundsFailed(trans: map<State, map<State, real>>, choose: Chooser, start: State, k: nat, m: nat)
    requires Sound(choose) && k <= m
    requires Rounds(trans, choose, start, k).Failure?
    ensures Rounds(trans, choose, start, m) == Rounds(trans, choose, start, k)
    decreases m
  {
    if k < m {
      RoundsFailed(trans, choose, start, k, m - 1);
    }
  }

  /** A state's emission row is missing, or the draw from it fails. */
  ghost predicate Fails(emit: map<State, map<Symbol, real>>, choose: Chooser, state: State, n: nat) {
    state !in emit || choose(emit[state], n).Failure?
  }

  /**
    The observations after the loop at lines 75-78 has handled the states of
    `walk`: draw `i` from the emission row of `walk[i]`.  A missing row raises
    KeyError, and the first exception ends the loop.
   */
  function Observations(emit: map<State, map<Symbol, real>>, choose: Chooser, walk: seq<State>): (r: Result<seq<Symbol>>)
    requires Sound(choose)
    ensures r.Success? ==> |r.value| == |walk|
    ensures r.Success? ==> forall i :: 0 <= i < |walk| ==> walk[i] in emit && r.value[i] in emit[walk[i]]
    ensures r.Failure? <==> exists i :: 0 <= i < |walk| && Fails(emit, choose, walk[i], i)
    decreases |walk|
  {
    if |walk| == 0 then Success([])
    else
      var n := |walk| - 1;
      var before := walk[..n];
      assert forall i :: 0 <= i < n ==> before[i] == walk[i];
      match Observations(emit, choose, before)
      case Failure(e) => Failure(e)
      case Success(obs) =>
        if walk[n] !in emit then Failure(KeyError)
        else
          match choose(emit[walk[n]], n)
          case Failure(e) => Failure(e)
          case Success(o) => Success(obs + [o])
  }

  /** Once the observations of a prefix fail, the observations of the whole walk fail the same way. */
  lemma {:induction false} ObservationsFailed(emit: map<State, map<Symbol, real>>, choose: Chooser, walk: seq<State>, k: nat)
    requires Sound(choose) && k <= |walk|
    requires Observations(emit, choose, walk[..k]).Failure?
    ensures Observations(emit, choose, walk) == Observations(emit, choose, walk[..k])
    decreases |walk|
  {
    if k < |walk| {
      var n := |walk| - 1;
      assert walk[..n][..k] == walk[..k];
      ObservationsFailed(emit, choose, walk[..n], k);
    } else {
      assert walk[..k] == walk;
    }
  }

  /** Round k+1 of m: a missing row or a failed draw ends all m rounds with that failure, otherwise the drawn state is appended. */
  lemma {:induction false} RoundsNext(trans: map<State, map<State, real>>, choose: Chooser, start: State, k: nat, m: nat)
    requires Sound(choose) && k < m
    requires Rounds(trans, choose, start, k).Success?
    ensures var walk := Rounds(trans, choose, start, k).value;
      var last := walk[|walk|-1];
      && (last !in trans ==> Rounds(trans, choose, start, m) == Failure(KeyError))
      && (last in trans && choose(trans[last], k).Failure? ==>
            Rounds(trans, choose, start, m) == Failure(choose(trans[last], k).error))
      && (last in trans && choose(trans[last], k).Success? ==>
            Rounds(trans, choose, start, k + 1) == Success(walk + [choose(trans[last], k).value]))
  {
    if Rounds(trans, choose, start, k + 1).Failure? {
      RoundsFailed(trans, choose, start, k + 1, m);
    }
  }

  /** `generate_weather_sequence` as the source runs it: a list grown by one drawn state per round. */
  method GenerateWeather(trans: map<State, map<State, real>>, choose: Chooser, length: int, start: State)
    returns (r: Result<seq<State>>)
    requires Sound(choose)
    ensures r == WeatherSequence(trans, choose, length, start)
  {
    var sequence := [start];
    var current := start;
    var k := 0;
    while k < length - 1
      invariant 0 <= k && (k <= length - 1 || k == 0)
      invariant Rounds(trans, choose, start, k) == Success(sequence)
      invariant current == sequence[|sequence|-1]
    {
      RoundsNext(trans, choose, start, k, length - 1);
      if current !in trans {
        return Failure(KeyError);
      }
      var drawn := choose(trans[current], k);
      if drawn.Failure? {
        return Failure(drawn.error);
      }
      sequence := sequence + [drawn.value];
      current := drawn.value;
      k := k + 1;
    }
    r := Success(sequence);
  }

  /** Handling state `i` of the walk: a missing row or a failed draw ends the whole walk with that failure, otherwise the drawn symbol is appended. */
  lemma {:induction false} ObservationsNext(emit: map<State, map<Symbol, real>>, choose: Chooser, walk: seq<State>, i: nat)
    requires Sound(choose) && i < |walk|
    requires Observations(emit, choose, walk[..i]).Success?
    ensures walk[i] !in emit ==> Observations(emit, choose, walk) == Failure(KeyError)
    ensures walk[i] in emit && choose(emit[walk[i]], i).Failure? ==>
              Observations(emit, choose, walk) == Failure(choose(emit[walk[i]], i).error)
    ensures walk[i] in emit && choose(emit[walk[i]], i).Success? ==>
              Observations(emit, choose, walk[..i+1])
              == Success(Observations(emit, choose, walk[..i]).value + [choose(emit[walk[i]], i).value])
  {
    assert walk[..i+1][..i] == walk[..i];
    if Observations(emit, choose, walk[..i+1]).Failure? {
      ObservationsFailed(emit, choose, walk, i + 1);
    }
  }

  /** `generate_observation_sequence` as the source runs it: one drawn symbol per state, in order. */
  method GenerateObservations(emit: map<State, map<Symbol, real>>, choose: Chooser, walk: seq<State>)
    returns (r: Result<seq<Symbol>>)
    requires Sound(choose)
    ensures r == Observations(emit, choose, walk)
  {
    var obs := [];
    var i := 0;
    while i < |walk|
      invariant 0 <= i <= |walk|
      invariant Observations(emit, choose, walk[..i]) == Success(obs)
    {
      ObservationsNext(emit, choose, walk, i);
      var state := walk[i];
      if state !in emit {
        return Failure(KeyError);
      }
      var drawn := choose(emit[state], i);
      if drawn.Failure? {
        return Failure(drawn.error);
      }
      obs := obs + [drawn.value];
      i := i + 1;
    }
    assert walk[..i] == walk;
    r := Success(obs);
  }
}

# Viterbi decoding for the weather hidden Markov model

This project models `weather_prediction_hmm.py`, a small hidden Markov model
of the weather. It has three hidden states (Sunny, Rainy, Cloudy), three
observation symbols (Dry, Damp, Wet) and three probability tables: start,
transition and emission. The core is `viterbi(obs_seq, states, start_p,
trans_p, emit_p)`. It fills a lattice column by column. The cell of each
state holds:

- the best joint probability of a state path that ends in that state and
  emits the observations so far;
- that path itself.

It then returns the path and probability of the best final cell. The two
sampling helpers are modelled too:

- `generate_weather_sequence` walks the transition table;
- `generate_observation_sequence` draws one symbol per state from the
  emission table.

Modules, one per file:

- `PyStr` (pystr.dfy): Python's `<` on `str`, which breaks ties between
  equally probable candidates.
- `PyMax` (pymax.dfy): Python's built-in `max` over `(probability, name)`
  tuples. It keeps the first candidate and moves on only to a strictly
  greater one.
- `Model` (model.dfy):
  - the tables (`Hmm`) and the exceptions the code raises (`Result`);
  - the joint probability `Joint` of a state path against an observation
    sequence. This is the independent reference that the decoder is proved
    optimal against.
- `Viterbi` (viterbi.dfy): the decoder as recursive definitions. It proves:
  - the lattice invariant;
  - optimality over every path of the right length;
  - the tie-break rule;
  - the error behaviour.
- `ViterbiLoop` (viterbi_loop.dfy): the decoder's loops, as the source writes
  them. Each loop is proved to compute exactly the `Viterbi` definitions.
- `Generators` (generators.dfy): the two samplers. Each is a recursive
  definition plus the loop the source writes, with the random draw supplied
  by the caller.
- `Example` (example.dfy): the module's own example, lines 7-25 and 54-57,
  worked out cell by cell.

Behaviour of the code worth knowing:

- **Ties.** On equal probability the decoder keeps the greatest state name,
  not the state listed first. Python compares the tuples `(prob, state)`, so
  the name decides when the probabilities are equal.
- **Paths.** The decoder keeps each cell's whole path (`path[state] + [curr]`),
  not a back pointer followed at the end.
- **No validation.** Nothing checks that rows sum to one, that entries are in
  [0, 1], or that symbols belong to the model:
  - a missing entry raises `KeyError`;
  - an empty observation sequence raises `IndexError` (`obs_seq[0]`);
  - an empty state list raises `ValueError` (`max` of nothing at line 50).
- **Short lengths.** `generate_weather_sequence` with a length of at most 1
  returns `[start_state]` rather than failing. It never checks that the start
  state is known: an unknown one raises `KeyError` only once a draw needs its
  row.
- **The example.** The example's observations decode to five Sunny days with
  probability 0.000388962. The best path ending in Rainy is Sunny, Sunny,
  Rainy, Rainy, Rainy, with probability 0.000063.

## Model

| member | source | states |
|---|---|---|
| PyStr.Less | weather_prediction_hmm.py:43 | Python's `<` on `str`, which decides between equally probable tuples at lines 43 and 50; `LessMeans` states what it means. |
| PyStr.LessMeans | weather_prediction_hmm.py:50 | `a < b` exactly when `a` is a proper prefix of `b`, or at the first position where they differ `a` has the smaller code point. |
| PyStr.LessIrreflexive | weather_prediction_hmm.py:43 | No state name is smaller than itself, so a candidate never replaces an equal one in `max`. |
| PyStr.LessTransitive | weather_prediction_hmm.py:43 | Python's string order is transitive, which makes the `max` scan independent of where the best candidate sits. |
| PyStr.LessTotal | weather_prediction_hmm.py:50 | Any two different names are ordered one way or the other, so every tie has a winner. |
| PyStr.LessAsymmetric | weather_prediction_hmm.py:50 | Two names are never each smaller than the other. |
| PyMax.Above | weather_prediction_hmm.py:43 | Python's `>` on `(probability, name)` tuples: the larger probability, or the same probability and the greater name; the three lemmas below show it is a strict total order. |
| PyMax.AboveTransitive | weather_prediction_hmm.py:43 | Tuple comparison `(prob, name) > (prob', name')` is transitive. |
| PyMax.AboveTotal | weather_prediction_hmm.py:43 | Two different `(prob, name)` tuples are always comparable. |
| PyMax.AboveAsymmetric | weather_prediction_hmm.py:43 | Two tuples are never each above the other. |
| PyMax.Max | weather_prediction_hmm.py:43 | `max` over the candidate tuples returns one of them, and no candidate is above it. |
| PyMax.MaxUnique | weather_prediction_hmm.py:43 | A candidate that no candidate is above is exactly what `max` returns. |
| PyMax.MaxSameElements | weather_prediction_hmm.py:50 | The result of `max` depends only on which tuples are offered, not on their order or repetition. |
| PyMax.MaxProb | weather_prediction_hmm.py:43 | Every candidate's probability is at most the maximum's. At equal probability the candidate is the maximum or has a smaller name. |
| Model.PrefixScorable | weather_prediction_hmm.py:34-45 | Every nonempty prefix of a path whose joint probability is defined has a defined joint probability too. |
| Model.CoveredPathScorable | weather_prediction_hmm.py:33-47 | When every lookup the decoder makes succeeds, every path over the states of length at most `len(obs)` has a defined joint probability. |
| Model.JointExtend | weather_prediction_hmm.py:43-45 | Appending a state multiplies a path's joint probability by `trans_p[last][s] * emit_p[s][obs[t]]`, the factor line 43 applies. |
| Viterbi.Candidates | weather_prediction_hmm.py:43 | The generator handed to `max` yields one tuple per state in `states`; `CandidateAt` gives each tuple. |
| Viterbi.CandidatesBound | weather_prediction_hmm.py:43 | No predecessor scores more than the tuple `max` picks. |
| Viterbi.CandidateAt | weather_prediction_hmm.py:43 | The i-th tuple handed to `max` is `(V[t-1][states[i]] * trans * emit, states[i])`. |
| Viterbi.CandidateMember | weather_prediction_hmm.py:43 | Every tuple `max` sees names a state and carries that predecessor's score. |
| Viterbi.Offered | weather_prediction_hmm.py:43 | Every state is offered to `max` as a predecessor, with its score. |
| Viterbi.Finals | weather_prediction_hmm.py:50 | The generator of the final `max` yields one tuple per state; `FinalAt` gives each tuple. |
| Viterbi.FinalAt | weather_prediction_hmm.py:50 | The i-th tuple of the final `max` is `(V[-1][states[i]], states[i])`. |
| Viterbi.FinalMember | weather_prediction_hmm.py:50 | Every tuple of the final `max` names a state and carries its last-column probability. |
| Viterbi.FinalOffered | weather_prediction_hmm.py:50 | Every state is offered to the final `max`. |
| Viterbi.First | weather_prediction_hmm.py:33-35 | The first column has a cell for every state; `FirstOk` shows each holds the one-state path and its joint probability. |
| Viterbi.Extend | weather_prediction_hmm.py:43-45 | Lines 43-45 for one current state: the best tuple's score and its predecessor's path extended by the state; `ExtendPicks` and `ExtendTieBreak` state what it picks. |
| Viterbi.ExtendPicks | weather_prediction_hmm.py:43-45 | The cell built for state `c` at step t extends some state's previous path by `c` and carries that state's score, and no predecessor scores more. |
| Viterbi.Sweep | weather_prediction_hmm.py:42-45 | The loop over current states leaves a cell for every state it has handled. |
| Viterbi.Column | weather_prediction_hmm.py:38-47 | The column for every step has a cell for every state. |
| Viterbi.FirstOk | weather_prediction_hmm.py:33-35 | Each first-column cell holds the one-state path `[s]` and its joint probability `start_p[s] * emit_p[s][obs[0]]`. |
| Viterbi.ExtendPathOk | weather_prediction_hmm.py:43-45 | Extending a valid cell of step t-1 by state `c` gives a valid cell of step t: one state longer, ending in `c`, probability equal to the new path's joint probability. |
| Viterbi.ExtendOk | weather_prediction_hmm.py:43-45 | The cell lines 43-45 build for a state from a valid previous column is valid. |
| Viterbi.SweepAt | weather_prediction_hmm.py:42-45 | After the loop over current states, each state's entry is the cell built for it from the previous column, whatever comes after it in the list. |
| Viterbi.ColumnAt | weather_prediction_hmm.py:38-47 | The column for step t > 0 gives each state the cell lines 43-45 build from the column for step t-1. |
| Viterbi.ColumnStepOk | weather_prediction_hmm.py:38-47 | One round of the outer loop preserves the lattice invariant. |
| Viterbi.ColumnInvariant | weather_prediction_hmm.py:33-47 | Loop invariant of lines 38-47: at every step, every state's cell holds a path of t+1 states over `states`, ending in that state, with `V[t][s]` equal to that path's joint probability. |
| Viterbi.ExtendBound | weather_prediction_hmm.py:43 | If a path of length t scores at most its last state's cell, extending it by `c` scores at most the candidate through that state. |
| Viterbi.ExtendOptimal | weather_prediction_hmm.py:43-45 | With nonnegative tables, every path whose prefix is bounded by the previous column is bounded by the cell built for its last state. |
| Viterbi.ColumnStepOptimal | weather_prediction_hmm.py:38-47 | One round of the outer loop carries the bound from step t-1 to step t. |
| Viterbi.FirstOptimal | weather_prediction_hmm.py:33-35 | Every one-state path's joint probability is at most the first-column cell of its state. |
| Viterbi.StepOptimal | weather_prediction_hmm.py:38-47 | With nonnegative tables, every path of t+1 states over `states` has a joint probability at most the step-t cell of its last state. |
| Viterbi.ColumnOptimal | weather_prediction_hmm.py:33-47 | With nonnegative tables, `V[t][s]` bounds every path of t+1 states ending in `s`, at every step. |
| Viterbi.ExtendTieBreak | weather_prediction_hmm.py:43-45 | The predecessor chosen has the highest score, and among equal scores the greatest name. |
| Viterbi.StepTieBreak | weather_prediction_hmm.py:43-45 | In the lattice, each cell extends a best-scoring predecessor, the greatest-named one on a tie. |
| Viterbi.FinalTieBreak | weather_prediction_hmm.py:50 | The final `max` picks a state with the highest last-column probability, and among equals the greatest name. |
| Viterbi.Finish | weather_prediction_hmm.py:50-51 | Lines 50-51 applied to a last column: the best tuple's probability and that state's path; `FinishBound` and `FinishTieBreak` state what it returns. |
| Viterbi.FinishBound | weather_prediction_hmm.py:50-51 | The returned probability is at least every last-column probability. |
| Viterbi.FinishTieBreak | weather_prediction_hmm.py:50-51 | The returned path has one state per observation. It ends in the chosen state, whose probability is returned, and that state is the greatest-named among the most probable. |
| Viterbi.Decode | weather_prediction_hmm.py:28-51 | The decoded path has one state per observation, all from `states`. The returned probability is exactly that path's joint probability. |
| Viterbi.DecodeTieBreak | weather_prediction_hmm.py:50-51 | The returned probability is the maximum of the last column. It belongs to the path's final state, the greatest-named among the most probable. |
| Viterbi.DecodeSingle | weather_prediction_hmm.py:33-35 | A single observation decodes to `[s]` for the state maximising `start_p[s] * emit_p[s][obs[0]]`, ties going to the greatest name. |
| Viterbi.DecodeOptimal | weather_prediction_hmm.py:28-51 | With nonnegative tables, no path over `states` of length `len(obs)` has a higher joint probability than the one returned. |
| Viterbi.Precheck | weather_prediction_hmm.py:33-50 | Which exception the call raises: `ValueError` for no states; `KeyError` for a missing first start or emission row; `IndexError` for no observations; `KeyError` for any other missing entry; success exactly when every lookup is defined. |
| Viterbi.Viterbi | weather_prediction_hmm.py:28-51 | The call succeeds exactly when there are states and observations and every lookup is defined, and fails with the exception above otherwise. On success the path has `len(obs)` states over `states` and the probability is its joint probability. With nonnegative tables it is a global optimum. |
| Viterbi.ViterbiDecodes | weather_prediction_hmm.py:28-51 | Every call that passes the lookups returns the decoded lattice result. |
| ViterbiLoop.MaxOf | weather_prediction_hmm.py:43 | Python's left-to-right `max` scan returns exactly `PyMax.Max`. |
| ViterbiLoop.Initial | weather_prediction_hmm.py:33-35 | The initialisation loop builds exactly the first column: every state, `start_p * emit_p`, path `[state]`. |
| ViterbiLoop.SweepStep | weather_prediction_hmm.py:42-45 | Handling one more current state updates only that state's cell. |
| ViterbiLoop.Round | weather_prediction_hmm.py:39-47 | One iteration of the outer loop turns the column for step t-1 into the column for step t. |
| ViterbiLoop.Run | weather_prediction_hmm.py:28-51 | A call that passes `Precheck` runs the loops of `viterbi` and returns exactly what `Viterbi.Viterbi` defines. A call that fails gets the same exception, decided up front by `Precheck` rather than part way through the loops. |
| Generators.Rounds | weather_prediction_hmm.py:64-69 | After k rounds the sequence has k+1 states, starts at the start state, and each state is a key of its predecessor's transition row. |
| Generators.WeatherSequence | weather_prediction_hmm.py:63-70 | The sequence has `length` states (one when `length <= 1`), starts at `start_state`, and follows defined transitions. |
| Generators.RoundsSucceed | weather_prediction_hmm.py:65-69 | When every reachable row is present and every draw succeeds, the generator never fails. |
| Generators.RoundsError | weather_prediction_hmm.py:65-69 | The generator fails only with `KeyError` (a missing row) or an exception a draw raised. |
| Generators.RoundsFailed | weather_prediction_hmm.py:65-69 | An exception ends the loop: every later round count gives the same failure. |
| Generators.RoundsNext | weather_prediction_hmm.py:66-69 | One round either appends the state drawn from the last state's row, or ends the whole call with `KeyError` or the draw's exception. |
| Generators.GenerateWeather | weather_prediction_hmm.py:63-70 | The loop of `generate_weather_sequence` returns exactly `WeatherSequence`. |
| Generators.Observations | weather_prediction_hmm.py:73-79 | On success there is one symbol per state, each a key of that state's emission row. The call fails exactly when some state's row is missing or its draw fails. |
| Generators.ObservationsFailed | weather_prediction_hmm.py:75-78 | An exception part way through ends the loop with that exception. |
| Generators.ObservationsNext | weather_prediction_hmm.py:75-78 | Handling state i either appends the symbol drawn from its emission row, or ends the call with `KeyError` or the draw's exception. |
| Generators.GenerateObservations | weather_prediction_hmm.py:73-79 | The loop of `generate_observation_sequence` returns exactly `Observations`. |
| Example.WeatherTables | weather_prediction_hmm.py:11-25 | The module's tables hold the entries the worked lattice uses. |
| Example.TablesRun | weather_prediction_hmm.py:54-57 | The example call makes only defined lookups. |
| Example.Winner | weather_prediction_hmm.py:43-45 | A predecessor that scores strictly best is the one line 43 picks, whatever its name. |
| Example.FinalWinner | weather_prediction_hmm.py:50-51 | A strictly most probable last cell is the one line 50 returns. |
| Example.Column0 | weather_prediction_hmm.py:33-35 | First column of the example: Sunny 0.3, Rainy 0.03, Cloudy 0.06. |
| Example.Step1Sunny | weather_prediction_hmm.py:43-45 | Step 1 (Damp), Sunny: 0.063, extending Sunny. |
| Example.Step1Rainy | weather_prediction_hmm.py:43-45 | Step 1, Rainy: 0.024, extending Sunny. |
| Example.Step1Cloudy | weather_prediction_hmm.py:43-45 | Step 1, Cloudy: 0.015, extending Sunny. |
| Example.Column1 | weather_prediction_hmm.py:38-47 | Column 1 of the example. The Sunny path stays all Sunny. |
| Example.Step2Sunny | weather_prediction_hmm.py:43-45 | Step 2 (Wet), Sunny: 0.00441, extending Sunny. |
| Example.Step2Rainy | weather_prediction_hmm.py:43-45 | Step 2, Rainy: 0.0063, extending Sunny. |
| Example.Step2Cloudy | weather_prediction_hmm.py:43-45 | Step 2, Cloudy: 0.00126, extending Sunny. |
| Example.Column2 | weather_prediction_hmm.py:38-47 | Column 2 of the example. The Sunny path stays all Sunny. |
| Example.Step3Sunny | weather_prediction_hmm.py:43-45 | Step 3 (Damp), Sunny: 0.0009261, extending Sunny. |
| Example.Step3Rainy | weather_prediction_hmm.py:43-45 | Step 3, Rainy: 0.00126, extending Rainy. |
| Example.Step3Cloudy | weather_prediction_hmm.py:43-45 | Step 3, Cloudy: 0.00063, extending Rainy. |
| Example.Column3 | weather_prediction_hmm.py:38-47 | Column 3 of the example. The Sunny path stays all Sunny. |
| Example.Step4Sunny | weather_prediction_hmm.py:43-45 | Step 4 (Dry), Sunny: 0.000388962, extending Sunny. |
| Example.Step4Rainy | weather_prediction_hmm.py:43-45 | Step 4, Rainy: 0.000063, extending Rainy. |
| Example.Step4Cloudy | weather_prediction_hmm.py:43-45 | Step 4, Cloudy: 0.0000756, extending Rainy. |
| Example.Column4 | weather_prediction_hmm.py:38-47 | Last column of the example: Sunny 0.000388962 is strictly the most probable. |
| Example.SunnyPath | weather_prediction_hmm.py:45 | The Sunny cell of the last column holds five Sunny days. |
| Example.TablesDecode | weather_prediction_hmm.py:54-57 | Any tables holding the example's entries decode `Dry, Damp, Wet, Damp, Dry` to five Sunny days with probability 0.000388962. |
| Example.ExampleDecodes | weather_prediction_hmm.py:54-57 | The module's own call returns five Sunny days with probability 0.000388962. |

## Left out

- Printing. Lines 59-60 and 84-85 only display results.
- The randomness of `random.choices` (lines 66-67, 76-77). A draw is a
  caller-supplied `Chooser`. It maps a row and the number of earlier draws to
  a key of that row, or to the exception the draw raised. The only thing
  assumed of it is that a successful draw names a key and that a draw from
  an empty row raises `IndexError`. Which key comes out, and with what
  probability given the weights, is not modelled. Nor is the `ValueError`
  raised for a row whose weights do not sum to a positive finite number;
  the `Chooser` may return any exception.
- The module-level calls at lines 57 and 82-83. Line 57 is modelled as
  `Example.ExampleDecodes`. Lines 82-83 draw random numbers, so only the
  functions they call are modelled.
- Module globals. `generate_weather_sequence` and
  `generate_observation_sequence` read `transition_prob` and
  `emission_prob`; here the tables are parameters.
- Floating point. Probabilities are exact reals, so the model has no
  rounding, underflow, infinities or NaN. On floats a tie may appear or
  vanish through rounding, and 0.000388962 is the exact value that the
  float result approximates.
- The unused `numpy` import (line 1).
- State names are `str`, as in the module. `viterbi` itself accepts any
  hashable values. A tie between two values that cannot be compared would
  raise `TypeError`, which the model cannot express.
- The list `V` of all columns (lines 29, 39). Only the column for each step
  is modelled, as `Viterbi.Column(p, t)`. The source reads nothing but the
  previous column and the last one.
- Viterbi.DecodeOptimal: optimality needs every table entry to be at least
  zero, which the source never checks. With negative weights a larger
  product can come from a path the lattice discarded, and the source
  promises nothing there.
- Viterbi.Viterbi: the optimality clause carries the same nonnegativity
  condition as `DecodeOptimal`.

/**
  The module's own example: the weather tables of weather_prediction_hmm.py
  lines 7-25 decoding the observations `Dry, Damp, Wet, Damp, Dry` of line
  54.  In exact arithmetic every cell of the lattice is worked out below, and
  the decoder returns five sunny days with probability 0.000388962.  The
  cells are computed for any tables holding the example's entries, so that
  the proofs reason about the entries rather than about the map displays.
 */
module Example {
  import opened Model
  import PyMax
  import opened Viterbi

  const Sunny: State := "Sunny"
  const Rainy: State := "Rainy"
  const Cloudy: State := "Cloudy"

  /** The tables `initial_prob`, `transition_prob` and `emission_prob`. */
  const Weather: Hmm := Hmm(
    map[Sunny := 0.5, Rainy := 0.3, Cloudy := 0.2],
    map[Sunny := map[Sunny := 0.7, Rainy := 0.2, Cloudy := 0.1],
        Rainy := map[Sunny := 0.3, Rainy := 0.5, Cloudy := 0.2],
        Cloudy := map[Sunny := 0.4, Rainy := 0.3, Cloudy := 0.3]],
    map[Sunny := map["Dry" := 0.6, "Damp" := 0.3, "Wet" := 0.1],
        Rainy := map["Dry" := 0.1, "Damp" := 0.4, "Wet" := 0.5],
        Cloudy := map["Dry" := 0.3, "Damp" := 0.5, "Wet" := 0.2]])

  const States: seq<State> := [Sunny, Rainy, Cloudy]

  const Observed: seq<Symbol> := ["Dry", "Damp", "Wet", "Damp", "Dry"]

  /** `h` holds every entry of the example tables. */
  predicate Tables(h: Hmm) {
    && Sunny in h.start && Rainy in h.start && Cloudy in h.start
    && h.start[Sunny] == 0.5 && h.start[Rainy] == 0.3 && h.start[Cloudy] == 0.2
    && Sunny in h.trans && Rainy in h.trans && Cloudy in h.trans
    && Sunny in h.trans[Sunny] && Rainy in h.trans[Sunny] && Cloudy in h.trans[Sunny]
    && Sunny in h.trans[Rainy] && Rainy in h.trans[Rainy] && Cloudy in h.trans[Rainy]
    && Sunny in h.trans[Cloudy] && Rainy in h.trans[Cloudy] && Cloudy in h.trans[Cloudy]
    && h.trans[Sunny][Sunny] == 0.7 && h.trans[Sunny][Rainy] == 0.2 && h.trans[Sunny][Cloudy] == 0.1
    && h.trans[Rainy][Sunny] == 0.3 && h.trans[Rainy][Rainy] == 0.5 && h.trans[Rainy][Cloudy] == 0.2
    && h.trans[Cloudy][Sunny] == 0.4 && h.trans[Cloudy][Rainy] == 0.3 && h.trans[Cloudy][Cloudy] == 0.3
    && Sunny in h.emit && Rainy in h.emit && Cloudy in h.emit
    && "Dry" in h.emit[Sunny] && "Damp" in h.emit[Sunny] && "Wet" in h.emit[Sunny]
    && "Dry" in h.emit[Rainy] && "Damp" in h.emit[Rainy] && "Wet" in h.emit[Rainy]
    && "Dry" in h.emit[Cloudy] && "Damp" in h.emit[Cloudy] && "Wet" in h.emit[Cloudy]
    && h.emit[Sunny]["Dry"] == 0.6 && h.emit[Sunny]["Damp"] == 0.3 && h.emit[Sunny]["Wet"] == 0.1
    && h.emit[Rainy]["Dry"] == 0.1 && h.emit[Rainy]["Damp"] == 0.4 && h.emit[Rainy]["Wet"] == 0.5
    && h.emit[Cloudy]["Dry"] == 0.3 && h.emit[Cloudy]["Damp"] == 0.5 && h.emit[Cloudy]["Wet"] == 0.2
  }

  /** The names are pairwise different, so every lookup in the tables reads the entry written for it. */
  lemma Distinct()
    ensures Sunny != Rainy && Sunny != Cloudy && Rainy != Cloudy
    ensures "Dry" != "Damp" && "Dry" != "Wet" && "Damp" != "Wet"
  {
    assert Sunny[0] != Rainy[0] && Sunny[0] != Cloudy[0] && Rainy[0] != Cloudy[0];
    assert "Dry"[1] != "Damp"[1] && "Dry"[0] != "Wet"[0] && "Damp"[0] != "Wet"[0];
  }

  /** The module's tables hold the example's entries. */
  lemma WeatherTables()
    ensures Tables(Weather)
  {
    Distinct();
  }

  /** The states are exactly the three names. */
  lemma Members()
    ensures forall q :: q in States <==> q == Sunny || q == Rainy || q == Cloudy
  {
  }

  /** The example call runs to completion: every lookup it makes is defined. */
  lemma TablesRun(h: Hmm)
    requires Tables(h)
    ensures Runs(Problem(h, States, Observed))
  {
    Members();
  }

  /** The call `viterbi(obs_sequence, states, ...)` of line 57 with tables `h`. */
  function Forecast(h: Hmm): (p: Task)
    requires Tables(h)
    ensures p.h == h && p.states == States && p.obs == Observed
  {
    TablesRun(h);
    Problem(h, States, Observed)
  }

  /** A score from its three factors, so that literal factors multiply out as constants. */
  lemma ScoreIs(h: Hmm, prev: Layer, q: State, c: State, o: Symbol, x: real, y: real, z: real)
    requires q in prev && Linked(h, q, c) && c in h.emit && o in h.emit[c]
    requires prev[q].prob == x && h.trans[q][c] == y && h.emit[c][o] == z
    ensures Score(h, prev, q, c, o) == x * y * z
  {
  }

  /** When one predecessor `w` scores strictly above every other, lines 43-45 extend its path. */
  lemma Winner(p: Task, t: nat, c: State, w: State)
    requires 1 <= t < |p.obs| && c in p.states && w in p.states
    requires var prev, o := Column(p, t - 1), p.obs[t];
      forall q :: q in p.states && q != w ==> Score(p.h, prev, q, c, o) < Score(p.h, prev, w, c, o)
    ensures var prev := Column(p, t - 1);
      Column(p, t)[c] == Cell(Score(p.h, prev, w, c, p.obs[t]), prev[w].path + [c])
  {
    var prev, o := Column(p, t - 1), p.obs[t];
    var cands := Candidates(p.h, p.states, prev, c, o);
    var best := PyMax.Max(cands);
    CandidateMember(p.h, p.states, prev, c, o, best);
    Offered(p.h, p.states, prev, c, o, w);
    assert !PyMax.Above((Score(p.h, prev, w, c, o), w), best);
    ColumnAt(p, t, c);
  }

  /** When one state's last cell is strictly the most probable, line 50 picks it. */
  lemma FinalWinner(p: Task, w: State)
    requires w in p.states
    requires var last := Column(p, |p.obs| - 1);
      forall q :: q in p.states && q != w ==> last[q].prob < last[w].prob
    ensures var last := Column(p, |p.obs| - 1);
      Decode(p) == Decoded(last[w].path, last[w].prob)
  {
    var last := Column(p, |p.obs| - 1);
    assert Decode(p) == Finish(p.states, last);
    FinalTieBreak(p.states, last);
  }

  /** The probabilities of the three cells of column `t`, for Sunny, Rainy and Cloudy. */
  predicate Probs(h: Hmm, t: nat, s: real, r: real, c: real)
    requires Tables(h) && t < |Observed|
  {
    var col := Column(Forecast(h), t);
    col[Sunny].prob == s && col[Rainy].prob == r && col[Cloudy].prob == c
  }

  /** Lines 33-35 on the example: start times emission of `Dry`, and one-state paths. */
  lemma Column0(h: Hmm)
    requires Tables(h)
    ensures Probs(h, 0, 0.3, 0.03, 0.06)
    ensures Column(Forecast(h), 0)[Sunny].path == [Sunny]
  {
    assert Column(Forecast(h), 0) == First(Forecast(h));
  }

  /** Step 1, Sunny observing Damp: from Sunny it scores 0.063, from Rainy 0.0027 and from Cloudy 0.0072. */
  lemma Step1Sunny(h: Hmm)
    requires Tables(h) && Probs(h, 0, 0.3, 0.03, 0.06)
    ensures Column(Forecast(h), 1)[Sunny] == Cell(0.063, Column(Forecast(h), 0)[Sunny].path + [Sunny])
  {
    Members();
    var prev := Column(Forecast(h), 0);
    ScoreIs(h, prev, Sunny, Sunny, "Damp", 0.3, 0.7, 0.3);
    ScoreIs(h, prev, Rainy, Sunny, "Damp", 0.03, 0.3, 0.3);
    ScoreIs(h, prev, Cloudy, Sunny, "Damp", 0.06, 0.4, 0.3);
    Winner(Forecast(h), 1, Sunny, Sunny);
  }

  /** Step 1, Rainy observing Damp: from Sunny it scores 0.024, from Rainy 0.006 and from Cloudy 0.0072. */
  lemma Step1Rainy(h: Hmm)
    requires Tables(h) && Probs(h, 0, 0.3, 0.03, 0.06)
    ensures Column(Forecast(h), 1)[Rainy] == Cell(0.024, Column(Forecast(h), 0)[Sunny].path + [Rainy])
  {
    Members();
    var prev := Column(Forecast(h), 0);
    ScoreIs(h, prev, Sunny, Rainy, "Damp", 0.3, 0.2, 0.4);
    ScoreIs(h, prev, Rainy, Rainy, "Damp", 0.03, 0.5, 0.4);
    ScoreIs(h, prev, Cloudy, Rainy, "Damp", 0.06, 0.3, 0.4);
    Winner(Forecast(h), 1, Rainy, Sunny);
  }

  /** Step 1, Cloudy observing Damp: from Sunny it scores 0.015, from Rainy 0.003 and from Cloudy 0.009. */
  lemma Step1Cloudy(h: Hmm)
    requires Tables(h) && Probs(h, 0, 0.3, 0.03, 0.06)
    ensures Column(Forecast(h), 1)[Cloudy] == Cell(0.015, Column(Forecast(h), 0)[Sunny].path + [Cloudy])
  {
    Members();
    var prev := Column(Forecast(h), 0);
    ScoreIs(h, prev, Sunny, Cloudy, "Damp", 0.3, 0.1, 0.5);
    ScoreIs(h, prev, Rainy, Cloudy, "Damp", 0.03, 0.2, 0.5);
    ScoreIs(h, prev, Cloudy, Cloudy, "Damp", 0.06, 0.3, 0.5);
    Winner(Forecast(h), 1, Cloudy, Sunny);
  }

  /** The probabilities of column 1, and the path of its Sunny cell. */
  lemma Column1(h: Hmm)
    requires Tables(h)
    ensures Column(Forecast(h), 1)[Sunny].path == Column(Forecast(h), 0)[Sunny].path + [Sunny]
    ensures Probs(h, 1, 0.063, 0.024, 0.015)
  {
    Column0(h);
    Step1Sunny(h);
    Step1Rainy(h);
    Step1Cloudy(h);
  }

  /** Step 2, Sunny observing Wet: from Sunny it scores 0.00441, from Rainy 0.00072 and from Cloudy 0.0006. */
  lemma Step2Sunny(h: Hmm)
    requires Tables(h) && Probs(h, 1, 0.063, 0.024, 0.015)
    ensures Column(Forecast(h), 2)[Sunny] == Cell(0.00441, Column(Forecast(h), 1)[Sunny].path + [Sunny])
  {
    Members();
    var prev := Column(Forecast(h), 1);
    ScoreIs(h, prev, Sunny, Sunny, "Wet", 0.063, 0.7, 0.1);
    ScoreIs(h, prev, Rainy, Sunny, "Wet", 0.024, 0.3, 0.1);
    ScoreIs(h, prev, Cloudy, Sunny, "Wet", 0.015, 0.4, 0.1);
    Winner(Forecast(h), 2, Sunny, Sunny);
  }

  /** Step 2, Rainy observing Wet: from Sunny it scores 0.0063, from Rainy 0.006 and from Cloudy 0.00225. */
  lemma Step2Rainy(h: Hmm)
    requires Tables(h) && Probs(h, 1, 0.063, 0.024, 0.015)
    ensures Column(Forecast(h), 2)[Rainy] == Cell(0.0063, Column(Forecast(h), 1)[Sunny].path + [Rainy])
  {
    Members();
    var prev := Column(Forecast(h), 1);
    ScoreIs(h, prev, Sunny, Rainy, "Wet", 0.063, 0.2, 0.5);
    ScoreIs(h, prev, Rainy, Rainy, "Wet", 0.024, 0.5, 0.5);
    ScoreIs(h, prev, Cloudy, Rainy, "Wet", 0.015, 0.3, 0.5);
    Winner(Forecast(h), 2, Rainy, Sunny);
  }

  /** Step 2, Cloudy observing Wet: from Sunny it scores 0.00126, from Rainy 0.00096 and from Cloudy 0.0009. */
  lemma Step2Cloudy(h: Hmm)
    requires Tables(h) && Probs(h, 1, 0.063, 0.024, 0.015)
    ensures Column(Forecast(h), 2)[Cloudy] == Cell(0.00126, Column(Forecast(h), 1)[Sunny].path + [Cloudy])
  {
    Members();
    var prev := Column(Forecast(h), 1);
    ScoreIs(h, prev, Sunny, Cloudy, "Wet", 0.063, 0.1, 0.2);
    ScoreIs(h, prev, Rainy, Cloudy, "Wet", 0.024, 0.2, 0.2);
    ScoreIs(h, prev, Cloudy, Cloudy, "Wet", 0.015, 0.3, 0.2);
    Winner(Forecast(h), 2, Cloudy, Sunny);
  }

  /** The probabilities of column 2, and the path of its Sunny cell. */
  lemma Column2(h: Hmm)
    requires Tables(h)
    ensures Column(Forecast(h), 2)[Sunny].path == Column(Forecast(h), 1)[Sunny].path + [Sunny]
    ensures Probs(h, 2, 0.00441, 0.0063, 0.00126)
  {
    Column1(h);
    Step2Sunny(h);
    Step2Rainy(h);
    Step2Cloudy(h);
  }

  /** Step 3, Sunny observing Damp: from Sunny it scores 0.0009261, from Rainy 0.000567 and from Cloudy 0.0001512. */
  lemma Step3Sunny(h: Hmm)
    requires Tables(h) && Probs(h, 2, 0.00441, 0.0063, 0.00126)
    ensures Column(Forecast(h), 3)[Sunny] == Cell(0.0009261, Column(Forecast(h), 2)[Sunny].path + [Sunny])
  {
    Members();
    var prev := Column(Forecast(h), 2);
    ScoreIs(h, prev, Sunny, Sunny, "Damp", 0.00441, 0.7, 0.3);
    ScoreIs(h, prev, Rainy, Sunny, "Damp", 0.0063, 0.3, 0.3);
    ScoreIs(h, prev, Cloudy, Sunny, "Damp", 0.00126, 0.4, 0.3);
    Winner(Forecast(h), 3, Sunny, Sunny);
  }

  /** Step 3, Rainy observing Damp: from Rainy it scores 0.00126, from Sunny 0.0003528 and from Cloudy 0.0001512. */
  lemma Step3Rainy(h: Hmm)
    requires Tables(h) && Probs(h, 2, 0.00441, 0.0063, 0.00126)
    ensures Column(Forecast(h), 3)[Rainy] == Cell(0.00126, Column(Forecast(h), 2)[Rainy].path + [Rainy])
  {
    Members();
    var prev := Column(Forecast(h), 2);
    ScoreIs(h, prev, Sunny, Rainy, "Damp", 0.00441, 0.2, 0.4);
    ScoreIs(h, prev, Rainy, Rainy, "Damp", 0.0063, 0.5, 0.4);
    ScoreIs(h, prev, Cloudy, Rainy, "Damp", 0.00126, 0.3, 0.4);
    Winner(Forecast(h), 3, Rainy, Rainy);
  }

  /** Step 3, Cloudy observing Damp: from Rainy it scores 0.00063, from Sunny 0.0002205 and from Cloudy 0.000189. */
  lemma Step3Cloudy(h: Hmm)
    requires Tables(h) && Probs(h, 2, 0.00441, 0.0063, 0.00126)
    ensures Column(Forecast(h), 3)[Cloudy] == Cell(0.00063, Column(Forecast(h), 2)[Rainy].path + [Cloudy])
  {
    Members();
    var prev := Column(Forecast(h), 2);
    ScoreIs(h, prev, Sunny, Cloudy, "Damp", 0.00441, 0.1, 0.5);
    ScoreIs(h, prev, Rainy, Cloudy, "Damp", 0.0063, 0.2, 0.5);
    ScoreIs(h, prev, Cloudy, Cloudy, "Damp", 0.00126, 0.3, 0.5);
    Winner(Forecast(h), 3, Cloudy, Rainy);
  }

  /** The probabilities of column 3, and the path of its Sunny cell. */
  lemma Column3(h: Hmm)
    requires Tables(h)
    ensures Column(Forecast(h), 3)[Sunny].path == Column(Forecast(h), 2)[Sunny].path + [Sunny]
    ensures Probs(h, 3, 0.0009261, 0.00126, 0.00063)
  {
    Column2(h);
    Step3Sunny(h);
    Step3Rainy(h);
    Step3Cloudy(h);
  }

  /** Step 4, Sunny observing Dry: from Sunny it scores 0.000388962, from Rainy 0.0002268 and from Cloudy 0.0001512. */
  lemma Step4Sunny(h: Hmm)
    requires Tables(h) && Probs(h, 3, 0.0009261, 0.00126, 0.00063)
    ensures Column(Forecast(h), 4)[Sunny] == Cell(0.000388962, Column(Forecast(h), 3)[Sunny].path + [Sunny])
  {
    Members();
    var prev := Column(Forecast(h), 3);
    ScoreIs(h, prev, Sunny, Sunny, "Dry", 0.0009261, 0.7, 0.6);
    ScoreIs(h, prev, Rainy, Sunny, "Dry", 0.00126, 0.3, 0.6);
    ScoreIs(h, prev, Cloudy, Sunny, "Dry", 0.00063, 0.4, 0.6);
    Winner(Forecast(h), 4, Sunny, Sunny);
  }

  /** Step 4, Rainy observing Dry: from Rainy it scores 0.000063, from Sunny 0.000018522 and from Cloudy 0.0000189. */
  lemma Step4Rainy(h: Hmm)
    requires Tables(h) && Probs(h, 3, 0.0009261, 0.00126, 0.00063)
    ensures Column(Forecast(h), 4)[Rainy] == Cell(0.000063, Column(Forecast(h), 3)[Rainy].path + [Rainy])
  {
    Members();
    var prev := Column(Forecast(h), 3);
    ScoreIs(h, prev, Sunny, Rainy, "Dry", 0.0009261, 0.2, 0.1);
    ScoreIs(h, prev, Rainy, Rainy, "Dry", 0.00126, 0.5, 0.1);
    ScoreIs(h, prev, Cloudy, Rainy, "Dry", 0.00063, 0.3, 0.1);
    Winner(Forecast(h), 4, Rainy, Rainy);
  }

  /** Step 4, Cloudy observing Dry: from Rainy it scores 0.0000756, from Sunny 0.000027783 and from Cloudy 0.0000567. */
  lemma Step4Cloudy(h: Hmm)
    requires Tables(h) && Probs(h, 3, 0.0009261, 0.00126, 0.00063)
    ensures Column(Forecast(h), 4)[Cloudy] == Cell(0.0000756, Column(Forecast(h), 3)[Rainy].path + [Cloudy])
  {
    Members();
    var prev := Column(Forecast(h), 3);
    ScoreIs(h, prev, Sunny, Cloudy, "Dry", 0.0009261, 0.1, 0.3);
    ScoreIs(h, prev, Rainy, Cloudy, "Dry", 0.00126, 0.2, 0.3);
    ScoreIs(h, prev, Cloudy, Cloudy, "Dry", 0.00063, 0.3, 0.3);
    Winner(Forecast(h), 4, Cloudy, Rainy);
  }

  /** The probabilities of column 4, and the path of its Sunny cell. */
  lemma Column4(h: Hmm)
    requires Tables(h)
    ensures Column(Forecast(h), 4)[Sunny].path == Column(Forecast(h), 3)[Sunny].path + [Sunny]
    ensures Probs(h, 4, 0.000388962, 0.000063, 0.0000756)
  {
    Column3(h);
    Step4Sunny(h);
    Step4Rainy(h);
    Step4Cloudy(h);
  }

  lemma Five(x: State)
    ensures [x] + [x] + [x] + [x] + [x] == [x, x, x, x, x]
  {
  }

  /** The Sunny cell of the last column holds five sunny days. */
  lemma SunnyPath(h: Hmm)
    requires Tables(h)
    ensures Column(Forecast(h), 4)[Sunny].path == [Sunny, Sunny, Sunny, Sunny, Sunny]
  {
    Column0(h);
    Column1(h);
    Column2(h);
    Column3(h);
    Column4(h);
    Five(Sunny);
  }

  /** Any tables holding the example's entries decode the example to five sunny days. */
  lemma TablesDecode(h: Hmm)
    requires Tables(h)
    ensures Viterbi.Viterbi(h, States, Observed)
         == Success(Decoded([Sunny, Sunny, Sunny, Sunny, Sunny], 0.000388962))
  {
    var p := Forecast(h);
    Column4(h);
    SunnyPath(h);
    Members();
    FinalWinner(p, Sunny);
    ViterbiDecodes(p);
  }

  /**
    The example of lines 54-57 decodes to five sunny days with probability
    0.000388962 (printed as 0.00039 by line 60).
   */
  lemma ExampleDecodes()
    ensures Viterbi.Viterbi(Weather, States, Observed)
         == Success(Decoded([Sunny, Sunny, Sunny, Sunny, Sunny], 0.000388962))
  {
    WeatherTables();
    TablesDecode(Weather);
  }
}

/**
  Python's built-in `max` applied to `(probability, state name)` tuples, the
  selection the decoder makes at every lattice cell and at the end.  Tuples
  compare on the probability first and on the name when the probabilities are
  equal, so among equally probable candidates the greatest name wins,
  whatever the order in which they are listed.
 */
module PyMax {
  import PyStr

  type Cand = (real, string)

  /** Python's `x > y` on two `(float, str)` tuples. */
  predicate Above(x: Cand, y: Cand) {
    x.0 > y.0 || (x.0 == y.0 && PyStr.Less(y.1, x.1))
  }

  lemma AboveTransitive(x: Cand, y: Cand, z: Cand)
    requires Above(x, y) && Above(y, z)
    ensures Above(x, z)
  {
    if x.0 == y.0 && y.0 == z.0 {
      PyStr.LessTransitive(z.1, y.1, x.1);
    }
  }

  /** Two different candidates are always ordered, one above the other. */
  lemma AboveTotal(x: Cand, y: Cand)
    ensures x == y || Above(x, y) || Above(y, x)
  {
    PyStr.LessTotal(x.1, y.1);
  }

  lemma AboveAsymmetric(x: Cand, y: Cand)
    requires Above(x, y)
    ensures !Above(y, x)
  {
    if x.0 == y.0 {
      PyStr.LessAsymmetric(y.1, x.1);
    }
  }

  /**
    `max(c)`: start from the first candidate and move to a later one only when
    it is strictly above the current best.  The result is a candidate that no
    candidate is above.
   */
  function Max(c: seq<Cand>): (r: Cand)
    requires |c| > 0
    ensures r in c
    ensures forall x {:trigger Above(x, r)} :: x in c ==> !Above(x, r)
  {
    if |c| == 1 then
      assert c == [c[0]];
      PyStr.LessIrreflexive(c[0].1);
      c[0]
    else
      var m := Max(c[..|c|-1]);
      var last := c[|c|-1];
      assert forall x :: x in c ==> x in c[..|c|-1] || x == last by {
        assert c == c[..|c|-1] + [last];
      }
      if Above(last, m) then
        assert forall x :: x in c[..|c|-1] ==> !Above(x, last) by {
          forall x | x in c[..|c|-1] && Above(x, last) {
            AboveTransitive(x, last, m);
          }
        }
        AboveAsymmetric(last, m);
        PyStr.LessIrreflexive(last.1);
        last
      else m
  }

  /** The maximum is the unique candidate that no candidate is above. */
  lemma {:induction false} MaxUnique(c: seq<Cand>, r: Cand)
    requires r in c
    requires forall x :: x in c ==> !Above(x, r)
    ensures Max(c) == r
  {
    var m := Max(c);
    AboveTotal(m, r);
  }

  /** `max` depends on which candidates are offered, not on their order or repetition. */
  lemma {:induction false} MaxSameElements(c: seq<Cand>, d: seq<Cand>)
    requires |c| > 0
    requires forall x :: x in c <==> x in d
    ensures Max(c) == Max(d)
  {
    assert c[0] in d;
    MaxUnique(d, Max(c));
  }

  /** The probability of the maximum is the greatest offered probability. */
  lemma MaxProb(c: seq<Cand>, x: Cand)
    requires x in c
    ensures x.0 <= Max(c).0
    ensures x.0 == Max(c).0 ==> x.1 == Max(c).1 || PyStr.Less(x.1, Max(c).1)
  {
    assert !Above(x, Max(c));
    PyStr.LessTotal(x.1, Max(c).1);
  }
}

/**
  Python's ordering of `str` values, which the decoder relies on to break ties.
  Two strings compare code point by code point; at the first difference the
  smaller code point decides, and a proper prefix is smaller than the longer
  string.
 */
module PyStr {

  /** Python's `a < b` on `str`. */
  predicate Less(a: string, b: string)
    decreases |a|
  {
    if |a| == 0 then |b| > 0
    else if |b| == 0 then false
    else if a[0] != b[0] then a[0] < b[0]
    else Less(a[1..], b[1..])
  }

  /** Position `k` is the first where `a` and `b` differ, and there `a` holds the smaller code point. */
  predicate DiffersAt(a: string, b: string, k: int) {
    0 <= k < |a| && k < |b| && a[..k] == b[..k] && a[k] < b[k]
  }

  /**
    `Less` is Python's order: `a` is a proper prefix of `b`, or at the first
    position where they differ `a` has the smaller code point.
   */
  lemma {:induction false} LessMeans(a: string, b: string)
    ensures Less(a, b) <==> (|a| < |b| && a == b[..|a|]) || exists k :: DiffersAt(a, b, k)
    decreases |a|
  {
    if |a| == 0 || |b| == 0 {
      assert forall k :: !DiffersAt(a, b, k);
    } else if a[0] != b[0] {
      assert forall k :: DiffersAt(a, b, k) ==> k == 0;
      if a[0] < b[0] {
        assert DiffersAt(a, b, 0);
      }
    } else {
      var a', b' := a[1..], b[1..];
      LessMeans(a', b');
      assert a == [a[0]] + a';
      if |a| <= |b| {
        assert b[..|a|] == [b[0]] + b'[..|a'|];
      }
      forall k | DiffersAt(a, b, k) ensures k > 0 && DiffersAt(a', b', k - 1) {
        assert a'[..k-1] == a[..k][1..] && b'[..k-1] == b[..k][1..];
      }
      forall k | DiffersAt(a', b', k) ensures DiffersAt(a, b, k + 1) {
        assert a[..k+1] == [a[0]] + a'[..k] && b[..k+1] == [b[0]] + b'[..k];
      }
    }
  }

  lemma {:induction false} LessIrreflexive(a: string)
    ensures !Less(a, a)
    decreases |a|
  {
    if |a| > 0 {
      LessIrreflexive(a[1..]);
    }
  }

  lemma {:induction false} LessTransitive(a: string, b: string, c: string)
    requires Less(a, b) && Less(b, c)
    ensures Less(a, c)
    decreases |a|
  {
    if |a| > 0 && a[0] == b[0] && b[0] == c[0] {
      LessTransitive(a[1..], b[1..], c[1..]);
    }
  }

  /** Any two different strings are ordered one way or the other. */
  lemma {:induction false} LessTotal(a: string, b: string)
    ensures a == b || Less(a, b) || Less(b, a)
    decreases |a|
  {
    if |a| > 0 && |b| > 0 && a[0] == b[0] {
      LessTotal(a[1..], b[1..]);
      if a[1..] == b[1..] {
        assert a == [a[0]] + a[1..] && b == [b[0]] + b[1..];
      }
    }
  }

  lemma {:induction false} LessAsymmetric(a: string, b: string)
    requires Less(a, b)
    ensures !Less(b, a)
  {
    if Less(b, a) {
      LessTransitive(a, b, a);
      LessIrreflexive(a);
    }
  }
}

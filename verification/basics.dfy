/** Small shared vocabulary: optional values, maxima and sums of integer sequences. */
module Basics {

  /** A value that may be missing; a timestamp that failed to parse is `None`. */
  datatype Option<+T> = None | Some(value: T)

  /** The outcome of a step that can abort: a value, or the reason it stopped. */
  datatype Result<+T, +E> = Success(value: T) | Failure(error: E)

  /** Python's `max(a, b)` on integers. */
  function Max(a: int, b: int): (r: int)
    ensures r >= a && r >= b
    ensures r == a || r == b
  {
    if a >= b then a else b
  }

  /** Python's `max(a, b)` on numbers modelled as exact reals. */
  function RealMax(a: real, b: real): (r: real)
    ensures r >= a && r >= b
    ensures r == a || r == b
  {
    if a >= b then a else b
  }

  /** Sum of a sequence, peeled from the back so that appending an element adds it. */
  function Sum(s: seq<int>): int
  {
    if |s| == 0 then 0 else Sum(s[..|s| - 1]) + s[|s| - 1]
  }

  lemma SumAppend(s: seq<int>, x: int)
    ensures Sum(s + [x]) == Sum(s) + x
  {
    assert (s + [x])[..|s|] == s;
  }

  lemma {:induction false} SumOfFive(s: seq<int>)
    requires |s| == 5
    ensures Sum(s) == s[0] + s[1] + s[2] + s[3] + s[4]
  {
    SumOfFour(s[..4]);
  }

  lemma {:induction false} SumOfFour(s: seq<int>)
    requires |s| == 4
    ensures Sum(s) == s[0] + s[1] + s[2] + s[3]
  {
    assert Sum(s[..1]) == s[0] by {
      assert s[..1][..0] == [];
    }
    assert Sum(s[..2]) == s[0] + s[1] by {
      assert s[..2][..1] == s[..1];
    }
    assert Sum(s[..3]) == s[0] + s[1] + s[2] by {
      assert s[..3][..2] == s[..2];
    }
    assert s[..4] == s;
  }
}

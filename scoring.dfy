// Shared vocabulary of the F-Score scorers: a score is a sum of binary tests,
// reported together with the per-test details.

module Scoring {
  import opened Py

  /** Number of passed tests. */
  function Count(bits: seq<bool>): (n: nat)
    ensures n <= |bits|
  {
    if |bits| == 0 then 0 else Point(bits[0]) + Count(bits[1..])
  }

  /** The points one test adds: 1 when it passes. */
  function Point(b: bool): nat { if b then 1 else 0 }

  /** `(f_score, score_details)`: the sum and the per-test bits in the details' key order. */
  datatype Scored = Scored(fScore: nat, details: seq<bool>)

  /** `x is not None and x > 0` */
  predicate Positive(x: Option<Float>)
  {
    x.Some? && Gt(x.value, Fin(0.0))
  }

  /** `a is not None and b is not None and a > b` */
  predicate Increased(a: Option<Float>, b: Option<Float>)
  {
    SomeGt(a, b)
  }

  /** `a is not None and b is not None and a < b` */
  predicate Decreased(a: Option<Float>, b: Option<Float>)
  {
    SomeGt(b, a)
  }

  /** A value never increases over itself, and never decreases from itself. */
  lemma NoChangeNoPoint(a: Option<Float>)
    ensures !Increased(a, a) && !Decreased(a, a)
  {
  }

  /** The nine entries of a nine-test details list. */
  lemma NineAt(b0: bool, b1: bool, b2: bool, b3: bool, b4: bool, b5: bool, b6: bool, b7: bool, b8: bool)
    ensures var s := [b0, b1, b2, b3, b4, b5, b6, b7, b8];
      s[0] == b0 && s[1] == b1 && s[2] == b2 && s[3] == b3 && s[4] == b4 &&
      s[5] == b5 && s[6] == b6 && s[7] == b7 && s[8] == b8
  {
  }

  /** Count over a literal list of nine tests, written out. */
  lemma CountNine(b0: bool, b1: bool, b2: bool, b3: bool, b4: bool, b5: bool, b6: bool, b7: bool, b8: bool)
    ensures Count([b0, b1, b2, b3, b4, b5, b6, b7, b8]) ==
      Point(b0) + Point(b1) + Point(b2) + Point(b3) + Point(b4) + Point(b5) + Point(b6) + Point(b7) + Point(b8)
  {
    CountFour(b5, b6, b7, b8);
    assert [b4, b5, b6, b7, b8][1..] == [b5, b6, b7, b8];
    assert Count([b4, b5, b6, b7, b8]) == Point(b4) + Point(b5) + Point(b6) + Point(b7) + Point(b8);
    assert [b3, b4, b5, b6, b7, b8][1..] == [b4, b5, b6, b7, b8];
    assert Count([b3, b4, b5, b6, b7, b8]) == Point(b3) + Point(b4) + Point(b5) + Point(b6) + Point(b7) + Point(b8);
    assert [b2, b3, b4, b5, b6, b7, b8][1..] == [b3, b4, b5, b6, b7, b8];
    assert Count([b2, b3, b4, b5, b6, b7, b8]) == Point(b2) + Point(b3) + Point(b4) + Point(b5) + Point(b6) + Point(b7) + Point(b8);
    assert [b1, b2, b3, b4, b5, b6, b7, b8][1..] == [b2, b3, b4, b5, b6, b7, b8];
    assert Count([b1, b2, b3, b4, b5, b6, b7, b8]) == Point(b1) + Point(b2) + Point(b3) + Point(b4) + Point(b5) + Point(b6) + Point(b7) + Point(b8);
    assert [b0, b1, b2, b3, b4, b5, b6, b7, b8][1..] == [b1, b2, b3, b4, b5, b6, b7, b8];
    assert Count([b0, b1, b2, b3, b4, b5, b6, b7, b8]) == Point(b0) + Point(b1) + Point(b2) + Point(b3) + Point(b4) + Point(b5) + Point(b6) + Point(b7) + Point(b8);
  }

  lemma CountFour(b0: bool, b1: bool, b2: bool, b3: bool)
    ensures Count([b0, b1, b2, b3]) == Point(b0) + Point(b1) + Point(b2) + Point(b3)
  {
    assert [b3][1..] == [];
    assert Count([b3]) == Point(b3);
    assert [b2, b3][1..] == [b3];
    assert Count([b2, b3]) == Point(b2) + Point(b3);
    assert [b1, b2, b3][1..] == [b2, b3];
    assert Count([b1, b2, b3]) == Point(b1) + Point(b2) + Point(b3);
    assert [b0, b1, b2, b3][1..] == [b1, b2, b3];
    assert Count([b0, b1, b2, b3]) == Point(b0) + Point(b1) + Point(b2) + Point(b3);
  }

  lemma CountTen(b0: bool, b1: bool, b2: bool, b3: bool, b4: bool, b5: bool, b6: bool, b7: bool, b8: bool, b9: bool)
    ensures Count([b0, b1, b2, b3, b4, b5, b6, b7, b8, b9]) ==
      Point(b0) + Point(b1) + Point(b2) + Point(b3) + Point(b4) + Point(b5) + Point(b6) + Point(b7) + Point(b8) + Point(b9)
  {
    var s := [b0, b1, b2, b3, b4, b5, b6, b7, b8, b9];
    assert s[1..] == [b1, b2, b3, b4, b5, b6, b7, b8, b9];
    CountNine(b1, b2, b3, b4, b5, b6, b7, b8, b9);
  }
}

/**
 Go's integer division. Go's `/` on signed integers truncates toward zero,
 whereas Dafny's `/` on `int` is Euclidean; the two disagree on negative odd
 dividends. The aligner only ever divides by the constant 2.
 */
module GoArith {

  /**
   `a / 2` as Go computes it: the quotient is rounded toward zero, so the
   remainder `a - 2 * q` carries the sign of `a` and is smaller than 2 in size.
   */
  function GoDiv2(a: int): (q: int)
    ensures a >= 0 ==> 0 <= a - 2 * q <= 1
    ensures a < 0 ==> -1 <= a - 2 * q <= 0
  {
    if a >= 0 then a / 2 else -((-a) / 2)
  }

  /** The remainder-sign characterisation of GoDiv2 determines the quotient. */
  lemma GoDiv2Unique(a: int, q: int)
    requires a >= 0 ==> 0 <= a - 2 * q <= 1
    requires a < 0 ==> -1 <= a - 2 * q <= 0
    ensures q == GoDiv2(a)
  {
  }

  /** Truncation is symmetric about zero, unlike Euclidean division. */
  lemma GoDiv2Negate(a: int)
    ensures GoDiv2(-a) == -GoDiv2(a)
  {
  }

  /**
   Where Go's quotient and Dafny's Euclidean quotient agree, and by how much
   they differ otherwise.
   */
  lemma GoDiv2VersusEuclidean(a: int)
    ensures a >= 0 || a % 2 == 0 ==> GoDiv2(a) == a / 2
    ensures a < 0 && a % 2 == 1 ==> GoDiv2(a) == a / 2 + 1
  {
  }

  /** The smallest witness of the difference: Go gives 0, Euclidean gives -1. */
  lemma GoDiv2MinusOne()
    ensures GoDiv2(-1) == 0
    ensures -1 / 2 == -1
  {
  }

  /** Halving a non-negative value lands between 0 and the value itself. */
  lemma GoDiv2Bounds(a: int)
    requires 0 <= a
    ensures 0 <= GoDiv2(a) <= a
    ensures GoDiv2(a) <= a - GoDiv2(a) <= GoDiv2(a) + 1
  {
  }
}

/**
 * The two argument checks HDRplot makes before any frame is measured. Each is
 * written as the negation of the source's rejecting condition.
 */
module Validation {

  /**
   * Crop margins pass unless one is negative or odd. Python's `%` floors, but
   * with the positive divisor 2 it agrees with Dafny's Euclidean `%`.
   */
  predicate CropValid(left: int, right: int, top: int, bottom: int)
  {
    !(left < 0 || right < 0 || top < 0 || bottom < 0 ||
      left % 2 != 0 || right % 2 != 0 || top % 2 != 0 || bottom % 2 != 0)
  }

  /** Twice a natural number: an even, non-negative margin. */
  predicate IsEvenMargin(m: int)
  {
    m >= 0 && exists k: nat | k <= m :: Twice(k) == m
  }

  function Twice(k: nat): nat
  {
    k + k
  }

  /** The crop check accepts exactly the margins that are all twice some natural number. */
  lemma CropValidIffEvenMargins(left: int, right: int, top: int, bottom: int)
    ensures CropValid(left, right, top, bottom) <==>
            IsEvenMargin(left) && IsEvenMargin(right) && IsEvenMargin(top) && IsEvenMargin(bottom)
  {
    if CropValid(left, right, top, bottom) {
      HalfWitness(left);
      HalfWitness(right);
      HalfWitness(top);
      HalfWitness(bottom);
    }
  }

  lemma HalfWitness(m: int)
    requires m >= 0 && m % 2 == 0
    ensures IsEvenMargin(m)
  {
    var k: nat := m / 2;
    assert Twice(k) == m;
  }

  /**
   * The trim window passes unless it starts before frame 0 or its two trims
   * together exceed the clip. A negative `trimEnd` is not rejected.
   */
  predicate TrimValid(trimStart: int, trimEnd: int, clipLength: nat)
  {
    !(trimStart < 0 || trimStart + trimEnd > clipLength)
  }

  /**
   * The boundary: trims that add up to exactly the clip length pass, one
   * frame more does not, and no negative `trimEnd` is ever the reason for a
   * rejection; with one, even a start beyond the last frame passes.
   */
  lemma TrimValidBoundary(trimStart: int, trimEnd: int, clipLength: nat)
    requires 0 <= trimStart <= clipLength
    ensures TrimValid(trimStart, clipLength - trimStart, clipLength)
    ensures !TrimValid(trimStart, clipLength - trimStart + 1, clipLength)
    ensures trimEnd < 0 ==> TrimValid(trimStart, trimEnd, clipLength)
    ensures TrimValid(clipLength + 1, -1, clipLength)
  {
  }
}

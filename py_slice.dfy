/**
 * Python's `s[start:stop]` on a list or a string, without a step. Indices are
 * adjusted the way CPython does before cutting: a negative index counts from
 * the end, and anything still outside `0..len` is clamped to that range; a
 * window whose adjusted stop lies before its start is empty. No index error
 * is ever raised.
 */
module PySlice {

  /** The adjustment CPython applies to one slice bound of a sequence of length `len`. */
  function ClampIndex(i: int, len: nat): (k: nat)
    ensures k <= len
  {
    if i < 0 then (if i + len < 0 then 0 else i + len)
    else if i > len then len
    else i
  }

  /** `s[start:stop]`, cut at the clamped bounds. */
  function Slice<T>(s: seq<T>, start: int, stop: int): (r: seq<T>)
  {
    var lo, hi := ClampIndex(start, |s|), ClampIndex(stop, |s|);
    if lo < hi then s[lo..hi] else []
  }

  /** Python's reading of one bound: a negative index counts from the end. */
  function FromEnd(i: int, len: nat): int
  {
    if i < 0 then i + len else i
  }

  /**
   * The elements of `s` from index `j` on whose index lies in `lo .. hi - 1`,
   * in order: the slice as Python's language reference describes it, with
   * no clamping.
   */
  function Kept<T>(s: seq<T>, j: nat, lo: int, hi: int): seq<T>
    requires j <= |s|
    decreases |s| - j
  {
    if j == |s| then []
    else (if lo <= j < hi then [s[j]] else []) + Kept(s, j + 1, lo, hi)
  }

  /**
   * The clamped slice is Python's: index `j` of `s` is kept, in order,
   * exactly when `FromEnd(start) <= j < FromEnd(stop)`.
   */
  lemma SliceIsPythonWindow<T>(s: seq<T>, start: int, stop: int)
    ensures Slice(s, start, stop) == Kept(s, 0, FromEnd(start, |s|), FromEnd(stop, |s|))
  {
    KeptIsWindow(s, 0, FromEnd(start, |s|), FromEnd(stop, |s|));
  }

  /** From index `j` on, the kept elements are one contiguous run of `s`. */
  lemma {:induction false} KeptIsWindow<T>(s: seq<T>, j: nat, lo: int, hi: int)
    requires j <= |s|
    ensures var a := if lo < j then j else lo;
            var b := if hi > |s| then |s| else hi;
            Kept(s, j, lo, hi) == if a < b then s[a..b] else []
    decreases |s| - j
  {
    if j < |s| {
      KeptIsWindow(s, j + 1, lo, hi);
      var b := if hi > |s| then |s| else hi;
      if lo <= j < hi {
        if j + 1 < b {
          assert [s[j]] + s[j + 1..b] == s[j..b];
        } else {
          assert s[j..b] == [s[j]];
        }
      }
    }
  }

  /** Inside the bounds a Python slice is Dafny's subsequence. */
  lemma SliceWithinBounds<T>(s: seq<T>, start: int, stop: int)
    requires 0 <= start <= stop <= |s|
    ensures Slice(s, start, stop) == s[start..stop]
  {
  }

  /** Slicing from 0 to the length copies the whole sequence. */
  lemma SliceWhole<T>(s: seq<T>)
    ensures Slice(s, 0, |s|) == s
  {
  }

  /**
   * With non-negative bounds, a slice keeps the frames from `start` on, stops
   * at `stop` or at the end of the sequence, whichever comes first, and is
   * empty once `start` reaches the end: output frame `i` is input frame
   * `start + i`.
   */
  lemma SliceNonNegative<T>(s: seq<T>, start: int, stop: int)
    requires 0 <= start && 0 <= stop
    ensures var hi := if stop < |s| then stop else |s|;
            |Slice(s, start, stop)| == (if start < hi then hi - start else 0)
    ensures forall i | 0 <= i < |Slice(s, start, stop)| :: Slice(s, start, stop)[i] == s[start + i]
  {
  }

  /** A negative stop counts back from the end of the sequence. */
  lemma SliceNegativeStop<T>(s: seq<T>, stop: int)
    requires -|s| <= stop < 0
    ensures Slice(s, 0, stop) == s[..|s| + stop]
  {
  }
}

/**
 * Trimming the series so that plots of clips with different frame counts line
 * up: both channels of the in-memory pair are replaced by the same Python
 * slice `[trimStart : clipLength - trimEnd]`. The stop is computed from the
 * clip's length, not from the series', so a cached series of another length
 * is cut by Python's clamping rules.
 */
module SyncTrim {
  import opened PySlice
  import opened Validation

  /**
   * The in-place replacement of `lightLevel[0]` and `lightLevel[1]`, the two
   * lists of the pair, by their slices.
   */
  method TrimInPlace(lightLevel: array<seq<real>>, trimStart: int, trimEnd: int, clipLength: nat)
    requires lightLevel.Length == 2
    modifies lightLevel
    ensures lightLevel[0] == Slice(old(lightLevel[0]), trimStart, clipLength - trimEnd)
    ensures lightLevel[1] == Slice(old(lightLevel[1]), trimStart, clipLength - trimEnd)
  {
    var start := trimStart;
    var end := clipLength - trimEnd;
    lightLevel[0] := Slice(lightLevel[0], start, end);
    lightLevel[1] := Slice(lightLevel[1], start, end);
  }

  /**
   * A validated window with a non-negative `trimEnd`, on a channel as long as
   * the clip, keeps `clipLength - trimStart - trimEnd` frames and its frame
   * `i` is frame `trimStart + i` of the input.
   */
  lemma TrimmedChannel(channel: seq<real>, trimStart: int, trimEnd: int, clipLength: nat)
    requires TrimValid(trimStart, trimEnd, clipLength) && trimEnd >= 0
    requires |channel| == clipLength
    ensures var out := Slice(channel, trimStart, clipLength - trimEnd);
            |out| == clipLength - trimStart - trimEnd &&
            forall i | 0 <= i < |out| :: out[i] == channel[trimStart + i]
  {
  }

  /** Nothing to trim leaves the channel as it is. */
  lemma TrimNothing(channel: seq<real>)
    ensures Slice(channel, 0, |channel| - 0) == channel
  {
  }

  /**
   * A negative `trimEnd` passes validation and puts the stop past the end:
   * the slice is clamped and keeps everything from `trimStart` on, which is
   * nothing when `trimStart` lies beyond the clip (validation lets that
   * through too).
   */
  lemma TrimNegativeEnd(channel: seq<real>, trimStart: int, trimEnd: int, clipLength: nat)
    requires TrimValid(trimStart, trimEnd, clipLength) && trimEnd < 0
    requires |channel| == clipLength
    ensures trimStart <= clipLength ==> Slice(channel, trimStart, clipLength - trimEnd) == channel[trimStart..]
    ensures trimStart > clipLength ==> Slice(channel, trimStart, clipLength - trimEnd) == []
  {
  }

  /**
   * A series whose length differs from the clip's (a stale cache file) is cut
   * at the clip-based positions clamped to its own length.
   */
  lemma TrimStaleSeries(channel: seq<real>, trimStart: int, trimEnd: int, clipLength: nat)
    requires TrimValid(trimStart, trimEnd, clipLength)
    ensures var m := |channel|;
            var lo := if trimStart < m then trimStart else m;
            var hi := if clipLength - trimEnd < m then clipLength - trimEnd else m;
            Slice(channel, trimStart, clipLength - trimEnd) == channel[lo..if lo < hi then hi else lo]
  {
  }

  /**
   * Two channels of equal length are cut identically: they come out of equal
   * length, and frame `i` of each is the same input frame of its channel.
   */
  lemma TrimKeepsChannelsAligned(maxCll: seq<real>, fall: seq<real>, trimStart: int, trimEnd: int, clipLength: nat)
    requires TrimValid(trimStart, trimEnd, clipLength)
    requires |maxCll| == |fall|
    ensures var a, b := Slice(maxCll, trimStart, clipLength - trimEnd), Slice(fall, trimStart, clipLength - trimEnd);
            |a| == |b| &&
            forall i | 0 <= i < |a| :: a[i] == maxCll[trimStart + i] && b[i] == fall[trimStart + i]
  {
  }

  /**
   * Trims that add up to the clip length pass validation, yet leave an empty
   * channel.
   */
  lemma TrimWholeClip(channel: seq<real>, trimStart: int, clipLength: nat)
    requires 0 <= trimStart <= clipLength && |channel| == clipLength
    ensures TrimValid(trimStart, clipLength - trimStart, clipLength)
    ensures Slice(channel, trimStart, clipLength - (clipLength - trimStart)) == []
  {
  }
}

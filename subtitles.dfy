/**
 * The four subtitle lines of the plot: two for the static HDR10 metadata, two
 * for Dolby Vision. They start out unset, are filled from MediaInfo and from
 * the RPU summary when the format provides them, and are then defaulted pair
 * by pair so that all four are defined.
 */
module Subtitles {
  import opened Wrappers
  import opened PySlice
  import opened Formats

  const NoHdrMetadata := "No HDR metadata in original file"
  const NoDolbyVision := "No Dolby Vision"
  const PrimariesPrefix := "Mastering Display Color Primaries: "
  const LuminancePrefix := "Mastering Display Luminance: "

  /** The first HDR subtitle, from MediaInfo's mastering-display colour primaries. */
  function PrimariesSubtitle(primaries: string): string
  {
    PrimariesPrefix + primaries
  }

  /**
   * The second HDR subtitle. MediaInfo's luminance text is cut at fixed
   * columns: characters 5 to 10 as the minimum and 24 to 27 as the maximum,
   * so at most six and four characters of them reach the subtitle, whatever
   * the text's length.
   */
  function LuminanceSubtitle(luminance: string): (r: string)
    ensures |LuminancePrefix| + 1 + |" nits"| <= |r| <= |LuminancePrefix| + 6 + 1 + 4 + |" nits"|
    ensures r[..|LuminancePrefix|] == LuminancePrefix && r[|r| - |" nits"|..] == " nits"
    ensures var minimum, maximum := Slice(luminance, 5, 11), Slice(luminance, 24, 28);
            && |minimum| <= 6 && |maximum| <= 4
            && |r| == |LuminancePrefix| + |minimum| + 1 + |maximum| + |" nits"|
            && r[|LuminancePrefix|..|LuminancePrefix| + |minimum|] == minimum
            && r[|LuminancePrefix| + |minimum|] == '/'
            && r[|LuminancePrefix| + |minimum| + 1..|r| - |" nits"|] == maximum
  {
    var minimum := Slice(luminance, 5, 11);
    var maximum := Slice(luminance, 24, 28);
    SliceNonNegative(luminance, 5, 11);
    SliceNonNegative(luminance, 24, 28);
    var r := LuminancePrefix + minimum + "/" + maximum + " nits";
    assert r[..|LuminancePrefix|] == LuminancePrefix;
    assert r[|r| - |" nits"|..] == " nits";
    assert r[|LuminancePrefix|..|LuminancePrefix| + |minimum|] == minimum;
    assert r[|LuminancePrefix| + |minimum| + 1..|r| - |" nits"|] == maximum;
    r
  }

  /**
   * With MediaInfo's layout ("min: ", a six-character minimum, " cd/m2, max: ",
   * then the maximum and its unit) the fixed columns pick out the minimum and
   * the first four characters after "max: ": the whole of a four-digit
   * maximum, but only "1000" of 10000 nits and "600 " of 600 nits.
   */
  lemma LuminanceColumns(minimum: string, rest: string)
    requires |minimum| == 6 && |rest| >= 4
    ensures var luminance := "min: " + minimum + " cd/m2, max: " + rest;
            LuminanceSubtitle(luminance) == LuminancePrefix + minimum + "/" + rest[..4] + " nits"
  {
    var luminance := "min: " + minimum + " cd/m2, max: " + rest;
    assert luminance[5..11] == minimum;
    assert luminance[24..28] == rest[..4];
  }

  /**
   * The candidates before defaulting for a format and the MediaInfo fields:
   * set only for the formats that carry mastering-display data, the first
   * only when MediaInfo reported primaries.
   */
  function HdrCandidates(f: HdrFormat, primaries: Option<string>, luminance: Option<string>): (r: (Option<string>, Option<string>))
    requires ReadsMasteringDisplay(f) ==> luminance.Some?
    ensures r.0.Some? <==> ReadsMasteringDisplay(f) && primaries.Some?
    ensures r.0.Some? ==> r.0.value == PrimariesSubtitle(primaries.value)
    ensures r.1.Some? <==> ReadsMasteringDisplay(f)
    ensures r.1.Some? ==> r.1.value == LuminanceSubtitle(luminance.value)
  {
    if ReadsMasteringDisplay(f) then
      (if primaries.Some? then Some(PrimariesSubtitle(primaries.value)) else None,
       Some(LuminanceSubtitle(luminance.value)))
    else (None, None)
  }

  /**
   * The outcome of defaulting one pair, case by case: a set subtitle stays,
   * the partner of a set subtitle becomes "", and a pair with neither set
   * becomes "" over `absent`.
   */
  function DefaultPair(first: Option<string>, second: Option<string>, absent: string): (string, string)
  {
    match (first, second)
    case (Some(a), Some(b)) => (a, b)
    case (Some(a), None) => (a, "")
    case (None, Some(b)) => ("", b)
    case (None, None) => ("", absent)
  }

  /**
   * What the defaulting promises for each subtitle of a pair: a subtitle that
   * was set is unchanged, a lone missing partner becomes the empty string and
   * only a pair with both missing shows the `absent` message.
   */
  lemma DefaultPairKeepsAndFills(first: Option<string>, second: Option<string>, absent: string)
    ensures first.Some? ==> DefaultPair(first, second, absent).0 == first.value
    ensures second.Some? ==> DefaultPair(first, second, absent).1 == second.value
    ensures first.Some? != second.Some? ==>
              (first.None? ==> DefaultPair(first, second, absent).0 == "") &&
              (second.None? ==> DefaultPair(first, second, absent).1 == "")
    ensures first.None? && second.None? ==> DefaultPair(first, second, absent) == ("", absent)
  {
  }

  /**
   * The six conditional reassignments, in source order. Every output is read
   * out of an `Option` that the steps before have set, so all four subtitles
   * end up defined, and each pair comes out as the case table `DefaultPair`
   * says.
   */
  method DefaultSubtitles(hdr1: Option<string>, hdr2: Option<string>, dv1: Option<string>, dv2: Option<string>)
    returns (h1: string, h2: string, d1: string, d2: string)
    ensures (h1, h2) == DefaultPair(hdr1, hdr2, NoHdrMetadata)
    ensures (d1, d2) == DefaultPair(dv1, dv2, NoDolbyVision)
  {
    var subTitleHdr1, subTitleHdr2, subTitleDv1, subTitleDv2 := hdr1, hdr2, dv1, dv2;
    if subTitleHdr1.None? && subTitleHdr2.Some? {
      subTitleHdr1 := Some("");
    }
    if subTitleHdr2.None? && subTitleHdr1.Some? {
      subTitleHdr2 := Some("");
    }
    if subTitleHdr1.None? && subTitleHdr2.None? {
      subTitleHdr1 := Some("");
      subTitleHdr2 := Some(NoHdrMetadata);
    }
    if subTitleDv1.None? && subTitleDv2.Some? {
      subTitleDv1 := Some("");
    }
    if subTitleDv2.None? && subTitleDv1.Some? {
      subTitleDv2 := Some("");
    }
    if subTitleDv1.None? && subTitleDv2.None? {
      subTitleDv1 := Some("");
      subTitleDv2 := Some(NoDolbyVision);
    }
    h1, h2, d1, d2 := subTitleHdr1.value, subTitleHdr2.value, subTitleDv1.value, subTitleDv2.value;
  }
}

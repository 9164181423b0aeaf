/**
 * The HDR format names HDRplot accepts (HDRplot.py, `hdr_format` of the first
 * video track) and the work each one selects. The three accepted names form a
 * tagged datatype; any other string is rejected.
 */
module Formats {
  import opened Wrappers

  /** The three accepted values of MediaInfo's `hdr_format`. */
  datatype HdrFormat =
    | DolbyVisionWithSt2086   // "Dolby Vision / SMPTE ST 2086": profile 7/8 with static HDR10 metadata
    | DolbyVision             // "Dolby Vision": profile 5, no static metadata
    | St2086                  // "SMPTE ST 2086": plain HDR10

  const DolbyVisionWithSt2086Name := "Dolby Vision / SMPTE ST 2086"
  const DolbyVisionName := "Dolby Vision"
  const St2086Name := "SMPTE ST 2086"

  function FormatName(f: HdrFormat): string
  {
    match f
    case DolbyVisionWithSt2086 => DolbyVisionWithSt2086Name
    case DolbyVision => DolbyVisionName
    case St2086 => St2086Name
  }

  /** The whitelist: exactly the three names are recognised, anything else is `None`. */
  function ParseFormat(name: string): (r: Option<HdrFormat>)
    ensures r.None? <==> name != DolbyVisionWithSt2086Name && name != DolbyVisionName && name != St2086Name
  {
    if name == DolbyVisionWithSt2086Name then Some(DolbyVisionWithSt2086)
    else if name == DolbyVisionName then Some(DolbyVision)
    else if name == St2086Name then Some(St2086)
    else None
  }

  /** Parsing inverts naming, in both directions. */
  lemma ParseFormatRoundTrip(f: HdrFormat, name: string)
    ensures ParseFormat(FormatName(f)) == Some(f)
    ensures ParseFormat(name) == Some(f) ==> FormatName(f) == name
  {
  }

  /** The mastering-display colour primaries and luminance are read from MediaInfo. */
  predicate ReadsMasteringDisplay(f: HdrFormat)
  {
    f == DolbyVisionWithSt2086 || f == St2086
  }

  /** The RPU is extracted with ffmpeg and dovi_tool and its summary is parsed. */
  predicate ExtractsRpu(f: HdrFormat)
  {
    f == DolbyVisionWithSt2086 || f == DolbyVision
  }

  /**
   * Profile 5 is tone-mapped to HDR10 before it is measured. The source writes
   * the test as the chained comparison `hdrFormat == hdrFormat == "Dolby Vision"`,
   * which Python reads as `hdrFormat == "Dolby Vision"`.
   */
  predicate ToneMapsBeforeMeasuring(f: HdrFormat)
  {
    f == DolbyVision
  }

  /**
   * Every accepted format yields some metadata; only the combined format yields
   * both kinds; and tone-mapping is reserved for the format with an RPU and no
   * static metadata.
   */
  lemma FormatBranches(f: HdrFormat)
    ensures ReadsMasteringDisplay(f) || ExtractsRpu(f)
    ensures ReadsMasteringDisplay(f) && ExtractsRpu(f) <==> FormatName(f) == DolbyVisionWithSt2086Name
    ensures ToneMapsBeforeMeasuring(f) <==> ExtractsRpu(f) && !ReadsMasteringDisplay(f)
  {
  }
}

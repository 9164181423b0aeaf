/**
 * One invocation of HDRplot, from the arguments and what the external tools
 * report to the values handed to the plot: the checks that abort early, the
 * subtitles, the series (replayed, cached or measured), the synchronising
 * trim and the raw statistics.
 */
module HdrPlot {
  import opened Wrappers
  import opened Errors
  import opened PySlice
  import opened Formats
  import opened Validation
  import opened DoviSummary
  import opened Subtitles
  import opened LightLevels
  import opened Cache
  import opened SyncTrim
  import opened Statistics

  /** The function's arguments. */
  datatype Invocation = Invocation(
    path: string,
    fileIdentifier: string,
    title: Option<string>,
    left: int, right: int, top: int, bottom: int,
    trimStart: int, trimEnd: int,
    l1: bool)

  /**
   * A call with only the path given: identifier "DEFAULT", no title, no
   * crop, no trim and no L1 replay.
   */
  function DefaultInvocation(path: string): Invocation
  {
    Invocation(path, "DEFAULT", None, 0, 0, 0, 0, 0, 0, false)
  }

  /** What the file system, MediaInfo, dovi_tool and the decoder report for this invocation. */
  datatype Environment = Environment(
    videoExists: bool,            // whether the path exists
    hdrFormat: string,            // `hdr_format` of the first video track
    primaries: Option<string>,    // its mastering-display colour primaries
    luminance: Option<string>,    // its mastering-display luminance text
    summaryLines: seq<string>,    // the stripped lines of `dovi_tool info -s`
    rpuRecords: seq<L1Metadata>,  // the Level 1 blocks of the exported RPU, one per record
    clipLength: nat,              // the number of frames of the decoded clip
    measure: Measure,             // the frame measurement
    eotf: Eotf)                   // the PQ transfer function

  /** What is handed to the plot. */
  datatype Plot = Plot(
    title: string,
    maxCll: seq<real>, fall: seq<real>,
    stats: RawStats,
    subtitles: SubtitleLines)

  /** The four subtitles, all defined. */
  datatype SubtitleLines = SubtitleLines(hdr1: string, hdr2: string, dv1: string, dv2: string)

  /** The four subtitles after defaulting, as the case table gives them for this format and these tool reports. */
  function SubtitlesFor(f: HdrFormat, env: Environment): SubtitleLines
    requires ReadsMasteringDisplay(f) ==> env.luminance.Some?
  {
    var hdr := HdrCandidates(f, env.primaries, env.luminance);
    var dv := DvCandidates(f, env.summaryLines);
    var (h1, h2) := DefaultPair(hdr.0, hdr.1, NoHdrMetadata);
    var (d1, d2) := DefaultPair(dv.0, dv.1, NoDolbyVision);
    SubtitleLines(h1, h2, d1, d2)
  }

  /**
   * The checks that print a message (or raise) and end the invocation before
   * any frame is measured, in the order the source makes them; on success,
   * the recognised format.
   */
  function Precheck(inv: Invocation, env: Environment): (r: Result<HdrFormat, PlotError>)
    ensures r.Success? <==>
              && env.videoExists
              && ParseFormat(env.hdrFormat).Some?
              && (ReadsMasteringDisplay(ParseFormat(env.hdrFormat).value) ==> env.luminance.Some?)
              && CropValid(inv.left, inv.right, inv.top, inv.bottom)
              && TrimValid(inv.trimStart, inv.trimEnd, env.clipLength)
    ensures r.Success? ==> ParseFormat(env.hdrFormat) == Some(r.value)
    ensures r == Failure(VideoNotFound) <==> !env.videoExists
    ensures r == Failure(FormatNotRecognized) <==> env.videoExists && ParseFormat(env.hdrFormat).None?
    ensures r == Failure(LuminanceMissing) <==>
              && env.videoExists
              && ParseFormat(env.hdrFormat).Some?
              && ReadsMasteringDisplay(ParseFormat(env.hdrFormat).value) && env.luminance.None?
    ensures r == Failure(IncorrectCrop) <==>
              && env.videoExists
              && ParseFormat(env.hdrFormat).Some?
              && (ReadsMasteringDisplay(ParseFormat(env.hdrFormat).value) ==> env.luminance.Some?)
              && !CropValid(inv.left, inv.right, inv.top, inv.bottom)
    ensures r == Failure(IncorrectTrim) <==>
              && env.videoExists
              && ParseFormat(env.hdrFormat).Some?
              && (ReadsMasteringDisplay(ParseFormat(env.hdrFormat).value) ==> env.luminance.Some?)
              && CropValid(inv.left, inv.right, inv.top, inv.bottom)
              && !TrimValid(inv.trimStart, inv.trimEnd, env.clipLength)
  {
    if !env.videoExists then Failure(VideoNotFound)
    else match ParseFormat(env.hdrFormat)
      case None => Failure(FormatNotRecognized)
      case Some(f) =>
        if ReadsMasteringDisplay(f) && env.luminance.None? then Failure(LuminanceMissing)
        else if !CropValid(inv.left, inv.right, inv.top, inv.bottom) then Failure(IncorrectCrop)
        else if !TrimValid(inv.trimStart, inv.trimEnd, env.clipLength) then Failure(IncorrectTrim)
        else Success(f)
  }

  /** The title: the one given, or "HDR grade: " and the path. */
  function DefaultTitle(inv: Invocation): string
  {
    if inv.title.Some? then inv.title.value else "HDR grade: " + inv.path
  }

  /** The RPU records as the L1 replay sees them: bound only when the RPU was extracted and exported. */
  function RpuFor(f: HdrFormat, inv: Invocation, env: Environment): (r: Option<seq<L1Metadata>>)
    ensures r.Some? <==> f != St2086 && inv.l1
    ensures r.Some? ==> r.value == env.rpuRecords
  {
    if ExtractsRpu(f) && inv.l1 then Some(env.rpuRecords) else None
  }

  /** The clip that is measured: the tone-mapped one for profile 5 only, otherwise the cropped one. */
  function ClipFor(f: HdrFormat): (c: MeasuredClip)
    ensures c == ToneMapped <==> f == DolbyVision
  {
    if ToneMapsBeforeMeasuring(f) then ToneMapped else Cropped
  }

  /** The Dolby Vision subtitles before defaulting: set only for formats whose RPU is read. */
  function DvCandidates(f: HdrFormat, lines: seq<string>): (Option<string>, Option<string>)
  {
    if ExtractsRpu(f) then
      (DolbyVisionTitle(LastContaining(lines, ProfileTag), LastContaining(lines, DmVersionTag)),
       LastContaining(lines, MasteringDisplayTag))
    else (None, None)
  }

  /**
   * The plot made from an acquired series: both channels cut by the same
   * slice, the statistics taken on the cut channels, the subtitles defaulted.
   */
  function PlotFrom(series: LightLevel, trimStart: int, trimEnd: int, clipLength: nat,
                    title: string, subtitles: SubtitleLines): Result<Plot, PlotError>
  {
    var cll := Slice(series.maxCll, trimStart, clipLength - trimEnd);
    var fall := Slice(series.fall, trimStart, clipLength - trimEnd);
    match RawStatistics(cll, fall)
    case Failure(e) => Failure(e)
    case Success(stats) => Success(Plot(title, cll, fall, stats, subtitles))
  }

  /**
   * For a series as long as the clip and a validated window with a
   * non-negative `trimEnd`: a plot is made exactly when the window keeps a
   * frame; its channels are the frames `trimStart ..` of the series, one
   * slice for both; and its statistics, taken on those channels, put each
   * maximum on a kept frame and no lower than the mean.
   */
  lemma PlotOfValidatedWindow(series: LightLevel, trimStart: int, trimEnd: int, clipLength: nat,
                              title: string, subtitles: SubtitleLines)
    requires TrimValid(trimStart, trimEnd, clipLength) && trimEnd >= 0
    requires |series.maxCll| == clipLength && |series.fall| == clipLength
    ensures var p := PlotFrom(series, trimStart, trimEnd, clipLength, title, subtitles);
            && (p.Success? <==> trimStart + trimEnd < clipLength)
            && (p.Failure? ==> p.error == EmptySeries)
            && (p.Success? ==>
                  && |p.value.maxCll| == |p.value.fall| == clipLength - trimStart - trimEnd
                  && (forall i | 0 <= i < |p.value.maxCll| ::
                        p.value.maxCll[i] == series.maxCll[trimStart + i] && p.value.fall[i] == series.fall[trimStart + i])
                  && p.value.stats.maxCll in p.value.maxCll && p.value.stats.maxFall in p.value.fall
                  && p.value.stats.avgCll <= p.value.stats.maxCll && p.value.stats.avgFall <= p.value.stats.maxFall)
  {
    var stop := clipLength - trimEnd;
    SliceWithinBounds(series.maxCll, trimStart, stop);
    SliceWithinBounds(series.fall, trimStart, stop);
    var cll, fall := series.maxCll[trimStart..stop], series.fall[trimStart..stop];
    if |cll| > 0 {
      RawStatisticsBounds(cll, fall);
    }
  }

  /**
   * With the default arguments every check on the arguments passes, and the
   * plot of a series as long as the clip keeps all of it: the synchronising
   * trim changes nothing.
   */
  lemma DefaultInvocationKeepsWholeSeries(path: string, series: LightLevel, clipLength: nat,
                                          subtitles: SubtitleLines)
    requires |series.maxCll| == clipLength && |series.fall| == clipLength && clipLength > 0
    ensures var inv := DefaultInvocation(path);
            && CropValid(inv.left, inv.right, inv.top, inv.bottom)
            && TrimValid(inv.trimStart, inv.trimEnd, clipLength)
            && DefaultTitle(inv) == "HDR grade: " + path
            && var p := PlotFrom(series, inv.trimStart, inv.trimEnd, clipLength, DefaultTitle(inv), subtitles);
               p.Success? && p.value.maxCll == series.maxCll && p.value.fall == series.fall
  {
    SliceWhole(series.maxCll);
    SliceWhole(series.fall);
  }

  /**
   * The window that trims the whole clip passes validation whenever it starts
   * at a frame, and the run then fails when the statistics meet the empty
   * channel, whatever the series: a stale cached one, or a start beyond the
   * clip with the negative `trimEnd` that goes with it.
   */
  lemma WholeClipTrimFailsAfterValidation(series: LightLevel, trimStart: int, clipLength: nat,
                                          title: string, subtitles: SubtitleLines)
    ensures 0 <= trimStart ==> TrimValid(trimStart, clipLength - trimStart, clipLength)
    ensures PlotFrom(series, trimStart, clipLength - trimStart, clipLength, title, subtitles) == Failure(EmptySeries)
  {
  }

  /** The subtitle block: candidates from MediaInfo and the RPU summary, then defaulting. */
  method DeriveSubtitles(f: HdrFormat, env: Environment) returns (subtitles: SubtitleLines)
    requires ReadsMasteringDisplay(f) ==> env.luminance.Some?
    ensures subtitles == SubtitlesFor(f, env)
  {
    var dv1, dv2: Option<string> := None, None;
    if ExtractsRpu(f) {
      var masteringDisplay, profile, version := ScanSummary(env.summaryLines);
      dv2 := masteringDisplay;
      dv1 := DolbyVisionTitle(profile, version);
    }
    var hdr := HdrCandidates(f, env.primaries, env.luminance);
    var h1, h2, d1, d2 := DefaultSubtitles(hdr.0, hdr.1, dv1, dv2);
    subtitles := SubtitleLines(h1, h2, d1, d2);
  }

  /** Trimming in place and the raw statistics, for an acquired series. */
  method TrimAndSummarise(series: LightLevel, trimStart: int, trimEnd: int, clipLength: nat,
                          title: string, subtitles: SubtitleLines)
    returns (r: Result<Plot, PlotError>)
    ensures r == PlotFrom(series, trimStart, trimEnd, clipLength, title, subtitles)
  {
    var lightLevel := new seq<real>[2];
    lightLevel[0], lightLevel[1] := series.maxCll, series.fall;
    TrimInPlace(lightLevel, trimStart, trimEnd, clipLength);
    var cll, fall := lightLevel[0], lightLevel[1];
    var stats := RawStatistics(cll, fall);
    if stats.Failure? {
      r := Failure(stats.error);
      return;
    }
    r := Success(Plot(title, cll, fall, stats.value, subtitles));
  }

  /**
   * The whole invocation. `acquisition` is the series the cache policy
   * produced, before trimming. The promises: a failed check ends the run
   * with that check's error and leaves the cache files alone; the cache file
   * is written only when it was missing and the frames were measured, and
   * then holds the untrimmed series; the plot's channels are that series cut
   * by one slice, and its statistics are taken on the cut channels.
   */
  method Run(store: LightLevelStore, inv: Invocation, env: Environment)
    returns (r: Result<Plot, PlotError>, ghost acquisition: Result<LightLevel, PlotError>)
    modifies store
    ensures Precheck(inv, env).Failure? ==>
              r == Failure(Precheck(inv, env).error) && store.files == old(store.files)
    ensures Precheck(inv, env).Success? && inv.l1 ==>
              store.files == old(store.files) &&
              IsL1Outcome(acquisition, env.clipLength, RpuFor(Precheck(inv, env).value, inv, env), env.eotf)
    ensures Precheck(inv, env).Success? && !inv.l1 && CacheFileName(inv.fileIdentifier) in old(store.files) ==>
              store.files == old(store.files) &&
              acquisition == Success(old(store.files)[CacheFileName(inv.fileIdentifier)])
    ensures Precheck(inv, env).Success? && !inv.l1 && CacheFileName(inv.fileIdentifier) !in old(store.files) ==>
              acquisition.Success? &&
              IsMeasurement(acquisition.value, env.clipLength, ClipFor(Precheck(inv, env).value), env.measure) &&
              store.files == old(store.files)[CacheFileName(inv.fileIdentifier) := acquisition.value]
    ensures Precheck(inv, env).Success? && acquisition.Failure? ==> r == Failure(acquisition.error)
    ensures Precheck(inv, env).Success? && acquisition.Success? ==>
              r == PlotFrom(acquisition.value, inv.trimStart, inv.trimEnd, env.clipLength,
                            DefaultTitle(inv), SubtitlesFor(Precheck(inv, env).value, env))
  {
    acquisition := Failure(VideoNotFound);
    if !env.videoExists {
      r := Failure(VideoNotFound);
      return;
    }
    var parsed := ParseFormat(env.hdrFormat);
    if parsed.None? {
      r := Failure(FormatNotRecognized);
      return;
    }
    var f := parsed.value;
    if ReadsMasteringDisplay(f) && env.luminance.None? {
      r := Failure(LuminanceMissing);
      return;
    }
    var subtitles := DeriveSubtitles(f, env);

    if !CropValid(inv.left, inv.right, inv.top, inv.bottom) {
      r := Failure(IncorrectCrop);
      return;
    }
    if !TrimValid(inv.trimStart, inv.trimEnd, env.clipLength) {
      r := Failure(IncorrectTrim);
      return;
    }

    var acquired := store.Acquire(inv.l1, RpuFor(f, inv, env), env.eotf, inv.fileIdentifier, env.clipLength, ClipFor(f), env.measure);
    acquisition := acquired;
    if acquired.Failure? {
      r := Failure(acquired.error);
      return;
    }

    r := TrimAndSummarise(acquired.value, inv.trimStart, inv.trimEnd, env.clipLength, DefaultTitle(inv), subtitles);
  }
}

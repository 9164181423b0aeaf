# HDRplot core, modelled in Dafny

HDRplot plots the brightness of each frame of an HDR10 or Dolby Vision HEVC
video. One call to the function `HDRplot` does the following:

- checks its arguments;
- reads MediaInfo's HDR format and, depending on it, the mastering-display
  data and/or the Dolby Vision RPU summary;
- derives four subtitle lines;
- obtains the per-frame brightness series (MaxCLL channel `HDRMax`, MaxFALL
  channel `HDRFALL`), which comes from one of three places: a replay of the
  RPU's Level 1 metadata, a `lightLevel-<id>.json` cache file, or measuring
  every frame and writing that file;
- trims both channels with one Python slice so that plots of different
  encodes line up;
- computes maxima and means for the legend.

This project models that decision and data-shaping logic and proves what it
promises. The external tools are parameters (see "Left out").

Modules, one file each:

- `Wrappers` and `Errors` (wrappers.dfy): `Option`, `Result` and the ways a run can stop.
- `PySlice` (py_slice.dfy): Python's `s[start:stop]`, with CPython's index clamping.
- `Formats` (formats.dfy): the three accepted HDR format names as a datatype, and what each one selects.
- `Validation` (validation.dfy): the crop and trim checks.
- `DoviSummary` (dovi_summary.dfy): the scan of the `dovi_tool info -s` lines, the three regular-expression clean-ups and the first Dolby Vision subtitle.
- `Subtitles` (subtitles.dfy): the HDR10 subtitles and the step-by-step defaulting of all four.
- `LightLevels` (light_levels.dfy): the series, the per-frame measuring loop and the Level 1 replay loop.
- `Cache` (cache.dfy): the json files as a `map` from file name to series, held by the class `LightLevelStore`, with the three-way choice in `Acquire`.
- `SyncTrim` (sync_trim.dfy): the in-place replacement of both lists by their slices.
- `Statistics` (statistics.dfy): `max()` and `sum()/len()` over reals.
- `HdrPlot` (hdr_plot.dfy): one invocation, end to end.

Imperative code in the source stays imperative here:

- The loops that append to `HDRMax`/`HDRFALL` are methods with `for` loops.
- The summary loop that overwrites `profile`, `version` and `subTitleDV2` is a method.
- The subtitle block reassigns four `Option` variables in source order.
- The two-element list `lightLevel` is an `array<seq<real>>` of length 2 whose elements are replaced.
- The cache write updates the store's `files` field.

Each of these methods is proved against a specification function. Its
properties are proved as lemmas.

Behaviour as written that the model makes explicit:

- A negative `trimEnd` passes validation. The slice stop then lies past the
  end and Python clamps it. With such a `trimEnd`, even a `trimStart` beyond
  the last frame passes.
- `trimStart + trimEnd == len(src)` passes validation. It leaves empty
  channels, and `max()` then fails.
- A cached series is never compared with the clip's length. The slice stop is
  computed from the clip and clamped to the cached series.
- L1 replay on a format whose RPU was never extracted fails only when the clip
  has at least one frame.
- The mastering-display luminance is cut at fixed columns 5-10 and 24-27. A
  five-digit maximum such as 10000 nits shows as "1000".
- `hdrFormat == hdrFormat == "Dolby Vision"` (line 156) is a chained
  comparison. It means `hdrFormat == "Dolby Vision"`, so only profile 5 is
  tone-mapped.
- A cache file that is not valid json raises an uncaught exception at
  `json.load` (line 153), and one without the two lists raises at the slice
  (lines 192-193); either ends the run. The model leaves such files out (see
  "Left out").

## Model

| member | source | states |
|---|---|---|
| `PySlice.SliceWithinBounds` | HDRplot.py:192-193 | with `0 <= start <= stop <= len` the Python slice is the plain subsequence |
| `PySlice.SliceWhole` | HDRplot.py:192-193 | `s[0:len(s)]` is `s` |
| `PySlice.SliceNonNegative` | HDRplot.py:192-193 | with non-negative bounds the slice has `min(stop,len) - start` elements (or none) and element `i` is `s[start + i]` |
| `PySlice.SliceNegativeStop` | HDRplot.py:192-193 | a negative stop counts back from the end: `s[0:-k]` drops the last `k` elements |
| `PySlice.Slice` | HDRplot.py:192-193 | `s[start:stop]` computed by clamping both bounds into `0..len` after counting a negative bound from the end; what it means is `SliceIsPythonWindow` |
| `PySlice.SliceIsPythonWindow` | HDRplot.py:192-193 | the clamped slice keeps, in order, exactly the elements whose index `j` has `start <= j < stop` once a negative bound is counted from the end, with no clamping in the reference |
| `Formats.ParseFormat` | HDRplot.py:71-74 | a format string is rejected exactly when it is none of the three accepted names |
| `Formats.FormatName` | HDRplot.py:72 | the three accepted `hdr_format` strings, one per format; `ParseFormatRoundTrip` inverts it |
| `Formats.ParseFormatRoundTrip` | HDRplot.py:72 | parsing and naming are inverse in both directions, so the whitelist is exactly the three names |
| `Formats.FormatBranches` | HDRplot.py:75-79 | every accepted format reads mastering-display data or extracts the RPU; only the combined format does both; only the RPU-only format (profile 5) is tone-mapped before measuring (line 156) |
| `Formats.ReadsMasteringDisplay` | HDRplot.py:75-78 | the formats whose mastering-display primaries and luminance are read: the two with ST 2086; see `FormatBranches` |
| `Formats.ExtractsRpu` | HDRplot.py:79-89 | the formats whose RPU is extracted and summarised: the two with Dolby Vision; see `FormatBranches` |
| `Formats.ToneMapsBeforeMeasuring` | HDRplot.py:156-161 | the chained comparison at line 156, true only for plain "Dolby Vision"; see `FormatBranches` |
| `Validation.CropValid` | HDRplot.py:123-125 | the negation of the rejecting condition at line 123; its meaning is `CropValidIffEvenMargins` |
| `Validation.CropValidIffEvenMargins` | HDRplot.py:123-125 | the crop check passes exactly when all four margins are twice a natural number, that is non-negative and even |
| `Validation.TrimValid` | HDRplot.py:127-129 | the negation of the rejecting condition at line 127; its boundary is `TrimValidBoundary` |
| `Validation.TrimValidBoundary` | HDRplot.py:127-129 | trims summing to exactly the clip length pass and one more frame fails; a negative `trimEnd` never causes a rejection; a start beyond the clip passes with `trimEnd = -1` |
| `DoviSummary.LastMatch` | HDRplot.py:90-96 | the chosen index mentions the tag and no later line does; -1 only when no line mentions it |
| `DoviSummary.Contains` | HDRplot.py:91-96 | Python's substring test `tag in line`, as an occurrence at some position |
| `DoviSummary.LastContaining` | HDRplot.py:90-96 | the line the scan keeps for a tag; its meaning is `LastContainingIsLastMention` |
| `DoviSummary.LastContainingIsLastMention` | HDRplot.py:90-96 | the kept line is absent exactly when no line mentions the tag; otherwise it is the line at the last mentioning index |
| `DoviSummary.ScanSummary` | HDRplot.py:90-96 | the overwriting loop leaves in each of `subTitleDV2`, `profile` and `version` the last line mentioning its tag |
| `DoviSummary.RemoveChar` | HDRplot.py:98 | deleting one literal character leaves no occurrence of it; its other properties are the four lemmas below |
| `DoviSummary.RemoveCharAppend` | HDRplot.py:98 | the deletion from a concatenation is the concatenation of the deletions, so with `RemoveCharSingle` the kept characters keep their order |
| `DoviSummary.RemoveCharSingle` | HDRplot.py:98 | a single character is deleted exactly when it is the given one |
| `DoviSummary.RemoveCharAbsent` | HDRplot.py:98 | a string without the character is returned unchanged |
| `DoviSummary.RemoveCharCounts` | HDRplot.py:98 | counted with multiplicity, every other character keeps its count and the deleted one has none |
| `DoviSummary.IndexOf` | HDRplot.py:99 | the first position of a character, or -1 when it does not occur |
| `DoviSummary.LastIndexOf` | HDRplot.py:99 | the last position of a character, or -1 when it does not occur |
| `DoviSummary.DropThroughLastParenInLine` | HDRplot.py:99 | on one line the result is the suffix that holds no '(' and starts right after a '(' or at the start of the line: exactly the text after the last '(' |
| `DoviSummary.DropThroughLastParen` | HDRplot.py:99 | `re.sub(r'.*\(', '', s)` leaves no '(' in any segment between newlines |
| `DoviSummary.DropThroughLastParenOnLine` | HDRplot.py:99 | on a newline-free line the result is exactly the text after the last '(', and a line without '(' is unchanged |
| `DoviSummary.CleanVersion` | HDRplot.py:99-100 | the cleaned DM version holds neither '(' nor ')'; on one line it is the text after the last '(' with every ')' deleted, and a line with neither parenthesis is unchanged |
| `DoviSummary.DolbyVisionTitle` | HDRplot.py:97-101 | built exactly when both lines were found, as "Dolby Vision " + colon-free profile + ", " + cleaned version; its shape is `DolbyVisionTitleShape` |
| `DoviSummary.DolbyVisionTitleShape` | HDRplot.py:97-101 | the first Dolby Vision subtitle exists exactly when both the profile and the version line were found, and cuts into "Dolby Vision ", the colon-free profile, ", " and the parenthesis-free cleaned version, in that order |
| `Subtitles.LuminanceColumns` | HDRplot.py:77-78 | on MediaInfo's layout the fixed columns give the six-character minimum and the first four characters of the maximum |
| `Subtitles.PrimariesSubtitle` | HDRplot.py:102-103 | the first HDR subtitle: the primaries after "Mastering Display Color Primaries: " |
| `Subtitles.LuminanceSubtitle` | HDRplot.py:77-105 | the luminance subtitle is the prefix, the text's columns 5-10 (at most six characters), '/', its columns 24-27 (at most four characters) and " nits", whatever the MediaInfo text |
| `Subtitles.HdrCandidates` | HDRplot.py:102-105 | the luminance subtitle is set exactly for the formats that read mastering-display data, and is the luminance subtitle of MediaInfo's text; the primaries subtitle is set exactly when such a format also reports primaries, and is the primaries after its prefix |
| `Subtitles.DefaultPair` | HDRplot.py:106-119 | the case table for one pair; its promises are `DefaultPairKeepsAndFills` |
| `Subtitles.DefaultPairKeepsAndFills` | HDRplot.py:106-119 | a subtitle that was set is kept, a lone missing partner becomes "", and two missing ones become "" and the "absent" message |
| `Subtitles.DefaultSubtitles` | HDRplot.py:106-119 | after the six conditional reassignments all four subtitles are defined and each pair is as the case table `DefaultPair` gives it |
| `LightLevels.MeasurementIsUnique` | HDRplot.py:173-180 | two series that both measure frames `0..n-1` of the same clip are equal |
| `LightLevels.MeasureFrames` | HDRplot.py:173-180 | the appending loop yields channels of length `n` whose element `i` is frame `i`'s `HDRMax` / `HDRFALL` |
| `LightLevels.IsMeasurement` | HDRplot.py:173-180 | the specification of the measuring loop: `n` values per channel, value `i` being frame `i`'s measurement; `MeasureFrames` meets it |
| `LightLevels.L1Nits` | HDRplot.py:146-147 | a Level 1 code in nits: the code over 4095, through the EOTF, times 10000 |
| `LightLevels.IsL1Replay` | HDRplot.py:140-150 | the specification of the replay loop: `n` values per channel, value `i` being record `i`'s Level 1 codes in nits |
| `LightLevels.IsL1Outcome` | HDRplot.py:140-150 | what the replay yields: success exactly for an empty clip or an extracted RPU with a record per frame, otherwise unbound or short RPU; `ReplayL1` meets it |
| `LightLevels.ReplayL1` | HDRplot.py:140-150 | the replay succeeds exactly when the clip is empty or an extracted RPU has a record for every frame; then element `i` is record `i`'s Level 1 code over 4095 through the EOTF times 10000; otherwise it fails as unbound RPU or short RPU |
| `Cache.CacheFileNameInjective` | HDRplot.py:137 | distinct identifiers give distinct `lightLevel-<id>.json` names |
| `Cache.CacheFileName` | HDRplot.py:137 | `lightLevel-<id>.json`; distinct identifiers never share it (`CacheFileNameInjective`) |
| `Cache.LightLevelStore.constructor` | HDRplot.py:151 | the store starts with the given files |
| `Cache.LightLevelStore.Acquire` | HDRplot.py:137-185 | L1 replays regardless of any cache file and writes nothing; else an existing file is returned verbatim with no write; else every frame is measured in order and exactly that untrimmed series is written under the identifier's name |
| `Cache.SecondRunReadsCache` | HDRplot.py:151-184 | a second run with the same identifier reads back exactly the series the first run measured and stored, which equals any measurement of the clip |
| `SyncTrim.TrimInPlace` | HDRplot.py:190-193 | both lists are replaced by the same slice `[trimStart : clipLength - trimEnd]` |
| `SyncTrim.TrimmedChannel` | HDRplot.py:190-193 | after validation, with `trimEnd >= 0` and a series as long as the clip, a channel keeps `N - trimStart - trimEnd` frames and frame `i` is input frame `trimStart + i` |
| `SyncTrim.TrimNothing` | HDRplot.py:190-193 | trimming 0 and 0 leaves the channel unchanged |
| `SyncTrim.TrimNegativeEnd` | HDRplot.py:127-193 | a validated negative `trimEnd` clamps the stop: the channel keeps everything from `trimStart`, or nothing when `trimStart` is beyond the clip |
| `SyncTrim.TrimStaleSeries` | HDRplot.py:190-193 | a series of another length is cut at the clip-based bounds clamped to its own length |
| `SyncTrim.TrimKeepsChannelsAligned` | HDRplot.py:190-193 | two channels of equal length come out of equal length, with frame `i` of each being the same input frame |
| `SyncTrim.TrimWholeClip` | HDRplot.py:127-193 | trims summing to the clip length pass validation and leave an empty channel |
| `Statistics.Max` | HDRplot.py:200-201 | `max()` of a non-empty channel is one of its values and no value exceeds it |
| `Statistics.Sum` | HDRplot.py:202-203 | `sum()` adding from the left; its properties are the lemmas below |
| `Statistics.SumConcat` | HDRplot.py:202-203 | the sum of a channel cut in two pieces is the sum of the pieces |
| `Statistics.Mean` | HDRplot.py:202-203 | `sum(s) / len(s)` on a non-empty channel; bounded by `MeanAtMostMax` |
| `Statistics.SumAtMostLengthTimesBound` | HDRplot.py:202-203 | a channel bounded by `b` sums to at most its length times `b` |
| `Statistics.MeanAtMostMax` | HDRplot.py:200-203 | the mean of a non-empty channel never exceeds its maximum |
| `Statistics.MeanAtMostBound` | HDRplot.py:202-203 | a non-empty channel bounded by `b` has a mean at most `b` |
| `Statistics.SumNonNegative` | HDRplot.py:202-203 | non-negative values have a non-negative sum |
| `Statistics.RawStatistics` | HDRplot.py:200-203 | the statistics exist exactly when both trimmed channels are non-empty, and fail as an empty series otherwise |
| `Statistics.RawStatisticsBounds` | HDRplot.py:200-203 | each maximum is a value of its channel that no frame exceeds, each mean is at most its maximum, and non-negative channels have non-negative means |
| `HdrPlot.DefaultInvocation` | HDRplot.py:16-27 | the keyword defaults: identifier "DEFAULT", no title, crop and trims 0, no L1 replay |
| `HdrPlot.DefaultInvocationKeepsWholeSeries` | HDRplot.py:16-27 | with the defaults both checks pass, the title is "HDR grade: " and the path, and the plot keeps the whole series |
| `HdrPlot.Precheck` | HDRplot.py:56-129 | the run passes its checks exactly when the video exists, the format is one of the three, a format reading mastering-display data has its luminance, and crop and trim are valid; each error arises exactly when its check is the first to fail, in the source's order: missing video, unrecognised format, missing luminance, crop, trim |
| `HdrPlot.DefaultTitle` | HDRplot.py:132-133 | the given title, or "HDR grade: " and the path |
| `HdrPlot.RpuFor` | HDRplot.py:84-88 | the RPU records are bound exactly for a format whose RPU is extracted and an L1 run |
| `HdrPlot.DvCandidates` | HDRplot.py:79-101 | the Dolby Vision subtitles before defaulting: the title and the last mastering-display line of the summary, only for formats whose RPU is read |
| `HdrPlot.SubtitlesFor` | HDRplot.py:102-119 | the four subtitles: the HDR and Dolby Vision candidates, each pair defaulted by `DefaultPair` |
| `HdrPlot.ClipFor` | HDRplot.py:156-161 | the tone-mapped clip is measured exactly for plain "Dolby Vision" |
| `HdrPlot.PlotFrom` | HDRplot.py:190-203 | both channels cut by one slice and the statistics taken on them; its properties are `PlotOfValidatedWindow` and `WholeClipTrimFailsAfterValidation` |
| `HdrPlot.PlotOfValidatedWindow` | HDRplot.py:190-203 | for a series as long as the clip and a validated window with `trimEnd >= 0`, a plot exists exactly when a frame is kept; its channels are one slice of the series and its statistics (max at least mean) are taken on them |
| `HdrPlot.WholeClipTrimFailsAfterValidation` | HDRplot.py:127-200 | the window trimming the whole clip passes validation when it starts at a frame, and for any series, stale or not, the run then fails at `max()` |
| `HdrPlot.DeriveSubtitles` | HDRplot.py:90-119 | the subtitle block yields the defaulted pairs of the MediaInfo and RPU-summary candidates |
| `HdrPlot.TrimAndSummarise` | HDRplot.py:190-203 | trimming in place and then computing the statistics yields the plot of the sliced channels |
| `HdrPlot.Run` | HDRplot.py:56-203 | each failed check ends the run with its error before anything is measured and leaves the cache files alone; the cache is written only on a miss and then holds the untrimmed measured series; a plot is the acquired series cut by one slice, with its statistics, title and defaulted subtitles |

## Left out

- The external processes are not modelled: ffmpeg, `dovi_tool extract-rpu`, `info` and `export`, and `rm` (HDRplot.py:80-89). Their outputs are the parameters `summaryLines` and `rpuRecords`. A failing tool or a missing `RPU-temp.json` is not modelled.
- Splitting and stripping the summary output (HDRplot.py:83) are not modelled: the lines arrive already split and stripped.
- MediaInfo parsing (HDRplot.py:61, 71, 76-78) is not modelled: the format, primaries and luminance text are given. A missing luminance on an ST 2086 track is modelled as the error the slicing of `None` raises.
- The nested RPU json (HDRplot.py:144-145) is not modelled: each record is given as its Level 1 codes. A record without a Level 1 block (a `KeyError`) is not modelled.
- Decoding, cropping and tone-mapping through VapourSynth, placebo and awsmfunc (HDRplot.py:121, 135, 158-161) are not modelled, and neither is the per-frame measurement (HDRplot.py:167). Measurement is the function parameter `measure`, applied to the cropped or the tone-mapped clip. Both clips are taken to have the decoded clip's length.
- The PQ transfer functions are computed by awsmfunc. The EOTF is the parameter `eotf`. The inverse EOTF, `np.percentile` and the perceptual peaks `maxCLLpq`/`maxFALLpq` (HDRplot.py:205-209) are left out: they are floating-point library numerics.
- Statistics.RawStatistics: computes exact real maxima and means, without `round(..., 2)` and without floating-point effects (NaN, infinities, summation error).
- Statistics.RawStatistics: reports the `ValueError` of `max([])` and the `ZeroDivisionError` of an empty mean as one error, `EmptySeries`. `max()` is always reached first.
- JSON reading and writing (HDRplot.py:151-153, 183-184) are not modelled. A cache file is a `map` entry holding a pair of sequences, so a corrupt or differently shaped file is not modelled.
- Files are keyed by the relative name, without `os.path.abspath`.
- Plotting, tick formatting, the legend and the png (HDRplot.py:216-253) are left out, and so is console output (HDRplot.py:54, 58, 73, 124, 128, 178). The values handed to the plot are the `Plot` record.

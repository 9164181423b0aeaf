/**
 * The brightness series of a clip: per frame its peak (MaxCLL channel,
 * `HDRMax`) and its frame-average light level (MaxFALL channel, `HDRFALL`),
 * both in nits. A series is obtained either by measuring every frame or by
 * replaying the Level 1 metadata of the Dolby Vision RPU.
 */
module LightLevels {
  import opened Wrappers
  import opened Errors

  /** The pair `[HDRMax, HDRFALL]`, as it lives in memory and in the json cache. */
  datatype LightLevel = LightLevel(maxCll: seq<real>, fall: seq<real>)

  /** The two frame properties the HDR measurement leaves on a frame. */
  datatype FrameLight = FrameLight(hdrMax: real, hdrFall: real)

  /** The Level 1 block of one RPU record: 12-bit PQ codes of the frame's peak and average. */
  datatype L1Metadata = L1Metadata(maxPq: int, avgPq: int)

  /** The clip that is measured: the cropped decode, or its tone-mapping to HDR10 (profile 5). */
  datatype MeasuredClip = Cropped | ToneMapped

  /** A measurement function: the frame properties of frame `i` of a clip. */
  type Measure = (MeasuredClip, nat) -> FrameLight

  /** The PQ electro-optical transfer function, from a code in [0, 1] to a fraction of 10000 nits. */
  type Eotf = real -> real

  const PqCodeScale: real := 4095.0
  const ReferenceNits: real := 10000.0

  /** A Level 1 code in nits: the code over 4095, through the EOTF, times 10000. */
  function L1Nits(eotf: Eotf, code: int): real
  {
    eotf(code as real / PqCodeScale) * ReferenceNits
  }

  /** `ll` holds the measurements of frames 0 .. n-1 of `clip`, in frame order. */
  ghost predicate IsMeasurement(ll: LightLevel, n: nat, clip: MeasuredClip, measure: Measure)
  {
    |ll.maxCll| == n && |ll.fall| == n &&
    forall i | 0 <= i < n :: ll.maxCll[i] == measure(clip, i).hdrMax && ll.fall[i] == measure(clip, i).hdrFall
  }

  /** `ll` holds the Level 1 values of records 0 .. n-1, converted to nits, in frame order. */
  ghost predicate IsL1Replay(ll: LightLevel, records: seq<L1Metadata>, n: nat, eotf: Eotf)
  {
    n <= |records| && |ll.maxCll| == n && |ll.fall| == n &&
    forall i | 0 <= i < n :: ll.maxCll[i] == L1Nits(eotf, records[i].maxPq) && ll.fall[i] == L1Nits(eotf, records[i].avgPq)
  }

  /** A measurement is determined by its clip and frame count: measuring twice gives the same series. */
  lemma MeasurementIsUnique(a: LightLevel, b: LightLevel, n: nat, clip: MeasuredClip, measure: Measure)
    requires IsMeasurement(a, n, clip, measure) && IsMeasurement(b, n, clip, measure)
    ensures a == b
  {
  }

  /**
   * The measuring loop: for every frame in order, append its two properties
   * to the two lists.
   */
  method MeasureFrames(n: nat, clip: MeasuredClip, measure: Measure) returns (ll: LightLevel)
    ensures IsMeasurement(ll, n, clip, measure)
  {
    var hdrMax: seq<real> := [];
    var hdrFall: seq<real> := [];
    for frame := 0 to n
      invariant |hdrMax| == frame && |hdrFall| == frame
      invariant forall i | 0 <= i < frame :: hdrMax[i] == measure(clip, i).hdrMax && hdrFall[i] == measure(clip, i).hdrFall
    {
      var props := measure(clip, frame);
      hdrMax := hdrMax + [props.hdrMax];
      hdrFall := hdrFall + [props.hdrFall];
    }
    ll := LightLevel(hdrMax, hdrFall);
  }

  /**
   * What replaying the RPU yields for an `n`-frame clip: the RPU is needed
   * only if there is a frame to read, and then it must have been extracted
   * and hold a record for every frame.
   */
  ghost predicate IsL1Outcome(r: Result<LightLevel, PlotError>, n: nat, rpu: Option<seq<L1Metadata>>, eotf: Eotf)
  {
    && (r.Success? <==> n == 0 || (rpu.Some? && n <= |rpu.value|))
    && (r.Failure? ==> r.error == if rpu.None? then RpuUndefined else RpuTooShort)
    && (r.Success? ==> IsL1Replay(r.value, if rpu.Some? then rpu.value else [], n, eotf))
  }

  /**
   * The L1 loop: for every frame in order, read the record's Level 1 codes
   * and append them in nits. An RPU that was never extracted is noticed at
   * the first frame; a short RPU at the first frame it lacks.
   */
  method ReplayL1(n: nat, rpu: Option<seq<L1Metadata>>, eotf: Eotf) returns (r: Result<LightLevel, PlotError>)
    ensures IsL1Outcome(r, n, rpu, eotf)
  {
    var hdrMax: seq<real> := [];
    var hdrFall: seq<real> := [];
    for frame := 0 to n
      invariant frame > 0 ==> rpu.Some? && frame <= |rpu.value|
      invariant |hdrMax| == frame && |hdrFall| == frame
      invariant forall i | 0 <= i < frame ::
                  hdrMax[i] == L1Nits(eotf, rpu.value[i].maxPq) && hdrFall[i] == L1Nits(eotf, rpu.value[i].avgPq)
    {
      if rpu.None? {
        return Failure(RpuUndefined);
      }
      if frame >= |rpu.value| {
        return Failure(RpuTooShort);
      }
      var record := rpu.value[frame];
      hdrMax := hdrMax + [L1Nits(eotf, record.maxPq)];
      hdrFall := hdrFall + [L1Nits(eotf, record.avgPq)];
    }
    r := Success(LightLevel(hdrMax, hdrFall));
  }
}

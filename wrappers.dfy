/** Option and Result, the two failure-carrying shapes used throughout the model. */
module Wrappers {

  /** A value that may be absent: Python's `None` versus a bound value. */
  datatype Option<+T> = None | Some(value: T)

  /** Either a computed value or the reason the invocation stopped. */
  datatype Result<+R, +E> = Success(value: R) | Failure(error: E)
}

/** The ways one HDRplot invocation can stop before producing a plot. */
module Errors {

  datatype PlotError =
    | VideoNotFound        // the video path does not exist; message and return
    | FormatNotRecognized  // the HDR format is not one of the three accepted names; message and return
    | LuminanceMissing     // ST 2086 track without a mastering-display luminance: slicing None raises
    | IncorrectCrop        // a negative or odd crop margin; message and return
    | IncorrectTrim        // a trim window outside the clip; message and return
    | RpuUndefined         // L1 replay on a track whose RPU was never extracted (unbound name)
    | RpuTooShort          // L1 replay with fewer RPU records than frames (index out of range)
    | EmptySeries          // max() of an empty trimmed channel
}

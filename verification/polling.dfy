/** The outside world of one poll cycle: what the HTTP GET of the frame returns, and the
    ways a cycle can fail. */
module Polling {
  import opened Wrappers
  import opened Frames

  /** The reply to one GET of the frame URL. The body is given already decoded: `frame` is
      the RGB image PIL reads from it, or `None` when the bytes are not an image. */
  datatype Reply =
    | Reply(status: int, frame: Option<Frame>)
    | TransportFailure    // connection refused, DNS failure, or the 10-second timeout expired

  /** Why a poll cycle produced no reading (the coordinator raises `UpdateFailed`). */
  datatype PollError =
    | Transport               // the request itself failed
    | HttpStatus(status: int) // any status other than 200
    | Undecodable             // the body is not an image
    | EmptyRegion             // no pixels to average (empty image or degenerate crop box)
    | CropOutsideFrame        // the crop box reaches beyond the decoded image
}

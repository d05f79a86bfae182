/**
 * The feed items the bot distributes, the content-type tags it sorts them
 * into, the renderers that post them and what a renderer call can end in.
 */
module Submission {

  /** The fields of a feed-platform submission that the distribution logic reads. */
  datatype Submission = Submission(
    title: string,
    url: string,
    selftext: string,
    isVideo: bool,
    over18: bool,
    spoiler: bool)

  /** The closed set of content types, with their precedence as a rank (lower wins). */
  datatype SubmissionType = Gallery | Image | Video | Selftext | Unknown {
    function Rank(): nat {
      match this
      case Gallery => 0
      case Image => 1
      case Video => 2
      case Selftext => 3
      case Unknown => 4
    }
  }

  /** The renderers: one `sendSubmissionAsX` function each. */
  datatype Renderer = AsImage | AsVideo | AsGallery | AsContentText | AsText

  /** How one renderer call ends: it reports success, reports `Error`, or throws. */
  datatype Outcome = Success | Error | Throw
}

/** What the two recorders hand back to the bot when a recording stops, and
    the path helpers both of them need. */
module Recording {
  import opened Wrappers
  import opened Drive

  /** Why an upload that was attempted did not complete: Drive refused it,
      or the local file could not be deleted afterwards (that error is
      raised inside the same `try` as the upload). */
  datatype FailureCause = DriveError(error: UploadError) | DeleteFailed

  /** The dict / object `stop_recording` / `stopRecording` returns when it
      got as far as the upload. `duration` is in the version's clock unit:
      microseconds in Python, milliseconds in JavaScript. */
  datatype Outcome =
    | Uploaded(filename: string, duration: int, driveLink: Option<string>, driveId: Option<string>)
    | UploadFailed(filename: string, duration: int, localPath: string, cause: FailureCause)

  /** The share link the bot posts, present only when Drive returned a
      non-empty `webViewLink`. */
  function ShareLink(result: Option<Outcome>): (link: Option<string>)
    ensures link.Some? <==>
              result.Some? && result.value.Uploaded? &&
              result.value.driveLink.Some? && result.value.driveLink.value != ""
    ensures link.Some? ==> link == result.value.driveLink
  {
    match result
    case Some(Uploaded(_, _, Some(l), _)) => if l != "" then Some(l) else None
    case _ => None
  }

  /** A file name with no '/' in it. */
  predicate IsBaseName(f: string) {
    '/' !in f
  }
}

/** Records shared by the download scheduler, the collection expander and the
    request router of the local download service. */
module Jobs {

  datatype Option<+T> = None | Some(value: T)

  /** One unit of downloader work: the locator handed to the external
      downloader, the directory it writes into, the request category
      ("track", "album", "playlist", "artist", or whatever string the caller
      sent) and the display name reported by the status query. */
  datatype Job = Job(url: string, outputPath: string, kind: string, name: string)

  /** How a promise settles: resolved with the downloader's standard output,
      or rejected with an error message. */
  datatype Outcome = Resolved(value: string) | Rejected(error: string)
}

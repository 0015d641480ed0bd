/** The GitHub release records both updaters decode, and what an API call returns. */
module GitHub {
  import opened Wrappers

  datatype Asset = Asset(name: string, downloadUrl: string)

  datatype Release = Release(tagName: string, prerelease: bool, assets: seq<Asset>)

  /**
   * The result of an HTTP GET whose body is decoded as JSON: a transport
   * failure, or the status code and status text (`resp.Status`, such as
   * "404 Not Found") with the decoded body (or the decoder's error).
   */
  datatype Response<T> = TransportError(message: string) | Reply(status: int, statusText: string, body: Result<T>)

  const StatusOK: int := 200

  /** How an update command ends when it does not fail. */
  datatype UpdateAction = AlreadyLatest | Updated(tag: string)
}

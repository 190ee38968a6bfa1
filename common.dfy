/** Values shared by every stage of the parcel-coordinates processing. */
module Common {

  datatype Option<+T> = None | Some(value: T)

  /** The outcome of one HTTP request: a decoded body, or a failure carrying the
      status the HTTP client reports (a failure without a response, such as a
      broken connection, is any status other than 404). */
  datatype Reply<+T> = Ok(data: T) | Fail(status: int)

  /** A value, or the error that stopped the computation. */
  datatype Result<+T> = Success(value: T) | Failure(error: Error)

  const NotFoundStatus: int := 404

  /** The reasons a run stops with an error. */
  datatype Error =
    | HttpError(status: int)        // a request failed and the error was rethrown
    | DatasetExists                 // create mode, and the requested id is already taken
    | DatasetMissing                // update mode, and the dataset body is empty
    | EmptyBody                     // a create reply whose body is null (reading its id throws)
    | NoDataset                     // no dataset was set up, so no upload URL can be formed
    | CorruptArchive(path: string)  // decompressing or parsing an archive failed
    | InsertFailed(nbErrors: nat)   // a bulk reply reported rejected lines

  /** JavaScript truthiness of an optional string: absent and "" are falsy. */
  predicate Truthy(s: Option<string>)
  {
    s.Some? && s.value != ""
  }
}

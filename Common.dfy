/** Values shared by the two request handlers: optional query parameters,
    what the document store hands back, and the HTTP responses. */
module Common {

  datatype Option<+T> = None | Some(value: T)

  /** A `{"$regex": pattern, "$options": "i"}` condition on a string field of
      a store query. What it matches is up to the store. */
  datatype Pattern = CaseInsensitiveRegex(pattern: string)

  /** The outcome of one `find` against the document store: the records it
      returned, or a failure of the store call or of reading a record. */
  datatype Fetch<+R> = Fetched(records: seq<R>) | FetchFailed

  /** The two things the flight handler's second `try` block can raise. */
  datatype ReturnLegCause = StoreError | IndexOutOfRange

  /** The `message` body of a failed response. The texts of Python exceptions
      are not modelled, only which exception produced the message. */
  datatype Message =
    | BadInput                          // the "Bad input" message
    | InvalidDate(value: string)        // ValueError raised by date.fromisoformat(value)
    | DateutilFailure                   // exception raised by dateutil's parser.parse
    | CannotGetFlights                  // the "Cannot get flights!" message
    | ReturnLegError(cause: ReturnLegCause)
    | CannotGetHotels                   // the "Cannot get hotels!" message
    | UnhandledException                // Flask's own answer to an exception the handler lets escape

  const BadRequest: int := 400
  const InternalServerError: int := 500

  /** A handler's answer: a 200 response (`Ok`) carrying the JSON rows, or an error
      status with its message. */
  datatype Response<+Row> = Ok(rows: seq<Row>) | Error(status: int, message: Message)

  /** Python truthiness of a query parameter read with `request.args.get`:
      a missing parameter is `None` and an empty one is `""`, both false. */
  predicate Present(arg: Option<string>)
  {
    arg.Some? && arg.value != ""
  }
}

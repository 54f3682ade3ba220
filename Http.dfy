/** One GET request to the parking-measurements endpoint, as the caller sees its outcome.
    The request itself (session, headers, query, 10-second timeout) is I/O and is not
    modelled; its outcome is an input. */
module Http {
  import opened JsonValues

  /** What `await response.json()` produced. */
  datatype Payload =
    | Decoded(value: Json)
      // the body was not served as JSON: aiohttp raises ContentTypeError, a ClientError
    | WrongContentType
      // the body was served as JSON but did not parse: a ValueError, not a ClientError
    | Undecodable

  /** The outcome of the request. */
  datatype Exchange =
      // the request raised an aiohttp.ClientError (connection refused, DNS, reset, ...)
    | ClientFailure
      // the request raised some other exception (a timeout reported as asyncio.TimeoutError, ...)
    | OtherFailure
      // a response arrived with this status; the payload is only read when the status passes
    | Response(status: int, payload: Payload)
}

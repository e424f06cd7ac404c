/**
 * What the client hands to net/http and what comes back, abstracted: a
 * request value, the outcome of dispatching it, and the Response envelope
 * every operation returns.
 */
module Transport {
  import opened Wrappers
  import opened Config

  newtype byte = x: int | 0 <= x < 256

  type Bytes = seq<byte>

  /** net/http accepts only a three-digit status code. */
  type StatusCode = s: int | 0 <= s <= 999

  /** http.MethodPost, http.MethodGet, http.MethodDelete. */
  datatype Verb = MethodPost | MethodGet | MethodDelete

  /** A request as the client builds it: method, URL, the Content-type
      header, the body (None for a nil body) and the http.Client timeout. */
  datatype Request = Request(
    verb: Verb,
    url: string,
    contentType: string,
    payload: Option<Bytes>,
    timeout: Duration)

  /** How dispatching a request ended. */
  datatype Outcome =
    | Unsent                                            // http.NewRequest failed
    | NoResponse                                        // Do failed: nothing came back
    | Answered(status: StatusCode, body: Option<Bytes>) // a response; body None when reading it failed

  /** The envelope: the response body (None for a nil slice) and the status code. */
  datatype Response = Response(body: Option<Bytes>, code: int)

  /** The envelope every operation starts from, and returns when it fails. */
  const Unanswered := Response(None, -1)
}

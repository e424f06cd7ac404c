/**
 * Connection parameters of the client: the error the configuration code
 * reports, the parameter bundle a caller passes in, the settings a client
 * holds, the package's default values and the helpers that apply them.
 */
module Config {

  /** The errors the client reports. Go wraps ErrParamNotSet with a field
      label whose text is not reliable, so the label is not kept. */
  datatype Error =
    | ParamNotSet            // a mandatory parameter is empty
    | MissingMandatoryField  // the target URI was asked for without BaseURI or Resource
    | RequestInvalid         // http.NewRequest refused the request
    | TransportFailure       // the request was sent but no response came back
    | BodyUnreadable         // the response body could not be read to the end

  /** time.Duration: a count of nanoseconds. */
  type Duration = int

  const Second: Duration := 1_000_000_000

  const DefaultProtocol := "http"
  const DefaultTimeout: Duration := 10 * Second
  const DefaultPort := "8080"
  const DefaultContentType := "application/vnd.api+json"

  /** The parameter bundle a caller hands to NewClient and updateParameters. */
  datatype Parameters = Parameters(baseURI: string, contentType: string, resource: string)

  /** Every field of a Client, as one value. */
  datatype Settings = Settings(
    protocol: string,
    host: string,
    port: string,
    baseURI: string,
    contentType: string,
    resource: string)

  /** The zero value of a Client: every field empty. */
  const Blank := Settings("", "", "", "", "", "")

  /** The fields the target URI needs are present. */
  predicate Addressable(s: Settings) {
    s.baseURI != "" && s.resource != ""
  }

  /** checkTimeout: a zero timeout means the default of ten seconds. */
  function CheckTimeout(timeout: Duration): (r: Duration)
    ensures r != 0
    ensures timeout != 0 ==> r == timeout
    ensures timeout == 0 ==> r == 10 * Second
  {
    if timeout == 0 then DefaultTimeout else timeout
  }

  /** checkContentType: the bundle's content type, or the JSON:API media type when it is empty. */
  function CheckContentType(p: Parameters): (r: string)
    ensures r != ""
    ensures p.contentType != "" ==> r == p.contentType
    ensures p.contentType == "" ==> r == "application/vnd.api+json"
  {
    if p.contentType == "" then DefaultContentType else p.contentType
  }

  /** checkProtocol: an empty protocol means plain HTTP. */
  function CheckProtocol(protocol: string): (r: string)
    ensures r != ""
    ensures protocol != "" ==> r == protocol
    ensures protocol == "" ==> r == "http"
  {
    if protocol == "" then DefaultProtocol else protocol
  }

  /** checkPort: an empty port means 8080. */
  function CheckPort(port: string): (r: string)
    ensures r != ""
    ensures port != "" ==> r == port
    ensures port == "" ==> r == "8080"
  {
    if port == "" then DefaultPort else port
  }

  /** Applying a default twice is applying it once. */
  lemma CheckTimeoutIdempotent(timeout: Duration)
    ensures CheckTimeout(CheckTimeout(timeout)) == CheckTimeout(timeout)
  {
  }

  lemma CheckContentTypeIdempotent(p: Parameters)
    ensures CheckContentType(p.(contentType := CheckContentType(p))) == CheckContentType(p)
  {
  }

  lemma CheckProtocolIdempotent(protocol: string)
    ensures CheckProtocol(CheckProtocol(protocol)) == CheckProtocol(protocol)
  {
  }

  lemma CheckPortIdempotent(port: string)
    ensures CheckPort(CheckPort(port)) == CheckPort(port)
  {
  }
}

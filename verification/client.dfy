/**
 * The Client: its fields, the operations that update them in place, the
 * constructor that validates and defaults them, and the three operations
 * that address a request, hand it to the transport and fill in the envelope.
 */
module Client {
  import opened Wrappers
  import opened Config
  import opened Addressing
  import opened Transport

  /** How Create and Fetch turn a dispatch outcome into the envelope and the
      error: an answer whose body was read is a success whatever its status;
      every other outcome leaves the starting envelope beside its error. */
  predicate Settled(out: Outcome, response: Response, err: Option<Error>) {
    match out
    case Answered(status, Some(body)) => response == Response(Some(body), status) && err == None
    case Answered(_, None) => response == Unanswered && err == Some(BodyUnreadable)
    case NoResponse => response == Unanswered && err == Some(TransportFailure)
    case Unsent => response == Unanswered && err == Some(RequestInvalid)
  }

  class Client {
    var protocol: string
    var host: string
    var port: string
    var baseURI: string
    var contentType: string
    var resource: string

    /** All fields as one value. */
    function State(): Settings
      reads this
    {
      Settings(protocol, host, port, baseURI, contentType, resource)
    }

    /** What NewClient establishes on success: a host, and a target URI. */
    predicate Valid()
      reads this
    {
      host != "" && Addressable(State())
    }

    /** The zero value of the Go struct. */
    constructor ()
      ensures State() == Blank
    {
      protocol, host, port := "", "", "";
      baseURI, contentType, resource := "", "", "";
    }

    /** updateBaseURI: an empty argument is refused and changes nothing;
        otherwise BaseURI alone takes the new value. */
    method UpdateBaseURI(baseURI: string) returns (err: Option<Error>)
      modifies this
      ensures err.Some? <==> baseURI == ""
      ensures err.Some? ==> err.value == ParamNotSet
      ensures State() == if baseURI == "" then old(State()) else old(State()).(baseURI := baseURI)
      ensures old(Valid()) ==> Valid()
    {
      if baseURI == "" {
        return Some(ParamNotSet);
      }
      this.baseURI := baseURI;
      return None;
    }

    /** updateResource: an empty argument is refused and changes nothing;
        otherwise Resource alone takes the new value. */
    method UpdateResource(resource: string) returns (err: Option<Error>)
      modifies this
      ensures err.Some? <==> resource == ""
      ensures err.Some? ==> err.value == ParamNotSet
      ensures State() == if resource == "" then old(State()) else old(State()).(resource := resource)
      ensures old(Valid()) ==> Valid()
    {
      if resource == "" {
        return Some(ParamNotSet);
      }
      this.resource := resource;
      return None;
    }

    /** updateParameters: BaseURI, then Resource, then ContentType, stopping
        at the first empty mandatory field, so a refused Resource leaves the
        new BaseURI behind. */
    method UpdateParameters(p: Parameters) returns (err: Option<Error>)
      modifies this
      ensures err.None? <==> p.baseURI != "" && p.resource != ""
      ensures err.Some? ==> err.value == ParamNotSet
      ensures p.baseURI == "" ==> State() == old(State())
      ensures p.baseURI != "" && p.resource == "" ==> State() == old(State()).(baseURI := p.baseURI)
      ensures err.None? ==>
        State() == old(State()).(baseURI := p.baseURI, resource := p.resource, contentType := CheckContentType(p))
      ensures err.None? ==> Addressable(State())
      ensures old(Valid()) ==> Valid()
    {
      err := UpdateBaseURI(p.baseURI);
      if err.Some? {
        return;
      }
      err := UpdateResource(p.resource);
      if err.Some? {
        return;
      }
      if p.contentType == "" {
        contentType := DefaultContentType;
      } else {
        contentType := p.contentType;
      }
    }

    /** The request an operation dispatches: every method carries the
        configured Content-type header, and a zero timeout means the default. */
    function Outbound(verb: Verb, url: string, payload: Option<Bytes>, timeout: Duration): (r: Request)
      reads this
      ensures r.verb == verb && r.url == url && r.payload == payload
      ensures r.contentType == contentType
      ensures timeout != 0 ==> r.timeout == timeout
      ensures timeout == 0 ==> r.timeout == 10 * Second
    {
      Request(verb, url, contentType, payload, CheckTimeout(timeout))
    }

    /** Create: POST the payload to the target URI. Any status the server
        answers with, 404 or 409 included, is a success that carries the
        status and the body; every failure leaves the starting envelope. */
    method Create(input: Bytes, timeout: Duration, transport: Request -> Outcome)
      returns (response: Response, err: Option<Error>)
      ensures err.Some? <==> response == Unanswered
      ensures match UpdateURI(State())
        case Failure(e) => err == Some(e)
        case Success(uri) =>
          Settled(transport(Outbound(MethodPost, uri, Some(input), timeout)), response, err)
    {
      response := Response(None, -1);
      var uri := UpdateURI(State());
      if uri.Failure? {
        return response, Some(uri.error);
      }
      var out := transport(Outbound(MethodPost, uri.value, Some(input), timeout));
      match out {
        case Unsent =>
          err := Some(RequestInvalid);
        case NoResponse =>
          err := Some(TransportFailure);
        case Answered(status, body) =>
          if body.None? {
            return response, Some(BodyUnreadable);
          }
          response := response.(body := body);
          response := response.(code := status);
          err := None;
      }
    }

    /** Fetch: GET the target URI followed by the id; the envelope is filled
        as Create fills it. */
    method Fetch(id: string, timeout: Duration, transport: Request -> Outcome)
      returns (response: Response, err: Option<Error>)
      ensures err.Some? <==> response == Unanswered
      ensures match UpdateURI(State())
        case Failure(e) => err == Some(e)
        case Success(uri) =>
          Settled(transport(Outbound(MethodGet, FetchTarget(uri, id), None, timeout)), response, err)
    {
      response := Response(None, -1);
      var uri := UpdateURI(State());
      if uri.Failure? {
        return response, Some(uri.error);
      }
      var out := transport(Outbound(MethodGet, FetchTarget(uri.value, id), None, timeout));
      match out {
        case Unsent =>
          err := Some(RequestInvalid);
        case NoResponse =>
          err := Some(TransportFailure);
        case Answered(status, body) =>
          if body.None? {
            return response, Some(BodyUnreadable);
          }
          response := response.(body := body);
          response := response.(code := status);
          err := None;
      }
    }

    /** Delete: DELETE the target URI followed by the id and the version
        query. Only the status is kept: the body is never read and stays nil. */
    method Delete(id: string, version: int, timeout: Duration, transport: Request -> Outcome)
      returns (response: Response, err: Option<Error>)
      ensures response.body == None
      ensures err.Some? <==> response.code == -1
      ensures match UpdateURI(State())
        case Failure(e) => err == Some(e)
        case Success(uri) =>
          match transport(Outbound(MethodDelete, DeleteTarget(uri, id, version), None, timeout))
          case Answered(status, _) => response.code == status
          case NoResponse => err == Some(TransportFailure)
          case Unsent => err == Some(RequestInvalid)
    {
      response := Response(None, -1);
      var uri := UpdateURI(State());
      if uri.Failure? {
        return response, Some(uri.error);
      }
      var out := transport(Outbound(MethodDelete, DeleteTarget(uri.value, id, version), None, timeout));
      match out {
        case Unsent =>
          err := Some(RequestInvalid);
        case NoResponse =>
          err := Some(TransportFailure);
        case Answered(status, _) =>
          response := response.(code := status);
          err := None;
      }
    }
  }

  /** NewClient: refuses an empty host, then an empty BaseURI or Resource;
      on success the host, BaseURI and Resource are the caller's and the
      other three fields are defaulted only where the caller left them empty.
      On failure the client built so far is returned beside the error. */
  method NewClient(host: string, port: string, protocol: string, p: Parameters)
    returns (c: Client, err: Option<Error>)
    ensures fresh(c)
    ensures err.None? <==> host != "" && p.baseURI != "" && p.resource != ""
    ensures err.Some? ==> err.value == ParamNotSet
    ensures host == "" ==> c.State() == Blank
    ensures host != "" && err.Some? ==> c.State() == Blank.(baseURI := p.baseURI)
    ensures err.None? ==>
      c.State() == Settings(CheckProtocol(protocol), host, CheckPort(port), p.baseURI, CheckContentType(p), p.resource)
    ensures err.None? ==> c.Valid()
  {
    c := new Client();
    if host == "" {
      return c, Some(ParamNotSet);
    }
    err := c.UpdateParameters(p);
    if err.Some? {
      return;
    }
    c.host, c.port, c.protocol := host, CheckPort(port), CheckProtocol(protocol);
    c.baseURI, c.contentType, c.resource := p.baseURI, p.contentType, p.resource;
    c.contentType := CheckContentType(p);
  }

  /** A client NewClient accepted, updated any number of times since, always
      has a target URI, so no operation fails for want of one. */
  lemma ValidIsAddressable(c: Client)
    requires c.Valid()
    ensures UpdateURI(c.State()).Success?
    ensures UpdateURI(c.State()).value[..|Origin(c.State())|] == Origin(c.State())
  {
  }

  /** What Create's code does with a dispatch outcome as written: when Do
      fails it reads the status of the response, which is nil. */
  datatype Step = Returned(response: Response, err: Option<Error>) | NilDereference

  function CreateAsWritten(out: Outcome): (r: Step)
    ensures r.NilDereference? <==> out.NoResponse?
  {
    match out
    case Unsent => Returned(Unanswered, Some(RequestInvalid))
    case NoResponse => NilDereference
    case Answered(_, None) => Returned(Unanswered, Some(BodyUnreadable))
    case Answered(status, Some(body)) => Returned(Response(Some(body), status), None)
  }

  /** Apart from the nil dereference, the code as written settles every
      outcome as Create does: the two differ on NoResponse alone. */
  lemma CreateAsWrittenAgreesElsewhere(out: Outcome)
    requires !out.NoResponse?
    ensures CreateAsWritten(out).Returned?
    ensures Settled(out, CreateAsWritten(out).response, CreateAsWritten(out).err)
  {
  }

  /** The integration tests' client: host "accountapi", no port, no protocol, and the
      organisation accounts parameters. NewClient accepts it and its target
      URI is http://accountapi:8080/v1/organisation/accounts/. */
  method DefaultClientAddress() returns (err: Option<Error>, uri: Result<string, Error>)
    ensures err == None
    ensures uri == Success("http://accountapi:8080/v1/organisation/accounts/")
  {
    var p := Parameters("/v1/organisation/", "", "accounts");
    var c;
    c, err := NewClient("accountapi", "", "", p);
    DefaultTargetURI();
    uri := UpdateURI(c.State());
  }
}

/** The error side of the push handler: the `WebPushError` enum of the
    web-push library, the `PushError` wrapper the handler returns, and the
    classification that turns an error into an HTTP error response
    (src/main.rs:49-85). */
module PushErrors {
  import opened Wrappers
  import HttpStatus

  /** A `std::time::Duration`, to whole seconds (all the handler uses). */
  datatype Duration = Duration(seconds: nat)

  /** Every variant of the library's error enum, with its payload. */
  datatype WebPushError =
    | Unspecified
    | Unauthorized
    | BadRequest(detail: Option<string>)
    | ServerError(retryAfter: Option<Duration>)
    | NotImplemented
    | InvalidUri
    | TimeoutError
    | EndpointNotValid
    | EndpointNotFound
    | PayloadTooLarge
    | TlsError
    | SslError
    | IoError
    | InvalidPackageName
    | InvalidTtl
    | MissingCryptoKeys
    | InvalidCryptoKeys
    | InvalidResponse
    | Other(message: string)

  /** The source declares the `InvalidPackageName` arm of its match
      unreachable (its comment names Firebase); the model takes that declaration as
      a precondition of the classification rather than modelling the panic. */
  predicate Reachable(e: WebPushError) {
    !e.InvalidPackageName?
  }

  /** The request or the subscription it names was malformed. */
  predicate IsMalformedInput(e: WebPushError) {
    e.BadRequest? || e.InvalidUri? || e.InvalidTtl? || e.MissingCryptoKeys? || e.InvalidCryptoKeys?
  }

  /** The push service or the transport to it failed. */
  predicate IsUpstreamFailure(e: WebPushError) {
    || e.ServerError? || e.TlsError? || e.SslError? || e.IoError?
    || e.InvalidResponse? || e.Unspecified? || e.Other?
  }

  /** The groups the classification splits the reachable errors into. */
  datatype Group =
    | AuthRejected      // the push service refused the VAPID signature
    | EndpointGone      // the subscription has expired or been revoked
    | EndpointMissing   // the push service does not know the endpoint
    | TooLarge          // the encrypted payload exceeds the service's limit
    | MalformedInput    // the request itself was bad
    | UpstreamFailure   // the push service or the transport failed
    | Unimplemented     // the library does not support what was asked
    | TimedOut          // the send did not finish within its timeout
  {
    /** The groups the handler answers as the request side's problem: the
        ones it maps to a 4xx status. */
    predicate IsRequestSide() {
      AuthRejected? || EndpointGone? || EndpointMissing? || TooLarge? || MalformedInput?
    }
  }

  /** The group of a reachable error, decided one group at a time. */
  function GroupOf(e: WebPushError): Group
    requires Reachable(e)
  {
    if e.Unauthorized? then AuthRejected
    else if e.EndpointNotValid? then EndpointGone
    else if e.EndpointNotFound? then EndpointMissing
    else if e.PayloadTooLarge? then TooLarge
    else if IsMalformedInput(e) then MalformedInput
    else if IsUpstreamFailure(e) then UpstreamFailure
    else if e.NotImplemented? then Unimplemented
    else TimedOut
  }

  /** The status the handler answers each group with; each is a code
      registered in RFC 7231 section 6 or RFC 7235 section 3.1. */
  function GroupStatus(g: Group): HttpStatus.StatusCode {
    match g
    case AuthRejected => HttpStatus.Unauthorized
    case EndpointGone => HttpStatus.Gone
    case EndpointMissing => HttpStatus.NotFound
    case TooLarge => HttpStatus.PayloadTooLarge
    case MalformedInput => HttpStatus.BadRequest
    case UpstreamFailure => HttpStatus.BadGateway
    case Unimplemented => HttpStatus.NotImplemented
    case TimedOut => HttpStatus.GatewayTimeout
  }

  /** Reads a group back from the status it is answered with. */
  function GroupOfStatus(s: HttpStatus.StatusCode): Option<Group> {
    if s == HttpStatus.Unauthorized then Some(AuthRejected)
    else if s == HttpStatus.Gone then Some(EndpointGone)
    else if s == HttpStatus.NotFound then Some(EndpointMissing)
    else if s == HttpStatus.PayloadTooLarge then Some(TooLarge)
    else if s == HttpStatus.BadRequest then Some(MalformedInput)
    else if s == HttpStatus.BadGateway then Some(UpstreamFailure)
    else if s == HttpStatus.NotImplemented then Some(Unimplemented)
    else if s == HttpStatus.GatewayTimeout then Some(TimedOut)
    else None
  }

  /** The status match of `into_response`, one arm per variant. Each group of
      errors gets exactly its own status: every clause is an if-and-only-if. */
  function StatusOf(e: WebPushError): (s: HttpStatus.StatusCode)
    requires Reachable(e)
    ensures e.Unauthorized? <==> s == HttpStatus.Unauthorized
    ensures e.EndpointNotValid? <==> s == HttpStatus.Gone
    ensures e.EndpointNotFound? <==> s == HttpStatus.NotFound
    ensures e.PayloadTooLarge? <==> s == HttpStatus.PayloadTooLarge
    ensures IsMalformedInput(e) <==> s == HttpStatus.BadRequest
    ensures IsUpstreamFailure(e) <==> s == HttpStatus.BadGateway
    ensures e.NotImplemented? <==> s == HttpStatus.NotImplemented
    ensures e.TimeoutError? <==> s == HttpStatus.GatewayTimeout
    ensures HttpStatus.IsClientError(s) || HttpStatus.IsServerError(s)
  {
    match e
    case Unauthorized => HttpStatus.Unauthorized
    case EndpointNotValid => HttpStatus.Gone
    case EndpointNotFound => HttpStatus.NotFound
    case PayloadTooLarge => HttpStatus.PayloadTooLarge
    case BadRequest(_) => HttpStatus.BadRequest
    case InvalidUri => HttpStatus.BadRequest
    case InvalidTtl => HttpStatus.BadRequest
    case MissingCryptoKeys => HttpStatus.BadRequest
    case InvalidCryptoKeys => HttpStatus.BadRequest
    case ServerError(_) => HttpStatus.BadGateway
    case TlsError => HttpStatus.BadGateway
    case SslError => HttpStatus.BadGateway
    case IoError => HttpStatus.BadGateway
    case InvalidResponse => HttpStatus.BadGateway
    case Unspecified => HttpStatus.BadGateway
    case Other(_) => HttpStatus.BadGateway
    case NotImplemented => HttpStatus.NotImplemented
    case TimeoutError => HttpStatus.GatewayTimeout
  }

  /** The handler's error type: a plain wrapper around the library's error. */
  datatype PushError = PushError(err: WebPushError)

  /** `From<WebPushError>`: wrapping loses nothing, destructuring gives the error back. */
  function From(e: WebPushError): (p: PushError)
    ensures p.err == e
  {
    PushError(e)
  }

  /** The other half of the round trip: every `PushError` is the wrapping of its own error. */
  lemma UnwrapWrap(p: PushError)
    ensures From(p.err) == p
  {
  }

  /** An HTTP response: a status and a text body. */
  datatype Response = Response(status: HttpStatus.StatusCode, body: string)

  /** `into_response`: the body is the error's short description, which the
      library defines and which is a parameter here; the status is the error's
      group status and never a success. */
  function IntoResponse(p: PushError, describe: WebPushError -> string): (r: Response)
    requires Reachable(p.err)
    ensures r.status == GroupStatus(GroupOf(p.err))
    ensures r.body == describe(p.err)
    ensures !HttpStatus.IsSuccessful(r.status)
  {
    Response(StatusOf(p.err), describe(p.err))
  }

  /** The classification is the composition "group, then the group's status". */
  lemma StatusIsGroupStatus(e: WebPushError)
    requires Reachable(e)
    ensures StatusOf(e) == GroupStatus(GroupOf(e))
  {
  }

  /** Statuses identify groups: reading a group's status back gives the group. */
  lemma GroupStatusRoundTrip(g: Group)
    ensures GroupOfStatus(GroupStatus(g)) == Some(g)
  {
  }

  /** Two errors are answered with the same status exactly when they belong
      to the same group: the groups are exact. */
  lemma SameStatusIffSameGroup(a: WebPushError, b: WebPushError)
    requires Reachable(a) && Reachable(b)
    ensures StatusOf(a) == StatusOf(b) <==> GroupOf(a) == GroupOf(b)
  {
    StatusIsGroupStatus(a);
    StatusIsGroupStatus(b);
    if StatusOf(a) == StatusOf(b) {
      GroupStatusRoundTrip(GroupOf(a));
      GroupStatusRoundTrip(GroupOf(b));
    }
  }

  /** The 4xx answers are exactly those of the request-side groups, and the
      5xx answers exactly those of the others. */
  lemma ClientErrorIffRequestSide(e: WebPushError)
    requires Reachable(e)
    ensures HttpStatus.IsClientError(StatusOf(e)) <==> GroupOf(e).IsRequestSide()
    ensures HttpStatus.IsServerError(StatusOf(e)) <==> !GroupOf(e).IsRequestSide()
  {
    StatusIsGroupStatus(e);
  }

  /** No upstream or transport failure is ever blamed on the client. */
  lemma UpstreamNeverClientError(e: WebPushError)
    requires IsUpstreamFailure(e)
    ensures Reachable(e)
    ensures StatusOf(e) == HttpStatus.BadGateway
    ensures !HttpStatus.IsClientError(StatusOf(e))
  {
  }

  /** The response status depends on the error alone, never on its description. */
  lemma StatusIgnoresDescription(p: PushError, d1: WebPushError -> string, d2: WebPushError -> string)
    requires Reachable(p.err)
    ensures IntoResponse(p, d1).status == IntoResponse(p, d2).status == StatusOf(p.err)
  {
  }
}

/** The `push` request handler (src/main.rs:87-103): decode one request,
    build a VAPID signature and a message for its subscription, send the
    message with a fixed timeout, and answer 204 or the error's response.

    Each step the handler delegates to a library (JSON decoding, the VAPID
    signer, the message builder, the client) is a field of `Env`: a total
    function that either succeeds or fails with a library error. A run of the
    handler records the foreign calls it makes, so that what is called, with
    which arguments and in which order can be stated about the model. */
module PushHandler {
  import opened Wrappers
  import HttpStatus
  import opened PushErrors
  import Utf8

  type Bytes = seq<Utf8.byte>

  /** Rust's `u32`. */
  type u32 = x: int | 0 <= x < 0x1_0000_0000

  /** A browser's push subscription: where to send and the keys to encrypt for. */
  datatype SubscriptionKeys = SubscriptionKeys(p256dh: string, auth: string)
  datatype Subscription = Subscription(endpoint: string, keys: SubscriptionKeys)

  /** The JSON body of a request: one subscription, the text to push, its TTL in seconds. */
  datatype PushRequest = PushRequest(sub: Subscription, payload: string, ttl: u32)

  /** The state shared by all requests: the PEM bytes of the VAPID private key
      and the VAPID subject (a contact URI). The client is part of `Env`. */
  datatype App = App(vapid: Bytes, subject: string)

  /** The content encoding the handler asks for: the `aesgcm` draft scheme. */
  datatype ContentEncoding = AesGcm

  datatype MessagePayload = MessagePayload(encoding: ContentEncoding, content: Bytes)

  /** A VAPID signature in the making: the parsed key, the subscription it
      is for, and the JWT claims added so far. */
  datatype SignatureBuilder = SignatureBuilder(key: Bytes, sub: Subscription, claims: map<string, string>) {
    function AddClaim(name: string, value: string): (b: SignatureBuilder)
      ensures name in b.claims && b.claims[name] == value
      ensures forall other :: other in claims && other != name ==> other in b.claims && b.claims[other] == claims[other]
      ensures b.claims.Keys == claims.Keys + {name}
      ensures b.key == key && b.sub == sub
    {
      this.(claims := claims[name := value])
    }
  }

  /** A finished VAPID signature: the signed token and the public key that goes with it. */
  datatype VapidSignature = VapidSignature(token: string, publicKey: Bytes)

  /** A message in the making; an unset TTL stands for the library's default. */
  datatype MessageBuilder = MessageBuilder(
    sub: Subscription,
    ttl: Option<u32>,
    payload: Option<MessagePayload>,
    signature: Option<VapidSignature>)

  /** The library's built message: endpoint, TTL and the encrypted payload. */
  datatype WebPushMessage = WebPushMessage(endpoint: string, ttl: u32, payload: Option<Bytes>)

  /** The foreign steps, each of which may fail. */
  datatype Env = Env(
    bodyJson: Bytes -> Option<PushRequest>,
    fromPem: (Bytes, Subscription) -> Result<SignatureBuilder, WebPushError>,
    newMessage: Subscription -> Outcome<WebPushError>,
    sign: SignatureBuilder -> Result<VapidSignature, WebPushError>,
    build: MessageBuilder -> Result<WebPushMessage, WebPushError>,
    send: (WebPushMessage, Duration) -> Outcome<WebPushError>)

  /** How long the handler lets the client wait for the push service. */
  const SendTimeout: Duration := Duration(15)

  /** One foreign call the handler makes, with its arguments. */
  datatype Call =
    | ReadBody(body: Bytes)
    | FromPem(pem: Bytes, sub: Subscription)
    | NewMessage(sub: Subscription)
    | Sign(signature: SignatureBuilder)
    | Build(builder: MessageBuilder)
    | Send(message: WebPushMessage, timeout: Duration)
  {
    /** The position of this kind of call in the handler's sequence of steps. */
    function Stage(): nat {
      match this
      case ReadBody(_) => 0
      case FromPem(_, _) => 1
      case NewMessage(_) => 2
      case Sign(_) => 3
      case Build(_) => 4
      case Send(_, _) => 5
    }
  }

  /** Number of foreign calls a run that gets all the way makes. */
  const StageCount: nat := 6

  /** What the handler raises when a call, made under `env`, fails; `None`
      when it succeeds. A body that does not decode raises `BadRequest(None)`. */
  function ErrorOf(env: Env, c: Call): Option<WebPushError> {
    match c
    case ReadBody(b) => if env.bodyJson(b).None? then Some(BadRequest(None)) else None
    case FromPem(pem, sub) => if env.fromPem(pem, sub).Failure? then Some(env.fromPem(pem, sub).error) else None
    case NewMessage(sub) => if env.newMessage(sub).Fail? then Some(env.newMessage(sub).error) else None
    case Sign(sb) => if env.sign(sb).Failure? then Some(env.sign(sb).error) else None
    case Build(mb) => if env.build(mb).Failure? then Some(env.build(mb).error) else None
    case Send(m, t) => if env.send(m, t).Fail? then Some(env.send(m, t).error) else None
  }

  /** A run of the handler: the calls it made, in order, and what it returned. */
  datatype Handled = Handled(calls: seq<Call>, result: Result<HttpStatus.StatusCode, PushError>)

  /** The handler. Each step's `?` returns at the first failure, and that
      failure, wrapped, is the result. Calls are made in the source's order,
      each at most once; every call before the last one succeeded; the run
      fails exactly when its last call failed, with that call's error; and a
      run that succeeds has sent the message and answers 204 No Content. */
  function Push(app: App, env: Env, body: Bytes): (h: Handled)
    ensures 1 <= |h.calls| <= StageCount && h.calls[0] == ReadBody(body)
    ensures forall i :: 0 <= i < |h.calls| ==> h.calls[i].Stage() == i
    ensures forall i :: 0 <= i < |h.calls| - 1 ==> ErrorOf(env, h.calls[i]).None?
    ensures h.result.Failure? <==> ErrorOf(env, h.calls[|h.calls| - 1]).Some?
    ensures h.result.Failure? ==> h.result.error == From(ErrorOf(env, h.calls[|h.calls| - 1]).value)
    ensures h.result.Success? ==> h.result.value == HttpStatus.NoContent && |h.calls| == StageCount
  {
    var read := ReadBody(body);
    match env.bodyJson(body)
    case None => Handled([read], Failure(From(BadRequest(None))))
    case Some(req) =>
      var fromPem := FromPem(app.vapid, req.sub);
      match env.fromPem(app.vapid, req.sub)
      case Failure(e) => Handled([read, fromPem], Failure(From(e)))
      case Success(pending) =>
        var signature := pending.AddClaim("sub", app.subject);
        var newMessage := NewMessage(req.sub);
        match env.newMessage(req.sub)
        case Fail(e) => Handled([read, fromPem, newMessage], Failure(From(e)))
        case Pass =>
          var builder := MessageBuilder(req.sub, Some(req.ttl), Some(MessagePayload(AesGcm, Utf8.Encode(req.payload))), None);
          var sign := Sign(signature);
          match env.sign(signature)
          case Failure(e) => Handled([read, fromPem, newMessage, sign], Failure(From(e)))
          case Success(vapid) =>
            var signed := builder.(signature := Some(vapid));
            var build := Build(signed);
            match env.build(signed)
            case Failure(e) => Handled([read, fromPem, newMessage, sign, build], Failure(From(e)))
            case Success(message) =>
              var send := Send(message, SendTimeout);
              match env.send(message, SendTimeout)
              case Fail(e) => Handled([read, fromPem, newMessage, sign, build, send], Failure(From(e)))
              case Pass => Handled([read, fromPem, newMessage, sign, build, send], Success(HttpStatus.NoContent))
  }

  /** The run's error, if any, is one `into_response` can classify. */
  predicate Answerable(h: Handled) {
    h.result.Failure? ==> Reachable(h.result.error.err)
  }

  /** The HTTP response the server sends for a request body: the success
      status with an empty body, or the error's response. */
  function Respond(app: App, env: Env, body: Bytes, describe: WebPushError -> string): (r: Response)
    requires Answerable(Push(app, env, body))
    ensures HttpStatus.IsSuccessful(r.status) <==> Push(app, env, body).result.Success?
    ensures Push(app, env, body).result.Success? ==> r == Response(HttpStatus.NoContent, "")
    ensures Push(app, env, body).result.Failure? ==>
              var e := Push(app, env, body).result.error.err;
              r.status == StatusOf(e) && r.body == describe(e)
  {
    match Push(app, env, body).result
    case Success(status) => Response(status, "")
    case Failure(p) => IntoResponse(p, describe)
  }

  /** A run succeeds exactly when all six calls were made and each succeeded. */
  lemma SuccessIffEveryCallSucceeds(app: App, env: Env, body: Bytes)
    ensures var h := Push(app, env, body);
            h.result.Success? <==>
              |h.calls| == StageCount && forall i :: 0 <= i < |h.calls| ==> ErrorOf(env, h.calls[i]).None?
  {
  }

  /** The first failing step decides the response: its error's status and description. */
  lemma FirstFailureDecides(app: App, env: Env, body: Bytes, describe: WebPushError -> string, k: nat)
    requires k < |Push(app, env, body).calls|
    requires ErrorOf(env, Push(app, env, body).calls[k]).Some?
    requires Answerable(Push(app, env, body))
    ensures k == |Push(app, env, body).calls| - 1
    ensures var e := ErrorOf(env, Push(app, env, body).calls[k]).value;
            Reachable(e) &&
            Respond(app, env, body, describe) == Response(StatusOf(e), describe(e))
  {
  }

  /** A body that does not decode is answered 400 Bad Request, before any
      signature or message is constructed. */
  lemma UndecodableBodyIsBadRequest(app: App, env: Env, body: Bytes, describe: WebPushError -> string)
    requires env.bodyJson(body).None?
    ensures Push(app, env, body).calls == [ReadBody(body)]
    ensures Answerable(Push(app, env, body))
    ensures Respond(app, env, body, describe).status == HttpStatus.BadRequest
  {
  }

  /** Nothing is sent unless the signature, the message and the signing all
      succeeded, and what is sent is the message that was built. */
  lemma NothingSentUnlessBuilt(app: App, env: Env, body: Bytes, i: nat)
    requires i < |Push(app, env, body).calls| && Push(app, env, body).calls[i].Send?
    ensures i == StageCount - 1
    ensures var calls := Push(app, env, body).calls;
            && env.bodyJson(body).Some?
            && env.fromPem(app.vapid, env.bodyJson(body).value.sub).Success?
            && env.newMessage(env.bodyJson(body).value.sub).Pass?
            && env.sign(calls[3].signature).Success?
            && env.build(calls[4].builder) == Success(calls[i].message)
  {
  }

  /** Once the body has decoded, the app's key and the request's subscription
      go to `from_pem`, and the request's subscription goes to the message
      builder, whether or not those steps then fail. Once the handler gets as
      far as signing, what is signed is exactly the builder
      `from_pem` returned with the app's subject added as the `sub` claim. Once
      it gets as far as building: the request's subscription, TTL and payload
      reach the message builder unchanged (the payload as its UTF-8 bytes,
      encrypted with `aesgcm`), with the signature signing produced. A send
      always gets the fixed 15-second timeout. */
  lemma RequestPassedThrough(app: App, env: Env, body: Bytes)
    requires |Push(app, env, body).calls| > 1
    ensures var calls := Push(app, env, body).calls;
            var req := env.bodyJson(body).value;
            && calls[1] == FromPem(app.vapid, req.sub)
            && (|calls| > 2 ==> calls[2] == NewMessage(req.sub))
    ensures var calls := Push(app, env, body).calls;
            var req := env.bodyJson(body).value;
            |calls| > 3 ==>
              && calls[3].signature == env.fromPem(app.vapid, req.sub).value.AddClaim("sub", app.subject)
              && calls[3].signature.claims["sub"] == app.subject
    ensures var calls := Push(app, env, body).calls;
            var req := env.bodyJson(body).value;
            |calls| > 4 ==>
              && calls[4].builder.sub == req.sub
              && calls[4].builder.ttl == Some(req.ttl)
              && calls[4].builder.payload == Some(MessagePayload(AesGcm, Utf8.Encode(req.payload)))
              && calls[4].builder.signature == Some(env.sign(calls[3].signature).value)
    ensures var calls := Push(app, env, body).calls;
            |calls| > 5 ==> calls[5].timeout == SendTimeout && calls[5].timeout.seconds == 15
  {
  }

  /** The payload bytes handed to the encryptor decode back to the request's text. */
  lemma PayloadDecodesToRequestText(app: App, env: Env, body: Bytes)
    requires |Push(app, env, body).calls| > 4
    ensures var builder := Push(app, env, body).calls[4].builder;
            && builder.payload.Some?
            && Utf8.Decode(builder.payload.value.content) == Some(env.bodyJson(body).value.payload)
  {
    Utf8.DecodeEncode(env.bodyJson(body).value.payload);
  }
}

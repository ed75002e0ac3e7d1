/**
 * The webhook endpoint: `POST` authenticates the request with the shared
 * secret, parses the update, extracts the message, routes it and sends at most
 * one reply; every outcome becomes a 200, 401 or 500 response. `GET` is the
 * liveness probe.
 *
 * The collaborators are inputs: the environment lookup (which may throw), the
 * body parse (which may throw) and the outbound send (which may fail). The
 * handler returns the response together with the sends it made.
 */
module Webhook {
  import opened JsValues
  import opened JsStrings
  import opened Updates
  import opened Replies

  const TokenVar := "TELEGRAM_BOT_TOKEN"
  const SecretVar := "TELEGRAM_SECRET_TOKEN"

  /** A `sendTelegramMessage(botToken, { chat_id, text })` call. */
  datatype SendRequest = SendRequest(botToken: string, chatId: Json, text: string)

  /**
   * What the handler reads from the request: the secret header, if present,
   * and what `req.json()` yields or throws.
   */
  datatype Request = Request(secretHeader: Option<string>, body: Attempt<Json>)

  /** The JSON response bodies: `{ok: true}`, the probe's and `{ok: false, description}`. */
  datatype Body = OkBody | AliveBody(message: string) | ErrorBody(description: string)

  datatype Response = Response(status: int, body: Body, sends: seq<SendRequest>)

  /** The environment lookup `assertEnvVar`, which throws for a missing variable. */
  type Env = string -> Attempt<string>

  /** The outbound send; a rejected promise is a `Fail`. */
  type Sender = SendRequest -> Outcome

  /** The `catch` block's description of what was thrown. */
  function Describe(f: Fault): string {
    match f
    case Raised(message) => message
    case RaisedNonError => "Unknown error occurred"
    case TypeError => "TypeError"
  }

  function Failure(f: Fault): Response {
    Response(500, ErrorBody(Describe(f)), [])
  }

  const Acknowledged := Response(200, OkBody, [])

  /** The presented secret: a missing header counts as the empty string. */
  function PresentedSecret(req: Request): string {
    req.secretHeader.GetOr("")
  }

  /** Both configuration values load. */
  predicate Configured(env: Env) {
    env(TokenVar).Ok? && env(SecretVar).Ok?
  }

  /** Configured, and the presented secret is exactly the expected one. */
  predicate Authorized(env: Env, req: Request) {
    Configured(env) && PresentedSecret(req) == env(SecretVar).value
  }

  /** `message.chat?.id` is truthy, so there is somewhere to reply to. */
  predicate HasReplyTarget(message: Json) {
    TruthyOrUndefined(ChatId(message))
  }

  /** `POST`. */
  function Post(env: Env, req: Request, send: Sender): (r: Response)
    ensures r.status == 200 || r.status == 401 || r.status == 500
    ensures r.status == 200 <==> r.body == OkBody
    ensures r.status != 200 ==> r.body.ErrorBody?
    ensures |r.sends| <= 1
    ensures r.status == 401 <==> Configured(env) && !Authorized(env, req)
    ensures r.status == 401 ==> r.body == ErrorBody("Unauthorized") && r.sends == []
    ensures env(TokenVar).Threw? ==> r == Failure(env(TokenVar).fault)
    ensures env(TokenVar).Ok? && env(SecretVar).Threw? ==> r == Failure(env(SecretVar).fault)
    ensures Authorized(env, req) && req.body.Threw? ==> r == Failure(req.body.fault)
    ensures |r.sends| == 1 ==>
      && Authorized(env, req)
      && r.sends[0].botToken == env(TokenVar).value
      && r.sends[0].text != ""
      && (r.status == 200 <==> send(r.sends[0]).Pass?)
      && (send(r.sends[0]).Fail? ==> r.body == ErrorBody(Describe(send(r.sends[0]).fault)))
  {
    match env(TokenVar)
    case Threw(f) => Failure(f)
    case Ok(botToken) =>
      match env(SecretVar)
      case Threw(f) => Failure(f)
      case Ok(expectedSecret) =>
        if PresentedSecret(req) != expectedSecret then
          Response(401, ErrorBody("Unauthorized"), [])
        else
          match req.body
          case Threw(f) => Failure(f)
          case Ok(update) => Handle(botToken, update, send)
  }

  /** What `POST` does with an authenticated, parsed update. */
  function Handle(botToken: string, update: Json, send: Sender): Response {
    match ExtractMessage(update)
    case Threw(f) => Failure(f)
    case Ok(None) => Acknowledged
    case Ok(Some(message)) =>
      if !Truthy(message) || !HasReplyTarget(message) then Acknowledged
      else
        match BuildReply(message)
        case Threw(f) => Failure(f)
        case Ok(reply) =>
          if reply.None? || reply.value == "" then
            // The log line for this case interpolates `message_id`, and that
            // conversion can throw.
            match ToJsString(message.fields["message_id"])
            case Threw(f) => Failure(f)
            case Ok(_) => Acknowledged
          else
            var request := SendRequest(botToken, ChatId(message).value, reply.value);
            match send(request)
            case Pass => Response(200, OkBody, [request])
            case Fail(f) => Response(500, ErrorBody(Describe(f)), [request])
  }

  /** `GET`: the liveness probe answers without looking at anything. */
  function Get(): (r: Response)
    ensures r.status == 200 && r.body.AliveBody? && r.sends == []
  {
    Response(200, AliveBody("Telegram bot webhook endpoint is alive. Use POST with Telegram updates."), [])
  }

  /**
   * A rejected request never reaches the body or the sender: its response is
   * the same whatever the body and whatever the send would do.
   */
  lemma UnauthorizedIgnoresBodyAndSender(env: Env, header: Option<string>, body1: Attempt<Json>, body2: Attempt<Json>, send1: Sender, send2: Sender)
    requires Configured(env) && header.GetOr("") != env(SecretVar).value
    ensures Post(env, Request(header, body1), send1) == Post(env, Request(header, body2), send2)
    ensures Post(env, Request(header, body1), send1) == Response(401, ErrorBody("Unauthorized"), [])
  {
  }

  /**
   * Configuration is loaded before the secret is compared: a missing token or
   * secret is a 500 whatever the request carries.
   */
  lemma ConfigurationCheckedFirst(env: Env, req1: Request, req2: Request, send1: Sender, send2: Sender)
    requires !Configured(env)
    ensures Post(env, req1, send1) == Post(env, req2, send2)
    ensures Post(env, req1, send1).status == 500 && Post(env, req1, send1).sends == []
  {
  }

  /**
   * Nothing rejects an empty configured secret: with it, a request without
   * the header is let through.
   */
  lemma EmptySecretAdmitsMissingHeader(env: Env, body: Attempt<Json>, send: Sender)
    requires env(TokenVar).Ok? && env(SecretVar) == Ok("")
    ensures Authorized(env, Request(None, body))
    ensures Post(env, Request(None, body), send).status != 401
  {
  }

  /**
   * After authentication: an update with no message, or whose message has no
   * truthy chat id, is acknowledged without a send.
   */
  lemma NoTargetAcknowledged(env: Env, req: Request, send: Sender)
    requires Authorized(env, req) && req.body.Ok?
    requires ExtractMessage(req.body.value) == Ok(None)
          || (ExtractMessage(req.body.value).Ok? && ExtractMessage(req.body.value).value.Some?
              && !HasReplyTarget(ExtractMessage(req.body.value).value.value))
    ensures Post(env, req, send) == Response(200, OkBody, [])
  {
  }

  /** After authentication: a message the router has no reply for is acknowledged without a send. */
  lemma NoReplyAcknowledged(env: Env, req: Request, send: Sender, message: Json)
    requires Authorized(env, req) && req.body.Ok?
    requires ExtractMessage(req.body.value) == Ok(Some(message)) && HasReplyTarget(message)
    requires BuildReply(message) == Ok(None)
    requires !Unprintable(message.fields["message_id"])
    ensures Post(env, req, send) == Response(200, OkBody, [])
  {
    assert IsTelegramMessage(message);
  }

  /**
   * After authentication: when there is no reply, the message id is written
   * into a log line, so an id that cannot be converted to a string makes the
   * handler answer 500 without sending anything.
   */
  lemma UnloggableIdFails(env: Env, req: Request, send: Sender, message: Json)
    requires Authorized(env, req) && req.body.Ok?
    requires ExtractMessage(req.body.value) == Ok(Some(message)) && HasReplyTarget(message)
    requires BuildReply(message) == Ok(None)
    requires Unprintable(message.fields["message_id"])
    ensures Post(env, req, send) == Response(500, ErrorBody(Describe(TypeError)), [])
  {
    assert Truthy(message) by {
      assert IsTelegramMessage(message);
    }
  }

  /**
   * After authentication: a message with a reply target whose reply cannot
   * be built (a text that is not a string, or an unprintable name on the
   * `/start` branch) is answered with 500 and nothing is sent.
   */
  lemma UnbuildableReplyFails(env: Env, req: Request, send: Sender, message: Json)
    requires Authorized(env, req) && req.body.Ok?
    requires ExtractMessage(req.body.value) == Ok(Some(message)) && HasReplyTarget(message)
    requires BuildReply(message).Threw?
    ensures Post(env, req, send) == Response(500, ErrorBody(Describe(TypeError)), [])
  {
    assert Truthy(message) by {
      assert IsTelegramMessage(message);
    }
  }

  /**
   * After authentication: a routed reply is sent exactly once, to the
   * message's chat id with the configured token, and the response reports
   * how the send went.
   */
  lemma ReplySentOnce(env: Env, req: Request, send: Sender, message: Json, reply: string)
    requires Authorized(env, req) && req.body.Ok?
    requires ExtractMessage(req.body.value) == Ok(Some(message)) && HasReplyTarget(message)
    requires BuildReply(message) == Ok(Some(reply))
    ensures var request := SendRequest(env(TokenVar).value, ChatId(message).value, reply);
      Post(env, req, send) == match send(request)
        case Pass => Response(200, OkBody, [request])
        case Fail(f) => Response(500, ErrorBody(Describe(f)), [request])
  {
    assert Truthy(message) by {
      assert IsTelegramMessage(message);
    }
  }

  /** A failed send is reported with the message of the error it threw. */
  lemma FailedSendReportsMessage(env: Env, req: Request, send: Sender, message: Json, reply: string, m: string)
    requires Authorized(env, req) && req.body.Ok?
    requires ExtractMessage(req.body.value) == Ok(Some(message)) && HasReplyTarget(message)
    requires BuildReply(message) == Ok(Some(reply))
    requires send(SendRequest(env(TokenVar).value, ChatId(message).value, reply)) == Fail(Raised(m))
    ensures Post(env, req, send).status == 500
    ensures Post(env, req, send).body == ErrorBody(m)
  {
    ReplySentOnce(env, req, send, message, reply);
  }

  /** A thrown value that is not an `Error` is reported as "Unknown error occurred". */
  lemma NonErrorReportedAsUnknown(env: Env, req: Request, send: Sender)
    requires env(TokenVar) == Threw(RaisedNonError) || (env(TokenVar).Ok? && env(SecretVar) == Threw(RaisedNonError))
    ensures Post(env, req, send) == Response(500, ErrorBody("Unknown error occurred"), [])
  {
  }

  /** A request without the secret header is treated exactly like one whose header is empty. */
  lemma MissingHeaderIsEmpty(env: Env, body: Attempt<Json>, send: Sender)
    ensures Post(env, Request(None, body), send) == Post(env, Request(Some(""), body), send)
  {
  }

  /**
   * Every send comes from a routed reply: the request was authorised, the
   * body parsed, a message with a reply target extracted, and the reply built.
   */
  lemma SendOnlyForRoutedReply(env: Env, req: Request, send: Sender)
    requires |Post(env, req, send).sends| == 1
    ensures Authorized(env, req) && req.body.Ok?
    ensures var m := ExtractMessage(req.body.value);
      && m.Ok? && m.value.Some? && HasReplyTarget(m.value.value)
      && BuildReply(m.value.value).Ok? && BuildReply(m.value.value).value.Some?
      && Post(env, req, send).sends[0]
           == SendRequest(env(TokenVar).value, ChatId(m.value.value).value, BuildReply(m.value.value).value.value)
  {
  }

  /**
   * A body that is not an object or array makes the `in` test throw, which
   * is reported as a 500.
   */
  lemma ScalarBodyFails(env: Env, req: Request, send: Sender)
    requires Authorized(env, req) && req.body.Ok?
    requires !(req.body.value.Obj? || req.body.value.Arr?)
    ensures Post(env, req, send) == Response(500, ErrorBody(Describe(TypeError)), [])
  {
  }
}

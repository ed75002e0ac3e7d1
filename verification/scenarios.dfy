/**
 * Concrete walks through the router and the handler.
 */
module Scenarios {
  import opened JsValues
  import opened JsStrings
  import opened Updates
  import opened Replies
  import opened Webhook

  /** A message in chat `chatId` saying `text`, with no sender. */
  function MessageIn(chatId: Json, text: string): Json {
    Obj(map["message_id" := Num(1), "chat" := Obj(map["id" := chatId]), "text" := Str(text)])
  }

  /** A `/start` message in chat 7 from a sender whose first name is `firstName`. */
  function StartFrom(firstName: Json): Json {
    Obj(map["message_id" := Num(1), "chat" := Obj(map["id" := Num(7)]), "text" := Str("/start"),
            "from" := Obj(map["first_name" := firstName])])
  }

  // Where a scenario's text is a parameter pinned by `requires` rather than a
  // literal in its `ensures`, the literal would have the verifier unfold `Trim`
  // and the reply constants on it without bound.

  /** `/start` greets the sender by name, followed by the fixed welcome text. */
  lemma StartGreetsSender(text: string, name: string)
    requires text == "/start"
    ensures ReplyFor(text, name) == Some("Hey " + name + "!\n" + StartTail)
  {
    assert Bare(text) && StartsWith(text, "/start");
    StartOfBare(text, name);
  }

  /** `/start` from Ana: `Hey Ana!`, then the fixed welcome text. */
  lemma StartGreetsAna(text: string, name: string)
    requires text == "/start" && name == "Ana"
    ensures ReplyFor(text, name) == Some("Hey Ana!\n" + StartTail)
  {
    StartGreetsSender(text, name);
    GreetingOfAna(name);
  }

  /** A `/start` message whose sender's `first_name` is "Ana" is greeted as Ana. */
  lemma StartFromAnaGreets(message: Json)
    requires message == StartFrom(Str("Ana"))
    ensures SenderName(message) == Ok("Ana")
    ensures BuildReply(message) == Ok(Some("Hey Ana!\n" + StartTail))
  {
    assert FirstName(message) == Some(Str("Ana"));
    assert Text(message) == Ok(Some("/start"));
    BuildReplyRoutes(message, "/start", "Ana");
    StartGreetsAna("/start", "Ana");
  }

  // The greeting's literal pieces are joined apart from the reply, where the
  // long welcome text would be unfolded with them.
  lemma GreetingOfAna(name: string)
    requires name == "Ana"
    ensures "Hey " + name + "!\n" == "Hey Ana!\n"
  {
  }

  /** `/startfoo` is not a word-boundary match, yet it takes the welcome branch. */
  lemma StartFooIsStart(sender: string)
    ensures ReplyFor("/startfoo", sender) == Some(StartReply(sender))
  {
    assert Bare("/startfoo") && StartsWith("/startfoo", "/start");
    StartOfBare("/startfoo", sender);
  }

  /** `/echo hello world` echoes `hello world` behind the marker. */
  lemma EchoHelloWorld(text: string, sender: string)
    requires text == "/echo hello world"
    ensures ReplyFor(text, sender) == Some(EchoMarker + "hello world")
  {
    var payload := "hello world";
    assert Bare(payload) && text == "/echo " + payload;
    EchoRoundTrip(payload, sender);
  }

  /** A bare `/echo` gets the usage hint rather than an empty reply. */
  lemma EchoAloneExplains(sender: string)
    ensures ReplyFor("/echo", sender) == Some(EchoUsage)
  {
    assert Bare("/echo") && StartsWith("/echo", "/echo");
    EchoOfBare("/echo", sender);
    assert |"/echo"[5..]| == 0;
  }

  /** Text that is no command is quoted back. */
  lemma HiThereQuoted(text: string, sender: string)
    requires text == "hi there"
    ensures ReplyFor(text, sender) == Some("You said: \"hi there\"")
  {
    HiThereRoutes(text, sender);
    QuoteOfHiThere(text);
  }

  lemma HiThereRoutes(text: string, sender: string)
    requires text == "hi there"
    ensures ReplyFor(text, sender) == Some(Quote(text))
  {
    assert Bare(text) && text != [] && text[0] != '/';
    QuoteOfBare(text, sender);
  }

  // The quote is spelled out apart from the routing, where `Trim` of the
  // literal would be unfolded with it.
  lemma QuoteOfHiThere(text: string)
    requires text == "hi there"
    ensures Quote(text) == "You said: \"hi there\""
  {
  }

  /** A wrong secret is a 401 with no send. */
  lemma WrongSecretRejected(env: Env, body: Attempt<Json>, send: Sender)
    requires env(TokenVar) == Ok("token") && env(SecretVar) == Ok("s3cret")
    ensures Post(env, Request(Some("guess"), body), send) == Response(401, ErrorBody("Unauthorized"), [])
  {
  }

  /** How the handler reads a `/help` message in chat 42. */
  lemma HelpMessageFacts(message: Json)
    requires message == MessageIn(Num(42), "/help")
    ensures ExtractMessage(Obj(map["message" := message])) == Ok(Some(message))
    ensures HasReplyTarget(message) && ChatId(message) == Some(Num(42))
    ensures Text(message) == Ok(Some("/help"))
    ensures SenderName(message) == Ok("there")
  {
  }

  /** The router answers a `/help` message with the help text. */
  lemma HelpMessageReply(message: Json)
    requires message == MessageIn(Num(42), "/help")
    ensures BuildReply(message) == Ok(Some(HelpReply))
  {
    HelpMessageFacts(message);
    BuildReplyRoutes(message, "/help", "there");
    TrimBare("/help");
    HelpIgnoresSenderAndRest("/help", "there", "/help", "there");
  }

  /** `/help` in chat 42 is sent once to chat 42 and acknowledged. */
  lemma HelpInChat42(env: Env, send: Sender, message: Json, req: Request)
    requires env(TokenVar) == Ok("token") && env(SecretVar) == Ok("s3cret")
    requires message == MessageIn(Num(42), "/help")
    requires req == Request(Some("s3cret"), Ok(Obj(map["message" := message])))
    requires send(SendRequest("token", Num(42), HelpReply)) == Pass
    ensures Post(env, req, send) == Response(200, OkBody, [SendRequest("token", Num(42), HelpReply)])
  {
    HelpMessageFacts(message);
    HelpMessageReply(message);
    ReplySentOnce(env, req, send, message, HelpReply);
  }

  /**
   * `/help` from a sender whose first name cannot be printed still gets the
   * help text: the name is never read off the `/start` branch.
   */
  lemma HelpIgnoresUnprintableName(message: Json)
    requires message == Obj(map["message_id" := Num(1), "chat" := Obj(map["id" := Num(7)]), "text" := Str("/help"),
                                "from" := Obj(map["first_name" := Obj(map["toString" := Num(0)])])])
    ensures SenderName(message).Threw?
    ensures BuildReply(message) == Ok(Some(HelpReply))
  {
    assert FirstName(message) == Some(Obj(map["toString" := Num(0)]));
    assert Text(message) == Ok(Some("/help"));
    TrimBare("/help");
    assert !StartsWith("/help", "/start") by { assert "/help"[1] != "/start"[1]; }
    BuildReplyRoutes(message, "/help", "there");
    HelpIgnoresSenderAndRest("/help", "there", "/help", "there");
  }

  /** Chat id 0 is falsy, so a message there is acknowledged and not answered. */
  lemma ChatZeroIgnored(env: Env, send: Sender)
    requires env(TokenVar) == Ok("token") && env(SecretVar) == Ok("s3cret")
    ensures Post(env, Request(Some("s3cret"), Ok(Obj(map["message" := MessageIn(Num(0), "/help")]))), send)
         == Response(200, OkBody, [])
  {
    var req := Request(Some("s3cret"), Ok(Obj(map["message" := MessageIn(Num(0), "/help")])));
    assert ExtractMessage(req.body.value) == Ok(Some(MessageIn(Num(0), "/help")));
    NoTargetAcknowledged(env, req, send);
  }

  /**
   * A first name that is an object with its own `toString` key cannot be
   * printed, so `/start` from that sender is answered with 500 and nothing is
   * sent.
   */
  lemma UnprintableNameFails(env: Env, send: Sender, message: Json, req: Request)
    requires env(TokenVar) == Ok("token") && env(SecretVar) == Ok("s3cret")
    requires message == StartFrom(Obj(map["toString" := Num(0)]))
    requires req == Request(Some("s3cret"), Ok(Obj(map["message" := message])))
    ensures Post(env, req, send) == Response(500, ErrorBody(Describe(TypeError)), [])
  {
    UnprintableNameFacts(message);
    UnbuildableReplyFails(env, req, send, message);
  }

  /** How the handler reads a `/start` message from a sender whose name is an object with a `toString` key. */
  lemma UnprintableNameFacts(message: Json)
    requires message == StartFrom(Obj(map["toString" := Num(0)]))
    ensures ExtractMessage(Obj(map["message" := message])) == Ok(Some(message))
    ensures HasReplyTarget(message)
    ensures BuildReply(message) == Threw(TypeError)
  {
    UnprintableNameRead(message);
    assert Bare("/start") && StartsWith("/start", "/start");
    TrimBare("/start");
  }

  lemma UnprintableNameRead(message: Json)
    requires message == StartFrom(Obj(map["toString" := Num(0)]))
    ensures Text(message) == Ok(Some("/start"))
    ensures SenderName(message).Threw?
  {
    assert FirstName(message) == Some(Obj(map["toString" := Num(0)]));
  }
}

/**
 * The command router: the trimmed message text is matched, first match wins,
 * against the prefixes `/start`, `/help` and `/echo`; anything else is quoted
 * back. Empty or missing text gets no reply.
 */
module Replies {
  import opened JsValues
  import opened JsStrings
  import opened Updates

  // The multi-line replies are written as the lines the router joins with
  // "\n", one literal per line.

  /** The welcome text after its greeting line. */
  const StartTail: string :=
    "I'm a Next.js powered Telegram bot and I just received your webhook update.\n"
    + "\n"
    + "Available commands:\n"
    + "\U{2022} /start - show this welcome message\n"
    + "\U{2022} /help - learn what I can do\n"
    + "\U{2022} /echo <text> - mirror back what you send"

  /** The `/start` reply, greeting `name` on its first line. */
  function StartReply(name: string): string {
    "Hey " + name + "!\n" + StartTail
  }

  /** The `/help` reply. */
  const HelpReply: string :=
    "Here\U{2019}s what I can do right now:\n"
    + "- /start: Show the welcome flow\n"
    + "- /help: Display this cheat sheet\n"
    + "- /echo <text>: Echo any text you provide\n"
    + "\n"
    + "Extend me by editing `app/api/telegram/route.ts`."

  /** The marker put in front of an echoed payload: a repeat glyph and a space. */
  const EchoMarker: string := "\U{1F501} "

  /** The reply to `/echo` without a payload. */
  const EchoUsage: string := "Send `/echo <your text>` to hear it back."

  /** The reply to `/echo` with the (already trimmed) payload `p`. */
  function EchoReply(p: string): string {
    if |p| > 0 then EchoMarker + p else EchoUsage
  }

  /** The reply to text no command matches. */
  function Quote(t: string): string {
    "You said: \"" + t + "\""
  }

  /** Which branch of the router a trimmed text takes. */
  datatype Branch = NoText | Start | Help | Echo | Fallback

  /** First match wins: `/start`, then `/help`, then `/echo`. */
  function BranchOf(t: string): Branch {
    if t == [] then NoText
    else if StartsWith(t, "/start") then Start
    else if StartsWith(t, "/help") then Help
    else if StartsWith(t, "/echo") then Echo
    else Fallback
  }

  /** The branches of the router on the trimmed text `t`. */
  function Route(t: string, sender: string): (r: Option<string>)
    ensures r.None? <==> t == []
    ensures r.Some? ==> |r.value| > 0
  {
    match BranchOf(t)
    case NoText => None
    case Start => Some(StartReply(sender))
    case Help => Some(HelpReply)
    case Echo => Some(EchoReply(Trim(RemoveFirst(t, "/echo"))))
    case Fallback => Some(Quote(t))
  }

  /**
   * The router on a present text, with `sender` the name the `/start`
   * greeting uses. `None` is JavaScript's `null`.
   */
  function ReplyFor(text: string, sender: string): (r: Option<string>)
    ensures r.None? <==> Trim(text) == []
    ensures r.Some? ==> |r.value| > 0
  {
    Route(Trim(text), sender)
  }

  /** No reply exactly for text that is nothing but white space. */
  lemma NoReplyIffBlank(text: string, sender: string)
    ensures ReplyFor(text, sender).None? <==> AllSpace(text)
  {
    TrimEmptyIff(text);
  }

  /** The sender's name shows only in the welcome reply; any other reply is the same whoever sends it. */
  lemma NameOnlyForStart(text: string, sender1: string, sender2: string)
    requires !StartsWith(Trim(text), "/start")
    ensures ReplyFor(text, sender1) == ReplyFor(text, sender2)
  {
    var t := Trim(text);
    assert BranchOf(t) != Start;
    RouteNameOnlyForStart(t, sender1, sender2);
  }

  lemma RouteNameOnlyForStart(t: string, sender1: string, sender2: string)
    requires BranchOf(t) != Start
    ensures Route(t, sender1) == Route(t, sender2)
  {
  }

  /**
   * `buildReply`: no text or blank text gives no reply; a text of the wrong
   * type throws when it is trimmed. The sender's name is read only on the
   * `/start` branch, so an unprintable name throws there and nowhere else.
   */
  function BuildReply(message: Json): (r: Attempt<Option<string>>)
    ensures r.Threw? ==> r.fault == TypeError
    ensures r.Threw? <==>
      || Text(message).Threw?
      || (&& Text(message).Ok? && Text(message).value.Some?
          && StartsWith(Trim(Text(message).value.value), "/start")
          && SenderName(message).Threw?)
    ensures r.Ok? && r.value.None? <==> Text(message).Ok? && (Text(message).value.None? || AllSpace(Text(message).value.value))
    ensures r.Ok? && r.value.Some? ==> |r.value.value| > 0
  {
    match Text(message)
    case Threw(f) => Threw(f)
    case Ok(None) => Ok(None)
    case Ok(Some(text)) =>
      if StartsWith(Trim(text), "/start") then
        match SenderName(message)
        case Threw(f) => Threw(f)
        case Ok(name) =>
          NoReplyIffBlank(text, name);
          Ok(ReplyFor(text, name))
      else
        // Any name will do here: see NameOnlyForStart.
        NoReplyIffBlank(text, "");
        Ok(ReplyFor(text, ""))
  }

  /**
   * With a readable text, `buildReply` is the router applied to the text and
   * the sender's name. The name is read only on the `/start` branch, so it
   * need only be printable there; elsewhere any `name` gives the same reply.
   */
  lemma BuildReplyRoutes(message: Json, text: string, name: string)
    requires Text(message) == Ok(Some(text))
    requires StartsWith(Trim(text), "/start") ==> SenderName(message) == Ok(name)
    ensures BuildReply(message) == Ok(ReplyFor(text, name))
  {
    if !StartsWith(Trim(text), "/start") {
      NameOnlyForStart(text, "", name);
    }
  }

  /** Any trimmed text starting with `/start` takes the welcome branch, whatever follows. */
  lemma StartMatchesAsPrefix(text: string, sender: string)
    requires StartsWith(Trim(text), "/start")
    ensures ReplyFor(text, sender) == Some(StartReply(sender))
  {
  }

  /** On a bare text, starting with `/start` is enough for the welcome branch. */
  lemma StartOfBare(text: string, sender: string)
    requires Bare(text) && StartsWith(text, "/start")
    ensures ReplyFor(text, sender) == Some(StartReply(sender))
  {
    TrimBare(text);
    StartMatchesAsPrefix(text, sender);
  }

  /**
   * The welcome reply greets `name` on its first line: `Hey <name>!`, a line
   * break, then text that does not depend on the name.
   */
  lemma StartReplyShape(name: string)
    ensures var head := "Hey " + name + "!\n";
      head <= StartReply(name) && StartReply(name)[|head|..] == StartTail
  {
    var head := "Hey " + name + "!\n";
    assert StartReply(name) == head + StartTail;
  }

  /**
   * The three command prefixes exclude one another, so the order of the tests
   * never matters: each branch is taken exactly when its own prefix is there.
   */
  lemma BranchByPrefix(t: string)
    requires t != []
    ensures BranchOf(t) == Start <==> StartsWith(t, "/start")
    ensures BranchOf(t) == Help <==> StartsWith(t, "/help")
    ensures BranchOf(t) == Echo <==> StartsWith(t, "/echo")
    ensures BranchOf(t) == Fallback <==>
      !StartsWith(t, "/start") && !StartsWith(t, "/help") && !StartsWith(t, "/echo")
  {
    if StartsWith(t, "/help") {
      HelpBranch(t);
      assert t[1] == 'h';
    } else if StartsWith(t, "/echo") {
      EchoBranch(t);
    }
  }

  /** A text starting with `/help` cannot start with `/start`, so it takes the help branch. */
  lemma HelpBranch(t: string)
    requires StartsWith(t, "/help")
    ensures BranchOf(t) == Help
  {
    assert t[1] == 'h';
  }

  /** A text starting with `/echo` takes the echo branch. */
  lemma EchoBranch(t: string)
    requires StartsWith(t, "/echo")
    ensures BranchOf(t) == Echo
  {
    assert t[1] == 'e';
  }

  /** `/help` answers the same whoever sends it and whatever follows it. */
  lemma HelpIgnoresSenderAndRest(text1: string, sender1: string, text2: string, sender2: string)
    requires StartsWith(Trim(text1), "/help") && StartsWith(Trim(text2), "/help")
    ensures ReplyFor(text1, sender1) == ReplyFor(text2, sender2) == Some(HelpReply)
  {
    HelpBranch(Trim(text1));
    HelpBranch(Trim(text2));
  }

  /**
   * `/echo` drops the leading `/echo` (its first occurrence), trims again and
   * echoes what is left behind the marker, or explains itself when nothing is.
   */
  lemma EchoStripsLeadingToken(text: string, sender: string)
    requires StartsWith(Trim(text), "/echo")
    ensures ReplyFor(text, sender) == Some(EchoReply(Trim(Trim(text)[5..])))
  {
    var t := Trim(text);
    EchoBranch(t);
    RemoveFirstOfPrefix(t, "/echo");
  }

  lemma EchoTextBare(payload: string)
    requires payload != [] && Bare(payload)
    ensures Bare("/echo " + payload)
  {
    var text := "/echo " + payload;
    assert text[0] == '/' && text[|text| - 1] == payload[|payload| - 1];
  }

  lemma TrimLeadingSpace(payload: string)
    requires Bare(payload)
    ensures Trim(" " + payload) == payload
  {
    assert AllSpace(" ") && AllSpace("");
    TrimPadded(" ", payload, "");
    assert " " + payload + "" == " " + payload;
    TrimBare(payload);
  }

  /** On a bare text the echo payload is what follows `/echo`, trimmed. */
  lemma EchoOfBare(text: string, sender: string)
    requires Bare(text) && StartsWith(text, "/echo")
    ensures ReplyFor(text, sender) == Some(EchoReply(Trim(text[5..])))
  {
    TrimBare(text);
    EchoStripsLeadingToken(text, sender);
  }

  /** What follows `/echo ` in the round-trip text trims back to the payload. */
  lemma EchoPayloadAfterSpace(payload: string)
    requires payload != [] && Bare(payload)
    ensures EchoReply(Trim(("/echo " + payload)[5..])) == EchoMarker + payload
  {
    var text := "/echo " + payload;
    assert text[5..] == " " + payload;
    TrimLeadingSpace(payload);
  }

  /** Echoing a bare payload after `/echo ` gives back exactly that payload. */
  lemma EchoRoundTrip(payload: string, sender: string)
    requires payload != [] && Bare(payload)
    ensures ReplyFor("/echo " + payload, sender) == Some(EchoMarker + payload)
  {
    EchoTextBare(payload);
    EchoOfBare("/echo " + payload, sender);
    EchoPayloadAfterSpace(payload);
  }

  /** Text no command matches is quoted back, trimmed. */
  lemma FallbackQuotes(text: string, sender: string)
    requires Trim(text) != []
    requires !StartsWith(Trim(text), "/start") && !StartsWith(Trim(text), "/help") && !StartsWith(Trim(text), "/echo")
    ensures ReplyFor(text, sender) == Some("You said: \"" + Trim(text) + "\"")
  {
  }

  /** Trimmed text that does not begin with a slash is always quoted back. */
  lemma NonCommandQuoted(text: string, sender: string)
    requires Trim(text) != [] && Trim(text)[0] != '/'
    ensures ReplyFor(text, sender) == Some(Quote(Trim(text)))
  {
    FallbackBranch(Trim(text));
  }

  /** A bare text that does not begin with a slash is quoted back as it is. */
  lemma QuoteOfBare(text: string, sender: string)
    requires Bare(text) && text != [] && text[0] != '/'
    ensures ReplyFor(text, sender) == Some(Quote(text))
  {
    TrimBare(text);
    NonCommandQuoted(text, sender);
  }

  /** A text that does not begin with a slash matches no command. */
  lemma FallbackBranch(t: string)
    requires t != [] && t[0] != '/'
    ensures BranchOf(t) == Fallback
  {
    assert !StartsWith(t, "/start") && !StartsWith(t, "/help") && !StartsWith(t, "/echo");
  }

  /** Surrounding white space never changes the reply. */
  lemma ReplyIgnoresPadding(a: string, text: string, b: string, sender: string)
    requires AllSpace(a) && AllSpace(b)
    ensures ReplyFor(a + text + b, sender) == ReplyFor(text, sender)
  {
    TrimPadded(a, text, b);
    TrimEmptyIff(a + text + b);
    TrimEmptyIff(text);
  }
}

/**
 * Finding the user's message inside a Telegram update: the structural check
 * a candidate message must pass, the choice between `message` and
 * `edited_message`, and the reads of the message's chat id, text and sender
 * name that the router and the handler make.
 */
module Updates {
  import opened JsValues

  /**
   * The structural check a candidate message must pass: a truthy object with
   * `message_id` and `chat` keys whose `chat` has `typeof` "object" (so
   * `null` and arrays pass).
   */
  function IsTelegramMessage(payload: Json): (valid: bool)
    ensures valid <==>
      && payload.Obj?
      && "message_id" in payload.fields
      && "chat" in payload.fields
      && (payload.fields["chat"].Null? || payload.fields["chat"].Arr? || payload.fields["chat"].Obj?)
  {
    if !Truthy(payload) || TypeOf(payload) != "object" then false
    else
      && HasProperty("message_id", payload) == Ok(true)
      && HasProperty("chat", payload) == Ok(true)
      && TypeOf(Field(payload, "chat").value) == "object"
  }

  /**
   * Picks `message` when it passes the check, else `edited_message` when that
   * passes, else nothing. The `in` test on the update throws a `TypeError`
   * when the parsed body is `null` or a primitive.
   */
  function ExtractMessage(update: Json): (r: Attempt<Option<Json>>)
    ensures r.Threw? <==> !(update.Obj? || update.Arr?)
    ensures r.Threw? ==> r.fault == TypeError
    ensures r.Ok? && r.value.Some? ==>
      && update.Obj?
      && IsTelegramMessage(r.value.value)
      && ((  "message" in update.fields && r.value.value == update.fields["message"])
          || ("edited_message" in update.fields && r.value.value == update.fields["edited_message"]))
  {
    match HasProperty("message", update)
    case Threw(f) => Threw(f)
    case Ok(hasMessage) =>
      if hasMessage && IsTelegramMessage(Field(update, "message").value) then
        Ok(Some(Field(update, "message").value))
      else if HasProperty("edited_message", update) == Ok(true)
              && IsTelegramMessage(Field(update, "edited_message").value) then
        Ok(Some(Field(update, "edited_message").value))
      else
        Ok(None)
  }

  /** A valid `message` wins over any `edited_message`. */
  lemma PrefersMessage(fields: map<string, Json>)
    requires "message" in fields && IsTelegramMessage(fields["message"])
    ensures ExtractMessage(Obj(fields)) == Ok(Some(fields["message"]))
  {
  }

  /** Without a valid `message`, a valid `edited_message` is taken. */
  lemma FallsBackToEdited(fields: map<string, Json>)
    requires "message" !in fields || !IsTelegramMessage(fields["message"])
    requires "edited_message" in fields && IsTelegramMessage(fields["edited_message"])
    ensures ExtractMessage(Obj(fields)) == Ok(Some(fields["edited_message"]))
  {
  }

  /** Neither candidate valid (or present): an acknowledged non-message update. */
  lemma NothingToExtract(fields: map<string, Json>)
    requires "message" !in fields || !IsTelegramMessage(fields["message"])
    requires "edited_message" !in fields || !IsTelegramMessage(fields["edited_message"])
    ensures ExtractMessage(Obj(fields)) == Ok(None)
  {
  }

  /** A message whose `chat` is `null` passes the check. */
  lemma NullChatPasses(messageId: Json)
    ensures IsTelegramMessage(Obj(map["message_id" := messageId, "chat" := Null]))
  {
  }

  /** `message.chat?.id`, with `undefined` as `None`. */
  function ChatId(message: Json): (id: Option<Json>)
    ensures id.Some? <==>
      message.Obj? && "chat" in message.fields
      && message.fields["chat"].Obj? && "id" in message.fields["chat"].fields
    ensures id.Some? ==> id.value == message.fields["chat"].fields["id"]
  {
    match Field(message, "chat")
    case None => None
    case Some(chat) => Field(chat, "id")
  }

  /**
   * `message.text?.trim` as far as reading the text goes: absent and `null`
   * give no text; any other non-string value has no callable `trim`, so the
   * call throws a `TypeError`.
   */
  function Text(message: Json): Attempt<Option<string>> {
    match Field(message, "text")
    case None => Ok(None)
    case Some(Null) => Ok(None)
    case Some(Str(s)) => Ok(Some(s))
    case Some(_) => Threw(TypeError)
  }

  /** A `null` text and a missing one read the same: as no text at all. */
  lemma NullTextLikeMissing(fields: map<string, Json>)
    ensures Text(Obj(fields["text" := Null])) == Text(Obj(fields - {"text"})) == Ok(None)
  {
  }

  /**
   * Reading the text succeeds exactly when it is missing, `null` or a string,
   * and then yields the string, if any.
   */
  lemma TextReadsStrings(fields: map<string, Json>, v: Json)
    ensures Text(Obj(fields["text" := v])).Ok? <==> v.Null? || v.Str?
    ensures v.Str? ==> Text(Obj(fields["text" := v])) == Ok(Some(v.s))
    ensures Text(Obj(fields["text" := v])).Threw? ==> Text(Obj(fields["text" := v])).fault == TypeError
  {
  }

  /** `message.from?.first_name`, with `undefined` as `None`. */
  function FirstName(message: Json): Option<Json> {
    match Field(message, "from")
    case None => None
    case Some(from) => Field(from, "first_name")
  }

  /**
   * `${message.from?.first_name ?? "there"}`: the sender's first name as the
   * template literal renders it, "there" when it is missing or `null`, and a
   * `TypeError` when the name is a value that cannot be converted to a string.
   */
  function SenderName(message: Json): (name: Attempt<string>)
    ensures FirstName(message).Some? && FirstName(message).value.Str? ==>
      name == Ok(FirstName(message).value.s)
    ensures FirstName(message).None? || FirstName(message).value.Null? ==> name == Ok("there")
    ensures name.Threw? <==> FirstName(message).Some? && Unprintable(FirstName(message).value)
    ensures name.Threw? ==> name.fault == TypeError
  {
    match FirstName(message)
    case Some(v) => if v.Null? then Ok("there") else ToJsString(v)
    case None => Ok("there")
  }
}

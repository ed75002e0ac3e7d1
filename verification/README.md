# Telegram webhook route, modelled in Dafny

This project models the webhook endpoint of a Next.js Telegram bot, found in
`app/api/telegram/route.ts`. Telegram POSTs each update to that endpoint. The handler:

- loads the bot token and the shared secret from the environment;
- rejects a request whose `x-telegram-bot-api-secret-token` header does not match the secret;
- parses the update and finds the user's message, taking `message` first and `edited_message` second;
- routes the trimmed text. The first match wins among `/start`, `/help` and `/echo`, and anything else is quoted back;
- sends at most one reply to the message's chat;
- answers 200 `{ok: true}`, 401 `{ok: false, description: "Unauthorized"}`, or 500 `{ok: false, description}` when anything throws.

`GET` is a liveness probe.

The model is built from pure functions over a JSON value datatype. It keeps the
JavaScript semantics the route depends on:

- `typeof` reports `"object"` for `null` and arrays;
- truthiness (chat id `0` is falsy);
- optional chaining and `??`;
- the `in` operator throws a `TypeError` on `null` and primitives;
- `String.prototype.trim`, `startsWith`, and `replace` with a string pattern.

The handler's collaborators are inputs to it:

- the environment lookup, which may throw;
- the result of `req.json()`, a value or a thrown fault;
- the outbound send, an oracle that succeeds or fails.

`Webhook.Post` returns the status, the JSON body and the list of sends it made.

Modules, in dependency order:

- `JsValues`: JSON values, thrown faults, `typeof`, truthiness, property reads, the `in` operator and `String(v)`.
- `JsStrings`: `trim` and its independent characterisation, `startsWith`, `indexOf` and `replace`.
- `Updates`: `isTelegramMessage`, `extractMessage`, and the reads of chat id, text and sender name.
- `Replies`: `buildReply` and the command router.
- `Webhook`: `POST` and `GET`.
- `Scenarios`: concrete walks through the router and the handler.

Two modelling choices are worth knowing:

- An empty configured secret is not refused. `route.ts` only compares the presented header with the configured value, and a missing header counts as `""`. So when the secret is `""`, a request without the header is authorised (`Webhook.EmptySecretAdmitsMissingHeader`).
- The white space `trim` removes is the concrete ECMAScript set: the WhiteSpace and LineTerminator code points.

## Model

| member | source | states |
|---|---|---|
| JsValues.TypeOf | app/api/telegram/route.ts:10-17 | `typeof` is "object" exactly for null, arrays and objects |
| JsValues.FalsyValues | app/api/telegram/route.ts:10-98 | the values JavaScript treats as false are exactly null, false, 0 and the empty string; every array and object is truthy |
| JsValues.InAgreesWithRead | app/api/telegram/route.ts:15-17 | for the keys the route asks about, `key in v` is true exactly when the following read `v.key` finds a value, and it throws a TypeError exactly when `typeof v` is not "object" or `v` is null |
| JsValues.ToJsString | app/api/telegram/route.ts:38-40 | converting the name for the greeting gives back a string as it is, and throws a TypeError exactly for an object with its own `toString` key or an array that contains such a value |
| Updates.IsTelegramMessage | app/api/telegram/route.ts:9-19 | a payload passes exactly when it is an object with `message_id` and `chat` keys whose `chat` is null, an array or an object |
| Updates.NullChatPasses | app/api/telegram/route.ts:17 | a message whose `chat` is null passes the structural check |
| Updates.ExtractMessage | app/api/telegram/route.ts:21-29 | extraction throws exactly for a non-object, non-array update; a message it returns is a valid `message` or `edited_message` of the update |
| Updates.PrefersMessage | app/api/telegram/route.ts:22-24 | a valid `message` is returned even when an `edited_message` is present |
| Updates.FallsBackToEdited | app/api/telegram/route.ts:25-27 | without a valid `message`, a valid `edited_message` is returned |
| Updates.NothingToExtract | app/api/telegram/route.ts:28 | with neither candidate valid, no message is extracted and nothing throws |
| Updates.ChatId | app/api/telegram/route.ts:91-104 | `chat?.id` is present exactly when `chat` is an object with an `id` key, and then it is that `id` value, the one the reply is sent to |
| Updates.NullTextLikeMissing | app/api/telegram/route.ts:32-35 | a null text and a missing text read the same way: as no text |
| Updates.TextReadsStrings | app/api/telegram/route.ts:32 | reading the text succeeds exactly when it is missing, null or a string, and gives that string; any other value makes the trim call throw a TypeError |
| Updates.SenderName | app/api/telegram/route.ts:38-40 | the name is `first_name` when it is a string, "there" when `from` or `first_name` is missing or null, and a TypeError exactly when `first_name` cannot be converted to a string |
| JsStrings.TrimStart | app/api/telegram/route.ts:32 | the result is a suffix of the input that starts with no white space, and everything cut off is white space |
| JsStrings.TrimEnd | app/api/telegram/route.ts:32 | the result is a prefix of the input that ends with no white space, and everything cut off is white space |
| JsStrings.Trim | app/api/telegram/route.ts:32 | `trim` yields a string with no white space at either end, sitting inside the input between runs of white space only |
| JsStrings.TrimOfUnique | app/api/telegram/route.ts:32 | only one string has that property for a given input, so the characterisation pins `trim` down |
| JsStrings.TrimEmptyIff | app/api/telegram/route.ts:32-35 | a string trims to empty exactly when it is entirely white space |
| JsStrings.TrimIdempotent | app/api/telegram/route.ts:32 | trimming an already trimmed text changes nothing |
| JsStrings.TrimPadded | app/api/telegram/route.ts:32 | adding white space around a string does not change its trim |
| JsStrings.TrimBare | app/api/telegram/route.ts:32 | a string with no white space at either end is its own trim |
| JsStrings.StartsWithChars | app/api/telegram/route.ts:37-61 | `startsWith` holds exactly when the prefix is no longer than the text and agrees with it character by character from the start |
| JsStrings.IndexOf | app/api/telegram/route.ts:62 | the search returns the first position at or after the start where the pattern occurs, or none when it occurs nowhere |
| JsStrings.RemoveFirst | app/api/telegram/route.ts:62 | `replace(pattern, "")` removes the first occurrence of the pattern, and leaves the text unchanged when the pattern does not occur |
| JsStrings.RemoveFirstOfPrefix | app/api/telegram/route.ts:62 | replacing a leading pattern with "" drops exactly that leading occurrence |
| JsStrings.RemoveFirstAbsent | app/api/telegram/route.ts:62 | replacing an absent pattern leaves the text unchanged |
| Replies.Route | app/api/telegram/route.ts:33-68 | the router has a reply exactly for non-empty trimmed text, and the reply is never empty |
| Replies.ReplyFor | app/api/telegram/route.ts:32-68 | a present text has a reply exactly when its trim is non-empty, and the reply is never empty |
| Replies.NoReplyIffBlank | app/api/telegram/route.ts:32-35 | a present text has no reply exactly when it is entirely white space |
| Replies.NameOnlyForStart | app/api/telegram/route.ts:37-68 | the sender's name only affects the welcome reply: any other reply is the same whoever sends it |
| Replies.BuildReply | app/api/telegram/route.ts:31-69 | `buildReply` throws (a TypeError) exactly when reading the text throws or, on the `/start` branch, the name cannot be printed; it is null exactly when the text is missing, null or blank, and otherwise a non-empty reply |
| Replies.BuildReplyRoutes | app/api/telegram/route.ts:31-69 | with a readable text, and a printable name on the `/start` branch, `buildReply` is the router applied to the trimmed text and the name; off that branch the name is never read, so any name gives the same reply |
| Replies.BranchByPrefix | app/api/telegram/route.ts:37-68 | the three command prefixes exclude one another, so each branch is taken exactly when its own prefix is present, and the fallback exactly when none is |
| Replies.StartMatchesAsPrefix | app/api/telegram/route.ts:37-48 | any trimmed text starting with `/start`, whatever follows it, gets the welcome reply for the sender |
| Replies.StartOfBare | app/api/telegram/route.ts:37-48 | a text with no surrounding white space that starts with `/start` gets the welcome reply |
| Replies.StartReplyShape | app/api/telegram/route.ts:38-47 | the welcome reply begins `Hey <name>!` and a line break, followed by a fixed text that does not depend on the name |
| Replies.HelpBranch | app/api/telegram/route.ts:37-50 | a text starting with `/help` cannot match `/start`, so it takes the help branch |
| Replies.HelpIgnoresSenderAndRest | app/api/telegram/route.ts:50-59 | every text whose trim starts with `/help` gets the same constant help text, whoever sends it |
| Replies.EchoBranch | app/api/telegram/route.ts:37-61 | a text starting with `/echo` matches neither `/start` nor `/help`, so it takes the echo branch |
| Replies.EchoStripsLeadingToken | app/api/telegram/route.ts:61-66 | `/echo` replies with what follows the leading `/echo`, trimmed, behind the marker, or with the usage hint when nothing is left |
| Replies.EchoRoundTrip | app/api/telegram/route.ts:61-66 | echoing `/echo <payload>` gives back exactly the marker and the payload, for any non-empty payload with no surrounding white space |
| Replies.FallbackBranch | app/api/telegram/route.ts:37-68 | a text not starting with a slash matches no command |
| Replies.FallbackQuotes | app/api/telegram/route.ts:68 | a non-empty text matching no command is quoted back, trimmed, as `You said: "<text>"` |
| Replies.NonCommandQuoted | app/api/telegram/route.ts:68 | trimmed text not starting with a slash is always quoted back |
| Replies.QuoteOfBare | app/api/telegram/route.ts:68 | a text with no surrounding white space that does not begin with a slash is quoted back unchanged |
| Replies.ReplyIgnoresPadding | app/api/telegram/route.ts:32 | surrounding white space never changes whether there is a reply, or what it is |
| Webhook.Post | app/api/telegram/route.ts:71-118 | statuses are 200, 401 or 500, with `{ok: true}` exactly on 200; at most one send; 401 exactly when the configuration loads and the secret mismatches; configuration and parse failures are 500s; a send carries the configured token and a non-empty text, and the status follows the send's outcome |
| Webhook.Get | app/api/telegram/route.ts:120-126 | the probe answers 200 with its alive message and sends nothing |
| Webhook.UnauthorizedIgnoresBodyAndSender | app/api/telegram/route.ts:77-86 | a mismatched secret gives 401 Unauthorized whatever the body and the sender would do: nothing is parsed and nothing is sent |
| Webhook.ConfigurationCheckedFirst | app/api/telegram/route.ts:75-80 | when the token or the secret fails to load, the response is the same 500 whatever the request, so authentication comes after both loads |
| Webhook.EmptySecretAdmitsMissingHeader | app/api/telegram/route.ts:76-80 | with an empty configured secret, a request without the header is authorised |
| Webhook.MissingHeaderIsEmpty | app/api/telegram/route.ts:77-80 | a request without the secret header gets exactly the response it would get with an empty header |
| Webhook.NoTargetAcknowledged | app/api/telegram/route.ts:89-94 | after authentication, an update with no message, or with no truthy chat id, is acknowledged with 200 and no send |
| Webhook.NoReplyAcknowledged | app/api/telegram/route.ts:96-101 | after authentication, a message the router has no reply for, whose `message_id` can be converted to a string for the log line, is acknowledged with 200 and no send |
| Webhook.UnloggableIdFails | app/api/telegram/route.ts:96-116 | after authentication, a message the router has no reply for, whose `message_id` cannot be converted to a string for the log line, is answered with 500 and no send |
| Webhook.UnbuildableReplyFails | app/api/telegram/route.ts:96-116 | after authentication, a message with a reply target whose reply cannot be built (a text that is not a string, or an unprintable name on `/start`) is answered with 500 and nothing is sent |
| Webhook.ReplySentOnce | app/api/telegram/route.ts:96-116 | after authentication, a routed reply is sent exactly once to the message's chat with the configured token; the answer is 200 when the send succeeds and 500 with its description when it fails |
| Webhook.FailedSendReportsMessage | app/api/telegram/route.ts:103-116 | a send that fails with an error is answered with 500 carrying that error's message |
| Webhook.NonErrorReportedAsUnknown | app/api/telegram/route.ts:109-116 | a thrown value that is not an `Error` is answered with 500 and the description "Unknown error occurred" |
| Webhook.SendOnlyForRoutedReply | app/api/telegram/route.ts:80-106 | every send comes from an authorised, parsed update whose extracted message has a chat id and a routed reply, and it carries exactly that reply |
| Webhook.ScalarBodyFails | app/api/telegram/route.ts:88-116 | after authentication, a body that is null or a primitive makes extraction throw, which is answered with 500 |
| Scenarios.StartGreetsSender | app/api/telegram/route.ts:37-47 | `/start` greets the sender by name, followed by the fixed welcome text |
| Scenarios.StartGreetsAna | app/api/telegram/route.ts:38-40 | `/start` from Ana begins `Hey Ana!` |
| Scenarios.StartFromAnaGreets | app/api/telegram/route.ts:31-47 | a `/start` message whose sender's `first_name` is "Ana" reads the name "Ana" and is answered `Hey Ana!` followed by the fixed welcome text |
| Scenarios.StartFooIsStart | app/api/telegram/route.ts:37 | `/startfoo` takes the welcome branch, like `/start` |
| Scenarios.EchoHelloWorld | app/api/telegram/route.ts:61-64 | `/echo hello world` echoes `hello world` behind the marker |
| Scenarios.EchoAloneExplains | app/api/telegram/route.ts:61-65 | a bare `/echo` gets the usage hint |
| Scenarios.HiThereQuoted | app/api/telegram/route.ts:68 | `hi there` is answered `You said: "hi there"` |
| Scenarios.WrongSecretRejected | app/api/telegram/route.ts:80-86 | a wrong secret header gets 401 Unauthorized and no send |
| Scenarios.HelpMessageFacts | app/api/telegram/route.ts:21-38 | a `/help` message in chat 42 is extracted, has chat id 42, reads as the text `/help`, and its sender is addressed as "there" |
| Scenarios.HelpMessageReply | app/api/telegram/route.ts:50-59 | a message saying `/help` gets the help text |
| Scenarios.HelpIgnoresUnprintableName | app/api/telegram/route.ts:37-59 | `/help` from a sender whose first name cannot be printed still gets the help text, since the name is read only on the `/start` branch |
| Scenarios.HelpInChat42 | app/api/telegram/route.ts:71-108 | `/help` in chat 42, with the right secret and a working sender, is sent once to chat 42 and answered 200 |
| Scenarios.ChatZeroIgnored | app/api/telegram/route.ts:91-94 | a message in chat 0 is acknowledged with 200 and not answered, because 0 is falsy |
| Scenarios.UnprintableNameFails | app/api/telegram/route.ts:38-116 | `/start` from a sender whose first name is an object with its own `toString` key is answered with 500, and nothing is sent |
| Scenarios.UnprintableNameFacts | app/api/telegram/route.ts:21-40 | that message is extracted, has a reply target, and its reply throws a TypeError |

## Left out

- `app/page.tsx` and `app/layout.tsx` are the site's landing page and layout. They are not part of the webhook.
- `assertEnvVar` and `sendTelegramMessage` live in `lib/telegram`, which is not part of this model. The environment lookup and the send are inputs that may throw or fail. The model assumes nothing about them, for example whether an empty value is refused.
- The output of logging (`console.*`), the `NextRequest`/`NextResponse` framing and the log prefix are not modelled. The one log line that can change the response is modelled: the no-reply line interpolates `message_id`, and converting an unprintable id throws inside the `try`.
- `async`/`await` is not modelled, because the handler awaits each step in turn. So are concurrent requests, since the handler keeps no state between them.
- HTTP header names are case-insensitive. The model takes the secret header's value, or its absence, as already looked up.
- Thrown faults are `Raised(message)`, a non-`Error` value, or `TypeError`. The catch block reports the message, "Unknown error occurred", or, for a TypeError, the placeholder text "TypeError". The engine's actual TypeError wording is not modelled.
- JSON numbers are integers. Fractions and exponent notation in `String(v)` are not modelled.
- The `in` operator is modelled for the keys the route asks about: `message`, `edited_message`, `message_id` and `chat`. Inherited members (such as `toString`), array indices and an array's `length` are not looked up.
- Strings are sequences of Unicode code points, not UTF-16 code units. For well-formed text this changes nothing the route does, except a `/echo` payload length, and there only "empty or not" matters. Strings with unpaired surrogates, which a `\uD800` escape in the JSON body produces, cannot be represented and are not modelled.
- Updates.SenderName: for a first name that is a number, a boolean, an array or an object without a `toString` key, the contract says only that no error is thrown. The body renders such a name with `String(v)`.
- JsValues.ToJsString: the contract states when the conversion throws and that a string converts to itself. It does not spell out the digits of a number or the joining of an array; the body does.

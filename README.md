# Telegram notification channel

This project models the Telegram channel of moepush, a web application that
pushes notifications through pluggable "channels", and proves properties about
that model. The channel has two parts:

- a static descriptor: the channel type `telegram`, its label, and two message
  templates, `HTML` and then `MarkdownV2`. Each template has an ordered list of
  fields with a key, a required flag, a presentation component and an optional
  default value;
- `sendMessage`. It checks the bot token, then resolves the chat id. The
  message's `chat_id` is used when it is truthy; otherwise the channel's
  `chatId` is used; if neither is set the call fails. The optional topic id is
  resolved the same way, and its key is dropped when neither source has one.
  All other message fields are copied through unchanged. The payload is posted
  once as JSON to `https://api.telegram.org/bot<token>/sendMessage`. A
  non-OK reply becomes an error built from the reply's `description`, and a
  `fetch` that rejects (a network failure, an abort) passes its rejection on.

Layout:

- `wrappers.dfy` (`Wrappers`): `Option` (where `None` is `undefined`) and `Result`
  (where `Failure` carries the message of the thrown `Error`).
- `js_values.dfy` (`JsValues`): message values (strings and booleans, the only
  kinds the channel's message interface declares), truthiness, and the `||`
  operator.
- `channel.dfy` (`Channel`): the descriptor types `ChannelConfig`, `Template`
  and `Field`, and `SendMessageOptions`. The module that defines them,
  `lib/channels/base.ts`, is not part of this model. These types are
  reconstructed from how the Telegram channel uses them. `type` and `label`
  are Dafny keywords, so those fields are named `kind` and `labelText`.
- `http.dfy` (`Http`): the request record, the provider's reply, `Reply` (a
  `fetch` that settles with a reply or rejects with a reason), and a
  `Transport` class. The class answers with an injected function `server` and
  logs every request it is asked to send.
- `telegram.dfy` (`Telegram`): the descriptor, the pure description of
  `sendMessage` (`Plan`, `Translate`, `Send`), and the class `TelegramChannel`.
  Its `SendMessage` method builds the payload step by step as the source does:
  it copies the message, sets `chat_id`, then sets or deletes
  `message_thread_id`, and then posts through the transport. The method is
  proved equal to `Send`.
- `telegram_properties.dfy` (`TelegramProperties`): lemmas that relate several
  calls.

Behaviour of the code worth noting:

- The code checks the bot token before the chat id, so a call missing both
  fails with the token error.
- The code neither checks required fields nor injects the hidden `parse_mode`
  default. It spreads the caller's message as it is, so a caller's `parse_mode`
  reaches the payload unchanged.
- The code has no generic fallback message for an error body that is not JSON.

## Model

| member | source | states |
|---|---|---|
| Telegram.TemplateFieldKeys | lib/channels/telegram.ts:21-27 | the keys of a template's field list are pairwise distinct and are exactly `text`, `disable_notification`, `chat_id`, `message_thread_id` and `parse_mode` |
| Telegram.TemplateFieldFlags | lib/channels/telegram.ts:21-27 | in a template's field list `text` is the only required field, and `parse_mode` is a hidden field, the only hidden one, with the template's type as its default |
| Telegram.TelegramTemplate | lib/channels/telegram.ts:17-53 | the template keeps its type, name and description and is `WellShaped`: its field keys are distinct and are exactly `text`, `disable_notification`, `chat_id`, `message_thread_id` and `parse_mode`; `text` is its only required field; its only hidden field is `parse_mode`, whose default is the template's own type, a parse mode the message interface admits |
| Telegram.Config | lib/channels/telegram.ts:13-55 | the channel type is `telegram`; there are exactly two templates, `HTML` then `MarkdownV2`; every template is `WellShaped`: distinct keys that are exactly the five keys above, `text` the only required field, and a hidden `parse_mode` field (the only hidden one) whose default is the template's type |
| Telegram.BotUrl | lib/channels/telegram.ts:91 | the endpoint URL is `https://api.telegram.org/bot`, then the token verbatim, then `/sendMessage` |
| Telegram.ChatIdOf | lib/channels/telegram.ts:68 | the resolved chat is truthy exactly when the message's `chat_id` is truthy or the channel's `chatId` is a non-empty string; it is the message's value when that is truthy, and the channel's otherwise |
| Telegram.ThreadIdOf | lib/channels/telegram.ts:74 | the resolved topic is truthy exactly when the message's `message_thread_id` is truthy or the channel's `threadId` is a non-empty string; it is the message's value when that is truthy, and the channel's otherwise |
| Telegram.Payload | lib/channels/telegram.ts:78-88 | the payload holds the resolved chat under `chat_id`; it has `message_thread_id` exactly when the resolved topic is truthy, and then holds that topic; every other key is present exactly when it is in the message, with the message's value |
| Telegram.Plan | lib/channels/telegram.ts:61-99 | a missing or empty token fails with "缺少 Bot Token" whatever else is missing; otherwise, with no truthy message `chat_id` and no channel `chatId`, it fails with "缺少 Chat ID"; it succeeds exactly when neither guard fires, and then the request is a POST with a JSON content type to the token's sendMessage URL whose body obeys `Routed` |
| Telegram.PushFailed | lib/channels/telegram.ts:103 | the rejection message starts with "Telegram 消息推送失败: " and, when the reply has a description, the rest of it is that description verbatim; with no description the rest is `undefined` |
| Telegram.Translate | lib/channels/telegram.ts:90-106 | a rejected `fetch` fails the call with the same rejection reason; a reply is returned unchanged exactly when its `ok` flag is set; a reply without it fails the call with the rejection message built from the reply's description |
| Telegram.Send | lib/channels/telegram.ts:57-107 | at most one request is issued; none is issued exactly when a guard fails, and the guard's error is returned; otherwise the one request is the planned one and the result is the translation of how that request settled, reply or rejection |
| Telegram.TelegramChannel.constructor | lib/channels/telegram.ts:12-13 | a channel object's descriptor is `Config()` |
| Telegram.TelegramChannel.SendMessage | lib/channels/telegram.ts:57-107 | the step-by-step payload build and the single post return what `Send` returns, and the transport's log grows by exactly the requests `Send` issues |
| Http.Transport.Post | lib/channels/telegram.ts:90-99 | one request is appended to the log, and how the network settles it (a reply or a rejection) is returned |
| JsValues.Or | lib/channels/telegram.ts:68 | `a \|\| b` is truthy exactly when one operand is, yields one of its operands, yields the left one when that is truthy, and yields the right one otherwise |
| TelegramProperties.RoutedIsUnique | lib/channels/telegram.ts:78-88 | the payload laws determine the payload: two payloads obeying them for the same message and settings are equal |
| TelegramProperties.UrlRoundTrip | lib/channels/telegram.ts:91 | the token can be read back verbatim from the endpoint URL |
| TelegramProperties.BotUrlInjective | lib/channels/telegram.ts:91 | different tokens give different URL strings |
| TelegramProperties.MessageOverridesChannel | lib/channels/telegram.ts:67-74 | when a message names both its chat and its topic, the channel's default chat and topic do not affect the request |
| TelegramProperties.RebuildIsIdentity | lib/channels/telegram.ts:78-88 | building the payload again from a built payload, under the same settings, gives the same request |
| TelegramProperties.PayloadWithinTemplate | lib/channels/telegram.ts:16-54 | a message that uses only the keys the templates declare gives a payload that uses only those keys |
| TelegramProperties.ErrorsDistinct | lib/channels/telegram.ts:64 | the token error, the chat error and every rejection message are pairwise different |
| TelegramProperties.ErrorNamesFailedStep | lib/channels/telegram.ts:61-104 | a failed send's error is the token error exactly when the token is missing; it is the chat error exactly when the token is present and no chat is named; it is a passed-on `fetch` rejection exactly when a request was issued and did not settle with a reply; it is a raised error beginning with the rejection prefix exactly when a request was issued and a reply came back |
| TelegramProperties.RoutingScenarios | lib/channels/telegram.ts:67-88 | with channel chat "100", a message chat "200" wins; without a message chat, "100" is used; an empty message topic and no channel topic leave no topic key |

`Routed` (in `Telegram`) is the payload law that `Plan` promises. It says:

- `chat_id` is the message's value when that value is truthy, and the channel's
  `chatId` otherwise;
- `message_thread_id` is present exactly when the message's value or the
  channel's `threadId` is truthy, and then it takes the message's value first;
- every other key is in the payload exactly when it is in the message, with
  the same value.

## Left out

- The HTTP call itself is an injected function from request to `Reply`: a
  reply, or a rejection whose reason is an abstract string. Proxies,
  redirects, timeouts and URL parsing (how `fetch` would read a token that
  holds `/`, `?` or `#`) are not modelled; the URL is kept as a string.
  Serialising the body (`JSON.stringify`) is not modelled: the request holds
  the payload object itself, and key order is not modelled.
- Reading the error body (`response.json()`) is assumed to succeed and give the
  `description` member. A body that is not JSON makes the source reject with a
  parse error; that path is not modelled, and the source has no fallback for
  it. A missing `description` is rendered as `undefined`, as a template literal
  renders it.
- The `console.log` of the message is logging only.
- Asynchrony: the `await`s are modelled as sequential steps.
- Message values other than strings and booleans (numbers, `null`, nested
  objects) are not modelled; the message interface declares only strings and
  booleans. Options hold strings only.
- Required-field validation and injection of hidden defaults are not modelled.
  `sendMessage` does neither, and the collaborators that might (the base
  channel module and the dispatcher) are not part of this model.
- Authentication, environment configuration, the OAuth button component and
  the build script are outside the notification channel and are left out.

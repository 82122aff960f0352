/** The Telegram notification channel: its static descriptor and the rule
    by which a message and the channel's settings become at most one call
    to the Bot API's sendMessage method. */
module Telegram {
  import opened Wrappers
  import opened JsValues
  import opened Channel
  import opened Http

  const TextKey := "text"
  const DisableNotificationKey := "disable_notification"
  const ChatIdKey := "chat_id"
  const ThreadIdKey := "message_thread_id"
  const ParseModeKey := "parse_mode"

  /** The keys every template of the channel declares. */
  const TemplateKeys: set<string> := {TextKey, DisableNotificationKey, ChatIdKey, ThreadIdKey, ParseModeKey}

  /** The parse modes the channel's message interface admits. */
  const ParseModes: set<string> := {"HTML", "Markdown", "MarkdownV2"}

  const ApiPrefix := "https://api.telegram.org/bot"
  const SendPath := "/sendMessage"
  const JsonHeaders: map<string, string> := map["Content-Type" := "application/json"]

  const MissingBotToken := "缺少 Bot Token"
  const MissingChatId := "缺少 Chat ID"
  const PushFailedPrefix := "Telegram 消息推送失败: "

  /** The shape every template of the channel has: distinct keys, which
      are exactly `TemplateKeys` (so the chat and the topic can be
      overridden per message); `text` the only required field; and a
      hidden `parse_mode` field, the only hidden one, fixing the template's
      own type as parse mode. */
  predicate WellShaped(t: Template)
  {
    && DistinctKeys(t)
    && KeySet(t) == TemplateKeys
    && (forall f <- t.fields :: f.required <==> f.key == TextKey)
    && t.kind in ParseModes
    && Field(ParseModeKey, None, false, Hidden, Some(t.kind)) in t.fields
    && (forall f <- t.fields :: f.component == Hidden ==> f.key == ParseModeKey && f.defaultValue == Some(t.kind))
  }

  /** The field list shared by the templates: only the help text of
      `text` and the parse mode fixed by the hidden field vary. */
  function TemplateFields(kind: string, textHelp: string): seq<Field>
  {
    [ Field(TextKey, Some(textHelp), true, Textarea, None),
      Field(DisableNotificationKey, Some("静默发送"), false, Checkbox, None),
      Field(ChatIdKey, Some("会话 ID (可选，用于覆盖渠道设置)"), false, Input, None),
      Field(ThreadIdKey, Some("话题 ID (可选，用于覆盖渠道设置)"), false, Input, None),
      Field(ParseModeKey, None, false, Hidden, Some(kind)) ]
  }

  /** The keys of the shared field list: distinct, and exactly `TemplateKeys`. */
  lemma TemplateFieldKeys(t: Template, textHelp: string)
    requires t.fields == TemplateFields(t.kind, textHelp)
    ensures DistinctKeys(t) && KeySet(t) == TemplateKeys
  {
    var fs := t.fields;
    assert DistinctKeys(t) by {
      // the five keys have five different lengths
      assert |TextKey| == 4 && |DisableNotificationKey| == 20 && |ChatIdKey| == 7;
      assert |ThreadIdKey| == 17 && |ParseModeKey| == 10;
    }
    assert forall f <- fs :: f == fs[0] || f == fs[1] || f == fs[2] || f == fs[3] || f == fs[4];
    assert fs[0] in fs && fs[1] in fs && fs[2] in fs && fs[3] in fs && fs[4] in fs;
  }

  /** The flags of the shared field list: only `text` is required, and the
      only hidden field is `parse_mode`, fixing the template's type. */
  lemma TemplateFieldFlags(t: Template, textHelp: string)
    requires t.fields == TemplateFields(t.kind, textHelp)
    ensures forall f <- t.fields :: f.required <==> f.key == TextKey
    ensures Field(ParseModeKey, None, false, Hidden, Some(t.kind)) in t.fields
    ensures forall f <- t.fields :: f.component == Hidden ==> f.key == ParseModeKey && f.defaultValue == Some(t.kind)
  {
    var fs := t.fields;
    assert forall f <- fs :: f == fs[0] || f == fs[1] || f == fs[2] || f == fs[3] || f == fs[4];
    assert fs[4] in fs;
  }

  /** A template of the channel. The two templates share their field list
      and differ in their texts and in the parse mode their hidden field
      fixes, which is the template's own type. */
  function TelegramTemplate(kind: string, name: string, description: string, textHelp: string): (t: Template)
    requires kind in ParseModes
    ensures t.kind == kind && t.name == name && t.description == description
    ensures WellShaped(t)
  {
    var t := Template(kind, name, description, TemplateFields(kind, textHelp));
    TemplateFieldKeys(t, textHelp);
    TemplateFieldFlags(t, textHelp);
    t
  }

  /** The channel descriptor: an HTML template, then a MarkdownV2 template. */
  function Config(): (c: ChannelConfig)
    ensures c.kind == "telegram"
    ensures |c.templates| == 2
    ensures c.templates[0].kind == "HTML" && c.templates[1].kind == "MarkdownV2"
    ensures WellShaped(c.templates[0]) && WellShaped(c.templates[1])
  {
    var html := TelegramTemplate("HTML", "文本消息", "文本消息，支持 HTML 标签", "HTML内容");
    var markdown := TelegramTemplate("MarkdownV2", "Markdown消息", "支持 MarkdownV2 格式的富文本消息", "Markdown 消息内容");
    ChannelConfig("telegram", "Telegram 机器人", [html, markdown])
  }

  /** The Bot API endpoint for sending a message with the given token. */
  function BotUrl(token: string): (url: string)
    ensures |url| == |ApiPrefix| + |token| + |SendPath|
    ensures url[..|ApiPrefix|] == ApiPrefix
    ensures url[|ApiPrefix|..|url| - |SendPath|] == token
    ensures url[|url| - |SendPath|..] == SendPath
  {
    ApiPrefix + token + SendPath
  }

  /** The token a sendMessage endpoint URL carries, if it is one. */
  function TokenOfUrl(url: string): Option<string>
  {
    if |url| >= |ApiPrefix| + |SendPath| && url[..|ApiPrefix|] == ApiPrefix
       && url[|url| - |SendPath|..] == SendPath
    then Some(url[|ApiPrefix|..|url| - |SendPath|])
    else None
  }

  /** The chat the message goes to: the message's own `chat_id` when
      truthy, otherwise the channel's `chatId`. */
  function ChatIdOf(message: Record, options: SendMessageOptions): (r: Option<Value>)
    ensures Truthy(r) <==> Truthy(Get(message, ChatIdKey)) || Present(options.chatId)
    ensures Truthy(Get(message, ChatIdKey)) ==> r == Some(message[ChatIdKey])
    ensures !Truthy(Get(message, ChatIdKey)) ==> r == FromString(options.chatId)
  {
    Or(Get(message, ChatIdKey), FromString(options.chatId))
  }

  /** The topic the message goes to, resolved like the chat. */
  function ThreadIdOf(message: Record, options: SendMessageOptions): (r: Option<Value>)
    ensures Truthy(r) <==> Truthy(Get(message, ThreadIdKey)) || Present(options.threadId)
    ensures Truthy(Get(message, ThreadIdKey)) ==> r == Some(message[ThreadIdKey])
    ensures !Truthy(Get(message, ThreadIdKey)) ==> r == FromString(options.threadId)
  {
    Or(Get(message, ThreadIdKey), FromString(options.threadId))
  }

  /** The payload: a copy of the message with the resolved chat, and with
      the resolved topic or, when there is none, without the topic key. */
  function Payload(message: Record, chatId: Value, threadId: Option<Value>): (p: Record)
    ensures ChatIdKey in p && p[ChatIdKey] == chatId
    ensures ThreadIdKey in p <==> Truthy(threadId)
    ensures Truthy(threadId) ==> p[ThreadIdKey] == threadId.value
    ensures forall k :: k != ChatIdKey && k != ThreadIdKey ==> (k in p <==> k in message)
    ensures forall k <- message :: k != ChatIdKey && k != ThreadIdKey ==> p[k] == message[k]
  {
    var p := message[ChatIdKey := chatId];
    if Truthy(threadId) then p[ThreadIdKey := threadId.value] else p - {ThreadIdKey}
  }

  /** The payload `body` is the one sendMessage builds for `message` under
      `options`; it is pinned down key by key. */
  ghost predicate Routed(message: Record, options: SendMessageOptions, body: Record)
  {
    // chat_id: the message's value when truthy, otherwise the channel's
    && ChatIdKey in body
    && (Truthy(Get(message, ChatIdKey)) ==> body[ChatIdKey] == message[ChatIdKey])
    && (!Truthy(Get(message, ChatIdKey)) ==> Some(body[ChatIdKey]) == FromString(options.chatId))
    // message_thread_id: the same precedence, and no key at all when neither is truthy
    && (ThreadIdKey in body <==> Truthy(Get(message, ThreadIdKey)) || Present(options.threadId))
    && (Truthy(Get(message, ThreadIdKey)) ==> body[ThreadIdKey] == message[ThreadIdKey])
    && (!Truthy(Get(message, ThreadIdKey)) && Present(options.threadId) ==>
          body[ThreadIdKey] == Str(options.threadId.value))
    // every other key of the message is copied through unchanged, and nothing is added
    && (forall k :: k != ChatIdKey && k != ThreadIdKey ==> (k in body <==> k in message))
    && (forall k <- message :: k != ChatIdKey && k != ThreadIdKey ==> body[k] == message[k])
  }

  /** Everything sendMessage decides before it touches the network: the
      error it throws, or the one request it issues. */
  function Plan(message: Record, options: SendMessageOptions): (r: Result<Request, string>)
    // the token is checked first, whatever else is missing
    ensures !Present(options.botToken) ==> r == Failure(MissingBotToken)
    ensures Present(options.botToken) && !Truthy(Get(message, ChatIdKey)) && !Present(options.chatId) ==>
              r == Failure(MissingChatId)
    ensures r.Success? <==>
              Present(options.botToken) && (Truthy(Get(message, ChatIdKey)) || Present(options.chatId))
    ensures r.Success? ==> r.value.url == BotUrl(options.botToken.value)
    ensures r.Success? ==> r.value.verb == "POST" && r.value.headers == JsonHeaders
    ensures r.Success? ==> Routed(message, options, r.value.body)
  {
    if !Truthy(FromString(options.botToken)) then Failure(MissingBotToken)
    else
      var chatId := ChatIdOf(message, options);
      if !Truthy(chatId) then Failure(MissingChatId)
      else
        var payload := Payload(message, chatId.value, ThreadIdOf(message, options));
        Success(Request(BotUrl(options.botToken.value), "POST", JsonHeaders, payload))
  }

  /** The message thrown when the provider rejects the request: the
      prefix, then the reply's description as a template literal renders
      it (`undefined` when there is none). */
  function PushFailed(description: Option<string>): (msg: string)
    ensures |msg| >= |PushFailedPrefix| && msg[..|PushFailedPrefix|] == PushFailedPrefix
    ensures description.Some? ==> msg[|PushFailedPrefix|..] == description.value
    ensures description.None? ==> msg[|PushFailedPrefix|..] == "undefined"
  {
    match description
    case None => PushFailedPrefix + "undefined"
    case Some(d) => PushFailedPrefix + d
  }

  /** What a failed send throws: an `Error` the channel raises itself, with
      its message, or the rejection of `fetch`, passed on unchanged. */
  datatype SendError = Raised(message: string) | FetchRejected(reason: string)

  /** What the caller gets back once the request has settled. */
  function Translate(reply: Reply): (r: Result<Response, SendError>)
    ensures reply.Failure? ==> r == Failure(FetchRejected(reply.error))
    ensures reply.Success? ==> (r.Success? <==> reply.value.ok)
    ensures r.Success? ==> reply.Success? && r.value == reply.value
    ensures reply.Success? && !reply.value.ok ==> r == Failure(Raised(PushFailed(reply.value.description)))
  {
    match reply
    case Failure(reason) => Failure(FetchRejected(reason))
    case Success(resp) =>
      if !resp.ok then Failure(Raised(PushFailed(resp.description))) else Success(resp)
  }

  /** What one sendMessage call returns and which requests it issues. */
  datatype Outcome = Outcome(result: Result<Response, SendError>, requests: seq<Request>)

  /** sendMessage against a network on which each request settles as
      `server` says. */
  function Send(message: Record, options: SendMessageOptions, server: Request -> Reply): (o: Outcome)
    ensures |o.requests| <= 1
    ensures o.requests == [] <==> Plan(message, options).Failure?
    ensures o.requests == [] ==> o.result == Failure(Raised(Plan(message, options).error))
    ensures o.requests != [] ==>
              o.requests[0] == Plan(message, options).value && o.result == Translate(server(o.requests[0]))
  {
    match Plan(message, options)
    case Failure(e) => Outcome(Failure(Raised(e)), [])
    case Success(req) => Outcome(Translate(server(req)), [req])
  }

  /** The channel object. */
  class TelegramChannel {
    const config: ChannelConfig

    constructor ()
      ensures config == Config()
    {
      config := Config();
    }

    /** Check the settings, build the payload step by step, post it once
        and translate the reply; a rejected `fetch` is passed on. */
    method SendMessage(message: Record, options: SendMessageOptions, net: Transport)
      returns (result: Result<Response, SendError>)
      modifies net
      ensures result == Send(message, options, net.server).result
      ensures net.sent == old(net.sent) + Send(message, options, net.server).requests
    {
      var botToken := options.botToken;
      if !Present(botToken) {
        return Failure(Raised(MissingBotToken));
      }
      var finalChatId := Or(Get(message, ChatIdKey), FromString(options.chatId));
      if !Truthy(finalChatId) {
        return Failure(Raised(MissingChatId));
      }
      var finalThreadId := Or(Get(message, ThreadIdKey), FromString(options.threadId));
      var payload := message;
      payload := payload[ChatIdKey := finalChatId.value];
      if Truthy(finalThreadId) {
        payload := payload[ThreadIdKey := finalThreadId.value];
      } else {
        payload := payload - {ThreadIdKey};
      }
      var reply := net.Post(Request(BotUrl(botToken.value), "POST", JsonHeaders, payload));
      if reply.Failure? {
        return Failure(FetchRejected(reply.error));
      }
      var response := reply.value;
      if !response.ok {
        return Failure(Raised(PushFailed(response.description)));
      }
      return Success(response);
    }
  }
}

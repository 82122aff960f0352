/** Properties of the Telegram channel that relate several calls or several
    parts of the model. */
module TelegramProperties {
  import opened Wrappers
  import opened JsValues
  import opened Channel
  import opened Http
  import opened Telegram

  /** The payload laws leave no freedom: two payloads that both obey them
      for the same message and settings are equal. */
  lemma RoutedIsUnique(message: Record, options: SendMessageOptions, a: Record, b: Record)
    requires Routed(message, options, a) && Routed(message, options, b)
    ensures a == b
  {
  }

  /** The endpoint URL carries the token verbatim: it can be read back. */
  lemma UrlRoundTrip(token: string)
    ensures TokenOfUrl(BotUrl(token)) == Some(token)
  {
  }

  /** Different tokens give different URL strings. */
  lemma BotUrlInjective(t1: string, t2: string)
    requires BotUrl(t1) == BotUrl(t2)
    ensures t1 == t2
  {
    UrlRoundTrip(t1);
    UrlRoundTrip(t2);
  }

  /** A message that names its chat and its topic is routed the same way
      whatever the channel's default chat and topic are. */
  lemma MessageOverridesChannel(message: Record, o1: SendMessageOptions, o2: SendMessageOptions)
    requires o1.botToken == o2.botToken
    requires Truthy(Get(message, ChatIdKey)) && Truthy(Get(message, ThreadIdKey))
    ensures Plan(message, o1) == Plan(message, o2)
  {
  }

  /** Building the payload again from a payload, under the same settings,
      changes nothing. */
  lemma RebuildIsIdentity(message: Record, options: SendMessageOptions)
    requires Plan(message, options).Success?
    ensures Plan(Plan(message, options).value.body, options) == Plan(message, options)
  {
    var p := Plan(message, options).value.body;
    assert Truthy(Some(p[ChatIdKey]));
    assert ChatIdOf(p, options) == Some(p[ChatIdKey]);
    if ThreadIdKey in p {
      assert ThreadIdOf(p, options) == Some(p[ThreadIdKey]);
    } else {
      assert !Truthy(ThreadIdOf(p, options));
    }
    assert Payload(p, p[ChatIdKey], ThreadIdOf(p, options)) == p;
  }

  /** A message that uses only the keys the channel's templates declare
      yields a payload that uses only those keys. */
  lemma PayloadWithinTemplate(message: Record, options: SendMessageOptions)
    requires message.Keys <= TemplateKeys
    ensures Plan(message, options).Success? ==> Plan(message, options).value.body.Keys <= TemplateKeys
  {
  }

  /** The three messages sendMessage can throw are pairwise different. */
  lemma ErrorsDistinct(description: Option<string>)
    ensures PushFailed(description) != MissingBotToken
    ensures PushFailed(description) != MissingChatId
    ensures MissingBotToken != MissingChatId
  {
  }

  /** The error a send fails with names the step that failed. */
  lemma ErrorNamesFailedStep(message: Record, options: SendMessageOptions, server: Request -> Reply)
    requires Send(message, options, server).result.Failure?
    ensures var o := Send(message, options, server);
            var e := o.result.error;
            && (e == Raised(MissingBotToken) <==> !Present(options.botToken))
            && (e == Raised(MissingChatId) <==>
                  Present(options.botToken) && !Truthy(Get(message, ChatIdKey)) && !Present(options.chatId))
            && (e.FetchRejected? <==> o.requests != [] && server(o.requests[0]).Failure?)
            && (e.Raised? && PushFailedPrefix <= e.message <==>
                  o.requests != [] && server(o.requests[0]).Success?)
  {
  }

  /** Worked cases of the routing rule: the message's chat wins over the
      channel's, the channel's is the fallback, and a send with no topic
      anywhere carries no topic key. */
  lemma RoutingScenarios(text: Value)
    ensures var options := SendMessageOptions(Some("token"), Some("100"), None);
            var overriding := map[TextKey := text, ChatIdKey := Str("200")];
            var silent := map[TextKey := text, ThreadIdKey := Str("")];
            && Plan(overriding, options).Success?
            && Plan(overriding, options).value.body == overriding
            && Plan(silent, options).Success?
            && Plan(silent, options).value.body == map[TextKey := text, ChatIdKey := Str("100")]
  {
  }
}

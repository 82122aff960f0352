/** The channel descriptor shared by every notification channel: a channel
    type, a label and an ordered list of message templates, each with an
    ordered field list. */
module Channel {
  import opened Wrappers

  /** Presentation hint of a template field. */
  datatype Component = Textarea | Input | Checkbox | Hidden

  /** One input field of a template. An omitted `required` is `false`. */
  datatype Field = Field(
    key: string,
    description: Option<string>,
    required: bool,
    component: Component,
    defaultValue: Option<string>)

  /** One message shape; `kind` is the template's `type`. */
  datatype Template = Template(kind: string, name: string, description: string, fields: seq<Field>)

  /** The static descriptor of a channel; `kind` is the channel's `type` and
      `labelText` its `label`. */
  datatype ChannelConfig = ChannelConfig(kind: string, labelText: string, templates: seq<Template>)

  /** The settings of a channel passed to every send. */
  datatype SendMessageOptions = SendMessageOptions(
    botToken: Option<string>,
    chatId: Option<string>,
    threadId: Option<string>)

  /** The set of field keys of a template. */
  function KeySet(t: Template): set<string>
  {
    set f | f in t.fields :: f.key
  }

  /** No two fields of the template share a key. */
  predicate DistinctKeys(t: Template)
  {
    forall i, j :: 0 <= i < j < |t.fields| ==> t.fields[i].key != t.fields[j].key
  }
}

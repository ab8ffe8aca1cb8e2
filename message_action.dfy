/** The message action (src/action/message/mod.rs): when a context closes it
    renders a correlated message from templates and sends it.

    The template engine is abstracted: `render(key)` stands for rendering the
    template registered under `key` against the closed context's renderer
    context (its state and base), and may fail. */
module MessageActions {
  import opened Wrappers
  import opened Messages
  import opened Dispatcher

  /** The key the message text template is registered under. */
  const MessageKey: string := "MESSAGE"

  /** The configuration of one message action: the uuid and optional name of
      the message it produces, the text template and the value templates. */
  datatype MessageActionConfig = MessageActionConfig(
    uuid: string,
    name: Option<string>,
    message: string,
    values: map<string, string>)

  class MessageAction {
    const sender: ResponseSender
    const uuid: string
    const name: Option<string>
    /** The template registry: the template source registered under each key. */
    const values: map<string, string>

    /** The text template is always registered. */
    predicate Valid() {
      MessageKey in values
    }

    /** Registers one template per configured value, then the text template
        under `MESSAGE` (overriding a configured value of that name). */
    constructor (sender: ResponseSender, action: MessageActionConfig)
      ensures this.sender == sender && uuid == action.uuid && name == action.name
      ensures values == action.values[MessageKey := action.message]
      ensures Valid()
    {
      var registry: map<string, string> := map[];
      var pending := action.values.Keys;
      while pending != {}
        invariant pending <= action.values.Keys
        invariant registry == map k | k in action.values && k !in pending :: action.values[k]
        decreases pending
      {
        var key :| key in pending;
        registry := registry[key := action.values[key]];
        pending := pending - {key};
      }
      registry := registry[MessageKey := action.message];
      this.sender := sender;
      this.uuid := action.uuid;
      this.name := action.name;
      this.values := registry;
    }

    /** Every registered template renders. */
    ghost predicate Renders<E>(render: string -> Result<string, E>) {
      forall k :: k in values ==> render(k).Ok?
    }

    /** The message a successful rendering yields: the configured uuid and
        name, the rendered `MESSAGE` as text and every other rendered
        template as a value. */
    ghost function RenderedMessage<E>(render: string -> Result<string, E>): Message
      requires Renders(render) && Valid()
    {
      Message(uuid, name, render(MessageKey).value,
              map k | k in values && k != MessageKey :: render(k).value)
    }

    /** Renders every registered template; the first failure aborts the
        whole result. Keys are visited in an unspecified order (the registry
        is a hash map), so which failing key's error is reported is not fixed. */
    method RenderValues<E>(render: string -> Result<string, E>)
      returns (r: Result<map<string, string>, E>)
      ensures r.Ok? <==> Renders(render)
      ensures r.Ok? ==> r.value.Keys == values.Keys
      ensures r.Ok? ==> forall k :: k in r.value ==> render(k) == Ok(r.value[k])
      ensures r.Err? ==> exists k :: k in values && render(k) == Err(r.error)
    {
      var rendered: map<string, string> := map[];
      var pending := values.Keys;
      while pending != {}
        invariant pending <= values.Keys
        invariant rendered.Keys == values.Keys - pending
        invariant forall k :: k in rendered ==> render(k) == Ok(rendered[k])
        decreases pending
      {
        var key :| key in pending;
        var result := render(key);
        if result.Err? {
          return Err(result.error);
        }
        rendered := rendered[key := result.value];
        pending := pending - {key};
      }
      return Ok(rendered);
    }

    /** Builds the correlated message from the rendered templates: the
        rendered `MESSAGE` is its text and is not among its values. */
    method RenderMessage<E>(render: string -> Result<string, E>) returns (r: Result<Message, E>)
      requires Valid()
      ensures r.Ok? <==> Renders(render)
      ensures r.Ok? ==> r.value.uuid == uuid && r.value.name == name
      ensures r.Ok? ==> Ok(r.value.message) == render(MessageKey)
      ensures r.Ok? ==> r.value.values.Keys == values.Keys - {MessageKey}
      ensures r.Ok? ==> forall k :: k in r.value.values ==> render(k) == Ok(r.value.values[k])
      ensures r.Ok? ==> r.value == RenderedMessage(render)
      ensures r.Err? ==> exists k :: k in values && render(k) == Err(r.error)
    {
      var rendered := RenderValues(render);
      if rendered.Err? {
        return Err(rendered.error);
      }
      var text := rendered.value[MessageKey];
      var builder := new MessageBuilder(uuid, text);
      builder.Name(name);
      builder.Values(rendered.value - {MessageKey});
      r := Ok(builder.Build());
    }

    /** Sends one message response when rendering succeeds; a failed
        rendering is only logged, and nothing is sent. */
    method Execute<E>(render: string -> Result<string, E>)
      requires Valid()
      modifies sender
      ensures Renders(render) ==>
                sender.sent == old(sender.sent) + [MessageResponse(RenderedMessage(render))]
      ensures !Renders(render) ==> sender.sent == old(sender.sent)
    {
      var message := RenderMessage(render);
      if message.Ok? {
        sender.SendResponse(MessageResponse(message.value));
      }
    }
  }
}

/** The correlated message and its builder (src/message/builder.rs). */
module Messages {
  import opened Wrappers

  /** An immutable message: a uuid, an optional name, the text and a
      key/value map (a `BTreeMap` in the source, so its order is the key order). */
  datatype Message = Message(
    uuid: string,
    name: Option<string>,
    message: string,
    values: map<string, string>)

  /** A builder whose setters update its fields in place. */
  class MessageBuilder {
    var uuid: string
    var name: Option<string>
    var message: string
    var values: map<string, string>

    /** `MessageBuilder::new(uuid, message)`: no name and no values yet. */
    constructor (uuid: string, message: string)
      ensures this.uuid == uuid && this.message == message
      ensures name == None && values == map[]
    {
      this.uuid := uuid;
      this.name := None;
      this.message := message;
      this.values := map[];
    }

    /** Overwrites the name, also with `None`. */
    method Name(name: Option<string>)
      modifies this
      ensures this.name == name
      ensures uuid == old(uuid) && message == old(message) && values == old(values)
    {
      this.name := name;
    }

    /** Replaces the whole value map. */
    method Values(values: map<string, string>)
      modifies this
      ensures this.values == values
      ensures uuid == old(uuid) && name == old(name) && message == old(message)
    {
      this.values := values;
    }

    /** Sets one key; every other key keeps its value. */
    method Pair(key: string, value: string)
      modifies this
      ensures key in values && values[key] == value
      ensures values.Keys == old(values).Keys + {key}
      ensures forall k :: k in old(values) && k != key ==> values[k] == old(values)[k]
      ensures uuid == old(uuid) && name == old(name) && message == old(message)
    {
      values := values[key := value];
    }

    /** A copy of the four fields; reading only, so the builder is unchanged
        and two builds in a row give equal messages. */
    function Build(): (m: Message)
      reads this
      ensures m.uuid == uuid && m.name == name
      ensures m.message == message && m.values == values
    {
      Message(uuid, name, message, values)
    }
  }
}

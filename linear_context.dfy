/** The linear correlation context (src/context/linear.rs): a read-only base
    and a state that its handlers replace in place. */
module LinearContexts {
  import opened Dispatcher
  import opened Messages
  import opened ContextState

  class LinearContext {
    /** Shared by reference in the source, so never written after construction. */
    const base: BaseContext
    var state: State

    /** `LinearContext::new(uuid, conditions)`: a fresh state, so not open. */
    constructor (uuid: string, conditions: Conditions)
      ensures base == BaseContext(uuid, conditions)
      ensures state == NewState() && !IsOpen()
    {
      base := BaseContext(uuid, conditions);
      state := NewState();
    }

    /** `From<BaseContext>`: the given base with a fresh state. */
    constructor FromBase(base: BaseContext)
      ensures this.base == base
      ensures state == NewState() && !IsOpen()
    {
      this.base := base;
      state := NewState();
    }

    /** Routes a timer request to `OnTimer` and a message request to
        `OnMessage`; any other request leaves the context as it was. */
    method OnEvent(event: Request)
      modifies this
      ensures event.TimerRequest? ==>
                state == ContextState.OnTimer(base.conditions, old(state), event.event.ticks)
      ensures event.MessageRequest? ==>
                state == ContextState.OnMessage(base.conditions, old(state), event.message)
      ensures event.ExitRequest? ==> state == old(state)
      ensures state == ContextState.OnEvent(base.conditions, old(state), event)
    {
      match event
      case TimerRequest(e) => OnTimer(e);
      case MessageRequest(m) => OnMessage(m);
      case ExitRequest =>
    }

    /** Advances the state by one tick event against the read-only base. */
    method OnTimer(event: TimerEvent)
      modifies this
      ensures state == ContextState.OnTimer(base.conditions, old(state), event.ticks)
    {
      state := ContextState.OnTimer(base.conditions, state, event.ticks);
    }

    /** Offers one message to the state against the read-only base. */
    method OnMessage(message: Message)
      modifies this
      ensures state == ContextState.OnMessage(base.conditions, old(state), message)
    {
      state := ContextState.OnMessage(base.conditions, state, message);
    }

    function IsOpen(): (r: bool)
      reads this
      ensures r == state.open
    {
      state.open
    }

    function Patterns(): (p: seq<string>)
      ensures p == base.conditions.patterns
    {
      base.conditions.patterns
    }

    function Uuid(): (u: string)
      ensures u == base.uuid
    {
      base.uuid
    }

    /** As an event handler, a linear context subscribes to its patterns. */
    function Handlers(): (h: seq<string>)
      ensures h == base.conditions.patterns
    {
      Patterns()
    }
  }
}

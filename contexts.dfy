/** The `Context` enum of src/context/mod.rs: a linear or a map context behind
    one interface. The map variant's own source is not part of this model: it
    is given the same interface and the same closing rules, without any
    keyed sub-grouping. */
module Contexts {
  import opened Wrappers
  import opened Dispatcher
  import opened Messages
  import opened ContextState
  import opened LinearContexts

  class MapContext {
    const base: BaseContext
    var state: State

    constructor (uuid: string, conditions: Conditions)
      ensures base == BaseContext(uuid, conditions)
      ensures state == NewState()
    {
      base := BaseContext(uuid, conditions);
      state := NewState();
    }

    method OnTimer(event: TimerEvent)
      modifies this
      ensures state == ContextState.OnTimer(base.conditions, old(state), event.ticks)
    {
      state := ContextState.OnTimer(base.conditions, state, event.ticks);
    }

    method OnMessage(message: Message)
      modifies this
      ensures state == ContextState.OnMessage(base.conditions, old(state), message)
    {
      state := ContextState.OnMessage(base.conditions, state, message);
    }

    function IsOpen(): (r: bool)
      reads this
      ensures r == state.open
    {
      state.open
    }
  }

  datatype Context = Linear(linear: LinearContext) | Map(mapped: MapContext) {

    /** The one object the variant wraps. */
    function Target(): object {
      if Linear? then linear else mapped
    }

    function Conds(): Conditions {
      if Linear? then linear.base.conditions else mapped.base.conditions
    }

    /** The wrapped context's state. */
    function Current(): State
      reads Target()
    {
      if Linear? then linear.state else mapped.state
    }

    /** Delegates to the wrapped variant; only that variant's state changes. */
    method OnTimer(event: TimerEvent)
      modifies Target()
      ensures Current() == ContextState.OnTimer(Conds(), old(Current()), event.ticks)
    {
      match this
      case Linear(c) => c.OnTimer(event);
      case Map(c) => c.OnTimer(event);
    }

    /** Delegates to the wrapped variant; only that variant's state changes. */
    method OnMessage(message: Message)
      modifies Target()
      ensures Current() == ContextState.OnMessage(Conds(), old(Current()), message)
    {
      match this
      case Linear(c) => c.OnMessage(message);
      case Map(c) => c.OnMessage(message);
    }

    function IsOpen(): (r: bool)
      reads Target()
      ensures r == Current().open
    {
      match this
      case Linear(c) => c.IsOpen()
      case Map(c) => c.IsOpen()
    }

    /** `Context::new_linear`: always the linear variant, not open yet. */
    static method NewLinear(uuid: string, conditions: Conditions) returns (c: Context)
      ensures c.Linear? && fresh(c.linear) && c.linear.base.uuid == uuid
      ensures c.Conds() == conditions && c.Current() == NewState()
    {
      var l := new LinearContext(uuid, conditions);
      c := Linear(l);
    }

    /** `Context::new_map`: always the map variant, not open yet. */
    static method NewMap(uuid: string, conditions: Conditions) returns (c: Context)
      ensures c.Map? && fresh(c.mapped) && c.mapped.base.uuid == uuid
      ensures c.Conds() == conditions && c.Current() == NewState()
    {
      var m := new MapContext(uuid, conditions);
      c := Map(m);
    }

    /** `From<config::Context>`: the configuration (modelled by the base it
        converts into) always yields the linear variant with a fresh state. */
    static method FromConfig(config: BaseContext) returns (c: Context)
      ensures c.Linear? && fresh(c.linear) && c.linear.base == config
      ensures c.Current() == NewState()
    {
      var l := new LinearContext.FromBase(config);
      c := Linear(l);
    }
  }

  /** The timeout test of src/context/mod.rs, driven through the interface. */
  method TimeoutTest() {
    var c := Context.NewLinear("ctx", Conditions(["1"], 100, None, None));
    var m := Message("1", None, "", map[]);
    assert !c.IsOpen();
    c.OnMessage(m);
    assert c.IsOpen();
    c.OnTimer(TimerEvent(50));
    assert c.IsOpen();
    c.OnTimer(TimerEvent(49));
    assert c.IsOpen();
    c.OnTimer(TimerEvent(1));
    assert !c.IsOpen();
  }
}

/** The request reactor (src/dispatcher/reactor.rs): a table from request
    handle to handler and a loop that drains the demultiplexer, handing each
    request to the handler registered for its handle. */
module Reactor {
  import opened Dispatcher

  /** A registered handler: the handle it answers to (`handle()`) and its
      effect on the shared context map (`handle_event`). */
  datatype Handler<!M> = Handler(handle: RequestHandle, handleEvent: (Request, M) -> M)

  /** One request: the handler registered under the request's handle runs;
      a request without one is dropped and the map stays as it was. */
  function Dispatch<M>(handlers: map<RequestHandle, Handler<M>>, r: Request, m: M): M {
    if Handle(r) in handlers then handlers[Handle(r)].handleEvent(r, m) else m
  }

  /** The context map after the requests `q` are handled, front first. */
  function Drain<M>(handlers: map<RequestHandle, Handler<M>>, q: seq<Request>, m: M): M
    decreases |q|
  {
    if q == [] then m else Drain(handlers, q[1..], Dispatch(handlers, q[0], m))
  }

  /** Requests are handled in queue order: handling `q` then `r` is handling
      `q + [r]`, and `r` reaches exactly the handler under its own handle. */
  lemma {:induction false} DrainInOrder<M>(
    handlers: map<RequestHandle, Handler<M>>, q: seq<Request>, r: Request, m: M)
    ensures Drain(handlers, q + [r], m) ==
              if Handle(r) in handlers
              then handlers[Handle(r)].handleEvent(r, Drain(handlers, q, m))
              else Drain(handlers, q, m)
    decreases |q|
  {
    if q == [] {
      assert [r][1..] == [];
    } else {
      assert (q + [r])[1..] == q[1..] + [r];
      DrainInOrder(handlers, q[1..], r, Dispatch(handlers, q[0], m));
    }
  }

  /** Requests none of whose handles is registered are all dropped. */
  lemma {:induction false} DrainUnhandled<M>(
    handlers: map<RequestHandle, Handler<M>>, q: seq<Request>, m: M)
    requires forall i :: 0 <= i < |q| ==> Handle(q[i]) !in handlers
    ensures Drain(handlers, q, m) == m
    decreases |q|
  {
    if q != [] {
      assert Handle(q[0]) !in handlers;
      DrainUnhandled(handlers, q[1..], m);
    }
  }

  /** Only the handlers under the handles of the queued requests take part:
      removing the others changes nothing. */
  lemma {:induction false} DrainUsesOnlyOwnHandles<M>(
    handlers: map<RequestHandle, Handler<M>>, others: set<RequestHandle>, q: seq<Request>, m: M)
    requires forall i :: 0 <= i < |q| ==> Handle(q[i]) !in others
    ensures Drain(handlers - others, q, m) == Drain(handlers, q, m)
    decreases |q|
  {
    if q != [] {
      assert Handle(q[0]) !in others;
      assert Dispatch(handlers - others, q[0], m) == Dispatch(handlers, q[0], m);
      DrainUsesOnlyOwnHandles(handlers, others, q[1..], Dispatch(handlers, q[0], m));
    }
  }

  class RequestReactor<M> {
    var handlers: map<RequestHandle, Handler<M>>
    /** The requests the demultiplexer will still yield, in order. */
    var demultiplexer: seq<Request>
    var contextMap: M
    const responder: ResponseSender

    /** A new reactor has no handlers. */
    constructor (demultiplexer: seq<Request>, contextMap: M, responder: ResponseSender)
      ensures handlers == map[]
      ensures this.demultiplexer == demultiplexer && this.contextMap == contextMap
      ensures this.responder == responder
    {
      this.handlers := map[];
      this.demultiplexer := demultiplexer;
      this.contextMap := contextMap;
      this.responder := responder;
    }

    /** Pulls requests until the demultiplexer yields none, dispatching each. */
    method HandleEvents()
      modifies this
      ensures demultiplexer == [] && handlers == old(handlers)
      ensures contextMap == Drain(handlers, old(demultiplexer), old(contextMap))
    {
      while demultiplexer != []
        invariant handlers == old(handlers)
        invariant Drain(handlers, demultiplexer, contextMap)
                    == Drain(handlers, old(demultiplexer), old(contextMap))
        decreases |demultiplexer|
      {
        var request := demultiplexer[0];
        demultiplexer := demultiplexer[1..];
        if Handle(request) in handlers {
          contextMap := handlers[Handle(request)].handleEvent(request, contextMap);
        }
      }
    }

    /** Stores the handler under its own handle, replacing any earlier one. */
    method RegisterHandler(handler: Handler<M>)
      modifies this`handlers
      ensures handlers == old(handlers)[handler.handle := handler]
    {
      handlers := handlers[handler.handle := handler];
    }

    /** Removes the handler under `handle`; every other registration stays. */
    method RemoveHandlerByHandle(handle: RequestHandle)
      modifies this`handlers
      ensures handlers == old(handlers) - {handle}
    {
      handlers := handlers - {handle};
    }
  }
}

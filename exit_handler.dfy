/** The terminal handler (correlation/src/dispatcher/handlers/exit.rs): it
    answers an exit request with one exit response. */
module ExitHandler {
  import opened Dispatcher

  /** What a handler is given besides the request. Of it the exit handler
      uses only the responder; the context map and templates it also carries
      are not part of this model. */
  datatype SharedData = SharedData(responder: ResponseSender)

  /** A handler without state (a unit struct in the source). */
  datatype ExitEventHandler = ExitEventHandler {

    /** It is registered under the exit handle, the handle that exit requests
        and only they carry, so the reactor hands it nothing but exits. */
    function Handle(): (h: RequestHandle)
      ensures h == ExitHandle
      ensures forall r :: Dispatcher.Handle(r) == h <==> r.ExitRequest?
    {
      ExitHandle
    }

    /** Sends exactly one exit response and touches nothing but the
        responder. Any other request is a broken routing table, a contract
        violation, hence a precondition. */
    method HandleEvent(event: Request, data: SharedData)
      requires event.ExitRequest?
      modifies data.responder
      ensures data.responder.sent == old(data.responder.sent) + [ExitResponse]
    {
      data.responder.SendResponse(ExitResponse);
    }
  }
}

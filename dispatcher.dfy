/** Requests flowing into the reactor, the handles they are routed by, and
    the responses flowing out of it (the `dispatcher::request` and
    `dispatcher::response` types the reactor and the handlers use). */
module Dispatcher {
  import opened Messages

  /** A timer tick carrying the number of elapsed ticks since the previous one. */
  datatype TimerEvent = TimerEvent(ticks: nat)

  datatype Request =
    | MessageRequest(message: Message)
    | TimerRequest(event: TimerEvent)
    | ExitRequest

  /** The discriminant a request is routed by: one per request kind. */
  datatype RequestHandle = MessageHandle | TimerHandle | ExitHandle

  function Handle(r: Request): (h: RequestHandle)
    ensures h == ExitHandle <==> r.ExitRequest?
    ensures h == TimerHandle <==> r.TimerRequest?
  {
    match r
    case MessageRequest(_) => MessageHandle
    case TimerRequest(_) => TimerHandle
    case ExitRequest => ExitHandle
  }

  datatype Response =
    | MessageResponse(message: Message)
    | ExitResponse

  /** The outward sink of responses; `sent` is everything handed to it so far. */
  class ResponseSender {
    var sent: seq<Response>

    constructor ()
      ensures sent == []
    {
      sent := [];
    }

    method SendResponse(response: Response)
      modifies this
      ensures sent == old(sent) + [response]
    {
      sent := sent + [response];
    }
  }
}

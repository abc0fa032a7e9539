/** The in-process transport: a sink and a stream in front of a request handler. */
module LocalRpc {
  import opened Basics
  import opened JsonRpc
  import opened ClientMessages
  import opened Dispatch

  datatype Buffered = Nothing | InFlight(request: Call, occasion: nat) | Answer(text: ServerText)

  /** `served` counts the requests handed to the handler; it numbers their occasions. */
  datatype Local = Local(buffered: Buffered, queue: seq<ServerText>, served: nat)

  /** The client cannot read a batch of responses. */
  function TextOf(response: Response): ServerText {
    match response
    case SingleResponse(output) => Reply(output)
    case BatchResponse(_) => Garbage
  }

  /** What the handler's future for a request resolves to. */
  function Resolved(h: Handler, request: Call, occasion: nat): Option<ServerText> {
    match HandleRequest(h, Single(request), occasion).0
    case Some(response) => Some(TextOf(response))
    case None => None
  }

  /** `poll_buffered` when the future in the slot, if any, is ready. */
  function Settle(h: Handler, l: Local): Local {
    match l.buffered
    case InFlight(request, occasion) =>
      (match Resolved(h, request, occasion)
       case Some(text) => l.(buffered := Nothing, queue := l.queue + [text])
       case None => l.(buffered := Nothing))
    case Answer(text) => l.(buffered := Nothing, queue := l.queue + [text])
    case Nothing => l
  }

  function StartSend(l: Local, request: Call): Local {
    l.(buffered := InFlight(request, l.served), served := l.served + 1)
  }

  class Connection {
    const handler: Handler
    var buffered: Buffered
    var queue: seq<ServerText>
    var served: nat

    ghost function Now(): Local
      reads this
    {
      Local(buffered, queue, served)
    }

    constructor (handler: Handler)
      ensures this.handler == handler && Now() == Local(Nothing, [], 0)
    {
      this.handler := handler;
      buffered, queue, served := Nothing, [], 0;
    }

    /** Returns false for `Pending`; `done` tells whether the handler's future is ready. */
    method PollBuffered(done: bool) returns (ready: bool)
      modifies this
      ensures ready == (done || !old(buffered).InFlight?)
      ensures Now() == if ready then Settle(handler, old(Now())) else old(Now())
    {
      if buffered.InFlight? {
        if !done {
          return false;
        }
        var response := Resolved(handler, buffered.request, buffered.occasion);
        if response.Some? {
          buffered := Answer(response.value);
        }
      }
      SendResponse();
      ready := true;
    }

    method SendResponse()
      modifies this
      ensures buffered == Nothing && served == old(served)
      ensures queue == old(queue) + if old(buffered).Answer? then [old(buffered).text] else []
    {
      var taken := buffered;
      buffered := Nothing;
      if taken.Answer? {
        queue := queue + [taken.text];
      }
    }

    /** `start_send`: replaces whatever is in the slot. */
    method Send(request: Call)
      modifies this
      ensures Now() == StartSend(old(Now()), request)
    {
      buffered := InFlight(request, served);
      served := served + 1;
    }

    method PollNext() returns (text: Option<ServerText>)
      modifies this
      ensures old(queue) == [] ==> text == None && Now() == old(Now())
      ensures old(queue) != [] ==> text == Some(old(queue)[0]) && Now() == old(Now()).(queue := old(queue)[1..])
    {
      if queue == [] {
        return None;
      }
      text := Some(queue[0]);
      queue := queue[1..];
    }
  }
}

/** The replies a client reads from the in-process connection come in the order of its requests. */
module InOrder {
  import opened Basics
  import opened JsonRpc
  import opened ClientMessages
  import opened Dispatch
  import opened Duplex
  import opened DuplexProofs
  import opened LocalRpc
  import opened EndToEnd

  type Parsed = Result<Incoming, RpcError>

  /** What the client should read in reply to the `k`-th request: a call has one reply, a notification none. */
  function ReplyTo(h: Handler, request: Call, k: nat): seq<Parsed> {
    if !request.MethodCall? then []
    else match Owed(h, request.jsonrpc, request.name, request.params, k)
      case Ok(value) => [Ok(Incoming(request.id, Ok(value), None, None))]
      case Err(error) => [Ok(Incoming(request.id, Err(JsonRpcError(error)), None, None))]
  }

  function Replies(h: Handler, requests: seq<Call>): seq<Parsed> {
    if requests == [] then []
    else
      var k := |requests| - 1;
      Replies(h, requests[..k]) + ReplyTo(h, requests[k], k)
  }

  /** The requests sent whose futures have been polled to their end. */
  function Served(sent: seq<Call>, slot: Buffered): seq<Call> {
    if slot.InFlight? && sent != [] then sent[..|sent| - 1] else sent
  }

  function Read(texts: seq<ServerText>, readError: ErrorReader): seq<Parsed> {
    if texts == [] then [] else [ParseResponse(texts[0], readError)] + Read(texts[1..], readError)
  }

  /** What the client was given to read, notifications apart. */
  function RepliesIn(events: seq<Event>): seq<Parsed> {
    if events == [] then []
    else
      var last := events[|events| - 1];
      RepliesIn(events[..|events| - 1])
      + if last.Receive? && !(last.parsed.Ok? && last.parsed.value.name.Some?) then [last.parsed] else []
  }

  /** The replies read and those that wait are the ones owed; the slot holds the request sent last. */
  predicate Orderly(h: Handler, sent: seq<Call>, l: Local, replies: seq<Parsed>, readError: ErrorReader) {
    && (l.buffered.InFlight? ==>
          && sent != [] && l.buffered.request == sent[|sent| - 1] && l.buffered.occasion == |sent| - 1
          && !l.buffered.request.Invalid?)
    && !l.buffered.Answer? && l.served == |sent|
    && replies + Read(l.queue, readError) == Replies(h, Served(sent, l.buffered))
  }

  ghost predicate Runs(h: Handler, y: System, events: seq<Event>, readError: ErrorReader) {
    && y.client == Run(START, events)
    && Orderly(h, Sent(y.client.log), y.server, RepliesIn(events), readError)
  }

  lemma {:induction false} ReadSnoc(texts: seq<ServerText>, text: ServerText, readError: ErrorReader)
    ensures Read(texts + [text], readError) == Read(texts, readError) + [ParseResponse(text, readError)]
  {
    if texts == [] {
      assert texts + [text] == [text];
    } else {
      ReadSnoc(texts[1..], text, readError);
      assert (texts + [text])[1..] == texts[1..] + [text];
    }
  }

  lemma AddEvent(events: seq<Event>, e: Event)
    ensures Run(START, events + [e]) == Step(Run(START, events), e)
    ensures RepliesIn(events + [e]) == RepliesIn(events)
      + if e.Receive? && !(e.parsed.Ok? && e.parsed.value.name.Some?) then [e.parsed] else []
  {
    assert (events + [e])[..|events|] == events;
  }

  lemma ReplyIsResolved(h: Handler, request: Call, k: nat, readError: ErrorReader)
    requires !request.Invalid?
    ensures var text := Resolved(h, request, k);
      ReplyTo(h, request, k) == if text.Some? then [ParseResponse(text.value, readError)] else []
  {
    if request.MethodCall? {
      CallIsAnswered(h, request.jsonrpc, request.name, request.params, request.id, k);
      var output := HandleCall(h, request, k).0.value;
      assert Resolved(h, request, k) == Some(Reply(output));
      ReplyIsRead(output, readError);
    }
  }

  /** A future that ends puts its reply behind the others. */
  lemma OrderlySettle(h: Handler, sent: seq<Call>, l: Local, replies: seq<Parsed>, readError: ErrorReader)
    requires Orderly(h, sent, l, replies, readError)
    ensures Orderly(h, sent, Settle(h, l), replies, readError) && Settle(h, l).buffered == Nothing
  {
    if l.buffered.InFlight? {
      var request, k := l.buffered.request, l.buffered.occasion;
      ReplyIsResolved(h, request, k, readError);
      var text := Resolved(h, request, k);
      if text.Some? {
        ReadSnoc(l.queue, text.value, readError);
      }
    }
  }

  lemma OrderlySend(
    h: Handler, sent: seq<Call>, l: Local, request: Call, replies: seq<Parsed>, readError: ErrorReader)
    requires Orderly(h, sent, l, replies, readError) && l.buffered == Nothing && !request.Invalid?
    ensures Orderly(h, sent + [request], StartSend(l, request), replies, readError)
  {
    assert (sent + [request])[..|sent|] == sent;
  }

  lemma OrderlyTake(h: Handler, sent: seq<Call>, l: Local, replies: seq<Parsed>, readError: ErrorReader)
    requires Orderly(h, sent, l, replies, readError) && l.queue != []
    ensures Orderly(
      h, sent, l.(queue := l.queue[1..]), replies + [ParseResponse(l.queue[0], readError)], readError)
  {
  }

  /** A client's event beside a change of the connection. */
  lemma RunsBy(h: Handler, t: Trace, l: Local, e: Event, events: seq<Event>, readError: ErrorReader)
    requires t == Run(START, events)
    requires !e.Receive? && Orderly(h, Sent(Step(t, e).log), l, RepliesIn(events), readError)
    ensures Runs(h, System(Step(t, e), l), events + [e], readError)
  {
    AddEvent(events, e);
    assert RepliesIn(events + [e]) == RepliesIn(events);
  }

  lemma RunsClient(h: Handler, y: System, events: seq<Event>, e: Event, readError: ErrorReader)
    requires Runs(h, y, events, readError) && !e.SinkReady?
    requires e.Receive? ==> e.parsed.Ok? && e.parsed.value.name.Some?
    ensures Runs(h, y.(client := Step(y.client, e)), events + [e], readError)
  {
    AddEvent(events, e);
    SentByStep(y.client, e);
  }

  lemma RunsArrive(h: Handler, y: System, events: seq<Event>, readError: ErrorReader) returns (e: Event)
    requires Runs(h, y, events, readError) && Faithful(h, Sent(y.client.log), y.server)
    requires y.client.state.status.Running? && y.server.queue != []
    ensures Runs(h, Next(h, y, Arrive, readError), events + [e], readError)
  {
    var text := y.server.queue[0];
    e := Receive(ParseResponse(text, readError));
    assert GenuineText(h, Sent(y.client.log), text);
    ReplyIsRead(text.output, readError);
    AddEvent(events, e);
    SentByStep(y.client, e);
    OrderlyTake(h, Sent(y.client.log), y.server, RepliesIn(events), readError);
  }

  lemma SentByWrite(t: Trace)
    requires t.state.status.Running? && t.state.outgoing != []
    ensures Sent(Step(t, SinkReady(true)).log) == Sent(t.log) + [t.state.outgoing[0]]
  {
  }

  lemma NextIsBuilt(t: Trace)
    requires Sound(t) && Fifo(t) && t.state.status.Running? && t.state.outgoing != []
    ensures !t.state.outgoing[0].Invalid?
  {
    QueuedIsBuilt(t.log, t.state.outgoing[0]);
  }

  lemma RunsSend(h: Handler, y: System, events: seq<Event>, readError: ErrorReader)
    requires Runs(h, y, events, readError) && y.client.state.status.Running?
    requires y.client.state.outgoing != [] && !y.client.state.outgoing[0].Invalid? && y.server.buffered == Nothing
    ensures Runs(h, System(Step(y.client, SinkReady(true)), StartSend(y.server, y.client.state.outgoing[0])),
                 events + [SinkReady(true)], readError)
  {
    var request := y.client.state.outgoing[0];
    OrderlySend(h, Sent(y.client.log), y.server, request, RepliesIn(events), readError);
    SentByWrite(y.client);
    RunsBy(h, y.client, StartSend(y.server, request), SinkReady(true), events, readError);
  }

  lemma RunsReady(h: Handler, y: System, done: bool, events: seq<Event>, readError: ErrorReader)
    returns (more: seq<Event>)
    requires Runs(h, y, events, readError) && Sound(y.client) && Fifo(y.client) && y.client.state.status.Running?
    ensures Runs(h, Next(h, y, Move.Ready(done), readError), more, readError)
  {
    var t, l := y.client, y.server;
    more := events;
    if done || !l.buffered.InFlight? {
      OrderlySettle(h, Sent(t.log), l, RepliesIn(events), readError);
      if t.state.outgoing != [] {
        NextIsBuilt(t);
        RunsSend(h, y.(server := Settle(h, l)), events, readError);
        more := events + [SinkReady(true)];
      }
    }
  }

  lemma RunsFlushed(h: Handler, y: System, done: bool, events: seq<Event>, readError: ErrorReader)
    returns (more: seq<Event>)
    requires Runs(h, y, events, readError) && y.client.state.status.Running?
    ensures Runs(h, Next(h, y, Move.Flushed(done), readError), more, readError)
  {
    var ready := done || !y.server.buffered.InFlight?;
    more := events + [Flush(ready)];
    if ready {
      OrderlySettle(h, Sent(y.client.log), y.server, RepliesIn(events), readError);
      RunsClient(h, y.(server := Settle(h, y.server)), events, Flush(true), readError);
    } else {
      RunsClient(h, y, events, Flush(false), readError);
    }
  }

  lemma RunsNext(h: Handler, y: System, m: Move, events: seq<Event>, readError: ErrorReader)
    returns (more: seq<Event>)
    requires Runs(h, y, events, readError) && Coherent(h, y)
    ensures Runs(h, Next(h, y, m, readError), more, readError)
  {
    more := events;
    if y.client.state.status.Running? {
      match m
      case Client(e) =>
        if Inner(e) {
          RunsClient(h, y, events, e, readError);
          more := events + [e];
        }
      case Arrive =>
        if y.server.queue != [] {
          var e := RunsArrive(h, y, events, readError);
          more := events + [e];
        }
      case Push(name, params) =>
        var e := Receive(ParseResponse(Notice(name, params), readError));
        NoticeIsRead(name, params, readError);
        RunsClient(h, y, events, e, readError);
        more := events + [e];
      case Ready(done) => more := RunsReady(h, y, done, events, readError);
      case Flushed(done) => more := RunsFlushed(h, y, done, events, readError);
    }
  }

  /**
   In every run of client and server, what the client was given to read, notifications apart, and
   what still waits for it in the connection are together the replies owed to the requests it sent,
   one for every call, in the order of the requests; only the request in the slot is still without one.
   */
  lemma {:induction false} RepliesComeInOrder(h: Handler, moves: seq<Move>, readError: ErrorReader)
    returns (events: seq<Event>)
    ensures var y := Moves(h, moves, readError);
      && y.client == Run(START, events)
      && RepliesIn(events) + Read(y.server.queue, readError)
         == Replies(h, Served(Sent(y.client.log), y.server.buffered))
    ensures Runs(h, Moves(h, moves, readError), events, readError)
  {
    if moves == [] {
      events := [];
    } else {
      var before := moves[..|moves| - 1];
      var given := RepliesComeInOrder(h, before, readError);
      RunsAreCoherent(h, before, readError);
      events := RunsNext(h, Moves(h, before, readError), moves[|moves| - 1], given, readError);
    }
  }
}

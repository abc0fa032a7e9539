/**
 The duplex transport connected to the in-process handler: every answer a caller receives is the
 handler's answer to that caller's own call, and no call gets lost on the way.
 */
module EndToEnd {
  import opened Basics
  import opened JsonRpc
  import opened ClientMessages
  import opened Dispatch
  import opened Duplex
  import opened DuplexProofs
  import opened LocalRpc

  datatype System = System(client: Trace, server: Local)

  const BEGIN := System(START, Local(Nothing, [], 0))

  /** One step of a poll of the connected future; `done` tells whether the handler's future is ready. */
  datatype Move =
    | Client(event: Event)                        // client channel or incoming queue
    | Arrive                                      // the stream has a reply
    | Push(name: string, params: Params)          // the stream has a notification the server pushed
    | Ready(done: bool)                           // the sink is asked and given the next request
    | Flushed(done: bool)                         // the sink is flushed and the poll ends

  predicate Inner(e: Event) { e.Accept? || e.ChannelClosed? || e.Process? }

  function Next(h: Handler, y: System, m: Move, readError: ErrorReader): System {
    var c, l := y.client, y.server;
    if !c.state.status.Running? then y
    else match m
      case Client(e) => if Inner(e) then y.(client := Step(c, e)) else y
      case Arrive =>
        if l.queue == [] then y
        else System(Step(c, Receive(ParseResponse(l.queue[0], readError))), l.(queue := l.queue[1..]))
      case Push(name, params) => y.(client := Step(c, Receive(ParseResponse(Notice(name, params), readError))))
      case Ready(done) =>
        if l.buffered.InFlight? && !done then y
        else if c.state.outgoing == [] then y.(server := Settle(h, l))
        else System(Step(c, SinkReady(true)), StartSend(Settle(h, l), c.state.outgoing[0]))
      case Flushed(done) =>
        if l.buffered.InFlight? && !done then y.(client := Step(c, Flush(false)))
        else System(Step(c, Flush(true)), Settle(h, l))
  }

  function Moves(h: Handler, moves: seq<Move>, readError: ErrorReader): System {
    if moves == [] then BEGIN
    else Next(h, Moves(h, moves[..|moves| - 1], readError), moves[|moves| - 1], readError)
  }

  /** The client's side of every run of the system is a run of the transport. */
  lemma {:induction false} ClientRuns(h: Handler, moves: seq<Move>, readError: ErrorReader) returns (events: seq<Event>)
    ensures Moves(h, moves, readError).client == Run(START, events)
  {
    if moves == [] {
      return [];
    }
    var y, m := Moves(h, moves[..|moves| - 1], readError), moves[|moves| - 1];
    var before := ClientRuns(h, moves[..|moves| - 1], readError);
    var e := EventOf(y, m, readError);
    if Next(h, y, m, readError).client == y.client {
      return before;
    }
    events := before + [e];
    assert events[..|events| - 1] == before;
  }

  function EventOf(y: System, m: Move, readError: ErrorReader): Event {
    match m
    case Client(e) => e
    case Arrive => if y.server.queue == [] then ChannelClosed else Receive(ParseResponse(y.server.queue[0], readError))
    case Push(name, params) => Receive(ParseResponse(Notice(name, params), readError))
    case Ready(_) => SinkReady(true)
    case Flushed(done) => Flush(done || !y.server.buffered.InFlight?)
  }

  // ---------------------------------------------------------------- whose answer it is

  /** What the caller of a method call is told on this occasion. */
  function ResultOf(h: Handler, request: Call, occasion: nat): RpcResult
    requires request.MethodCall?
  {
    AsRpcResult(OutputResult(HandleCall(h, request, occasion).0.value))
  }

  function CallFor(name: string, params: Params, id: Id): Call { MethodCall(Some(V2), name, params, id) }

  /** What a call of this name with these params is owed when it is the `k`-th request to reach the handler. */
  function OwedBy(h: Handler, name: string, params: Params, k: nat): RpcResult {
    match Owed(h, Some(V2), name, params, k)
    case Ok(value) => Ok(value)
    case Err(error) => Err(JsonRpcError(error))
  }

  lemma ResultIsOwed(h: Handler, name: string, params: Params, id: Id, k: nat)
    ensures ResultOf(h, CallFor(name, params, id), k) == OwedBy(h, name, params, k)
  {
    CallIsAnswered(h, Some(V2), name, params, id, k);
  }

  /** A call with oneshot `c` went out under this id. */
  ghost predicate Asked(log: Log, id: Id, c: Sender) {
    exists name, params :: InLog(log, Accepted(CallMessage(name, params, c), CallFor(name, params, id)))
  }

  /**
   The call that brought oneshot `c` went out under this id as the `k`-th request to reach the
   handler, and `result` is what the handler answered to that very request.
   */
  predicate AnsweredAs(
    h: Handler, log: Log, id: Id, c: Sender, result: RpcResult, name: string, params: Params, k: nat)
  {
    && InLog(log, Accepted(CallMessage(name, params, c), CallFor(name, params, id)))
    && k < |Sent(log)| && Sent(log)[k] == CallFor(name, params, id)
    && result == OwedBy(h, name, params, k)
  }

  ghost predicate Deserved(h: Handler, log: Log, id: Id, c: Sender, result: RpcResult) {
    exists name, params, k: nat :: AnsweredAs(h, log, id, c, result, name, params, k)
  }

  /** Every result that was sent to a oneshot. */
  ghost predicate AllDeserved(h: Handler, log: Log) {
    log.Then? ==>
      && AllDeserved(h, log.before)
      && (log.action.Answered? ==> Deserved(h, log.before, log.action.id, log.action.sender, log.action.result))
  }

  /** `result` is the handler's answer to the `k`-th request it was given, which has this id. */
  predicate GenuineAt(h: Handler, sent: seq<Call>, id: Id, result: RpcResult, k: nat) {
    k < |sent| && sent[k].MethodCall? && sent[k].id == id && result == ResultOf(h, sent[k], k)
  }

  ghost predicate Genuine(h: Handler, sent: seq<Call>, id: Id, result: RpcResult) {
    exists k: nat :: GenuineAt(h, sent, id, result, k)
  }

  predicate IdsBelow(q: seq<Call>, n: nat) {
    forall i :: 0 <= i < |q| && q[i].MethodCall? ==> q[i].id.Num? && q[i].id.n < n
  }

  predicate IdsUnique(q: seq<Call>) {
    forall i, j :: 0 <= i < j < |q| && q[i].MethodCall? && q[j].MethodCall? ==> q[i].id != q[j].id
  }

  lemma GenuineGrows(h: Handler, sent: seq<Call>, x: Call, id: Id, result: RpcResult)
    requires Genuine(h, sent, id, result)
    ensures Genuine(h, sent + [x], id, result)
  {
    var k: nat :| GenuineAt(h, sent, id, result, k);
    assert GenuineAt(h, sent + [x], id, result, k);
  }

  lemma {:induction false} AcceptedIsQueued(log: Log, m: RpcMessage, request: Call)
    requires InLog(log, Accepted(m, request))
    ensures request in Queued(log)
  {
    if log.action != Accepted(m, request) { AcceptedIsQueued(log.before, m, request); }
  }

  /** The one request with an id is the one its caller asked for. */
  lemma AnswerIsDeserved(h: Handler, log: Log, id: Id, c: Sender, result: RpcResult)
    requires IdsUnique(Queued(log)) && Sent(log) <= Queued(log)
    requires Asked(log, id, c) && Genuine(h, Sent(log), id, result)
    ensures Deserved(h, log, id, c, result)
  {
    var q := Queued(log);
    var name, params :| InLog(log, Accepted(CallMessage(name, params, c), CallFor(name, params, id)));
    var k: nat :| GenuineAt(h, Sent(log), id, result, k);
    AcceptedIsQueued(log, CallMessage(name, params, c), CallFor(name, params, id));
    var j :| 0 <= j < |q| && q[j] == CallFor(name, params, id);
    assert q[k] == Sent(log)[k];
    assert k == j;
    ResultIsOwed(h, name, params, id, k);
    assert AnsweredAs(h, log, id, c, result, name, params, k);
  }

  // ---------------------------------------------------------------- the client's side

  ghost predicate AllAsked(s: State, log: Log) {
    forall id :: id in s.pending && s.pending[id].PendingCall? ==> Asked(log, id, s.pending[id].sender)
  }

  ghost predicate AllGenuine(h: Handler, sent: seq<Call>, entries: seq<Incoming>) {
    forall i :: 0 <= i < |entries| ==> entries[i].id.NullId? || Genuine(h, sent, entries[i].id, entries[i].result)
  }

  ghost predicate Honest(h: Handler, t: Trace) {
    Drawn(t.log) <= TWO_TO_THE_64 ==>
      && IdsBelow(Queued(t.log), Drawn(t.log)) && IdsUnique(Queued(t.log))
      && AllAsked(t.state, t.log) && AllGenuine(h, Sent(t.log), t.state.incoming)
      && AllDeserved(h, t.log)
  }

  lemma AskedGrows(log: Log, a: Action, id: Id, c: Sender)
    requires Asked(log, id, c)
    ensures Asked(Then(log, a), id, c)
  {
    var name, params :| InLog(log, Accepted(CallMessage(name, params, c), CallFor(name, params, id)));
    assert InLog(Then(log, a), Accepted(CallMessage(name, params, c), CallFor(name, params, id)));
  }

  lemma AllAskedGrows(s: State, log: Log, a: Action)
    requires AllAsked(s, log)
    ensures AllAsked(s, Then(log, a))
  {
    forall id | id in s.pending && s.pending[id].PendingCall?
      ensures Asked(Then(log, a), id, s.pending[id].sender)
    {
      AskedGrows(log, a, id, s.pending[id].sender);
    }
  }

  lemma AllGenuineGrows(h: Handler, sent: seq<Call>, x: Call, entries: seq<Incoming>)
    requires AllGenuine(h, sent, entries)
    ensures AllGenuine(h, sent + [x], entries)
  {
    forall i | 0 <= i < |entries| && !entries[i].id.NullId?
      ensures Genuine(h, sent + [x], entries[i].id, entries[i].result)
    {
      GenuineGrows(h, sent, x, entries[i].id, entries[i].result);
    }
  }

  lemma HonestAccept(h: Handler, t: Trace, m: RpcMessage)
    requires Counting(t) && Numbered(t) && Honest(h, t) && Drawn(AcceptMessage(t, m).log) <= TWO_TO_THE_64
    ensures Honest(h, AcceptMessage(t, m))
  {
    var s, u := t.state, AcceptMessage(t, m);
    var request, id := RequestOf(m, s.nextId), Num(s.nextId);
    assert Drawn(Then(t.log, ReusedId(id))) == Drawn(t.log);
    assert m.NotifyMessage? || id !in s.pending;
    assert u.log == Then(t.log, Accepted(m, request));
    AllAskedGrows(s, t.log, Accepted(m, request));
    if m.CallMessage? {
      assert InLog(u.log, Accepted(CallMessage(m.name, m.params, m.sender), CallFor(m.name, m.params, id)));
    }
  }

  lemma HonestOffer(h: Handler, t: Trace, key: Key, c: Sender, result: RpcResult)
    requires Honest(h, t) && Drawn(t.log) <= TWO_TO_THE_64
    ensures Honest(h, t.(log := Then(t.log, Offered(key, c, result))))
  {
    AllAskedGrows(t.state, t.log, Offered(key, c, result));
  }

  lemma HonestRemove(h: Handler, t: Trace, s: State, key: Key, sub: Subscription, request: Call)
    requires Honest(h, t) && Drawn(t.log) < TWO_TO_THE_64
    requires request.MethodCall? && request.id == Num(Drawn(t.log))
    requires s.pending == t.state.pending && s.incoming == t.state.incoming
    ensures Honest(h, Trace(s, Then(t.log, Removed(key, sub, request))))
  {
    AllAskedGrows(t.state, t.log, Removed(key, sub, request));
  }

  lemma HonestHeard(h: Handler, t: Trace, key: Key, result: RpcResult)
    requires Honest(h, t) && Drawn(t.log) <= TWO_TO_THE_64
    ensures Honest(h, Deliver(t, key, result, true))
  {
    if key in t.state.subscriptions {
      HonestOffer(h, t, key, t.state.subscriptions[key].sender, result);
    }
  }

  lemma HonestUnheard(h: Handler, t: Trace, key: Key, result: RpcResult)
    requires Honest(h, t) && key in t.state.subscriptions && t.state.subscriptions[key].id.Some?
    requires t.state.nextId == Drawn(t.log) < TWO_TO_THE_64
    ensures Honest(h, Deliver(t, key, result, false))
  {
    var s, u := t.state, Deliver(t, key, result, false);
    var sub := s.subscriptions[key];
    var offered := Then(t.log, Offered(key, sub.sender, result));
    var request := UnsubscribeRequest(sub.unsubscribe, sub.id.value, s.nextId);
    assert Drawn(offered) == Drawn(t.log);
    assert u.log == Then(offered, Removed(key, sub, request));
    HonestOffer(h, t, key, sub.sender, result);
    HonestRemove(h, t.(log := offered), u.state, key, sub, request);
  }

  lemma HonestDeliver(h: Handler, t: Trace, key: Key, result: RpcResult, heard: bool)
    requires Sound(t) && Numbered(t) && Honest(h, t) && Drawn(t.log) <= TWO_TO_THE_64
    requires Drawn(Deliver(t, key, result, heard).log) <= TWO_TO_THE_64
    ensures Honest(h, Deliver(t, key, result, heard))
  {
    if key in t.state.subscriptions && !heard {
      assert Drawn(Then(t.log, Offered(key, t.state.subscriptions[key].sender, result))) == Drawn(t.log);
      HonestUnheard(h, t, key, result);
    } else {
      HonestHeard(h, t, key, result);
    }
  }

  lemma HonestAnswer(h: Handler, t: Trace, entry: Incoming, heard: bool)
    requires Fifo(t) && Numbered(t) && Honest(h, t) && Drawn(t.log) <= TWO_TO_THE_64 && t.state.status.Running?
    requires entry.id.NullId? || Genuine(h, Sent(t.log), entry.id, entry.result)
    requires entry.id in t.state.pending && t.state.pending[entry.id].PendingCall?
    ensures Honest(h, ProcessEntry(t, entry, heard))
  {
    AllAskedGrows(t.state, t.log, ProcessEntry(t, entry, heard).log.action);
    AnswerIsDeserved(h, t.log, entry.id, t.state.pending[entry.id].sender, entry.result);
  }

  lemma HonestReply(h: Handler, t: Trace, id: Id, sub: Subscription, result: RpcResult)
    requires Honest(h, t)
    ensures Honest(h, AnswerSubscription(t, id, sub, result))
  {
    if Drawn(t.log) <= TWO_TO_THE_64 {
      AllAskedGrows(t.state, t.log, AnswerSubscription(t, id, sub, result).log.action);
    }
  }

  lemma HonestProcess(h: Handler, t: Trace, entry: Incoming, heard: bool)
    requires Sound(t) && Fifo(t) && Numbered(t) && Honest(h, t) && t.state.status.Running?
    requires Drawn(t.log) <= Drawn(ProcessEntry(t, entry, heard).log) <= TWO_TO_THE_64
    requires entry.id.NullId? || Genuine(h, Sent(t.log), entry.id, entry.result)
    ensures Honest(h, ProcessEntry(t, entry, heard))
  {
    if entry.id in t.state.pending {
      match t.state.pending[entry.id]
      case PendingCall(_) => HonestAnswer(h, t, entry, heard);
      case PendingSubscription(sub) => HonestReply(h, t, entry.id, sub, entry.result);
    } else if KeyOf(entry).Some? {
      HonestDeliver(h, t, KeyOf(entry).value, entry.result, heard);
    }
  }

  lemma HonestWrite(h: Handler, t: Trace, taken: bool)
    requires Honest(h, t) && t.state.outgoing != []
    ensures Honest(h, WriteNext(t, taken))
  {
    if Drawn(t.log) <= TWO_TO_THE_64 {
      AllAskedGrows(t.state, t.log, Written(t.state.outgoing[0]));
      AllGenuineGrows(h, Sent(t.log), t.state.outgoing[0], t.state.incoming);
    }
  }

  lemma HonestStep(h: Handler, t: Trace, e: Event)
    requires Sound(t) && Fifo(t) && Numbered(t) && Honest(h, t)
    requires e.Receive? && e.parsed.Ok? && Drawn(t.log) <= TWO_TO_THE_64 ==>
      e.parsed.value.id.NullId? || Genuine(h, Sent(t.log), e.parsed.value.id, e.parsed.value.result)
    ensures Honest(h, Step(t, e))
  {
    NumberedStep(t, e);
    var s := t.state;
    if s.status.Running? && Drawn(Step(t, e).log) <= TWO_TO_THE_64 {
      match e
      case Accept(m) => if s.channelOpen { HonestAccept(h, t, m); }
      case Process(heard) =>
        if s.incoming != [] { HonestProcess(h, t.(state := s.(incoming := s.incoming[1..])), s.incoming[0], heard); }
      case SinkReady(taken) => if s.outgoing != [] { HonestWrite(h, t, taken); }
      case _ =>
    }
  }

  // ---------------------------------------------------------------- the server's side

  ghost predicate GenuineText(h: Handler, sent: seq<Call>, text: ServerText) {
    text.Reply? && Genuine(h, sent, text.output.id, AsRpcResult(OutputResult(text.output)))
  }

  /** The slot holds the request it was given on its own occasion, and every text answers such a request. */
  ghost predicate Faithful(h: Handler, sent: seq<Call>, l: Local) {
    && !l.buffered.Answer? && l.served == |sent|
    && (l.buffered.InFlight? ==>
          && l.buffered.occasion < |sent| && sent[l.buffered.occasion] == l.buffered.request
          && !l.buffered.request.Invalid?)
    && forall i :: 0 <= i < |l.queue| ==> GenuineText(h, sent, l.queue[i])
  }

  lemma FaithfulSend(h: Handler, sent: seq<Call>, request: Call, l: Local)
    requires Faithful(h, sent, l) && !request.Invalid?
    ensures Faithful(h, sent + [request], StartSend(l, request))
  {
    forall i | 0 <= i < |l.queue|
      ensures GenuineText(h, sent + [request], l.queue[i])
    {
      GenuineGrows(h, sent, request, l.queue[i].output.id, AsRpcResult(OutputResult(l.queue[i].output)));
    }
  }

  lemma FaithfulSettle(h: Handler, sent: seq<Call>, l: Local)
    requires Faithful(h, sent, l)
    ensures Faithful(h, sent, Settle(h, l)) && Settle(h, l).buffered == Nothing
  {
    if l.buffered.InFlight? && l.buffered.request.MethodCall? {
      var request, k := l.buffered.request, l.buffered.occasion;
      var output := HandleCall(h, request, k).0.value;
      assert Resolved(h, request, k) == Some(Reply(output));
      assert GenuineAt(h, sent, output.id, AsRpcResult(OutputResult(output)), k);
      assert GenuineText(h, sent, Reply(output));
    }
  }

  lemma {:induction false} QueuedIsBuilt(log: Log, request: Call)
    requires AllBuilt(log) && request in Queued(log)
    ensures !request.Invalid?
  {
    if request in Queued(log.before) { QueuedIsBuilt(log.before, request); }
  }

  /** Only the sink is told of requests. */
  lemma SentByStep(t: Trace, e: Event)
    requires !e.SinkReady?
    ensures Sent(Step(t, e).log) == Sent(t.log)
  {
    var s := t.state;
    if s.status.Running? {
      if e.Accept? {
        assert Sent(Then(t.log, ReusedId(Num(s.nextId)))) == Sent(t.log);
      } else if e.Process? && s.incoming != [] {
        SentByProcess(t.(state := s.(incoming := s.incoming[1..])), s.incoming[0], e.heard);
      }
    }
  }

  lemma SentByProcess(t: Trace, entry: Incoming, heard: bool)
    ensures Sent(ProcessEntry(t, entry, heard).log) == Sent(t.log)
  {
    if entry.id !in t.state.pending && KeyOf(entry).Some? && KeyOf(entry).value in t.state.subscriptions {
      var key := KeyOf(entry).value;
      assert Sent(Then(t.log, Offered(key, t.state.subscriptions[key].sender, entry.result))) == Sent(t.log);
    }
  }

  // ---------------------------------------------------------------- the whole system

  /** What the client's side keeps. */
  ghost predicate Correct(h: Handler, t: Trace) { Sound(t) && Fifo(t) && Numbered(t) && Honest(h, t) }

  ghost predicate Coherent(h: Handler, y: System) {
    Correct(h, y.client) && Faithful(h, Sent(y.client.log), y.server)
  }

  lemma CorrectStep(h: Handler, t: Trace, e: Event)
    requires Correct(h, t)
    requires e.Receive? && e.parsed.Ok? ==>
      e.parsed.value.id.NullId? || Genuine(h, Sent(t.log), e.parsed.value.id, e.parsed.value.result)
    ensures Correct(h, Step(t, e))
  {
    SoundStep(t, e);
    FifoStep(t, e);
    NumberedStep(t, e);
    HonestStep(h, t, e);
  }

  lemma ClientStep(h: Handler, y: System, e: Event)
    requires Coherent(h, y) && !e.SinkReady?
    requires e.Receive? && e.parsed.Ok? ==>
      e.parsed.value.id.NullId? || Genuine(h, Sent(y.client.log), e.parsed.value.id, e.parsed.value.result)
    ensures Coherent(h, y.(client := Step(y.client, e)))
  {
    CorrectStep(h, y.client, e);
    SentByStep(y.client, e);
  }

  lemma CoherentNext(h: Handler, y: System, m: Move, readError: ErrorReader)
    requires Coherent(h, y)
    ensures Coherent(h, Next(h, y, m, readError))
  {
    var c, l := y.client, y.server;
    if c.state.status.Running? {
      match m
      case Client(e) => if Inner(e) { ClientStep(h, y, e); }
      case Arrive => CoherentArrive(h, y, readError);
      case Push(name, params) => ClientStep(h, y, Receive(ParseResponse(Notice(name, params), readError)));
      case Ready(done) => CoherentReady(h, y);
      case Flushed(done) =>
        FaithfulSettle(h, Sent(c.log), l);
        ClientStep(h, y, Flush(false));
        ClientStep(h, y.(server := Settle(h, l)), Flush(true));
    }
  }

  lemma CoherentArrive(h: Handler, y: System, readError: ErrorReader)
    requires Coherent(h, y) && y.client.state.status.Running?
    ensures Coherent(h, Next(h, y, Arrive, readError))
  {
    var l := y.server;
    if l.queue != [] {
      assert GenuineText(h, Sent(y.client.log), l.queue[0]);
      ClientStep(h, y.(server := l.(queue := l.queue[1..])), Receive(ParseResponse(l.queue[0], readError)));
    }
  }

  lemma CoherentReady(h: Handler, y: System)
    requires Coherent(h, y) && y.client.state.status.Running?
    ensures Coherent(h, y.(server := Settle(h, y.server)))
    ensures y.client.state.outgoing != [] ==>
      Coherent(h, System(Step(y.client, SinkReady(true)), StartSend(Settle(h, y.server), y.client.state.outgoing[0])))
  {
    var c, l := y.client, y.server;
    FaithfulSettle(h, Sent(c.log), l);
    if c.state.outgoing != [] {
      var request := c.state.outgoing[0];
      assert Queued(c.log)[|Sent(c.log)|] == request;
      QueuedIsBuilt(c.log, request);
      CorrectStep(h, c, SinkReady(true));
      FaithfulSend(h, Sent(c.log), request, Settle(h, l));
    }
  }

  lemma {:induction false} RunsAreCoherent(h: Handler, moves: seq<Move>, readError: ErrorReader)
    ensures Coherent(h, Moves(h, moves, readError))
  {
    if moves != [] {
      RunsAreCoherent(h, moves[..|moves| - 1], readError);
      CoherentNext(h, Moves(h, moves[..|moves| - 1], readError), moves[|moves| - 1], readError);
    }
  }

  /**
   In every run, each result that reaches a caller is what the method of that name made, on that
   occasion, of the params of the very request that caller's call became (or the error for a name
   without a method), and a caller receives no more results than it made calls.
   */
  lemma AnswersAreDeserved(h: Handler, moves: seq<Move>, readError: ErrorReader, c: Sender)
    requires Drawn(Moves(h, moves, readError).client.log) <= TWO_TO_THE_64
    ensures var log := Moves(h, moves, readError).client.log;
      AllDeserved(h, log) && AnsweredCalls(log, c) <= AcceptedCalls(log, c)
  {
    RunsAreCoherent(h, moves, readError);
    var events := ClientRuns(h, moves, readError);
    CallsAreConserved(events, c);
  }
}

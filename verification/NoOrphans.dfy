/**
 Between client and handler nothing gets lost: as long as the connected future runs, every pending
 request is on its way exactly once, as a request or as its reply.
 */
module NoOrphans {
  import opened Basics
  import opened JsonRpc
  import opened ClientMessages
  import opened Dispatch
  import opened Duplex
  import opened DuplexProofs
  import opened LocalRpc
  import opened EndToEnd

  function CallWith(x: Call, id: Id): nat { if x.MethodCall? && x.id == id then 1 else 0 }

  function Calls(q: seq<Call>, id: Id): nat { if q == [] then 0 else CallWith(q[0], id) + Calls(q[1..], id) }

  function TextWith(x: ServerText, id: Id): nat { if x.Reply? && x.output.id == id then 1 else 0 }

  function Texts(q: seq<ServerText>, id: Id): nat { if q == [] then 0 else TextWith(q[0], id) + Texts(q[1..], id) }

  function EntryWith(x: Incoming, id: Id): nat { if x.id == id then 1 else 0 }

  function Entries(q: seq<Incoming>, id: Id): nat { if q == [] then 0 else EntryWith(q[0], id) + Entries(q[1..], id) }

  lemma {:induction false} CallsSnoc(q: seq<Call>, x: Call, id: Id)
    ensures Calls(q + [x], id) == Calls(q, id) + CallWith(x, id)
  {
    if q == [] {
      assert q + [x] == [x];
    } else {
      CallsSnoc(q[1..], x, id);
      assert (q + [x])[1..] == q[1..] + [x];
    }
  }

  lemma {:induction false} TextsSnoc(q: seq<ServerText>, x: ServerText, id: Id)
    ensures Texts(q + [x], id) == Texts(q, id) + TextWith(x, id)
  {
    if q == [] {
      assert q + [x] == [x];
    } else {
      TextsSnoc(q[1..], x, id);
      assert (q + [x])[1..] == q[1..] + [x];
    }
  }

  lemma {:induction false} EntriesSnoc(q: seq<Incoming>, x: Incoming, id: Id)
    ensures Entries(q + [x], id) == Entries(q, id) + EntryWith(x, id)
  {
    if q == [] {
      assert q + [x] == [x];
    } else {
      EntriesSnoc(q[1..], x, id);
      assert (q + [x])[1..] == q[1..] + [x];
    }
  }

  function Held(l: Local, id: Id): nat {
    Texts(l.queue, id) + if l.buffered.InFlight? then CallWith(l.buffered.request, id) else 0
  }

  /** How often a request or reply with this id is on its way. */
  function Flying(y: System, id: Id): nat {
    Calls(y.client.state.outgoing, id) + Held(y.server, id) + Entries(y.client.state.incoming, id)
  }

  predicate Tracked(y: System, n: U64) {
    var t, id := y.client, Num(n);
    t.state.status.Running? && Drawn(t.log) <= TWO_TO_THE_64 ==>
      && Flying(y, id) <= 1
      && (n >= Drawn(t.log) ==> Flying(y, id) == 0)
      && (id in t.state.pending ==> Flying(y, id) == 1)
  }

  lemma SettleKeeps(h: Handler, sent: seq<Call>, l: Local, id: Id)
    requires Faithful(h, sent, l)
    ensures Held(Settle(h, l), id) == Held(l, id)
  {
    if l.buffered.InFlight? && l.buffered.request.MethodCall? {
      var request := l.buffered.request;
      var output := HandleCall(h, request, l.buffered.occasion).0.value;
      assert Resolved(h, request, l.buffered.occasion) == Some(Reply(output));
      TextsSnoc(l.queue, Reply(output), id);
    }
  }

  lemma TrackedAccept(y: System, m: RpcMessage, n: U64)
    requires Counting(y.client) && Numbered(y.client) && Tracked(y, n) && y.client.state.status.Running?
    ensures Tracked(y.(client := AcceptMessage(y.client, m)), n)
  {
    var t := y.client;
    CallsSnoc(t.state.outgoing, RequestOf(m, t.state.nextId), Num(n));
    assert Drawn(Then(t.log, ReusedId(Num(t.state.nextId)))) == Drawn(t.log);
  }

  lemma TrackedRemove(y: System, log: Log, request: Call, n: U64)
    requires Counting(y.client) && Numbered(y.client) && Tracked(y, n) && y.client.state.status.Running?
    requires Drawn(log) == Drawn(y.client.log) + 1 && request.MethodCall? && request.id == Num(y.client.state.nextId)
    ensures var s := y.client.state;
      Tracked(y.(client := Trace(s.(outgoing := s.outgoing + [request]), log)), n)
  {
    CallsSnoc(y.client.state.outgoing, request, Num(n));
  }

  lemma TrackedDeliver(y: System, key: Key, result: RpcResult, heard: bool, n: U64)
    requires Sound(y.client) && Numbered(y.client) && Tracked(y, n) && y.client.state.status.Running?
    ensures Tracked(y.(client := Deliver(y.client, key, result, heard)), n)
  {
    var t := y.client;
    if key in t.state.subscriptions {
      var sub := t.state.subscriptions[key];
      assert Drawn(Then(t.log, Offered(key, sub.sender, result))) == Drawn(t.log);
      if !heard {
        var request := UnsubscribeRequest(sub.unsubscribe, sub.id.value, t.state.nextId);
        TrackedRemove(y, Deliver(t, key, result, heard).log, request, n);
      }
    }
  }

  lemma TrackedAnswer(y: System, entry: Incoming, heard: bool, n: U64)
    requires y.client.state.status.Running? && entry.id in y.client.state.pending
    requires var t, id := y.client, Num(n);
      Drawn(t.log) <= TWO_TO_THE_64 ==>
        && Flying(y, id) + EntryWith(entry, id) <= 1
        && (n >= Drawn(t.log) ==> Flying(y, id) == 0)
        && (id in t.state.pending ==> Flying(y, id) + EntryWith(entry, id) == 1)
    ensures Tracked(y.(client := ProcessEntry(y.client, entry, heard)), n)
  {
  }

  lemma TrackedProcess(y: System, heard: bool, n: U64)
    requires Sound(y.client) && Numbered(y.client) && Tracked(y, n)
    requires y.client.state.status.Running? && y.client.state.incoming != []
    ensures Tracked(y.(client := Step(y.client, Process(heard))), n)
  {
    var t, s := y.client, y.client.state;
    var entry, u := s.incoming[0], t.(state := s.(incoming := s.incoming[1..]));
    if entry.id in s.pending {
      TrackedAnswer(y.(client := u), entry, heard, n);
    } else if KeyOf(entry).Some? && Drawn(t.log) <= TWO_TO_THE_64 {
      assert Num(n) in s.pending ==> entry.id != Num(n);
      assert Tracked(y.(client := u), n);
      TrackedDeliver(y.(client := u), KeyOf(entry).value, entry.result, heard, n);
    } else if KeyOf(entry).Some? {
      DrawnGrows(u, KeyOf(entry).value, entry.result, heard);
    }
  }

  lemma DrawnGrows(t: Trace, key: Key, result: RpcResult, heard: bool)
    ensures Drawn(Deliver(t, key, result, heard).log) >= Drawn(t.log)
  {
    if key in t.state.subscriptions {
      assert Drawn(Then(t.log, Offered(key, t.state.subscriptions[key].sender, result))) == Drawn(t.log);
    }
  }

  lemma TrackedPush(y: System, name: string, params: Params, readError: ErrorReader, n: U64)
    requires Tracked(y, n) && y.client.state.status.Running?
    ensures Tracked(y.(client := Step(y.client, Receive(ParseResponse(Notice(name, params), readError)))), n)
  {
    EntriesSnoc(y.client.state.incoming, ParseResponse(Notice(name, params), readError).value, Num(n));
  }

  lemma TrackedArrive(h: Handler, y: System, readError: ErrorReader, n: U64)
    requires Coherent(h, y) && Tracked(y, n)
    ensures Tracked(Next(h, y, Arrive, readError), n)
  {
    var t, l := y.client, y.server;
    if t.state.status.Running? && l.queue != [] {
      assert GenuineText(h, Sent(t.log), l.queue[0]);
      EntriesSnoc(t.state.incoming, ParseResponse(l.queue[0], readError).value, Num(n));
    }
  }

  lemma TrackedReady(h: Handler, y: System, n: U64)
    requires Coherent(h, y) && Tracked(y, n) && y.client.state.status.Running?
    ensures Tracked(y.(server := Settle(h, y.server)), n)
    ensures y.client.state.outgoing != [] ==>
      Tracked(System(Step(y.client, SinkReady(true)), StartSend(Settle(h, y.server), y.client.state.outgoing[0])), n)
  {
    SettleKeeps(h, Sent(y.client.log), y.server, Num(n));
    FaithfulSettle(h, Sent(y.client.log), y.server);
  }

  lemma TrackedNext(h: Handler, y: System, m: Move, readError: ErrorReader, n: U64)
    requires Coherent(h, y) && Tracked(y, n)
    ensures Tracked(Next(h, y, m, readError), n)
  {
    var t := y.client;
    if t.state.status.Running? {
      match m
      case Client(Accept(message)) => if t.state.channelOpen { TrackedAccept(y, message, n); }
      case Client(Process(heard)) => if t.state.incoming != [] { TrackedProcess(y, heard, n); }
      case Client(_) =>
      case Arrive => TrackedArrive(h, y, readError, n);
      case Push(name, params) => TrackedPush(y, name, params, readError, n);
      case Ready(_) => TrackedReady(h, y, n);
      case Flushed(_) => TrackedReady(h, y, n);
    }
  }

  lemma {:induction false} RunsAreTracked(h: Handler, moves: seq<Move>, readError: ErrorReader, n: U64)
    ensures Tracked(Moves(h, moves, readError), n)
  {
    if moves != [] {
      var before := moves[..|moves| - 1];
      RunsAreTracked(h, before, readError, n);
      RunsAreCoherent(h, before, readError);
      TrackedNext(h, Moves(h, before, readError), moves[|moves| - 1], readError, n);
    }
  }

  /** In a running system every pending request is on its way exactly once, and no id is there twice. */
  lemma NoRequestIsLost(h: Handler, moves: seq<Move>, readError: ErrorReader, n: U64)
    requires var t := Moves(h, moves, readError).client;
      t.state.status.Running? && Drawn(t.log) <= TWO_TO_THE_64
    ensures var y := Moves(h, moves, readError);
      Flying(y, Num(n)) <= 1 && (Num(n) in y.client.state.pending ==> Flying(y, Num(n)) == 1)
  {
    RunsAreTracked(h, moves, readError, n);
  }

  /** Nothing is queued on either side and the handler is idle. */
  predicate Quiet(y: System) {
    && y.client.state.outgoing == [] && y.client.state.incoming == []
    && y.server.queue == [] && !y.server.buffered.InFlight?
  }

  /** When all is quiet, every call has had its answer. */
  lemma QuietMeansAnswered(h: Handler, moves: seq<Move>, readError: ErrorReader, c: Sender)
    requires var y := Moves(h, moves, readError);
      Quiet(y) && y.client.state.status.Running? && Drawn(y.client.log) <= TWO_TO_THE_64
    ensures var log := Moves(h, moves, readError).client.log; AnsweredCalls(log, c) == AcceptedCalls(log, c)
  {
    var y := Moves(h, moves, readError);
    var events := ClientRuns(h, moves, readError);
    Reachable(events, c);
    forall id | id in y.client.state.pending
      ensures false
    {
      RunsAreTracked(h, moves, readError, id.n);
    }
    assert Waiting(y.client.state.pending, c) == {};
  }
}

/**
 The duplex future polled with the in-process connection as its stream and its sink: every poll is a
 run of the connected system, so what holds of all its runs holds of the objects.
 */
module Connected {
  import opened Basics
  import opened JsonRpc
  import opened ClientMessages
  import opened Dispatch
  import opened Duplex
  import opened DuplexProofs
  import opened DuplexMeaning
  import opened DuplexPolls
  import opened DuplexTransport
  import opened LocalRpc
  import opened EndToEnd

  /** What the stream has: a response of the connection, if one is queued, or a notification pushed to it. */
  datatype StreamAnswer = FromQueue | Pushed(name: string, params: Params)

  /**
   What one poll is told besides: messages of the client channel, the stream's answers, whether
   receivers are still there, and at each poll of the handler's future whether it is ready.
   */
  datatype Oracle = Oracle(
    messages: seq<RpcMessage>, channelEnds: bool,
    stream: seq<StreamAnswer>, heard: seq<bool>,
    done: seq<bool>, flushDone: bool)

  /** The system after some more moves. */
  function After(h: Handler, y: System, moves: seq<Move>, readError: ErrorReader): System {
    if moves == [] then y else Next(h, After(h, y, moves[..|moves| - 1], readError), moves[|moves| - 1], readError)
  }

  lemma AfterNext(h: Handler, y: System, moves: seq<Move>, m: Move, readError: ErrorReader)
    ensures After(h, y, moves + [m], readError) == Next(h, After(h, y, moves, readError), m, readError)
  {
    assert (moves + [m])[..|moves|] == moves;
  }

  lemma {:induction false} AfterConcat(h: Handler, y: System, a: seq<Move>, b: seq<Move>, readError: ErrorReader)
    ensures After(h, y, a + b, readError) == After(h, After(h, y, a, readError), b, readError)
    decreases |b|
  {
    if b == [] {
      assert a + b == a;
    } else {
      AfterConcat(h, y, a, b[..|b| - 1], readError);
      assert (a + b)[..|a + b| - 1] == a + b[..|b| - 1];
    }
  }

  /** Moves of a connected system, poll after poll, are a run from the beginning. */
  lemma {:induction false} AfterBegin(h: Handler, moves: seq<Move>, readError: ErrorReader)
    ensures After(h, BEGIN, moves, readError) == Moves(h, moves, readError)
  {
    if moves != [] {
      AfterBegin(h, moves[..|moves| - 1], readError);
    }
  }

  function ClientMoves(events: seq<Event>): seq<Move> {
    seq(|events|, i requires 0 <= i < |events| => Move.Client(events[i]))
  }

  /** Steps that concern only the client are moves of the system. */
  lemma {:induction false} ClientStepsAreMoves(h: Handler, y: System, events: seq<Event>, readError: ErrorReader)
    requires forall i :: 0 <= i < |events| ==> Inner(events[i])
    ensures After(h, y, ClientMoves(events), readError) == y.(client := Run(y.client, events))
    decreases |events|
  {
    if events != [] {
      var before := events[..|events| - 1];
      ClientStepsAreMoves(h, y, before, readError);
      assert ClientMoves(events)[..|events| - 1] == ClientMoves(before);
    }
  }

  ghost function Both(t: Transport, l: Connection): System
    reads t, l
  {
    System(t.Now(), l.Now())
  }

  function StreamMoves(stream: seq<StreamAnswer>): seq<Move> {
    seq(|stream|, i requires 0 <= i < |stream| =>
      match stream[i] case FromQueue => Arrive case Pushed(name, params) => Push(name, params))
  }

  function Arrivals(n: nat): seq<Move> { seq(n, _ => Arrive) }

  /** The messages of the channel, its end if it ends, and what is known of the receivers. */
  function Asked(oracle: Oracle): PollInput {
    PollInput(oracle.messages, oracle.channelEnds, [], false, oracle.heard, [], false)
  }

  function AfterMessages(h: Handler, y: System, oracle: Oracle, readError: ErrorReader): System {
    After(h, y, ClientMoves(AcceptPhase(Asked(oracle))), readError)
  }

  /** The stream is read until it is pending: when all it was given is read and no response is queued. */
  function AfterStream(h: Handler, y: System, oracle: Oracle, readError: ErrorReader): System {
    var z := After(h, y, StreamMoves(oracle.stream), readError);
    After(h, z, Arrivals(|z.server.queue|), readError)
  }

  function AfterEntries(h: Handler, y: System, oracle: Oracle, readError: ErrorReader): System {
    After(h, y, ClientMoves(Processes(Asked(oracle), |y.client.state.incoming|)), readError)
  }

  /** The sink is ready for the oldest request. */
  predicate GoesOn(y: System, done: bool) {
    y.client.state.status.Running? && (done || !y.server.buffered.InFlight?) && y.client.state.outgoing != []
  }

  /** The sink is asked until it is not ready or nothing is left to send. */
  function AfterWrites(h: Handler, y: System, done: seq<bool>, readError: ErrorReader): System
    decreases done
  {
    if done == [] then y
    else
      var z := Next(h, y, Move.Ready(done[0]), readError);
      if GoesOn(y, done[0]) then AfterWrites(h, z, done[1..], readError) else z
  }

  /** The system after one poll of the connected future. */
  function Polled(h: Handler, y: System, oracle: Oracle, readError: ErrorReader): System {
    var read := AfterStream(h, AfterMessages(h, y, oracle, readError), oracle, readError);
    var written := AfterWrites(h, AfterEntries(h, read, oracle, readError), oracle.done, readError);
    Next(h, written, Flushed(oracle.flushDone), readError)
  }

  lemma {:induction false} AfterStopped(h: Handler, y: System, moves: seq<Move>, readError: ErrorReader)
    requires !y.client.state.status.Running?
    ensures After(h, y, moves, readError) == y
  {
    if moves != [] { AfterStopped(h, y, moves[..|moves| - 1], readError); }
  }

  lemma AfterOne(h: Handler, y: System, moves: seq<Move>, k: nat, readError: ErrorReader)
    requires k < |moves|
    ensures After(h, y, moves[..k + 1], readError) == Next(h, After(h, y, moves[..k], readError), moves[k], readError)
  {
    assert moves[..k + 1][..k] == moves[..k];
  }

  lemma AfterEndsAt(h: Handler, y: System, moves: seq<Move>, k: nat, readError: ErrorReader)
    requires k <= |moves| && (k == |moves| || !After(h, y, moves[..k], readError).client.state.status.Running?)
    ensures After(h, y, moves, readError) == After(h, y, moves[..k], readError)
  {
    if k == |moves| {
      assert moves[..k] == moves;
    } else {
      assert moves == moves[..k] + moves[k..];
      AfterConcat(h, y, moves[..k], moves[k..], readError);
      AfterStopped(h, After(h, y, moves[..k], readError), moves[k..], readError);
    }
  }

  // ---------------------------------------------------------------- a poll of the objects

  method TakeMessages(t: Transport, l: Connection, oracle: Oracle, readError: ErrorReader)
    requires t.status.Running?
    modifies t
    ensures Both(t, l) == AfterMessages(l.handler, old(Both(t, l)), oracle, readError) && t.status.Running?
  {
    t.HandleClient(Asked(oracle));
    ClientStepsAreMoves(l.handler, old(Both(t, l)), AcceptPhase(Asked(oracle)), readError);
  }

  method ProcessQueue(t: Transport, l: Connection, oracle: Oracle, readError: ErrorReader)
    modifies t
    ensures Both(t, l) == AfterEntries(l.handler, old(Both(t, l)), oracle, readError)
  {
    ghost var events := Processes(Asked(oracle), |t.incoming|);
    t.HandleIncoming(Asked(oracle));
    ClientStepsAreMoves(l.handler, old(Both(t, l)), events, readError);
  }

  method ReadQueued(t: Transport, l: Connection, readError: ErrorReader)
    requires t.status.Running?
    modifies t, l
    ensures Both(t, l) == Next(l.handler, old(Both(t, l)), Arrive, readError)
  {
    var text := l.PollNext();
    if text.Some? {
      t.HandleText(text.value, readError);
    }
  }

  method ReadGiven(t: Transport, l: Connection, stream: seq<StreamAnswer>, readError: ErrorReader)
    modifies t, l
    ensures Both(t, l) == After(l.handler, old(Both(t, l)), StreamMoves(stream), readError)
  {
    ghost var moves := StreamMoves(stream);
    var i := 0;
    while t.status.Running? && i < |stream|
      invariant 0 <= i <= |stream|
      invariant Both(t, l) == After(l.handler, old(Both(t, l)), moves[..i], readError)
    {
      match stream[i] {
        case FromQueue => ReadQueued(t, l, readError);
        case Pushed(name, params) => t.HandleText(Notice(name, params), readError);
      }
      AfterOne(l.handler, old(Both(t, l)), moves, i, readError);
      i := i + 1;
    }
    AfterEndsAt(l.handler, old(Both(t, l)), moves, i, readError);
  }

  method ReadRest(t: Transport, l: Connection, readError: ErrorReader)
    modifies t, l
    ensures Both(t, l) == After(l.handler, old(Both(t, l)), Arrivals(|old(l.queue)|), readError)
  {
    var n := |l.queue|;
    ghost var moves := Arrivals(n);
    var i := 0;
    while t.status.Running? && i < n
      invariant 0 <= i <= n
      invariant Both(t, l) == After(l.handler, old(Both(t, l)), moves[..i], readError)
    {
      ReadQueued(t, l, readError);
      AfterOne(l.handler, old(Both(t, l)), moves, i, readError);
      i := i + 1;
    }
    AfterEndsAt(l.handler, old(Both(t, l)), moves, i, readError);
  }

  /** The sink is asked and, if it is ready, given the oldest request. */
  method WriteOne(t: Transport, l: Connection, done: bool, readError: ErrorReader) returns (go: bool)
    requires t.status.Running?
    modifies t, l
    ensures Both(t, l) == Next(l.handler, old(Both(t, l)), Move.Ready(done), readError)
    ensures t.status.Running? && go == GoesOn(old(Both(t, l)), done)
  {
    var ready := l.PollBuffered(done);
    if !ready || t.outgoing == [] {
      return false;
    }
    var request := t.outgoing[0];
    t.SendNext(true);
    l.Send(request);
    go := true;
  }

  method WriteQueue(t: Transport, l: Connection, done: seq<bool>, readError: ErrorReader)
    requires t.status.Running?
    modifies t, l
    ensures Both(t, l) == AfterWrites(l.handler, old(Both(t, l)), done, readError) && t.status.Running?
  {
    var i, go := 0, true;
    while go && i < |done|
      invariant 0 <= i <= |done| && t.status.Running?
      invariant AfterWrites(l.handler, old(Both(t, l)), done, readError)
             == if go then AfterWrites(l.handler, Both(t, l), done[i..], readError) else Both(t, l)
    {
      assert done[i..][1..] == done[i + 1..];
      go := WriteOne(t, l, done[i], readError);
      i := i + 1;
    }
  }

  method Finish(t: Transport, l: Connection, done: bool, readError: ErrorReader)
    requires t.status.Running?
    modifies t, l
    ensures Both(t, l) == Next(l.handler, old(Both(t, l)), Flushed(done), readError)
  {
    var flushed := l.PollBuffered(done);
    t.FinalTest(flushed);
  }

  /** One poll of the connected future, phase by phase. */
  method PollConnected(t: Transport, l: Connection, oracle: Oracle, readError: ErrorReader) returns (r: Status)
    requires t.status.Running?
    modifies t, l
    ensures Both(t, l) == Polled(l.handler, old(Both(t, l)), oracle, readError) && r == t.status
  {
    TakeMessages(t, l, oracle, readError);
    ReadGiven(t, l, oracle.stream, readError);
    ReadRest(t, l, readError);
    ghost var read := Both(t, l);
    ProcessQueue(t, l, oracle, readError);
    if t.status.Running? {
      WriteQueue(t, l, oracle.done, readError);
      Finish(t, l, oracle.flushDone, readError);
    } else {
      WritesStopped(l.handler, Both(t, l), oracle.done, readError);
    }
    r := t.status;
  }

  lemma WritesStopped(h: Handler, y: System, done: seq<bool>, readError: ErrorReader)
    requires !y.client.state.status.Running?
    ensures AfterWrites(h, y, done, readError) == y
  {
  }

  // ---------------------------------------------------------------- what a poll does

  /**
   A poll written out, up to the end of reading: all messages of the channel and its end, what the
   stream was given, and `k` more responses.
   */
  function ReadScript(oracle: Oracle, k: nat): seq<Move> {
    seq(|oracle.messages|, i requires 0 <= i < |oracle.messages| => Move.Client(Accept(oracle.messages[i])))
    + (if oracle.channelEnds then [Move.Client(ChannelClosed)] else [])
    + seq(|oracle.stream|, i requires 0 <= i < |oracle.stream| =>
        if oracle.stream[i].FromQueue? then Arrive else Push(oracle.stream[i].name, oracle.stream[i].params))
    + seq(k, _ => Arrive)
  }

  /** From there on: `n` entries with what is known of their receivers. */
  function EntryScript(oracle: Oracle, n: nat): seq<Move> {
    seq(n, i requires 0 <= i < n => Move.Client(Process(if i < |oracle.heard| then oracle.heard[i] else true)))
  }

  /** The sink asked once for every answer. */
  function WriteScript(done: seq<bool>): seq<Move> {
    seq(|done|, i requires 0 <= i < |done| => Move.Ready(done[i]))
  }

  /** The whole poll; the sink is asked `m` times, and last comes the final test. */
  function Script(oracle: Oracle, k: nat, n: nat, m: nat): seq<Move>
    requires m <= |oracle.done|
  {
    ReadScript(oracle, k) + EntryScript(oracle, n) + WriteScript(oracle.done[..m]) + [Flushed(oracle.flushDone)]
  }

  /** The sink was asked `m` times: to the end, or until it had no request to take or no room for it. */
  predicate Asks(y: System, z: System, done: seq<bool>, m: nat) {
    m <= |done|
    && (m == |done|
        || (m > 0 && |Sent(z.client.log)| == |Sent(y.client.log)| + m - 1
            && (z.client.state.outgoing == [] || !done[m - 1])))
  }

  lemma AskedOnce(h: Handler, y: System, done: bool, readError: ErrorReader)
    requires y.client.state.status.Running?
    ensures var z := Next(h, y, Move.Ready(done), readError);
      && z.client.state.incoming == y.client.state.incoming && z.client.state.status.Running?
      && MessagesIn(z.client.log) == MessagesIn(y.client.log)
      && |Sent(z.client.log)| == |Sent(y.client.log)| + (if GoesOn(y, done) then 1 else 0)
      && (GoesOn(y, done) || z.client.state.outgoing == [] || !done)
  {
  }

  lemma WriteScriptFirst(h: Handler, y: System, done: seq<bool>, readError: ErrorReader)
    requires done != []
    ensures After(h, y, WriteScript(done), readError)
         == After(h, Next(h, y, Move.Ready(done[0]), readError), WriteScript(done[1..]), readError)
  {
    var first := [Move.Ready(done[0])];
    assert first[..0] == [];
    assert WriteScript(done) == first + WriteScript(done[1..]);
    AfterConcat(h, y, first, WriteScript(done[1..]), readError);
  }

  lemma {:induction false} WritesAreMoves(h: Handler, y: System, done: seq<bool>, readError: ErrorReader)
    returns (m: nat)
    requires y.client.state.status.Running?
    ensures var z := AfterWrites(h, y, done, readError);
      && z.client.state.incoming == y.client.state.incoming && z.client.state.status.Running?
      && MessagesIn(z.client.log) == MessagesIn(y.client.log)
      && Asks(y, z, done, m) && z == After(h, y, WriteScript(done[..m]), readError)
    decreases done
  {
    m := 0;
    if done != [] {
      var z := Next(h, y, Move.Ready(done[0]), readError);
      AskedOnce(h, y, done[0], readError);
      if GoesOn(y, done[0]) {
        m := WritesAreMoves(h, z, done[1..], readError);
        assert done[..m + 1][1..] == done[1..][..m];
      }
      m := m + 1;
      WriteScriptFirst(h, y, done[..m], readError);
    }
  }

  lemma MessagesAreScript(oracle: Oracle, k: nat)
    ensures ClientMoves(AcceptPhase(Asked(oracle))) + StreamMoves(oracle.stream) + Arrivals(k) == ReadScript(oracle, k)
  {
    var accepts := seq(|oracle.messages|,
      i requires 0 <= i < |oracle.messages| => Move.Client(Accept(oracle.messages[i])));
    assert ClientMoves(AcceptPhase(Asked(oracle)))
        == accepts + if oracle.channelEnds then [Move.Client(ChannelClosed)] else [];
    assert StreamMoves(oracle.stream) == seq(|oracle.stream|, i requires 0 <= i < |oracle.stream| =>
      if oracle.stream[i].FromQueue? then Arrive else Push(oracle.stream[i].name, oracle.stream[i].params));
  }

  lemma ReadingIsScript(h: Handler, y: System, oracle: Oracle, readError: ErrorReader) returns (k: nat)
    ensures AfterStream(h, AfterMessages(h, y, oracle, readError), oracle, readError)
         == After(h, y, ReadScript(oracle, k), readError)
  {
    var messages, stream := ClientMoves(AcceptPhase(Asked(oracle))), StreamMoves(oracle.stream);
    k := |After(h, AfterMessages(h, y, oracle, readError), stream, readError).server.queue|;
    AfterConcat(h, y, messages, stream, readError);
    AfterConcat(h, y, messages + stream, Arrivals(k), readError);
    MessagesAreScript(oracle, k);
  }

  lemma EntriesAreScript(h: Handler, y: System, oracle: Oracle, readError: ErrorReader)
    ensures AfterEntries(h, y, oracle, readError)
         == After(h, y, EntryScript(oracle, |y.client.state.incoming|), readError)
  {
    var n := |y.client.state.incoming|;
    assert ClientMoves(Processes(Asked(oracle), n)) == EntryScript(oracle, n);
  }

  lemma WritingIsScript(h: Handler, y: System, oracle: Oracle, readError: ErrorReader) returns (m: nat)
    ensures m <= |oracle.done|
    ensures var z := AfterWrites(h, y, oracle.done, readError);
      && z == After(h, y, WriteScript(oracle.done[..m]), readError)
      && MessagesIn(z.client.log) == MessagesIn(y.client.log)
      && (z.client.state.status.Running? ==>
            && y.client.state.status.Running? && z.client.state.incoming == y.client.state.incoming
            && Asks(y, z, oracle.done, m))
  {
    if y.client.state.status.Running? {
      m := WritesAreMoves(h, y, oracle.done, readError);
    } else {
      m := 0;
      WritesStopped(h, y, oracle.done, readError);
      AfterStopped(h, y, WriteScript(oracle.done[..m]), readError);
    }
  }

  lemma {:induction false} ArrivalsEmpty(h: Handler, y: System, n: nat, readError: ErrorReader)
    requires n <= |y.server.queue|
    ensures var z := After(h, y, Arrivals(n), readError);
      z.client.state.status.Running? ==> z.server.queue == y.server.queue[n..]
  {
    if n > 0 {
      ArrivalsEmpty(h, y, n - 1, readError);
      assert Arrivals(n)[..n - 1] == Arrivals(n - 1);
    }
  }

  lemma EntriesAreHandled(h: Handler, y: System, oracle: Oracle, readError: ErrorReader)
    ensures AfterEntries(h, y, oracle, readError).client.state.status.Running? ==>
      AfterEntries(h, y, oracle, readError).client.state.incoming == []
  {
    var input, n := Asked(oracle), |y.client.state.incoming|;
    ClientStepsAreMoves(h, y, Processes(input, n), readError);
    ProcessesAll(y.client, input, n, n);
    assert Processes(input, n)[..n] == Processes(input, n);
  }

  lemma ResponsesAreRead(h: Handler, y: System, oracle: Oracle, readError: ErrorReader)
    ensures AfterStream(h, y, oracle, readError).client.state.status.Running? ==>
      AfterStream(h, y, oracle, readError).server.queue == []
  {
    var given := After(h, y, StreamMoves(oracle.stream), readError);
    ArrivalsEmpty(h, given, |given.server.queue|, readError);
  }

  // ---------------------------------------------------------------- messages are taken once, and at the start

  lemma {:induction false} AcceptsTake(t: Trace, messages: seq<RpcMessage>)
    requires t.state.status.Running? && t.state.channelOpen
    ensures var u := Run(t, Accepts(messages));
      u.state.status.Running? && u.state.channelOpen && MessagesIn(u.log) == MessagesIn(t.log) + messages
  {
    if messages != [] {
      var before, last := messages[..|messages| - 1], messages[|messages| - 1];
      AcceptsTake(t, before);
      assert Accepts(messages)[..|messages| - 1] == Accepts(before);
      var u := Run(t, Accepts(before));
      assert MessagesIn(Then(u.log, ReusedId(Num(u.state.nextId)))) == MessagesIn(u.log);
      assert MessagesIn(t.log) + before + [last] == MessagesIn(t.log) + messages;
    }
  }

  lemma MessagesAreTaken(h: Handler, y: System, oracle: Oracle, readError: ErrorReader)
    requires y.client.state.status.Running? && y.client.state.channelOpen
    ensures MessagesIn(AfterMessages(h, y, oracle, readError).client.log)
         == MessagesIn(y.client.log) + oracle.messages
  {
    ClientStepsAreMoves(h, y, AcceptPhase(Asked(oracle)), readError);
    EndOfChannel(y.client, Asked(oracle));
    AcceptsTake(y.client, oracle.messages);
  }

  predicate TakesNone(m: Move) { m.Client? ==> !m.event.Accept? }

  lemma StepTakesNone(t: Trace, e: Event)
    requires !e.Accept?
    ensures MessagesIn(Step(t, e).log) == MessagesIn(t.log)
  {
    var s := t.state;
    if s.status.Running? && e.Process? && s.incoming != [] && KeyOf(s.incoming[0]).Some? {
      var key := KeyOf(s.incoming[0]).value;
      if key in s.subscriptions {
        assert MessagesIn(Then(t.log, Offered(key, s.subscriptions[key].sender, s.incoming[0].result)))
            == MessagesIn(t.log);
      }
    }
  }

  lemma {:induction false} MovesTakeNone(h: Handler, y: System, moves: seq<Move>, readError: ErrorReader)
    requires forall i :: 0 <= i < |moves| ==> TakesNone(moves[i])
    ensures MessagesIn(After(h, y, moves, readError).client.log) == MessagesIn(y.client.log)
  {
    if moves != [] {
      var z, m := After(h, y, moves[..|moves| - 1], readError), moves[|moves| - 1];
      MovesTakeNone(h, y, moves[..|moves| - 1], readError);
      StepTakesNone(z.client, EventOf(z, m, readError));
      assert TakesNone(m);
    }
  }

  lemma LaterPhasesTakeNone(h: Handler, y: System, oracle: Oracle, readError: ErrorReader)
    ensures MessagesIn(AfterStream(h, y, oracle, readError).client.log) == MessagesIn(y.client.log)
    ensures MessagesIn(AfterEntries(h, y, oracle, readError).client.log) == MessagesIn(y.client.log)
  {
    var given := After(h, y, StreamMoves(oracle.stream), readError);
    MovesTakeNone(h, y, StreamMoves(oracle.stream), readError);
    MovesTakeNone(h, given, Arrivals(|given.server.queue|), readError);
    MovesTakeNone(h, y, ClientMoves(Processes(Asked(oracle), |y.client.state.incoming|)), readError);
  }

  lemma {:induction false} MovesSendNone(h: Handler, y: System, moves: seq<Move>, readError: ErrorReader)
    requires forall i :: 0 <= i < |moves| ==> !moves[i].Ready?
    ensures Sent(After(h, y, moves, readError).client.log) == Sent(y.client.log)
  {
    if moves != [] {
      var z, m := After(h, y, moves[..|moves| - 1], readError), moves[|moves| - 1];
      MovesSendNone(h, y, moves[..|moves| - 1], readError);
      if !(m.Client? && m.event.SinkReady?) {
        SentByStep(z.client, EventOf(z, m, readError));
      }
    }
  }

  lemma PhasesJoin(
    h: Handler, y: System, a: seq<Move>, b: seq<Move>, c: seq<Move>, last: Move, readError: ErrorReader)
    ensures After(h, y, a + b + c + [last], readError)
         == Next(h, After(h, After(h, After(h, y, a, readError), b, readError), c, readError), last, readError)
  {
    AfterConcat(h, y, a, b, readError);
    AfterConcat(h, y, a + b, c, readError);
    AfterNext(h, y, a + b + c, last, readError);
  }

  /**
   A poll takes every message of an open channel. If it leaves the future running, it has read every
   response that was queued, handled every entry, and handed on every request unless the handler was
   not done with one or the sink was not asked again.
   */
  lemma PolledIsThorough(h: Handler, y: System, oracle: Oracle, readError: ErrorReader)
    returns (k: nat, n: nat, m: nat)
    requires y.client.state.status.Running?
    ensures m <= |oracle.done|
    ensures var z := Polled(h, y, oracle, readError);
      && z == After(h, y, Script(oracle, k, n, m), readError)
      && (y.client.state.channelOpen ==> MessagesIn(z.client.log) == MessagesIn(y.client.log) + oracle.messages)
      && (z.client.state.status.Running? ==>
            && After(h, y, ReadScript(oracle, k), readError).server.queue == []
            && z.client.state.incoming == [] && Asks(y, z, oracle.done, m)
            && (oracle.flushDone ==> z.server.buffered == Nothing))
  {
    var y1 := AfterMessages(h, y, oracle, readError);
    var y2 := AfterStream(h, y1, oracle, readError);
    var y3 := AfterEntries(h, y2, oracle, readError);
    k := ReadingIsScript(h, y, oracle, readError);
    n := |y2.client.state.incoming|;
    EntriesAreScript(h, y2, oracle, readError);
    m := WritingIsScript(h, y3, oracle, readError);
    var given, entries, writes := ReadScript(oracle, k), EntryScript(oracle, n), WriteScript(oracle.done[..m]);
    PhasesJoin(h, y, given, entries, writes, Flushed(oracle.flushDone), readError);
    MovesSendNone(h, y, given, readError);
    MovesSendNone(h, y2, entries, readError);
    if y.client.state.channelOpen { MessagesAreTaken(h, y, oracle, readError); }
    LaterPhasesTakeNone(h, y1, oracle, readError);
    LaterPhasesTakeNone(h, y2, oracle, readError);
    ResponsesAreRead(h, y1, oracle, readError);
    EntriesAreHandled(h, y2, oracle, readError);
    if !y2.client.state.status.Running? { StoppedEntries(h, y2, oracle, readError); }
    FlushKeeps(h, AfterWrites(h, y3, oracle.done, readError), oracle.flushDone, readError);
  }

  lemma StoppedEntries(h: Handler, y: System, oracle: Oracle, readError: ErrorReader)
    requires !y.client.state.status.Running?
    ensures AfterEntries(h, y, oracle, readError) == y
  {
    AfterStopped(h, y, ClientMoves(Processes(Asked(oracle), |y.client.state.incoming|)), readError);
  }

  lemma FlushKeeps(h: Handler, y: System, done: bool, readError: ErrorReader)
    ensures var z := Next(h, y, Flushed(done), readError);
      && z.client.log == y.client.log && z.client.state.incoming == y.client.state.incoming
      && z.client.state.outgoing == y.client.state.outgoing
      && (z.client.state.status.Running? ==> y.client.state.status.Running?)
      && (z.client.state.status.Running? && done ==> z.server.buffered == Nothing)
  {
  }

  // ---------------------------------------------------------------- any number of polls

  function PolledAll(h: Handler, oracles: seq<Oracle>, readError: ErrorReader): System {
    if oracles == [] then BEGIN
    else Polled(h, PolledAll(h, oracles[..|oracles| - 1], readError), oracles[|oracles| - 1], readError)
  }

  /** Every poll is a run of the system, so what holds of all runs holds of all sequences of polls. */
  lemma PolledIsMoves(h: Handler, y: System, oracle: Oracle, readError: ErrorReader) returns (moves: seq<Move>)
    ensures Polled(h, y, oracle, readError) == After(h, y, moves, readError)
  {
    if y.client.state.status.Running? {
      var k, n, m := PolledIsThorough(h, y, oracle, readError);
      moves := Script(oracle, k, n, m);
    } else {
      PolledStopped(h, y, oracle, readError);
      moves := [];
    }
  }

  lemma {:induction false} PollsAreMoves(h: Handler, oracles: seq<Oracle>, readError: ErrorReader)
    returns (moves: seq<Move>)
    ensures PolledAll(h, oracles, readError) == Moves(h, moves, readError)
  {
    if oracles == [] {
      moves := [];
    } else {
      var before := PollsAreMoves(h, oracles[..|oracles| - 1], readError);
      var last := PolledIsMoves(h, Moves(h, before, readError), oracles[|oracles| - 1], readError);
      AfterBegin(h, before, readError);
      AfterConcat(h, BEGIN, before, last, readError);
      AfterBegin(h, before + last, readError);
      moves := before + last;
    }
  }

  lemma PolledStopped(h: Handler, y: System, oracle: Oracle, readError: ErrorReader)
    requires !y.client.state.status.Running?
    ensures Polled(h, y, oracle, readError) == y
  {
    AfterStopped(h, y, ClientMoves(AcceptPhase(Asked(oracle))), readError);
    AfterStopped(h, y, StreamMoves(oracle.stream), readError);
    AfterStopped(h, y, Arrivals(|y.server.queue|), readError);
    AfterStopped(h, y, ClientMoves(Processes(Asked(oracle), |y.client.state.incoming|)), readError);
    WritesStopped(h, y, oracle.done, readError);
  }

  /**
   A client and a handler from the beginning, polled again and again: the objects stand as all the
   polls leave the system, every result that reached a caller is what the handler answered to the very
   request that call became, and no caller got more than one per call.
   */
  method Drive(h: Handler, oracles: seq<Oracle>, readError: ErrorReader) returns (t: Transport, l: Connection)
    ensures fresh(t) && fresh(l) && l.handler == h && Both(t, l) == PolledAll(h, oracles, readError)
    ensures Drawn(t.log) <= TWO_TO_THE_64 ==>
      AllDeserved(h, t.log) && forall c :: AnsweredCalls(t.log, c) <= AcceptedCalls(t.log, c)
  {
    t := new Transport();
    l := new Connection(h);
    for i := 0 to |oracles|
      invariant fresh(t) && fresh(l) && l.handler == h
      invariant Both(t, l) == PolledAll(h, oracles[..i], readError)
    {
      assert oracles[..i + 1][..i] == oracles[..i];
      if t.status.Running? {
        var status := PollConnected(t, l, oracles[i], readError);
      } else {
        PolledStopped(h, Both(t, l), oracles[i], readError);
      }
    }
    assert oracles[..|oracles|] == oracles;
    DriveIsDeserved(h, oracles, readError);
  }

  lemma DriveIsDeserved(h: Handler, oracles: seq<Oracle>, readError: ErrorReader)
    ensures var log := PolledAll(h, oracles, readError).client.log;
      Drawn(log) <= TWO_TO_THE_64 ==>
        AllDeserved(h, log) && forall c :: AnsweredCalls(log, c) <= AcceptedCalls(log, c)
  {
    var moves := PollsAreMoves(h, oracles, readError);
    if Drawn(PolledAll(h, oracles, readError).client.log) <= TWO_TO_THE_64 {
      forall c: Sender
        ensures AnsweredCalls(PolledAll(h, oracles, readError).client.log, c)
             <= AcceptedCalls(PolledAll(h, oracles, readError).client.log, c)
      {
        AnswersAreDeserved(h, moves, readError, c);
      }
      AnswersAreDeserved(h, moves, readError, 0);
    }
  }
}

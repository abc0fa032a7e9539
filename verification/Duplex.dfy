/**
 The client's duplex transport: one future that takes messages from the client, writes requests
 to a sink, reads texts from a stream and hands results to the callers and subscribers.

 A poll is a script of small steps, each on one answer of a channel, the stream or the sink. The
 log of a trace records what the steps did; the program does not keep it.
 */
module Duplex {
  import opened Basics
  import opened JsonRpc
  import opened ClientMessages

  /** Names the sending end of a caller's oneshot or of a subscriber's channel. */
  type Sender = nat

  datatype RpcMessage =
    | CallMessage(name: string, params: Params, sender: Sender)
    | NotifyMessage(name: string, params: Params)
    | SubscribeMessage(name: string, params: Params, notification: string, unsubscribe: string, sender: Sender)

  datatype Subscription =
    Subscription(id: Option<SubscriptionId>, notification: string, unsubscribe: string, sender: Sender)

  datatype Pending = PendingCall(sender: Sender) | PendingSubscription(subscription: Subscription)

  /** Subscription id and notification name. */
  type Key = (SubscriptionId, string)

  /** How the future ended: by its own test, by the end of the stream, by an error, or by a failed `expect`. */
  datatype Status = Running | Completed | Disconnected | Failed(error: RpcError) | Panicked

  datatype State = State(
    nextId: U64,
    channelOpen: bool,
    pending: map<Id, Pending>,
    subscriptions: map<Key, Subscription>,
    incoming: seq<Incoming>,
    outgoing: seq<Call>,
    status: Status)

  const INITIAL := State(0, true, map[], map[], [], [], Running)

  /** What a step did. */
  datatype Action =
    | Accepted(message: RpcMessage, request: Call)
    | ReusedId(id: Id)
    | Answered(id: Id, sender: Sender, result: RpcResult)
    | AnswerLost(id: Id, sender: Sender)
    | Established(key: Key, subscription: Subscription)
    | Rejected(sender: Sender, result: RpcResult)
    | Offered(key: Key, sender: Sender, result: RpcResult)
    | Removed(key: Key, subscription: Subscription, request: Call)
    | Written(request: Call)

  /** All that was done, the latest action last. */
  datatype Log = Empty | Then(before: Log, action: Action)

  datatype Trace = Trace(state: State, log: Log)

  const START := Trace(INITIAL, Empty)

  /** An answer of one of the things that a poll asks. */
  datatype Event =
    | Accept(message: RpcMessage)                       // the client channel has a message
    | ChannelClosed                                     // the client channel has ended
    | Receive(parsed: Result<Incoming, RpcError>)       // the stream has a text, parsed
    | StreamEnded
    | Process(heard: bool)                              // next incoming entry; is its receiver still there?
    | SinkReady(taken: bool)                            // the sink is ready; does it take the request?
    | SinkFailed
    | Flush(flushed: bool)                              // the final test of a poll

  // ---------------------------------------------------------------- requests

  function NextId(id: U64): U64 { (id + 1) % TWO_TO_THE_64 }

  function CallRequest(name: string, params: Params, id: U64): Call { MethodCall(Some(V2), name, params, Num(id)) }

  function RequestOf(m: RpcMessage, id: U64): Call {
    match m
    case NotifyMessage(name, params) => Notification(Some(V2), name, params)
    case _ => CallRequest(m.name, m.params, id)
  }

  function UnsubscribeRequest(unsubscribe: string, sid: SubscriptionId, id: U64): Call {
    CallRequest(unsubscribe, Positional([SubscriptionIdValue(sid)]), id)
  }

  function PendingOf(m: RpcMessage): Pending
    requires !m.NotifyMessage?
  {
    match m
    case CallMessage(_, _, sender) => PendingCall(sender)
    case SubscribeMessage(_, _, notification, unsubscribe, sender) =>
      PendingSubscription(Subscription(None, notification, unsubscribe, sender))
  }

  // ---------------------------------------------------------------- steps

  function AcceptMessage(t: Trace, m: RpcMessage): Trace {
    var s, request := t.state, RequestOf(m, t.state.nextId);
    if m.NotifyMessage? then
      Trace(s.(outgoing := s.outgoing + [request]), Then(t.log, Accepted(m, request)))
    else
      var id := Num(s.nextId);
      Trace(s.(nextId := NextId(s.nextId), pending := s.pending[id := PendingOf(m)],
               outgoing := s.outgoing + [request]),
            Then(if id in s.pending then Then(t.log, ReusedId(id)) else t.log, Accepted(m, request)))
  }

  function SidOf(result: RpcResult): Option<SubscriptionId> {
    match result case Ok(v) => ParseSubscriptionId(v) case Err(_) => None
  }

  function KeyOf(e: Incoming): Option<Key> {
    if e.sid.Some? && e.name.Some? then Some((e.sid.value, e.name.value)) else None
  }

  function AnswerCall(t: Trace, id: Id, sender: Sender, result: RpcResult, heard: bool): Trace {
    var s := t.state.(pending := t.state.pending - {id});
    if heard then Trace(s, Then(t.log, Answered(id, sender, result)))
    else Trace(s.(status := Failed(ClientError("oneshot channel closed"))), Then(t.log, AnswerLost(id, sender)))
  }

  function AnswerSubscription(t: Trace, id: Id, sub: Subscription, result: RpcResult): Trace {
    var s := t.state.(pending := t.state.pending - {id});
    match SidOf(result)
    case Some(sid) =>
      var established := sub.(id := Some(sid));
      Trace(s.(subscriptions := s.subscriptions[(sid, sub.notification) := established]),
            Then(t.log, Established((sid, sub.notification), established)))
    case None => Trace(s, Then(t.log, Rejected(sub.sender, result)))
  }

  function Deliver(t: Trace, key: Key, result: RpcResult, heard: bool): Trace {
    var s := t.state;
    if key !in s.subscriptions then t
    else
      var sub := s.subscriptions[key];
      var offered := Then(t.log, Offered(key, sub.sender, result));
      if heard then Trace(s, offered)
      else if sub.id.None? then Trace(s.(subscriptions := s.subscriptions - {key}, status := Panicked), offered)
      else
        var request := UnsubscribeRequest(sub.unsubscribe, sub.id.value, s.nextId);
        Trace(s.(subscriptions := s.subscriptions - {key}, nextId := NextId(s.nextId),
                 outgoing := s.outgoing + [request]),
              Then(offered, Removed(key, sub, request)))
  }

  function ProcessEntry(t: Trace, e: Incoming, heard: bool): Trace {
    if e.id in t.state.pending then
      match t.state.pending[e.id]
      case PendingCall(sender) => AnswerCall(t, e.id, sender, e.result, heard)
      case PendingSubscription(sub) => AnswerSubscription(t, e.id, sub, e.result)
    else match KeyOf(e)
         case Some(key) => Deliver(t, key, e.result, heard)
         case None => t
  }

  function WriteNext(t: Trace, taken: bool): Trace
    requires t.state.outgoing != []
  {
    var s := t.state.(outgoing := t.state.outgoing[1..]);
    if taken then Trace(s, Then(t.log, Written(t.state.outgoing[0])))
    else Trace(s.(status := Failed(ClientError("closing"))), t.log)
  }

  predicate Finished(s: State) {
    !s.channelOpen && s.outgoing == [] && s.incoming == [] && s.pending == map[] && s.subscriptions == map[]
  }

  function Step(t: Trace, e: Event): Trace {
    var s := t.state;
    if !s.status.Running? then t
    else match e
      case Accept(m) => if s.channelOpen then AcceptMessage(t, m) else t
      case ChannelClosed => t.(state := s.(channelOpen := false))
      case Receive(Ok(entry)) => t.(state := s.(incoming := s.incoming + [entry]))
      case Receive(Err(error)) => t.(state := s.(status := Failed(error)))
      case StreamEnded => t.(state := s.(status := Disconnected))
      case Process(heard) =>
        if s.incoming == [] then t
        else ProcessEntry(t.(state := s.(incoming := s.incoming[1..])), s.incoming[0], heard)
      case SinkReady(taken) => if s.outgoing == [] then t else WriteNext(t, taken)
      case SinkFailed => t.(state := s.(status := Failed(ClientError("closing"))))
      case Flush(flushed) => if Finished(s) && flushed then t.(state := s.(status := Completed)) else t
  }

  function Run(t: Trace, events: seq<Event>): Trace {
    if events == [] then t else Step(Run(t, events[..|events| - 1]), events[|events| - 1])
  }

  lemma {:induction false} RunConcat(t: Trace, a: seq<Event>, b: seq<Event>)
    ensures Run(t, a + b) == Run(Run(t, a), b)
    decreases |b|
  {
    if b == [] {
      assert a + b == a;
    } else {
      RunConcat(t, a, b[..|b| - 1]);
      assert (a + b)[..|a + b| - 1] == a + b[..|b| - 1];
    }
  }

  // ---------------------------------------------------------------- one poll

  datatype SinkAnswer = Ready(taken: bool) | Broken

  /**
   What one call of `poll` is told, each sequence up to the first `Pending`: messages of the client
   channel, texts of the stream, whether the receivers of the entries it processes are still there
   (those not listed are), answers of the sink, and whether the sink flushes.
   */
  datatype PollInput = PollInput(
    messages: seq<RpcMessage>, channelEnds: bool,
    texts: seq<ServerText>, streamEnds: bool,
    heard: seq<bool>,
    sink: seq<SinkAnswer>, flushed: bool)

  predicate Heard(input: PollInput, k: nat) { k < |input.heard| ==> input.heard[k] }

  function Accepts(messages: seq<RpcMessage>): seq<Event> {
    seq(|messages|, i requires 0 <= i < |messages| => Accept(messages[i]))
  }

  function Receives(texts: seq<ServerText>, readError: ErrorReader): seq<Event> {
    seq(|texts|, i requires 0 <= i < |texts| => Receive(ParseResponse(texts[i], readError)))
  }

  function Processes(input: PollInput, n: nat): seq<Event> { seq(n, i requires 0 <= i < n => Process(Heard(input, i))) }

  /** The sink is asked until it is not ready, fails, or nothing is left to send. */
  function Writes(sink: seq<SinkAnswer>, unsent: nat): seq<Event> {
    if sink == [] then []
    else match sink[0]
      case Broken => [SinkFailed]
      case Ready(taken) => if unsent == 0 then [] else [SinkReady(taken)] + Writes(sink[1..], unsent - 1)
  }

  function AcceptPhase(input: PollInput): seq<Event> {
    Accepts(input.messages) + if input.channelEnds then [ChannelClosed] else []
  }

  function ReceivePhase(input: PollInput, readError: ErrorReader): seq<Event> {
    Receives(input.texts, readError) + if input.streamEnds then [StreamEnded] else []
  }

  function AfterAccept(t: Trace, input: PollInput): Trace { Run(t, AcceptPhase(input)) }
  function AfterReceive(t: Trace, input: PollInput, readError: ErrorReader): Trace {
    Run(AfterAccept(t, input), ReceivePhase(input, readError))
  }
  function AfterProcess(t: Trace, input: PollInput, readError: ErrorReader): Trace {
    var u := AfterReceive(t, input, readError);
    Run(u, Processes(input, |u.state.incoming|))
  }
  function AfterWrite(t: Trace, input: PollInput, readError: ErrorReader): Trace {
    var u := AfterProcess(t, input, readError);
    Run(u, Writes(input.sink, |u.state.outgoing|))
  }

  /** The trace after one poll. */
  function Poll(t: Trace, input: PollInput, readError: ErrorReader): Trace {
    Step(AfterWrite(t, input, readError), Flush(input.flushed))
  }

  function PollAll(t: Trace, inputs: seq<PollInput>, readError: ErrorReader): Trace {
    if inputs == [] then t
    else Poll(PollAll(t, inputs[..|inputs| - 1], readError), inputs[|inputs| - 1], readError)
  }

  lemma RunNext(t: Trace, events: seq<Event>, k: nat)
    requires k < |events|
    ensures Run(t, events[..k + 1]) == Step(Run(t, events[..k]), events[k])
  {
    assert events[..k + 1][..k] == events[..k];
  }

  lemma RunFirst(t: Trace, e: Event, rest: seq<Event>)
    ensures Run(t, [e] + rest) == Run(Step(t, e), rest)
  {
    RunConcat(t, [e], rest);
    assert [e][..0] == [];
  }

  /** Once the future has ended, the rest of a script changes nothing. */
  lemma RunEndsAt(t: Trace, events: seq<Event>, k: nat)
    requires k <= |events| && !Run(t, events[..k]).state.status.Running?
    ensures Run(t, events) == Run(t, events[..k])
  {
    assert events == events[..k] + events[k..];
    RunConcat(t, events[..k], events[k..]);
    RunStopped(Run(t, events[..k]), events[k..]);
  }

  lemma {:induction false} RunStopped(t: Trace, events: seq<Event>)
    requires !t.state.status.Running?
    ensures Run(t, events) == t
  {
    if events != [] { RunStopped(t, events[..|events| - 1]); }
  }
}

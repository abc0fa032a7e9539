/**
 What a run of the duplex transport amounts to, told from its events alone: a client without queues
 that handles every message as it is taken and every entry as it is seen.
 */
module DuplexMeaning {
  import opened Basics
  import opened JsonRpc
  import opened ClientMessages
  import opened Duplex
  import opened DuplexProofs

  /** A result given to the sending end of a oneshot or a channel. */
  datatype Gift = Gift(to: Sender, result: RpcResult)

  /**
   The account of a run: the messages taken and the entries received so far, of which the first
   `seen` have been handled; the ids drawn; the messages whose requests have no reply yet, by id, and
   those that are subscribed, by subscription id and notification name; every request asked for, of
   which the first `written` are with the sink; the results given to callers and offered to
   subscribers; whether the client may still send, and how the run stands.
   */
  datatype Account = Account(
    taken: seq<RpcMessage>,
    received: seq<Incoming>,
    seen: nat,
    ids: nat,
    awaiting: map<Id, RpcMessage>,
    subscribers: map<Key, RpcMessage>,
    requests: seq<Call>,
    written: nat,
    answers: seq<Gift>,
    offers: seq<Gift>,
    open: bool,
    fate: Status)

  const BLANK := Account([], [], 0, 0, map[], map[], [], 0, [], [], true, Running)

  function IdFor(ids: nat): Id { Num(ids % TWO_TO_THE_64) }

  /** A message becomes the request it asks for; a call or a subscription waits for the reply. */
  function TellMessage(a: Account, m: RpcMessage): Account {
    var b := a.(taken := a.taken + [m]);
    match m
    case NotifyMessage(name, params) => b.(requests := a.requests + [Notification(Some(V2), name, params)])
    case _ =>
      b.(requests := a.requests + [MethodCall(Some(V2), m.name, m.params, IdFor(a.ids))],
         awaiting := a.awaiting[IdFor(a.ids) := m],
         ids := a.ids + 1)
  }

  /** A reply reaches the message it is for. */
  function TellReply(a: Account, m: RpcMessage, result: RpcResult, heard: bool): Account {
    match m
    case CallMessage(_, _, sender) =>
      if heard then a.(answers := a.answers + [Gift(sender, result)])
      else a.(fate := Failed(ClientError("oneshot channel closed")))
    case SubscribeMessage(_, _, notification, _, sender) =>
      if result.Ok? && ParseSubscriptionId(result.value).Some? then
        a.(subscribers := a.subscribers[(ParseSubscriptionId(result.value).value, notification) := m])
      else a.(offers := a.offers + [Gift(sender, result)])
    case NotifyMessage(_, _) => a
  }

  /** A notification is offered to its subscriber; one that is gone is unsubscribed. */
  function TellNotice(a: Account, sid: SubscriptionId, name: string, result: RpcResult, heard: bool): Account {
    if (sid, name) !in a.subscribers || !a.subscribers[(sid, name)].SubscribeMessage? then a
    else
      var m := a.subscribers[(sid, name)];
      var b := a.(offers := a.offers + [Gift(m.sender, result)]);
      if heard then b
      else
        var ask := MethodCall(Some(V2), m.unsubscribe, Positional([SubscriptionIdValue(sid)]), IdFor(a.ids));
        b.(subscribers := a.subscribers - {(sid, name)}, requests := a.requests + [ask], ids := a.ids + 1)
  }

  /** The oldest entry not yet handled is handled. */
  function TellEntry(a: Account, heard: bool): Account
    requires a.seen < |a.received|
  {
    var e, b := a.received[a.seen], a.(seen := a.seen + 1);
    if e.id in a.awaiting then TellReply(b.(awaiting := a.awaiting - {e.id}), a.awaiting[e.id], e.result, heard)
    else if e.sid.Some? && e.name.Some? then TellNotice(b, e.sid.value, e.name.value, e.result, heard)
    else b
  }

  predicate AllDone(a: Account) {
    && !a.open && a.seen == |a.received| && a.written == |a.requests|
    && a.awaiting == map[] && a.subscribers == map[]
  }

  function Tell(a: Account, e: Event): Account {
    if !a.fate.Running? then a
    else match e
      case Accept(m) => if a.open then TellMessage(a, m) else a
      case ChannelClosed => a.(open := false)
      case Receive(Ok(entry)) => a.(received := a.received + [entry])
      case Receive(Err(error)) => a.(fate := Failed(error))
      case StreamEnded => a.(fate := Disconnected)
      case Process(heard) => if a.seen < |a.received| then TellEntry(a, heard) else a
      case SinkReady(taken) =>
        if a.written >= |a.requests| then a
        else if taken then a.(written := a.written + 1)
        else a.(fate := Failed(ClientError("closing")))
      case SinkFailed => a.(fate := Failed(ClientError("closing")))
      case Flush(flushed) => if flushed && AllDone(a) then a.(fate := Completed) else a
  }

  /** The account of a run. */
  function Told(events: seq<Event>): Account {
    if events == [] then BLANK else Tell(Told(events[..|events| - 1]), events[|events| - 1])
  }

  // ---------------------------------------------------------------- what the transport did

  function MessagesIn(log: Log): seq<RpcMessage> {
    match log
    case Empty => []
    case Then(before, Accepted(m, _)) => MessagesIn(before) + [m]
    case Then(before, _) => MessagesIn(before)
  }

  /** The results sent to oneshots, in order. */
  function AnswersIn(log: Log): seq<Gift> {
    match log
    case Empty => []
    case Then(before, Answered(_, sender, result)) => AnswersIn(before) + [Gift(sender, result)]
    case Then(before, _) => AnswersIn(before)
  }

  /** The results sent to subscribers' channels, in order. */
  function OffersIn(log: Log): seq<Gift> {
    match log
    case Empty => []
    case Then(before, Offered(_, sender, result)) => OffersIn(before) + [Gift(sender, result)]
    case Then(before, Rejected(sender, result)) => OffersIn(before) + [Gift(sender, result)]
    case Then(before, _) => OffersIn(before)
  }

  // ---------------------------------------------------------------- the transport does what the account tells

  predicate PendingFor(p: Pending, m: RpcMessage) {
    match m
    case CallMessage(_, _, sender) => p == PendingCall(sender)
    case SubscribeMessage(_, _, notification, unsubscribe, sender) =>
      p == PendingSubscription(Subscription(None, notification, unsubscribe, sender))
    case NotifyMessage(_, _) => false
  }

  predicate SubscriptionFor(sub: Subscription, key: Key, m: RpcMessage) {
    m.SubscribeMessage? && key.1 == m.notification
    && sub == Subscription(Some(key.0), m.notification, m.unsubscribe, m.sender)
  }

  ghost predicate SamePending(s: State, a: Account) {
    && s.pending.Keys == a.awaiting.Keys
    && forall id :: id in s.pending ==> PendingFor(s.pending[id], a.awaiting[id])
  }

  ghost predicate SameSubscriptions(s: State, a: Account) {
    && s.subscriptions.Keys == a.subscribers.Keys
    && forall key :: key in s.subscriptions ==> SubscriptionFor(s.subscriptions[key], key, a.subscribers[key])
  }

  ghost predicate SameQueues(t: Trace, a: Account) {
    && a.seen <= |a.received| && t.state.incoming == a.received[a.seen..]
    && a.written <= |a.requests| && Sent(t.log) == a.requests[..a.written]
    && (!a.fate.Failed? ==> t.state.outgoing == a.requests[a.written..])
  }

  ghost predicate SameEffects(log: Log, a: Account) {
    MessagesIn(log) == a.taken && AnswersIn(log) == a.answers && OffersIn(log) == a.offers
  }

  ghost predicate Mirrors(t: Trace, a: Account) {
    && t.state.status == a.fate && t.state.channelOpen == a.open && t.state.nextId == a.ids % TWO_TO_THE_64
    && SamePending(t.state, a) && SameSubscriptions(t.state, a) && SameQueues(t, a) && SameEffects(t.log, a)
  }

  lemma MirrorsMessage(t: Trace, a: Account, m: RpcMessage)
    requires Mirrors(t, a) && a.fate.Running?
    ensures Mirrors(AcceptMessage(t, m), TellMessage(a, m))
  {
    var u, b := AcceptMessage(t, m), TellMessage(a, m);
    var reused := Then(t.log, ReusedId(Num(t.state.nextId)));
    assert Sent(reused) == Sent(t.log) && SameEffects(reused, a);
    assert b.requests[..a.written] == a.requests[..a.written];
    assert b.requests[a.written..] == a.requests[a.written..] + b.requests[|a.requests|..];
  }

  lemma MirrorsAnswer(t: Trace, a: Account, id: Id, m: RpcMessage, result: RpcResult, heard: bool)
    requires Mirrors(t, a) && a.fate.Running? && m.CallMessage? && id in a.awaiting && a.awaiting[id] == m
    ensures Mirrors(AnswerCall(t, id, m.sender, result, heard),
                    TellReply(a.(awaiting := a.awaiting - {id}), m, result, heard))
  {
  }

  lemma MirrorsGrant(t: Trace, a: Account, id: Id, m: RpcMessage, sid: SubscriptionId)
    requires Mirrors(t, a) && m.SubscribeMessage?
    ensures var key := (sid, m.notification);
      var sub := Subscription(Some(sid), m.notification, m.unsubscribe, m.sender);
      Mirrors(Trace(t.state.(pending := t.state.pending - {id}, subscriptions := t.state.subscriptions[key := sub]),
                    Then(t.log, Established(key, sub))),
              a.(awaiting := a.awaiting - {id}, subscribers := a.subscribers[key := m]))
  {
  }

  lemma MirrorsRefusal(t: Trace, a: Account, id: Id, c: Sender, result: RpcResult)
    requires Mirrors(t, a)
    ensures Mirrors(Trace(t.state.(pending := t.state.pending - {id}), Then(t.log, Rejected(c, result))),
                    a.(awaiting := a.awaiting - {id}, offers := a.offers + [Gift(c, result)]))
  {
  }

  lemma MirrorsSettled(t: Trace, a: Account, id: Id, m: RpcMessage, result: RpcResult, heard: bool)
    requires Mirrors(t, a) && a.fate.Running? && m.SubscribeMessage? && id in a.awaiting && a.awaiting[id] == m
    ensures Mirrors(AnswerSubscription(t, id, Subscription(None, m.notification, m.unsubscribe, m.sender), result),
                    TellReply(a.(awaiting := a.awaiting - {id}), m, result, heard))
  {
    match SidOf(result)
    case Some(sid) => MirrorsGrant(t, a, id, m, sid);
    case None => MirrorsRefusal(t, a, id, m.sender, result);
  }

  lemma MirrorsReply(t: Trace, a: Account, e: Incoming, heard: bool)
    requires Mirrors(t, a) && a.fate.Running? && e.id in a.awaiting
    ensures Mirrors(ProcessEntry(t, e, heard),
                    TellReply(a.(awaiting := a.awaiting - {e.id}), a.awaiting[e.id], e.result, heard))
  {
    var m := a.awaiting[e.id];
    assert PendingFor(t.state.pending[e.id], m);
    match m
    case CallMessage(_, _, _) => MirrorsAnswer(t, a, e.id, m, e.result, heard);
    case SubscribeMessage(_, _, _, _, _) => MirrorsSettled(t, a, e.id, m, e.result, heard);
    case NotifyMessage(_, _) =>
  }

  lemma MirrorsNotice(t: Trace, a: Account, key: Key, result: RpcResult, heard: bool)
    requires Mirrors(t, a) && a.fate.Running?
    ensures Mirrors(Deliver(t, key, result, heard), TellNotice(a, key.0, key.1, result, heard))
  {
    if key in a.subscribers {
      var sub := t.state.subscriptions[key];
      var offered := Then(t.log, Offered(key, sub.sender, result));
      var b := TellNotice(a, key.0, key.1, result, heard);
      assert Sent(offered) == Sent(t.log) && SameEffects(offered, b);
      if !heard {
        assert b.requests[..a.written] == a.requests[..a.written];
        assert b.requests[a.written..] == a.requests[a.written..] + b.requests[|a.requests|..];
      }
    }
  }

  lemma MirrorsEntry(t: Trace, a: Account, heard: bool)
    requires Mirrors(t, a) && a.fate.Running? && t.state.incoming != []
    ensures Mirrors(Step(t, Process(heard)), TellEntry(a, heard))
  {
    var s := t.state;
    var u, b := t.(state := s.(incoming := s.incoming[1..])), a.(seen := a.seen + 1);
    var e := s.incoming[0];
    assert e == a.received[a.seen] && s.incoming[1..] == a.received[a.seen + 1..];
    if e.id in a.awaiting {
      MirrorsReply(u, b, e, heard);
    } else if KeyOf(e).Some? {
      MirrorsNotice(u, b, KeyOf(e).value, e.result, heard);
    }
  }

  lemma MirrorsWrite(t: Trace, a: Account, taken: bool)
    requires Mirrors(t, a) && a.fate.Running? && t.state.outgoing != []
    ensures Mirrors(WriteNext(t, taken), Tell(a, SinkReady(taken)))
  {
    var out := t.state.outgoing;
    assert out[0] == a.requests[a.written];
    assert a.requests[..a.written + 1] == a.requests[..a.written] + [out[0]];
    assert out[1..] == a.requests[a.written + 1..];
  }

  lemma MirrorsFlush(t: Trace, a: Account)
    requires Mirrors(t, a) && a.fate.Running?
    ensures Finished(t.state) == AllDone(a)
  {
    assert t.state.pending == map[] <==> t.state.pending.Keys == {};
    assert t.state.subscriptions == map[] <==> t.state.subscriptions.Keys == {};
    assert a.awaiting == map[] <==> a.awaiting.Keys == {};
    assert a.subscribers == map[] <==> a.subscribers.Keys == {};
  }

  lemma MirrorsReceive(t: Trace, a: Account, entry: Incoming)
    requires Mirrors(t, a) && a.fate.Running?
    ensures Mirrors(Step(t, Receive(Ok(entry))), Tell(a, Receive(Ok(entry))))
  {
    assert (a.received + [entry])[a.seen..] == a.received[a.seen..] + [entry];
  }

  lemma MirrorsStep(t: Trace, a: Account, e: Event)
    requires Mirrors(t, a)
    ensures Mirrors(Step(t, e), Tell(a, e))
  {
    if a.fate.Running? {
      match e
      case Accept(m) => if a.open { MirrorsMessage(t, a, m); }
      case Receive(Ok(entry)) => MirrorsReceive(t, a, entry);
      case Process(heard) => if t.state.incoming != [] { MirrorsEntry(t, a, heard); }
      case SinkReady(taken) => if t.state.outgoing != [] { MirrorsWrite(t, a, taken); }
      case Flush(_) => MirrorsFlush(t, a);
      case _ =>
    }
  }

  /**
   In every run the transport stands as the account of its events tells: what is pending and who is
   subscribed, what waits in either queue, what was written, answered and offered, in which order,
   and how the run ended.
   */
  lemma {:induction false} RunMeans(events: seq<Event>)
    ensures Mirrors(Run(START, events), Told(events))
  {
    if events != [] {
      RunMeans(events[..|events| - 1]);
      MirrorsStep(Run(START, events[..|events| - 1]), Told(events[..|events| - 1]), events[|events| - 1]);
    }
  }

  /** The results given to one sending end, in order. */
  function GivenTo(gifts: seq<Gift>, c: Sender): seq<RpcResult> {
    if gifts == [] then []
    else
      var last := gifts[|gifts| - 1];
      GivenTo(gifts[..|gifts| - 1], c) + if last.to == c then [last.result] else []
  }

  /**
   A channel is sent exactly what the account of the run offers it: the notifications among the
   entries received that came while it was subscribed under their id and name, and the refusals of
   its own subscribe requests, in the order they were received.
   */
  lemma SubscribersAreServed(events: seq<Event>, c: Sender)
    ensures GivenTo(OffersIn(Run(START, events).log), c) == GivenTo(Told(events).offers, c)
  {
    RunMeans(events);
  }

  lemma {:induction false} CompletedMeansDone(events: seq<Event>)
    ensures Told(events).fate.Completed? ==> AllDone(Told(events))
  {
    if events != [] { CompletedMeansDone(events[..|events| - 1]); }
  }

  /** A future that completes on its own has nothing left: no entry, request, reply to await or subscriber. */
  lemma CompletionMeansAllDone(events: seq<Event>)
    requires Run(START, events).state.status.Completed?
    ensures AllDone(Told(events)) && Sent(Run(START, events).log) == Told(events).requests
  {
    RunMeans(events);
    CompletedMeansDone(events);
  }
}

/** What every run of the duplex transport keeps. */
module DuplexProofs {
  import opened Basics
  import opened JsonRpc
  import opened ClientMessages
  import opened Duplex

  // ---------------------------------------------------------------- reading the log

  /** The requests put on the outgoing queue, in order: one for each message, one for each removal. */
  function Queued(log: Log): seq<Call> {
    match log
    case Empty => []
    case Then(before, Accepted(_, request)) => Queued(before) + [request]
    case Then(before, Removed(_, _, request)) => Queued(before) + [request]
    case Then(before, _) => Queued(before)
  }

  /** The requests handed to the sink, in order. */
  function Sent(log: Log): seq<Call> {
    match log
    case Empty => []
    case Then(before, Written(request)) => Sent(before) + [request]
    case Then(before, _) => Sent(before)
  }

  /** How many request ids were drawn. */
  function Drawn(log: Log): nat {
    match log
    case Empty => 0
    case Then(before, Accepted(m, _)) => Drawn(before) + if m.NotifyMessage? then 0 else 1
    case Then(before, Removed(_, _, _)) => Drawn(before) + 1
    case Then(before, _) => Drawn(before)
  }

  /** How many calls with oneshot `c` were taken from the client. */
  function AcceptedCalls(log: Log, c: Sender): nat {
    match log
    case Empty => 0
    case Then(before, Accepted(CallMessage(_, _, sender), _)) => AcceptedCalls(before, c) + if sender == c then 1 else 0
    case Then(before, _) => AcceptedCalls(before, c)
  }

  /** How many results were sent to the oneshot `c`. */
  function AnsweredCalls(log: Log, c: Sender): nat {
    match log
    case Empty => 0
    case Then(before, Answered(_, sender, _)) => AnsweredCalls(before, c) + if sender == c then 1 else 0
    case Then(before, _) => AnsweredCalls(before, c)
  }

  /** How many results found the oneshot `c` closed. */
  function LostCalls(log: Log, c: Sender): nat {
    match log
    case Empty => 0
    case Then(before, AnswerLost(_, sender)) => LostCalls(before, c) + if sender == c then 1 else 0
    case Then(before, _) => LostCalls(before, c)
  }

  /** How many subscribe requests for the channel `c` were taken from the client. */
  function AskedToSubscribe(log: Log, c: Sender): nat {
    match log
    case Empty => 0
    case Then(before, Accepted(SubscribeMessage(_, _, _, _, sender), _)) =>
      AskedToSubscribe(before, c) + if sender == c then 1 else 0
    case Then(before, _) => AskedToSubscribe(before, c)
  }

  /** How many of them were granted. */
  function Granted(log: Log, c: Sender): nat {
    match log
    case Empty => 0
    case Then(before, Established(_, sub)) => Granted(before, c) + if sub.sender == c then 1 else 0
    case Then(before, _) => Granted(before, c)
  }

  /** How many of them were refused. */
  function Refused(log: Log, c: Sender): nat {
    match log
    case Empty => 0
    case Then(before, Rejected(sender, _)) => Refused(before, c) + if sender == c then 1 else 0
    case Then(before, _) => Refused(before, c)
  }

  predicate InLog(log: Log, a: Action) { log.Then? && (log.action == a || InLog(log.before, a)) }

  // ---------------------------------------------------------------- subscriptions are filed under their own key

  /**
   A request is built of what its message, or the removed subscription, says, and its number is how
   many ids were drawn before it, modulo 2^64.
   */
  predicate Built(before: Log, a: Action) {
    match a
    case Accepted(NotifyMessage(name, params), request) => request == Notification(Some(V2), name, params)
    case Accepted(m, request) => request == MethodCall(Some(V2), m.name, m.params, Num(Drawn(before) % TWO_TO_THE_64))
    case Removed(key, sub, request) =>
      && sub.id == Some(key.0) && sub.notification == key.1
      && request.MethodCall? && request.jsonrpc == Some(V2) && request.name == sub.unsubscribe
      && request.id == Num(Drawn(before) % TWO_TO_THE_64)
      && request.params.Positional? && |request.params.args| == 1
      && ParseSubscriptionId(request.params.args[0]) == Some(key.0)
    case _ => true
  }

  predicate AllBuilt(log: Log) { log.Then? ==> Built(log.before, log.action) && AllBuilt(log.before) }

  /** The counter, however many ids were drawn. */
  predicate Counting(t: Trace) { t.state.nextId == Drawn(t.log) % TWO_TO_THE_64 }

  predicate Filed(s: State) {
    && (forall key :: key in s.subscriptions ==>
          s.subscriptions[key].id == Some(key.0) && s.subscriptions[key].notification == key.1)
    && !s.status.Panicked?
  }

  predicate Sound(t: Trace) { Filed(t.state) && Counting(t) && AllBuilt(t.log) }

  lemma SoundStep(t: Trace, e: Event)
    requires Sound(t)
    ensures Sound(Step(t, e))
  {
    var s := t.state;
    if s.status.Running? {
      match e
      case Accept(m) => if s.channelOpen { SoundAccept(t, m); }
      case Process(heard) =>
        if s.incoming != [] { SoundProcess(t.(state := s.(incoming := s.incoming[1..])), s.incoming[0], heard); }
      case _ =>
    }
  }

  lemma NextIdCounts(drawn: nat)
    ensures NextId(drawn % TWO_TO_THE_64) == (drawn + 1) % TWO_TO_THE_64
  {
  }

  lemma RequestIsBuilt(log: Log, m: RpcMessage, n: U64)
    requires AllBuilt(log) && n == Drawn(log) % TWO_TO_THE_64
    ensures var after := Then(log, Accepted(m, RequestOf(m, n)));
      AllBuilt(after) && (if m.NotifyMessage? then n else NextId(n)) == Drawn(after) % TWO_TO_THE_64
  {
    NextIdCounts(Drawn(log));
  }

  lemma SoundAccept(t: Trace, m: RpcMessage)
    requires Sound(t)
    ensures Sound(AcceptMessage(t, m))
  {
    var n := t.state.nextId;
    var reused := Then(t.log, ReusedId(Num(n)));
    assert Drawn(reused) == Drawn(t.log) && AllBuilt(reused);
    RequestIsBuilt(if !m.NotifyMessage? && Num(n) in t.state.pending then reused else t.log, m, n);
  }

  lemma SoundProcess(t: Trace, entry: Incoming, heard: bool)
    requires Sound(t)
    ensures Sound(ProcessEntry(t, entry, heard))
  {
    if entry.id !in t.state.pending && KeyOf(entry).Some? {
      SoundDeliver(t, KeyOf(entry).value, entry.result, heard);
    }
  }

  lemma SoundDeliver(t: Trace, key: Key, result: RpcResult, heard: bool)
    requires Sound(t)
    ensures Sound(Deliver(t, key, result, heard))
  {
    if key in t.state.subscriptions {
      var sub := t.state.subscriptions[key];
      var offered := Then(t.log, Offered(key, sub.sender, result));
      assert Drawn(offered) == Drawn(t.log) && AllBuilt(offered);
      if !heard { RemovalIsBuilt(offered, key, sub, t.state.nextId); }
    }
  }

  lemma RemovalIsBuilt(log: Log, key: Key, sub: Subscription, n: U64)
    requires AllBuilt(log) && n == Drawn(log) % TWO_TO_THE_64
    requires sub.id == Some(key.0) && sub.notification == key.1
    ensures var after := Then(log, Removed(key, sub, UnsubscribeRequest(sub.unsubscribe, key.0, n)));
      AllBuilt(after) && NextId(n) == Drawn(after) % TWO_TO_THE_64
  {
    NextIdCounts(Drawn(log));
  }

  // ---------------------------------------------------------------- the outgoing queue

  predicate Fifo(t: Trace) { !t.state.status.Failed? ==> Queued(t.log) == Sent(t.log) + t.state.outgoing }

  lemma FifoStep(t: Trace, e: Event)
    requires Sound(t) && Fifo(t)
    ensures Fifo(Step(t, e))
  {
    var s := t.state;
    if s.status.Running? {
      match e
      case Accept(m) => FifoAccept(t, m);
      case Process(heard) =>
        if s.incoming != [] { FifoProcess(t.(state := s.(incoming := s.incoming[1..])), s.incoming[0], heard); }
      case SinkReady(taken) => if s.outgoing != [] { FifoWrite(t, taken); }
      case _ =>
    }
  }

  lemma FifoProcess(t: Trace, entry: Incoming, heard: bool)
    requires Fifo(t) && t.state.status.Running?
    ensures Fifo(ProcessEntry(t, entry, heard))
  {
    if entry.id !in t.state.pending && KeyOf(entry).Some? {
      FifoDeliver(t, KeyOf(entry).value, entry.result, heard);
    }
  }

  lemma FifoAccept(t: Trace, m: RpcMessage)
    requires Fifo(t) && t.state.status.Running?
    ensures Fifo(AcceptMessage(t, m))
  {
    var request, reused := RequestOf(m, t.state.nextId), Then(t.log, ReusedId(Num(t.state.nextId)));
    assert Sent(reused) == Sent(t.log) && Queued(reused) == Queued(t.log);
    assert Sent(t.log) + t.state.outgoing + [request] == Sent(t.log) + (t.state.outgoing + [request]);
  }

  lemma FifoWrite(t: Trace, taken: bool)
    requires Fifo(t) && t.state.status.Running? && t.state.outgoing != []
    ensures Fifo(WriteNext(t, taken))
  {
    var out := t.state.outgoing;
    assert Sent(t.log) + out == Sent(t.log) + [out[0]] + out[1..];
  }

  lemma FifoDeliver(t: Trace, key: Key, result: RpcResult, heard: bool)
    requires Fifo(t) && t.state.status.Running?
    ensures Fifo(Deliver(t, key, result, heard))
  {
    if key in t.state.subscriptions {
      var offered := Then(t.log, Offered(key, t.state.subscriptions[key].sender, result));
      assert Queued(offered) == Queued(t.log) && Sent(offered) == Sent(t.log);
    }
    var u := Deliver(t, key, result, heard);
    if |u.state.outgoing| > |t.state.outgoing| {
      var request := u.state.outgoing[|t.state.outgoing|];
      assert Sent(t.log) + t.state.outgoing + [request] == Sent(t.log) + (t.state.outgoing + [request]);
    }
  }

  // ---------------------------------------------------------------- request ids

  /** While no more than 2^64 ids are drawn, they are 0, 1, 2 and so on, and none is used twice. */
  predicate Numbered(t: Trace) {
    Drawn(t.log) <= TWO_TO_THE_64 ==>
      && (forall id :: id in t.state.pending ==> id.Num? && id.n < Drawn(t.log))
      && NoReuse(t.log)
  }

  predicate NoReuse(log: Log) { log.Then? ==> !log.action.ReusedId? && NoReuse(log.before) }

  lemma NumberedStep(t: Trace, e: Event)
    requires Sound(t) && Numbered(t)
    ensures Numbered(Step(t, e))
    ensures Drawn(t.log) <= Drawn(Step(t, e).log)
  {
    var s := t.state;
    if s.status.Running? {
      match e
      case Accept(m) => if s.channelOpen { NumberedAccept(t, m); }
      case Process(heard) =>
        if s.incoming != [] { NumberedProcess(t.(state := s.(incoming := s.incoming[1..])), s.incoming[0], heard); }
      case _ =>
    }
  }

  lemma NumberedAccept(t: Trace, m: RpcMessage)
    requires Counting(t) && Numbered(t)
    ensures Numbered(AcceptMessage(t, m)) && Drawn(t.log) <= Drawn(AcceptMessage(t, m).log)
  {
    assert Drawn(Then(t.log, ReusedId(Num(t.state.nextId)))) == Drawn(t.log);
    if Drawn(t.log) < TWO_TO_THE_64 {
      assert Num(t.state.nextId) !in t.state.pending;
    }
  }

  lemma NumberedProcess(t: Trace, entry: Incoming, heard: bool)
    requires Numbered(t)
    ensures Numbered(ProcessEntry(t, entry, heard)) && Drawn(t.log) <= Drawn(ProcessEntry(t, entry, heard).log)
  {
    if entry.id !in t.state.pending && KeyOf(entry).Some? {
      NumberedDeliver(t, KeyOf(entry).value, entry.result, heard);
    }
  }

  lemma NumberedDeliver(t: Trace, key: Key, result: RpcResult, heard: bool)
    requires Numbered(t)
    ensures Numbered(Deliver(t, key, result, heard)) && Drawn(t.log) <= Drawn(Deliver(t, key, result, heard).log)
  {
    if key in t.state.subscriptions {
      var offered := Then(t.log, Offered(key, t.state.subscriptions[key].sender, result));
      assert Drawn(offered) == Drawn(t.log) && NoReuse(offered) == NoReuse(t.log);
    }
  }

  // ---------------------------------------------------------------- calls

  /** The requests of oneshot `c` that wait for an answer. */
  function Waiting(pending: map<Id, Pending>, c: Sender): set<Id> {
    set id | id in pending && pending[id] == PendingCall(c)
  }

  lemma WaitingAdded(pending: map<Id, Pending>, id: Id, p: Pending, c: Sender)
    requires id !in pending
    ensures |Waiting(pending[id := p], c)| == |Waiting(pending, c)| + if p == PendingCall(c) then 1 else 0
  {
    assert Waiting(pending[id := p], c) == Waiting(pending, c) + if p == PendingCall(c) then {id} else {};
  }

  lemma WaitingRemoved(pending: map<Id, Pending>, id: Id, c: Sender)
    requires id in pending
    ensures |Waiting(pending - {id}, c)| == |Waiting(pending, c)| - if pending[id] == PendingCall(c) then 1 else 0
  {
    assert Waiting(pending - {id}, c) == Waiting(pending, c) - if pending[id] == PendingCall(c) then {id} else {};
  }

  predicate Accounted(t: Trace, c: Sender) {
    Drawn(t.log) <= TWO_TO_THE_64 ==>
      && AcceptedCalls(t.log, c) == AnsweredCalls(t.log, c) + LostCalls(t.log, c) + |Waiting(t.state.pending, c)|
      && (!t.state.status.Failed? ==> LostCalls(t.log, c) == 0)
  }

  lemma AccountedStep(t: Trace, e: Event, c: Sender)
    requires Sound(t) && Numbered(t) && Accounted(t, c)
    ensures Accounted(Step(t, e), c)
  {
    NumberedStep(t, e);
    var s := t.state;
    if s.status.Running? && Drawn(Step(t, e).log) <= TWO_TO_THE_64 {
      match e
      case Accept(m) => if s.channelOpen { AccountedAccept(t, m, c); }
      case Process(heard) =>
        if s.incoming != [] { AccountedProcess(t.(state := s.(incoming := s.incoming[1..])), s.incoming[0], heard, c); }
      case _ =>
    }
  }

  lemma AccountedAccept(t: Trace, m: RpcMessage, c: Sender)
    requires Counting(t) && Numbered(t) && Accounted(t, c)
    requires Drawn(AcceptMessage(t, m).log) <= TWO_TO_THE_64
    ensures Accounted(AcceptMessage(t, m), c)
  {
    var id, pending := Num(t.state.nextId), t.state.pending;
    assert Drawn(Then(t.log, ReusedId(id))) == Drawn(t.log);
    if !m.NotifyMessage? {
      WaitingAdded(pending, id, PendingOf(m), c);
    }
  }

  lemma AccountedProcess(t: Trace, entry: Incoming, heard: bool, c: Sender)
    requires Accounted(t, c) && Drawn(t.log) <= TWO_TO_THE_64 && t.state.status.Running?
    ensures Accounted(ProcessEntry(t, entry, heard), c)
  {
    var id, pending := entry.id, t.state.pending;
    if id in pending {
      WaitingRemoved(pending, id, c);
    } else if KeyOf(entry).Some? {
      AccountedDeliver(t, KeyOf(entry).value, entry.result, heard, c);
    }
  }

  lemma AccountedDeliver(t: Trace, key: Key, result: RpcResult, heard: bool, c: Sender)
    requires Accounted(t, c) && Drawn(t.log) <= TWO_TO_THE_64 && t.state.status.Running?
    ensures Accounted(Deliver(t, key, result, heard), c)
  {
    if key in t.state.subscriptions {
      var offered := Then(t.log, Offered(key, t.state.subscriptions[key].sender, result));
      assert AcceptedCalls(offered, c) == AcceptedCalls(t.log, c) && Drawn(offered) == Drawn(t.log);
      assert AnsweredCalls(offered, c) == AnsweredCalls(t.log, c) && LostCalls(offered, c) == LostCalls(t.log, c);
    }
  }

  // ---------------------------------------------------------------- subscribe requests

  /** The subscribe requests for channel `c` that wait for a reply. */
  function Unsettled(pending: map<Id, Pending>, c: Sender): set<Id> {
    set id | id in pending && pending[id].PendingSubscription? && pending[id].subscription.sender == c
  }

  predicate IsFor(p: Pending, c: Sender) { p.PendingSubscription? && p.subscription.sender == c }

  lemma UnsettledAdded(pending: map<Id, Pending>, id: Id, p: Pending, c: Sender)
    requires id !in pending
    ensures |Unsettled(pending[id := p], c)| == |Unsettled(pending, c)| + if IsFor(p, c) then 1 else 0
  {
    assert Unsettled(pending[id := p], c) == Unsettled(pending, c) + if IsFor(p, c) then {id} else {};
  }

  lemma UnsettledRemoved(pending: map<Id, Pending>, id: Id, c: Sender)
    requires id in pending
    ensures |Unsettled(pending - {id}, c)| == |Unsettled(pending, c)| - if IsFor(pending[id], c) then 1 else 0
  {
    assert Unsettled(pending - {id}, c) == Unsettled(pending, c) - if IsFor(pending[id], c) then {id} else {};
  }

  predicate Settled(t: Trace, c: Sender) {
    Drawn(t.log) <= TWO_TO_THE_64 ==>
      AskedToSubscribe(t.log, c) == Granted(t.log, c) + Refused(t.log, c) + |Unsettled(t.state.pending, c)|
  }

  lemma SettledStep(t: Trace, e: Event, c: Sender)
    requires Sound(t) && Numbered(t) && Settled(t, c)
    ensures Settled(Step(t, e), c)
  {
    NumberedStep(t, e);
    var s := t.state;
    if s.status.Running? && Drawn(Step(t, e).log) <= TWO_TO_THE_64 {
      match e
      case Accept(m) => if s.channelOpen { SettledAccept(t, m, c); }
      case Process(heard) =>
        if s.incoming != [] { SettledProcess(t.(state := s.(incoming := s.incoming[1..])), s.incoming[0], heard, c); }
      case _ =>
    }
  }

  lemma SettledAccept(t: Trace, m: RpcMessage, c: Sender)
    requires Counting(t) && Numbered(t) && Settled(t, c)
    requires Drawn(AcceptMessage(t, m).log) <= TWO_TO_THE_64
    ensures Settled(AcceptMessage(t, m), c)
  {
    var id, pending := Num(t.state.nextId), t.state.pending;
    assert Drawn(Then(t.log, ReusedId(id))) == Drawn(t.log);
    if !m.NotifyMessage? {
      UnsettledAdded(pending, id, PendingOf(m), c);
    }
  }

  lemma SettledProcess(t: Trace, entry: Incoming, heard: bool, c: Sender)
    requires Settled(t, c) && Drawn(t.log) <= TWO_TO_THE_64
    ensures Settled(ProcessEntry(t, entry, heard), c)
  {
    var id, pending := entry.id, t.state.pending;
    if id in pending {
      UnsettledRemoved(pending, id, c);
    } else if KeyOf(entry).Some? {
      SettledDeliver(t, KeyOf(entry).value, entry.result, heard, c);
    }
  }

  lemma SettledDeliver(t: Trace, key: Key, result: RpcResult, heard: bool, c: Sender)
    requires Settled(t, c) && Drawn(t.log) <= TWO_TO_THE_64
    ensures Settled(Deliver(t, key, result, heard), c)
  {
    if key in t.state.subscriptions {
      var offered := Then(t.log, Offered(key, t.state.subscriptions[key].sender, result));
      assert AskedToSubscribe(offered, c) == AskedToSubscribe(t.log, c) && Drawn(offered) == Drawn(t.log);
      assert Granted(offered, c) == Granted(t.log, c) && Refused(offered, c) == Refused(t.log, c);
    }
  }

  // ---------------------------------------------------------------- every run

  /** The final test was passed with nothing left to do. */
  predicate Closed(s: State) { s.status.Completed? ==> Finished(s) }

  lemma {:induction false} Reachable(events: seq<Event>, c: Sender)
    ensures var t := Run(START, events);
      && Sound(t) && Fifo(t) && Numbered(t)
      && Accounted(t, c) && Settled(t, c) && Closed(t.state)
  {
    if events != [] {
      var t, e := Run(START, events[..|events| - 1]), events[|events| - 1];
      Reachable(events[..|events| - 1], c);
      SoundStep(t, e);
      FifoStep(t, e);
      NumberedStep(t, e);
      AccountedStep(t, e, c);
      SettledStep(t, e, c);
      ClosedStep(t, e);
    }
  }

  lemma ClosedStep(t: Trace, e: Event)
    requires Closed(t.state)
    ensures Closed(Step(t, e).state)
  {
  }

  /**
   Both `expect`s hold in every run, each subscription stays under its own id and name, and while
   no more than 2^64 ids are drawn no pending request is overwritten.
   */
  lemma RunsAreSafe(events: seq<Event>)
    ensures var t := Run(START, events);
      && !t.state.status.Panicked?
      && (forall key :: key in t.state.subscriptions ==>
            t.state.subscriptions[key].id == Some(key.0) && t.state.subscriptions[key].notification == key.1)
      && (Drawn(t.log) <= TWO_TO_THE_64 ==> NoReuse(t.log))
  {
    Reachable(events, 0);
  }

  /** A notification never takes a pending request for its own. */
  lemma NoticeLeavesPending(events: seq<Event>, text: ServerText, readError: ErrorReader, heard: bool)
    requires text.Notice? && Drawn(Run(START, events).log) <= TWO_TO_THE_64
    ensures var t := Run(START, events);
      ProcessEntry(t, ParseResponse(text, readError).value, heard).state.pending == t.state.pending
  {
    Reachable(events, 0);
  }

  /**
   Every call taken from the client is answered once, or found its caller gone, or is still
   pending; so a oneshot that came with one call receives at most one result.
   */
  lemma CallsAreConserved(events: seq<Event>, c: Sender)
    requires Drawn(Run(START, events).log) <= TWO_TO_THE_64
    ensures var t := Run(START, events);
      && AcceptedCalls(t.log, c) == AnsweredCalls(t.log, c) + LostCalls(t.log, c) + |Waiting(t.state.pending, c)|
      && (LostCalls(t.log, c) > 0 ==> t.state.status.Failed?)
      && AnsweredCalls(t.log, c) <= AcceptedCalls(t.log, c)
  {
    Reachable(events, c);
  }

  /** Every subscribe request taken from the client was granted, was refused, or is still pending. */
  lemma SubscribesAreConserved(events: seq<Event>, c: Sender)
    requires Drawn(Run(START, events).log) <= TWO_TO_THE_64
    ensures var t := Run(START, events);
      AskedToSubscribe(t.log, c) == Granted(t.log, c) + Refused(t.log, c) + |Unsettled(t.state.pending, c)|
  {
    Reachable(events, c);
  }

  /** Requests reach the sink in the order they were built, and nothing else does. */
  lemma RequestsAreConserved(events: seq<Event>)
    requires !Run(START, events).state.status.Failed?
    ensures var t := Run(START, events); Queued(t.log) == Sent(t.log) + t.state.outgoing
    ensures AllBuilt(Run(START, events).log)
  {
    Reachable(events, 0);
  }

  /** A future that completes on its own has answered every call and sent every request. */
  lemma CompletionIsClean(events: seq<Event>, c: Sender)
    requires Run(START, events).state.status.Completed? && Drawn(Run(START, events).log) <= TWO_TO_THE_64
    ensures var log := Run(START, events).log;
      && AnsweredCalls(log, c) == AcceptedCalls(log, c) && Granted(log, c) + Refused(log, c) == AskedToSubscribe(log, c)
      && Sent(log) == Queued(log)
  {
    Reachable(events, c);
    var t := Run(START, events);
    assert Waiting(map[], c) == {} && Unsettled(map[], c) == {};
    assert Sent(t.log) + [] == Sent(t.log);
  }

  // ---------------------------------------------------------------- when an id is reused

  /** A call or subscription is taken while the request whose turn the counter has come to again still waits. */
  predicate Clashes(t: Trace, e: Event) {
    && t.state.status.Running? && t.state.channelOpen && e.Accept? && !e.message.NotifyMessage?
    && Num(Drawn(t.log) % TWO_TO_THE_64) in t.state.pending
  }

  lemma CountingStep(t: Trace, e: Event)
    requires Counting(t)
    ensures Counting(Step(t, e)) && (NoReuse(Step(t, e).log) <==> NoReuse(t.log) && !Clashes(t, e))
  {
    var s := t.state;
    if s.status.Running? {
      match e
      case Accept(m) =>
        assert Drawn(Then(t.log, ReusedId(Num(s.nextId)))) == Drawn(t.log);
        assert !NoReuse(Then(t.log, ReusedId(Num(s.nextId))));
      case Process(heard) =>
        if s.incoming != [] { CountingProcess(t.(state := s.(incoming := s.incoming[1..])), s.incoming[0], heard); }
      case _ =>
    }
  }

  lemma CountingProcess(t: Trace, entry: Incoming, heard: bool)
    requires Counting(t)
    ensures Counting(ProcessEntry(t, entry, heard))
    ensures NoReuse(ProcessEntry(t, entry, heard).log) == NoReuse(t.log)
  {
    if entry.id !in t.state.pending && KeyOf(entry).Some? && KeyOf(entry).value in t.state.subscriptions {
      var key := KeyOf(entry).value;
      var offered := Then(t.log, Offered(key, t.state.subscriptions[key].sender, entry.result));
      assert Drawn(offered) == Drawn(t.log) && NoReuse(offered) == NoReuse(t.log);
    }
  }

  function Unclashing(): (seq<Event>, Event) -> bool { (before, e) => !Clashes(Run(START, before), e) }

  /**
   In every run of any length, the counter is the number of ids drawn modulo 2^64, and no pending
   request is overwritten if and only if none is still waiting when the counter comes to its id again.
   */
  lemma {:induction false} ReuseIff(events: seq<Event>)
    ensures Run(START, events).state.nextId == Drawn(Run(START, events).log) % TWO_TO_THE_64
    ensures NoReuse(Run(START, events).log) <==> AtEvery(Unclashing(), events)
  {
    if events != [] {
      var n := |events| - 1;
      ReuseIff(events[..n]);
      AtEveryNext(Unclashing(), events, n);
      CountingStep(Run(START, events[..n]), events[n]);
    }
  }

  // ---------------------------------------------------------------- the bound on ids is tight

  const HELLO := CallMessage("", NoParams, 0)

  function Unanswered(n: nat): seq<Event> { seq(n, i => Accept(HELLO)) }

  /** After `n` calls and no answer. */
  ghost predicate Piled(t: Trace, n: nat) {
    && t.state.status.Running? && t.state.channelOpen && t.state.nextId == n % TWO_TO_THE_64 && Drawn(t.log) == n
    && forall k: U64 :: k < n ==> Num(k) in t.state.pending
  }

  lemma PileUp(t: Trace, n: nat)
    requires Piled(t, n)
    ensures n < TWO_TO_THE_64 ==> Piled(Step(t, Accept(HELLO)), n + 1)
    ensures n == TWO_TO_THE_64 ==> !NoReuse(Step(t, Accept(HELLO)).log) && Drawn(Step(t, Accept(HELLO)).log) == n + 1
  {
    var reused := Then(t.log, ReusedId(Num(t.state.nextId)));
    assert Drawn(reused) == Drawn(t.log) && !NoReuse(reused);
    if n == TWO_TO_THE_64 {
      assert t.state.nextId == 0 && Num(0) in t.state.pending;
    }
  }

  lemma {:induction false} CallsPileUp(n: nat)
    requires n <= TWO_TO_THE_64
    ensures Piled(Run(START, Unanswered(n)), n)
  {
    if n > 0 {
      CallsPileUp(n - 1);
      assert Unanswered(n)[..n - 1] == Unanswered(n - 1);
      PileUp(Run(START, Unanswered(n - 1)), n - 1);
    }
  }

  /** One id more than 2^64 and the first call, still unanswered, loses its place. */
  lemma OneMoreIdIsReused()
    ensures var t := Run(START, Unanswered(TWO_TO_THE_64 + 1));
      Drawn(t.log) == TWO_TO_THE_64 + 1 && !NoReuse(t.log)
  {
    CallsPileUp(TWO_TO_THE_64);
    assert Unanswered(TWO_TO_THE_64 + 1)[..TWO_TO_THE_64] == Unanswered(TWO_TO_THE_64);
    PileUp(Run(START, Unanswered(TWO_TO_THE_64)), TWO_TO_THE_64);
  }
}

/** The duplex future as it is polled: fields updated in place, loops until something is pending. */
module DuplexTransport {
  import opened Basics
  import opened JsonRpc
  import opened ClientMessages
  import opened Duplex

  class Transport {
    var nextId: U64
    var channelOpen: bool
    var pending: map<Id, Pending>
    var subscriptions: map<Key, Subscription>
    var incoming: seq<Incoming>
    var outgoing: seq<Call>
    /** What `poll` has returned so far: `Running` stands for `Pending`. */
    var status: Status
    ghost var log: Log

    ghost function Now(): Trace
      reads this
    {
      Trace(State(nextId, channelOpen, pending, subscriptions, incoming, outgoing, status), log)
    }

    constructor ()
      ensures Now() == START
    {
      nextId, channelOpen, pending, subscriptions := 0, true, map[], map[];
      incoming, outgoing, status, log := [], [], Running, Empty;
    }

    /** `RequestBuilder::single_request`: draws the next id. */
    method SingleRequest(name: string, params: Params) returns (id: Id, request: Call)
      modifies this`nextId
      ensures id == Num(old(nextId)) && nextId == NextId(old(nextId))
      ensures request == CallRequest(name, params, old(nextId))
    {
      id := Num(nextId);
      request := MethodCall(Some(V2), name, params, id);
      nextId := (nextId + 1) % TWO_TO_THE_64;
    }

    method TakeMessage(m: RpcMessage)
      requires status.Running? && channelOpen
      modifies this
      ensures Now() == Step(old(Now()), Accept(m))
    {
      var request: Call;
      match m {
        case CallMessage(name, params, sender) =>
          var id;
          id, request := SingleRequest(name, params);
          if id in pending { log := Then(log, ReusedId(id)); }
          pending := pending[id := PendingCall(sender)];
        case SubscribeMessage(name, params, notification, unsubscribe, sender) =>
          var id;
          id, request := SingleRequest(name, params);
          if id in pending { log := Then(log, ReusedId(id)); }
          pending := pending[id := PendingSubscription(Subscription(None, notification, unsubscribe, sender))];
        case NotifyMessage(name, params) =>
          request := Notification(Some(V2), name, params);
      }
      outgoing := outgoing + [request];
      log := Then(log, Accepted(m, request));
    }

    method HandleClient(input: PollInput)
      requires status.Running?
      modifies this
      ensures Now() == AfterAccept(old(Now()), input) && status.Running?
    {
      ghost var events := Accepts(input.messages);
      var i := 0;
      while channelOpen && i < |input.messages|
        invariant 0 <= i <= |input.messages| && status.Running?
        invariant Now() == Run(old(Now()), events[..i])
      {
        TakeMessage(input.messages[i]);
        RunNext(old(Now()), events, i);
        i := i + 1;
      }
      assert i == |events| ==> events[..i] == events;
      if !channelOpen { ClosedIgnores(old(Now()), events, i); }
      EndOfChannel(old(Now()), input);
      if channelOpen && input.channelEnds {
        channelOpen := false;
      }
    }

    method HandleText(text: ServerText, readError: ErrorReader)
      requires status.Running?
      modifies this
      ensures Now() == Step(old(Now()), Receive(ParseResponse(text, readError)))
    {
      match ParseResponse(text, readError) {
        case Ok(entry) => incoming := incoming + [entry];
        case Err(error) => status := Failed(error);
      }
    }

    method HandleStream(input: PollInput, readError: ErrorReader)
      requires status.Running?
      modifies this
      ensures Now() == Run(old(Now()), ReceivePhase(input, readError))
    {
      ghost var events := Receives(input.texts, readError);
      ghost var phase := ReceivePhase(input, readError);
      for i := 0 to |input.texts|
        invariant status.Running?
        invariant Now() == Run(old(Now()), phase[..i])
      {
        HandleText(input.texts[i], readError);
        RunNext(old(Now()), phase, i);
        if !status.Running? {
          RunEndsAt(old(Now()), phase, i + 1);
          return;
        }
      }
      if input.streamEnds {
        RunNext(old(Now()), phase, |input.texts|);
        assert phase[..|input.texts| + 1] == phase;
        status := Disconnected;
      } else {
        assert phase[..|input.texts|] == phase;
      }
    }

    method HandleEntry(heard: bool)
      requires status.Running? && incoming != []
      modifies this
      ensures Now() == Step(old(Now()), Process(heard))
      ensures |incoming| == |old(incoming)| - 1
    {
      var entry := incoming[0];
      incoming := incoming[1..];
      var sidAndName := KeyOf(entry);
      if entry.id in pending {
        var request := pending[entry.id];
        pending := pending - {entry.id};
        match request {
          case PendingCall(sender) =>
            if heard {
              log := Then(log, Answered(entry.id, sender, entry.result));
            } else {
              log := Then(log, AnswerLost(entry.id, sender));
              status := Failed(ClientError("oneshot channel closed"));
            }
          case PendingSubscription(subscription) =>
            var sid := SidOf(entry.result);
            if sid.Some? {
              var key := (sid.value, subscription.notification);
              subscriptions := subscriptions[key := subscription.(id := sid)];
              log := Then(log, Established(key, subscription.(id := sid)));
            } else {
              log := Then(log, Rejected(subscription.sender, entry.result));
            }
        }
      } else if sidAndName.Some? {
        Offer(sidAndName.value, entry.result, heard);
      }
    }

    method Offer(key: Key, result: RpcResult, heard: bool)
      requires status.Running?
      modifies this
      ensures Now() == Deliver(old(Now()), key, result, heard)
    {
      if key in subscriptions {
        var subscription := subscriptions[key];
        log := Then(log, Offered(key, subscription.sender, result));
        if !heard {
          subscriptions := subscriptions - {key};
          if subscription.id.None? {
            status := Panicked;
          } else {
            var params := Positional([SubscriptionIdValue(subscription.id.value)]);
            var id, request := SingleRequest(subscription.unsubscribe, params);
            outgoing := outgoing + [request];
            log := Then(log, Removed(key, subscription, request));
          }
        }
      }
    }

    method HandleIncoming(input: PollInput)
      modifies this
      ensures Now() == Run(old(Now()), Processes(input, |old(incoming)|))
    {
      ghost var events := Processes(input, |incoming|);
      if !status.Running? {
        RunStopped(Now(), events);
        return;
      }
      var n := |incoming|;
      for k := 0 to n
        invariant |incoming| == n - k && status.Running?
        invariant Now() == Run(old(Now()), events[..k])
      {
        HandleEntry(Heard(input, k));
        RunNext(old(Now()), events, k);
        if !status.Running? {
          RunEndsAt(old(Now()), events, k + 1);
          return;
        }
      }
      assert events[..n] == events;
    }

    method SendNext(taken: bool)
      requires status.Running? && outgoing != []
      modifies this
      ensures Now() == Step(old(Now()), SinkReady(taken))
      ensures outgoing == old(outgoing)[1..] && status.Running? == taken
    {
      var request := outgoing[0];
      outgoing := outgoing[1..];
      if taken {
        log := Then(log, Written(request));
      } else {
        status := Failed(ClientError("closing"));
      }
    }

    method HandleOutgoing(input: PollInput)
      modifies this
      ensures Now() == Run(old(Now()), Writes(input.sink, |old(outgoing)|))
    {
      var i := 0;
      while status.Running? && i < |input.sink|
        invariant 0 <= i <= |input.sink|
        invariant Run(old(Now()), Writes(input.sink, |old(outgoing)|))
               == Run(Now(), Writes(input.sink[i..], |outgoing|))
      {
        ghost var rest := Writes(input.sink[i + 1..], |outgoing| - if outgoing == [] then 0 else 1);
        assert input.sink[i..][1..] == input.sink[i + 1..];
        if input.sink[i].Broken? {
          RunFirst(Now(), SinkFailed, []);
          status := Failed(ClientError("closing"));
          return;
        }
        if outgoing == [] {
          return;
        }
        RunFirst(Now(), SinkReady(input.sink[i].taken), rest);
        SendNext(input.sink[i].taken);
        i := i + 1;
      }
      RunStoppedOrDone(Now(), Writes(input.sink[i..], |outgoing|));
    }

    method FinalTest(flushed: bool)
      modifies this
      ensures Now() == Step(old(Now()), Flush(flushed))
    {
      if status.Running? && !channelOpen && outgoing == [] && incoming == []
         && pending == map[] && subscriptions == map[] && flushed {
        status := Completed;
      }
    }

    method PollOnce(input: PollInput, readError: ErrorReader) returns (r: Status)
      requires status.Running?
      modifies this
      ensures Now() == Poll(old(Now()), input, readError)
      ensures r == status
    {
      HandleClient(input);
      HandleStream(input, readError);
      HandleIncoming(input);
      HandleOutgoing(input);
      FinalTest(input.flushed);
      r := status;
    }
  }

  lemma RunStoppedOrDone(t: Trace, events: seq<Event>)
    requires !t.state.status.Running? || events == []
    ensures Run(t, events) == t
  {
    if events != [] { RunStopped(t, events); }
  }

  /** A closed channel is not asked again. */
  lemma {:induction false} ClosedIgnores(t: Trace, events: seq<Event>, k: nat)
    requires k <= |events| && !Run(t, events[..k]).state.channelOpen
    requires forall i :: 0 <= i < |events| ==> events[i].Accept?
    ensures Run(t, events) == Run(t, events[..k])
    decreases |events| - k
  {
    if k == |events| {
      assert events[..k] == events;
    } else {
      RunNext(t, events, k);
      ClosedIgnores(t, events, k + 1);
    }
  }

  lemma EndOfChannel(t: Trace, input: PollInput)
    ensures var u := Run(t, Accepts(input.messages));
      AfterAccept(t, input) == if input.channelEnds then Step(u, ChannelClosed) else u
  {
    var events, phase := Accepts(input.messages), AcceptPhase(input);
    if input.channelEnds {
      assert phase[..|phase| - 1] == events;
    } else {
      assert phase == events;
    }
  }
}

/** A TCP peer's outgoing stream: the responses of its service, and messages pushed to it from outside. */
module PeerQueue {
  import opened Basics
  import opened SelectWithWeak

  /** An item of the upstream: a response, or the error of reading the next request. */
  type Outgoing = Result<string, string>

  datatype Event =
    | Push(msg: string)
    | Poll(up: Answer<Outgoing>)

  /** Everything that happened: pushes with their success, polls with the upstream's answer and the result. */
  datatype Log =
    | Start
    | Pushed(before: Log, msg: string, accepted: bool)
    | Polled(before: Log, up: Answer<Outgoing>, result: Answer<Outgoing>)

  /** The messages waiting for the peer, and whether the receiver still exists. */
  datatype State = State(queue: seq<string>, open: bool, log: Log)

  function Step(s: State, e: Event): State {
    match e
    case Push(msg) =>
      if s.open then State(s.queue + [msg], true, Pushed(s.log, msg, true)) else s.(log := Pushed(s.log, msg, false))
    case Poll(up) =>
      if up.Item? then s.(log := Polled(s.log, up, up))
      else if !s.open then s.(log := Polled(s.log, up, Ended))
      else if s.queue != [] then State(s.queue[1..], true, Polled(s.log, up, Item(Ok(s.queue[0]))))
      else if up.Ended? then State([], false, Polled(s.log, up, Ended))
      else s.(log := Polled(s.log, up, Pending))
  }

  function Run(events: seq<Event>): State {
    if events == [] then State([], true, Start)
    else Step(Run(events[..|events| - 1]), events[|events| - 1])
  }

  predicate UpEnded(log: Log) {
    match log
    case Start => false
    case Pushed(before, _, _) => UpEnded(before)
    case Polled(before, up, _) => up.Ended? || UpEnded(before)
  }

  /** The upstream is fused: once it has ended it says so for ever. */
  predicate Fused(events: seq<Event>) {
    forall i, j :: 0 <= i < j < |events| && events[i].Poll? && events[j].Poll? && events[i].up.Ended? ==>
      events[j].up.Ended?
  }

  function Accepted(log: Log): seq<string> {
    match log
    case Start => []
    case Pushed(before, msg, accepted) => Accepted(before) + if accepted then [msg] else []
    case Polled(before, _, _) => Accepted(before)
  }

  /** The pushed messages handed on: an item while the upstream had none. */
  function Delivered(log: Log): seq<Outgoing> {
    match log
    case Start => []
    case Pushed(before, _, _) => Delivered(before)
    case Polled(before, up, result) =>
      Delivered(before) + if !up.Item? && result.Item? then [result.value] else []
  }

  function Messages(queue: seq<string>): seq<Outgoing> { seq(|queue|, i requires 0 <= i < |queue| => Ok(queue[i])) }

  /** A poll that ended the stream. */
  predicate HasEnded(log: Log) {
    match log
    case Start => false
    case Pushed(before, _, _) => HasEnded(before)
    case Polled(before, _, result) => result.Ended? || HasEnded(before)
  }

  /** In every log: the upstream comes first and unaltered, and no message is accepted after the end. */
  predicate Proper(log: Log) {
    match log
    case Start => true
    case Pushed(before, _, accepted) => Proper(before) && accepted == !HasEnded(before)
    case Polled(before, up, result) =>
      && Proper(before)
      && (up.Item? ==> result == up)
      && (result.Ended? ==> up.Ended? && Delivered(before) == Messages(Accepted(before)))
      && (result.Pending? ==> up.Pending? && Delivered(before) == Messages(Accepted(before)))
  }

  /** What holds after every run, whatever the upstream does. */
  ghost predicate Kept(s: State) {
    && (s.open == !HasEnded(s.log))
    && (!s.open ==> s.queue == [] && UpEnded(s.log))
    && Messages(Accepted(s.log)) == Delivered(s.log) + Messages(s.queue)
  }

  ghost predicate Sound(s: State) { Kept(s) && Proper(s.log) }

  lemma MessagesConcat(a: seq<string>, b: seq<string>)
    ensures Messages(a + b) == Messages(a) + Messages(b)
  {
  }

  /** The upstream is pending at a poll after the stream has told its end. */
  predicate WakesLate(s: State, e: Event) { e == Poll(Pending) && !s.open }

  lemma StepKeeps(s: State, e: Event)
    requires Kept(s)
    ensures Kept(Step(s, e))
  {
    if e.Push? {
      MessagesConcat(Accepted(s.log), [e.msg]);
      MessagesConcat(s.queue, [e.msg]);
    } else if s.queue != [] {
      assert s.queue == [s.queue[0]] + s.queue[1..];
      MessagesConcat([s.queue[0]], s.queue[1..]);
    }
  }

  lemma StepIsProper(s: State, e: Event)
    requires Kept(s)
    ensures Proper(Step(s, e).log) <==> Proper(s.log) && !WakesLate(s, e)
  {
  }

  lemma {:induction false} RunsKeep(events: seq<Event>)
    ensures Kept(Run(events))
  {
    if events != [] {
      RunsKeep(events[..|events| - 1]);
      StepKeeps(Run(events[..|events| - 1]), events[|events| - 1]);
    }
  }

  /** Once the stream has told its end, the upstream is not pending. */
  function StaysEnded(): (seq<Event>, Event) -> bool { (before, e) => !WakesLate(Run(before), e) }

  /**
   The stream ends only where the upstream is closed and no message waits, delivers or keeps every
   accepted message in order and accepts none after its end, if and only if the upstream is never
   pending once the stream has told its end.
   */
  lemma {:induction false} RunsAreSound(events: seq<Event>)
    ensures Sound(Run(events)) <==> AtEvery(StaysEnded(), events)
  {
    RunsKeep(events);
    if events != [] {
      var before, last := events[..|events| - 1], events[|events| - 1];
      RunsAreSound(before);
      RunsKeep(before);
      AtEveryNext(StaysEnded(), events, |before|);
      StepIsProper(Run(before), last);
    }
  }

  lemma {:induction false} EndedUpstream(events: seq<Event>)
    requires UpEnded(Run(events).log)
    ensures exists i :: 0 <= i < |events| && events[i].Poll? && events[i].up.Ended?
  {
    var last := |events| - 1;
    if !(events[last].Poll? && events[last].up.Ended?) {
      EndedUpstream(events[..last]);
      var i :| 0 <= i < last && events[..last][i].Poll? && events[..last][i].up.Ended?;
      assert events[i].Poll? && events[i].up.Ended?;
    }
  }

  /** A fused upstream is such an upstream. */
  lemma FusedRunsAreSound(events: seq<Event>)
    requires Fused(events)
    ensures Sound(Run(events))
  {
    forall i | 0 <= i < |events|
      ensures StaysEnded()(events[..i], events[i])
    {
      var before := events[..i];
      RunsKeep(before);
      if !Run(before).open {
        EndedUpstream(before);
        var j :| 0 <= j < i && before[j].Poll? && before[j].up.Ended?;
        assert events[j].Poll? && events[j].up.Ended?;
      }
    }
    RunsAreSound(events);
  }

  /** Behind an upstream that wakes up again the stream is told to have ended though the upstream has not. */
  lemma UnfusedUpstream()
    ensures var events := [Poll(Ended), Poll(Pending)];
      !Sound(Run(events)) && Run(events).log.result.Ended? && Run(events).log.up.Pending?
  {
    var events := [Poll(Ended), Poll(Pending)];
    assert events[..1] == [Poll(Ended)] && [Poll(Ended)][..0] == [];
    assert Run([Poll(Ended)]) == Step(Run([]), Poll(Ended));
  }

  /** What happened, read back from the log. */
  function EventsIn(log: Log): seq<Event> {
    match log
    case Start => []
    case Pushed(before, msg, _) => EventsIn(before) + [Push(msg)]
    case Polled(before, up, _) => EventsIn(before) + [Poll(up)]
  }

  /** The log tells what happened, so its messages are those pushed and its upstream answers those given. */
  lemma {:induction false} LogTells(events: seq<Event>)
    ensures EventsIn(Run(events).log) == events
  {
    if events != [] { LogTells(events[..|events| - 1]); }
  }

  class MessageQueue {
    var queue: seq<string>
    var open: bool
    ghost var log: Log

    ghost function Now(): State
      reads this
    {
      State(queue, open, log)
    }

    constructor ()
      ensures Now() == State([], true, Start)
    {
      queue, open, log := [], true, Start;
    }

    method Send(msg: string) returns (accepted: bool)
      modifies this
      ensures Now() == Step(old(Now()), Push(msg)) && accepted == old(open)
    {
      accepted := open;
      if open {
        queue := queue + [msg];
      }
      log := Pushed(log, msg, accepted);
    }

    /** `upClosed` is what the source asserts, in a debug build, when the receiver is gone. */
    method PollNext(up: Answer<Outgoing>) returns (r: Answer<Outgoing>, upClosed: bool)
      modifies this
      ensures Now() == Step(old(Now()), Poll(up)) && log.Polled? && r == log.result
      ensures upClosed == up.Ended?
      ensures old(Kept(Now())) ==> Kept(Now())
      ensures old(Sound(Now())) ==> (Sound(Now()) <==> old(open) || up.Item? || upClosed)
    {
      if Kept(Now()) {
        StepKeeps(Now(), Poll(up));
        StepIsProper(Now(), Poll(up));
      }
      upClosed := up.Ended?;
      if up.Item? {
        log := Polled(log, up, up);
        return up, upClosed;
      }
      if !open {
        r := Ended;
      } else if queue != [] {
        r := Item(Ok(queue[0]));
        queue := queue[1..];
      } else if upClosed {
        open := false;
        r := Ended;
      } else {
        r := Pending;
      }
      log := Polled(log, up, r);
    }
  }
}

/**
 Whole polls of the duplex transport: what the channel and the stream offer is taken in order and
 nothing that can be done is left undone.
 */
module DuplexPolls {
  import opened Basics
  import opened ClientMessages
  import opened Duplex
  import opened DuplexMeaning

  /** The messages offered by the client's channel. */
  function Given(events: seq<Event>): seq<RpcMessage> {
    if events == [] then []
    else
      var last := events[|events| - 1];
      Given(events[..|events| - 1]) + if last.Accept? then [last.message] else []
  }

  /** The texts offered by the stream, parsed. */
  function Parsed(events: seq<Event>): seq<Result<Incoming, RpcError>> {
    if events == [] then []
    else
      var last := events[|events| - 1];
      Parsed(events[..|events| - 1]) + if last.Receive? then [last.parsed] else []
  }

  lemma {:induction false} GivenConcat(a: seq<Event>, b: seq<Event>)
    ensures Given(a + b) == Given(a) + Given(b) && Parsed(a + b) == Parsed(a) + Parsed(b)
    decreases |b|
  {
    if b == [] {
      assert a + b == a;
    } else {
      GivenConcat(a, b[..|b| - 1]);
      assert (a + b)[..|a + b| - 1] == a + b[..|b| - 1];
    }
  }

  lemma {:induction false} GivesNothing(events: seq<Event>)
    requires forall i :: 0 <= i < |events| ==> !events[i].Accept? && !events[i].Receive?
    ensures Given(events) == [] && Parsed(events) == []
  {
    if events != [] { GivesNothing(events[..|events| - 1]); }
  }

  lemma {:induction false} AcceptsGive(messages: seq<RpcMessage>)
    ensures Given(Accepts(messages)) == messages && Parsed(Accepts(messages)) == []
  {
    if messages != [] {
      var before := messages[..|messages| - 1];
      AcceptsGive(before);
      assert Accepts(messages)[..|messages| - 1] == Accepts(before);
    }
  }

  function ParseAll(texts: seq<ServerText>, readError: ErrorReader): seq<Result<Incoming, RpcError>> {
    seq(|texts|, i requires 0 <= i < |texts| => ParseResponse(texts[i], readError))
  }

  lemma {:induction false} ReceivesGive(texts: seq<ServerText>, readError: ErrorReader)
    ensures Given(Receives(texts, readError)) == [] && Parsed(Receives(texts, readError)) == ParseAll(texts, readError)
  {
    if texts != [] {
      var before := texts[..|texts| - 1];
      ReceivesGive(before, readError);
      assert Receives(texts, readError)[..|texts| - 1] == Receives(before, readError);
    }
  }

  lemma {:induction false} WritesGiveNothing(sink: seq<SinkAnswer>, unsent: nat)
    ensures forall e :: e in Writes(sink, unsent) ==> !e.Accept? && !e.Receive?
  {
    if sink != [] && sink[0].Ready? && unsent > 0 { WritesGiveNothing(sink[1..], unsent - 1); }
  }

  /** The events of a poll, phase by phase. */
  function PollEvents(t: Trace, input: PollInput, readError: ErrorReader): seq<Event> {
    AcceptPhase(input) + ReceivePhase(input, readError) + LatePhases(t, input, readError)
  }

  function LatePhases(t: Trace, input: PollInput, readError: ErrorReader): seq<Event> {
    Processes(input, |AfterReceive(t, input, readError).state.incoming|)
    + Writes(input.sink, |AfterProcess(t, input, readError).state.outgoing|) + [Flush(input.flushed)]
  }

  lemma PollRuns(t: Trace, input: PollInput, readError: ErrorReader)
    ensures Poll(t, input, readError) == Run(t, PollEvents(t, input, readError))
  {
    var a, b := AcceptPhase(input), ReceivePhase(input, readError);
    var u, v := AfterReceive(t, input, readError), AfterProcess(t, input, readError);
    var c, d := Processes(input, |u.state.incoming|), Writes(input.sink, |v.state.outgoing|);
    RunConcat(t, a, b);
    RunConcat(u, c, d);
    RunLast(u, c + d, Flush(input.flushed));
    RunConcat(t, a + b, LatePhases(t, input, readError));
  }

  lemma RunLast(t: Trace, events: seq<Event>, e: Event)
    ensures Run(t, events + [e]) == Step(Run(t, events), e)
  {
    assert (events + [e])[..|events|] == events;
  }

  lemma LatePhasesGiveNothing(t: Trace, input: PollInput, readError: ErrorReader)
    ensures Given(LatePhases(t, input, readError)) == [] && Parsed(LatePhases(t, input, readError)) == []
  {
    var n := |AfterProcess(t, input, readError).state.outgoing|;
    WritesGiveNothing(input.sink, n);
    assert forall i :: 0 <= i < |Writes(input.sink, n)| ==> Writes(input.sink, n)[i] in Writes(input.sink, n);
    GivesNothing(LatePhases(t, input, readError));
  }

  /** A poll is a run in which the channel offers all its messages and the stream all its texts, in order. */
  lemma PollGives(t: Trace, input: PollInput, readError: ErrorReader)
    ensures var events := PollEvents(t, input, readError);
      Given(events) == input.messages && Parsed(events) == ParseAll(input.texts, readError)
  {
    var a, b := AcceptPhase(input), ReceivePhase(input, readError);
    PhasesGive(input, readError);
    LatePhasesGiveNothing(t, input, readError);
    GivenConcat(a, b);
    GivenConcat(a + b, LatePhases(t, input, readError));
  }

  lemma PhasesGive(input: PollInput, readError: ErrorReader)
    ensures Given(AcceptPhase(input)) == input.messages && Parsed(AcceptPhase(input)) == []
    ensures Given(ReceivePhase(input, readError)) == []
    ensures Parsed(ReceivePhase(input, readError)) == ParseAll(input.texts, readError)
  {
    var end: seq<Event>, stop: seq<Event> :=
      if input.channelEnds then [ChannelClosed] else [], if input.streamEnds then [StreamEnded] else [];
    AcceptsGive(input.messages);
    ReceivesGive(input.texts, readError);
    GivesNothing(end);
    GivesNothing(stop);
    GivenConcat(Accepts(input.messages), end);
    GivenConcat(Receives(input.texts, readError), stop);
  }

  /** The messages and the parsed texts of all polls, in order. */
  function AllMessages(inputs: seq<PollInput>): seq<RpcMessage> {
    if inputs == [] then [] else AllMessages(inputs[..|inputs| - 1]) + inputs[|inputs| - 1].messages
  }

  function AllTexts(inputs: seq<PollInput>, readError: ErrorReader): seq<Result<Incoming, RpcError>> {
    if inputs == [] then []
    else AllTexts(inputs[..|inputs| - 1], readError) + ParseAll(inputs[|inputs| - 1].texts, readError)
  }

  lemma {:induction false} PollsGive(inputs: seq<PollInput>, readError: ErrorReader) returns (events: seq<Event>)
    ensures PollAll(START, inputs, readError) == Run(START, events)
    ensures Given(events) == AllMessages(inputs) && Parsed(events) == AllTexts(inputs, readError)
  {
    if inputs == [] {
      events := [];
    } else {
      var before := PollsGive(inputs[..|inputs| - 1], readError);
      var t, input := Run(START, before), inputs[|inputs| - 1];
      var last := PollEvents(t, input, readError);
      PollRuns(t, input, readError);
      PollGives(t, input, readError);
      RunConcat(START, before, last);
      GivenConcat(before, last);
      events := before + last;
    }
  }

  /** What a running account has of what was offered. */
  predicate KeepsUp(a: Account, given: seq<RpcMessage>, parsed: seq<Result<Incoming, RpcError>>) {
    a.fate.Running? ==>
      && |a.received| == |parsed| && (forall i :: 0 <= i < |parsed| ==> parsed[i] == Ok(a.received[i]))
      && a.taken <= given && (a.open ==> a.taken == given)
  }

  lemma KeepsUpStep(a: Account, e: Event, given: seq<RpcMessage>, parsed: seq<Result<Incoming, RpcError>>)
    requires KeepsUp(a, given, parsed)
    ensures KeepsUp(Tell(a, e), given + (if e.Accept? then [e.message] else []),
                    parsed + (if e.Receive? then [e.parsed] else []))
  {
    if a.fate.Running? && e.Process? && a.seen < |a.received| { EntryKeepsInputs(a, e.heard); }
  }

  predicate SameInputs(a: Account, b: Account) {
    b.taken == a.taken && b.received == a.received && b.open == a.open
  }

  lemma ReplyKeepsInputs(a: Account, m: RpcMessage, result: RpcResult, heard: bool)
    ensures SameInputs(a, TellReply(a, m, result, heard))
  {
  }

  lemma NoticeKeepsInputs(a: Account, sid: SubscriptionId, name: string, result: RpcResult, heard: bool)
    ensures SameInputs(a, TellNotice(a, sid, name, result, heard))
  {
  }

  lemma EntryKeepsInputs(a: Account, heard: bool)
    requires a.seen < |a.received|
    ensures SameInputs(a, TellEntry(a, heard))
  {
    var e, b := a.received[a.seen], a.(seen := a.seen + 1);
    if e.id in a.awaiting {
      ReplyKeepsInputs(b.(awaiting := a.awaiting - {e.id}), a.awaiting[e.id], e.result, heard);
    } else if e.sid.Some? && e.name.Some? {
      NoticeKeepsInputs(b, e.sid.value, e.name.value, e.result, heard);
    }
  }

  /** Until a run ends, every text was received, and while the channel is open every message was taken. */
  lemma {:induction false} NothingIsSkipped(events: seq<Event>)
    ensures KeepsUp(Told(events), Given(events), Parsed(events))
  {
    if events != [] {
      var before := events[..|events| - 1];
      NothingIsSkipped(before);
      KeepsUpStep(Told(before), events[|events| - 1], Given(before), Parsed(before));
    }
  }

  // ---------------------------------------------------------------- a poll leaves nothing undone

  lemma ProcessTakesOne(t: Trace, heard: bool)
    requires t.state.status.Running? && t.state.incoming != []
    ensures Step(t, Process(heard)).state.incoming == t.state.incoming[1..]
  {
  }

  lemma {:induction false} ProcessesAll(t: Trace, input: PollInput, n: nat, k: nat)
    requires |t.state.incoming| == n && k <= n
    ensures var u := Run(t, Processes(input, n)[..k]); u.state.status.Running? ==> |u.state.incoming| == n - k
  {
    if k > 0 {
      var before := Run(t, Processes(input, n)[..k - 1]);
      ProcessesAll(t, input, n, k - 1);
      RunNext(t, Processes(input, n), k - 1);
      if before.state.status.Running? { ProcessTakesOne(before, Heard(input, k - 1)); }
    }
  }

  // ---------------------------------------------------------------- what a poll is told

  /** What the sink tells with one answer. */
  function SinkTells(answer: SinkAnswer): Event { if answer.Broken? then SinkFailed else SinkReady(answer.taken) }

  /**
   A poll written out: all messages of the channel and its end, all texts of the stream and its end,
   `n` entries with what is known of their receivers, `m` answers of the sink, and the final test.
   */
  function Script(input: PollInput, n: nat, m: nat, readError: ErrorReader): seq<Event>
    requires m <= |input.sink|
  {
    seq(|input.messages|, i requires 0 <= i < |input.messages| => Accept(input.messages[i]))
    + (if input.channelEnds then [ChannelClosed] else [])
    + seq(|input.texts|, i requires 0 <= i < |input.texts| => Receive(ParseResponse(input.texts[i], readError)))
    + (if input.streamEnds then [StreamEnded] else [])
    + seq(n, i requires 0 <= i < n => Process(if i < |input.heard| then input.heard[i] else true))
    + seq(m, i requires 0 <= i < m => SinkTells(input.sink[i]))
    + [Flush(input.flushed)]
  }

  /** The sink is asked in order. */
  lemma {:induction false} WritesAreAnswers(sink: seq<SinkAnswer>, unsent: nat)
    ensures var m := |Writes(sink, unsent)|;
      m <= |sink| && Writes(sink, unsent) == seq(m, i requires 0 <= i < m => SinkTells(sink[i]))
  {
    if sink != [] && sink[0].Ready? && unsent > 0 {
      WritesAreAnswers(sink[1..], unsent - 1);
    }
  }

  lemma PollIsScript(t: Trace, input: PollInput, readError: ErrorReader)
    ensures var n := |AfterReceive(t, input, readError).state.incoming|;
      var m := |Writes(input.sink, |AfterProcess(t, input, readError).state.outgoing|)|;
      m <= |input.sink| && Poll(t, input, readError) == Run(t, Script(input, n, m, readError))
  {
    var n := |AfterReceive(t, input, readError).state.incoming|;
    var unsent := |AfterProcess(t, input, readError).state.outgoing|;
    WritesAreAnswers(input.sink, unsent);
    PollRuns(t, input, readError);
    SameScript(input, n, unsent, readError);
    assert PollEvents(t, input, readError) == Script(input, n, |Writes(input.sink, unsent)|, readError);
  }

  lemma SameScript(input: PollInput, n: nat, unsent: nat, readError: ErrorReader)
    requires |Writes(input.sink, unsent)| <= |input.sink|
    requires Writes(input.sink, unsent) == seq(|Writes(input.sink, unsent)|,
      i requires 0 <= i < |Writes(input.sink, unsent)| => SinkTells(input.sink[i]))
    ensures AcceptPhase(input) + ReceivePhase(input, readError)
        + (Processes(input, n) + Writes(input.sink, unsent) + [Flush(input.flushed)])
      == Script(input, n, |Writes(input.sink, unsent)|, readError)
  {
    var processes := seq(n, i requires 0 <= i < n => Process(if i < |input.heard| then input.heard[i] else true));
    assert Processes(input, n) == processes;
  }

  lemma WriteOne(t: Trace, taken: bool)
    requires t.state.status.Running? && t.state.outgoing != []
    ensures var u := Step(t, SinkReady(taken));
      if taken then u.state.status.Running? && u.state.incoming == t.state.incoming
                    && |u.state.outgoing| == |t.state.outgoing| - 1
      else !u.state.status.Running?
  {
  }

  lemma {:induction false} WritesAll(t: Trace, sink: seq<SinkAnswer>, unsent: nat)
    requires t.state.status.Running? && unsent == |t.state.outgoing|
    ensures var u, m := Run(t, Writes(sink, unsent)), |Writes(sink, unsent)|;
      u.state.status.Running? && m <= |sink| ==>
        && u.state.incoming == t.state.incoming
        && (m == |sink| || (u.state.outgoing == [] && sink[m].Ready?))
    decreases |sink|
  {
    if sink == [] {
      assert Writes(sink, unsent) == [];
    } else if sink[0].Broken? {
      RunFirst(t, SinkFailed, []);
    } else if unsent > 0 {
      var u := Step(t, SinkReady(sink[0].taken));
      var rest := Writes(sink[1..], unsent - 1);
      RunFirst(t, SinkReady(sink[0].taken), rest);
      WriteOne(t, sink[0].taken);
      if sink[0].taken {
        WritesAll(u, sink[1..], unsent - 1);
      } else {
        RunStopped(u, rest);
      }
    }
  }

  lemma ProcessEmpties(t: Trace, input: PollInput, readError: ErrorReader)
    ensures AfterProcess(t, input, readError).state.status.Running? ==>
      AfterProcess(t, input, readError).state.incoming == []
  {
    var u := AfterReceive(t, input, readError);
    var n := |u.state.incoming|;
    ProcessesAll(u, input, n, n);
    assert Processes(input, n)[..n] == Processes(input, n);
  }

  lemma WritingIsThorough(t: Trace, input: PollInput)
    ensures var u := Step(Run(t, Writes(input.sink, |t.state.outgoing|)), Flush(input.flushed));
      var m := |Writes(input.sink, |t.state.outgoing|)|;
      u.state.status.Running? && m <= |input.sink| ==>
        && t.state.status.Running? && u.state.incoming == t.state.incoming
        && (m == |input.sink| || (u.state.outgoing == [] && input.sink[m].Ready?))
  {
    if t.state.status.Running? {
      WritesAll(t, input.sink, |t.state.outgoing|);
    } else {
      RunStopped(t, Writes(input.sink, |t.state.outgoing|));
    }
  }

  /**
   A poll is told everything it was given, phase by phase. If it leaves the future running, it has
   handled every entry, and either the sink has no more answers or nothing is left to write and the
   sink was asked once more.
   */
  lemma PollIsThorough(t: Trace, input: PollInput, readError: ErrorReader) returns (n: nat, m: nat)
    ensures m <= |input.sink| && Poll(t, input, readError) == Run(t, Script(input, n, m, readError))
    ensures var s := Poll(t, input, readError).state;
      s.status.Running? ==>
        s.incoming == [] && (m == |input.sink| || (s.outgoing == [] && input.sink[m].Ready?))
  {
    var u := AfterProcess(t, input, readError);
    n, m := |AfterReceive(t, input, readError).state.incoming|, |Writes(input.sink, |u.state.outgoing|)|;
    PollIsScript(t, input, readError);
    ProcessEmpties(t, input, readError);
    WritingIsThorough(u, input);
  }

  /**
   Any number of polls: the transport stands as the account of a run in which the channel offered
   all its messages and the stream all its texts; and if it still runs, it has handled every text,
   and taken every message unless the channel was closed.
   */
  lemma PollsMean(inputs: seq<PollInput>, readError: ErrorReader) returns (events: seq<Event>)
    ensures var t := PollAll(START, inputs, readError); var a := Told(events);
      && Mirrors(t, a) && Given(events) == AllMessages(inputs) && Parsed(events) == AllTexts(inputs, readError)
      && (t.state.status.Running? ==>
            && a.seen == |a.received| == |AllTexts(inputs, readError)|
            && (forall i :: 0 <= i < |a.received| ==> AllTexts(inputs, readError)[i] == Ok(a.received[i]))
            && (a.open ==> a.taken == AllMessages(inputs)))
  {
    events := PollsGive(inputs, readError);
    RunMeans(events);
    if Told(events).fate.Running? {
      NothingIsSkipped(events);
      if inputs != [] {
        var n := |inputs| - 1;
        var _, _ := PollIsThorough(PollAll(START, inputs[..n], readError), inputs[n], readError);
      }
    }
  }
}

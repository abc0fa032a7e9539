/** What the HTTP request machine promises, whatever the poll schedule. */
module HttpProofs {
  import opened Basics
  import opened HttpHandler
  import JsonRpc
  import Utf8

  /** The machine after every poll of a schedule, with what each poll returned. */
  function Run(cfg: Config, m: Machine, inputs: seq<Input>, serve: Job -> Answer): (Machine, seq<Outcome>) {
    if inputs == [] then (m, [])
    else
      var before := Run(cfg, m, inputs[..|inputs| - 1], serve);
      var last := Poll(cfg, before.0, inputs[|inputs| - 1], serve);
      (last.0, before.1 + [last.1])
  }

  function Start(head: Head, continueOnInvalidCors: bool): Machine {
    Machine(ReadingHeaders(head, continueOnInvalidCors), [])
  }

  // ---------------------------------------------------------------- at most one dispatch, bounded buffer

  predicate Refused(head: Head, continueOnInvalidCors: bool) {
    (head.origin.Invalid? || head.headers.Invalid?) && !continueOnInvalidCors
  }

  /** Nothing is dispatched before `Waiting`, and the buffer stays within the limit. */
  predicate Tame(cfg: Config, head: Head, goOn: bool, m: Machine) {
    && |m.dispatched| <= 1
    && (Rank(m.state) >= 2 ==> m.dispatched == [])
    && (m.state.ReadingBody? ==> |m.state.request| <= cfg.maxBody)
    && (m.state.ReadingHeaders? ==> m.state == ReadingHeaders(head, goOn))
    && (Refused(head, goOn) ==> m.dispatched == [] && (m.state.ReadingHeaders? || m.state.Done?))
  }

  lemma {:induction false} ReadBodyBounded(request: Bytes, polls: seq<BodyPoll>, max: U64)
    requires |request| <= max
    ensures var r := ReadBody(request, polls, max);
      (r.More? ==> |r.request| <= max) && (r.Ended? ==> |r.request| <= max)
    decreases polls
  {
    if polls != [] && polls[0].Chunk? && !Exceeds(|request|, |polls[0].bytes|, max) {
      ReadBodyBounded(request + polls[0].bytes, polls[1..], max);
    }
  }

  lemma {:induction false} PollIsTame(
    cfg: Config, head: Head, goOn: bool, m: Machine, input: Input, serve: Job -> Answer)
    requires Tame(cfg, head, goOn, m)
    ensures Tame(cfg, head, goOn, Poll(cfg, m, input, serve).0)
    decreases Rank(m.state)
  {
    if m.state.ReadingBody? {
      ReadBodyBounded(m.state.request, input.body, cfg.maxBody);
    }
    var turn := Advance(cfg, m.state, input, serve);
    if turn.Turn? && turn.ready && !turn.state.Writing? {
      ReadyLowersRank(cfg, m.state, input, serve);
      PollIsTame(cfg, head, goOn, Machine(turn.state, m.dispatched + turn.job), input, serve);
    }
  }

  /**
   Over every schedule, going on after the answer included: at most one request reaches the RPC
   handler, none when a CORS check refused, and the body buffer never exceeds the maximum.
   */
  lemma {:induction false} DispatchedAtMostOnce(
    cfg: Config, head: Head, goOn: bool, inputs: seq<Input>, serve: Job -> Answer)
    ensures var m := Run(cfg, Start(head, goOn), inputs, serve).0;
      && |m.dispatched| <= 1
      && (Refused(head, goOn) ==> m.dispatched == [])
      && (m.state.ReadingBody? ==> |m.state.request| <= cfg.maxBody)
    ensures Tame(cfg, head, goOn, Run(cfg, Start(head, goOn), inputs, serve).0)
  {
    if inputs != [] {
      var before := inputs[..|inputs| - 1];
      DispatchedAtMostOnce(cfg, head, goOn, before, serve);
      PollIsTame(cfg, head, goOn, Run(cfg, Start(head, goOn), before, serve).0, inputs[|inputs| - 1], serve);
    }
  }

  // ---------------------------------------------------------------- the body

  /** A body: chunks, and nothing after its end or its error. */
  predicate Orderly(polls: seq<BodyPoll>) { forall i :: 0 <= i < |polls| - 1 ==> polls[i].Chunk? }

  predicate Closed(polls: seq<BodyPoll>) { polls != [] && !polls[|polls| - 1].Chunk? }

  /** The concatenation of all chunks. */
  function Gathered(polls: seq<BodyPoll>): Bytes {
    if polls == [] then []
    else (if polls[0].Chunk? then polls[0].bytes else []) + Gathered(polls[1..])
  }

  lemma {:induction false} GatheredConcat(a: seq<BodyPoll>, b: seq<BodyPoll>)
    ensures Gathered(a + b) == Gathered(a) + Gathered(b)
  {
    if a == [] {
      assert a + b == b;
    } else {
      assert (a + b)[1..] == a[1..] + b;
      GatheredConcat(a[1..], b);
    }
  }

  /** Too large exactly when the sum is; otherwise everything is kept, in order, unless the body broke. */
  lemma {:induction false} BodyIsGathered(request: Bytes, polls: seq<BodyPoll>, max: U64)
    requires |request| <= max && Orderly(polls)
    ensures ReadBody(request, polls, max)
         == if |request| + |Gathered(polls)| > max then Oversized
            else if !Closed(polls) then More(request + Gathered(polls))
            else if polls[|polls| - 1].End? then Ended(request + Gathered(polls))
            else BodyState.Error
    decreases polls
  {
    if polls == [] {
      assert request + Gathered(polls) == request;
    } else if polls[0].Chunk? {
      if !Exceeds(|request|, |polls[0].bytes|, max) {
        var rest := polls[1..];
        assert forall i :: 0 <= i < |rest| ==> rest[i] == polls[i + 1];
        BodyIsGathered(request + polls[0].bytes, rest, max);
        assert request + Gathered(polls) == request + polls[0].bytes + Gathered(rest);
        assert rest != [] ==> rest[|rest| - 1] == polls[|polls| - 1];
      }
    } else {
      assert polls[1..] == [];
      assert request + Gathered(polls) == request;
    }
  }

  // ---------------------------------------------------------------- what a request is due

  /** What becomes of a request: an answer on the spot, a request for the RPC handler, or the error of its body. */
  datatype Verdict = Refuse(response: Response) | Serve(job: Job) | Fail

  function ReadAll(read: string -> JsonRpc.Value, parts: seq<string>): seq<JsonRpc.Value> {
    if parts == [] then [] else [read(parts[0])] + ReadAll(read, parts[1..])
  }

  /** A path read as a call: the part behind the first slash is the method, the parts behind it the params. */
  function RestCall(cfg: Config, path: Path): Job {
    Rest(if |path| > 1 then path[1] else "", ReadAll(cfg.readParam, if |path| > 2 then path[2..] else []))
  }

  /** The body of a JSON request, `script`, decided at one blow. */
  function BodyVerdict(cfg: Config, uri: Option<Path>, script: seq<BodyPoll>): Verdict {
    var body := Gathered(script);
    if |body| > cfg.maxBody then Refuse(Response(413, BodyTooLarge))
    else if script != [] && script[|script| - 1].Broken? then Fail
    else if uri.Some? && body == [] then Serve(RestCall(cfg, uri.value))
    else if !Utf8.Valid(body) then Refuse(Response(400, NotUtf8(Utf8.ValidUpTo(body))))
    else Serve(Text(body))
  }

  predicate NeedsBody(head: Head) { head.verb == Post && head.json }

  /** The request decided at one blow, from its head and its whole body. */
  function Decide(cfg: Config, head: Head, goOn: bool, script: seq<BodyPoll>): Verdict {
    if !goOn && head.origin == Cors.Invalid then Refuse(Response(403, OriginNotAllowed))
    else if !goOn && head.headers == Cors.Invalid then Refuse(Response(403, HeadersNotAllowed))
    else if head.verb == Options then Refuse(Response(200, Said("")))
    else if head.verb == Get && cfg.healthApi.Some? && head.path == cfg.healthApi.value.0
    then Serve(Health(cfg.healthApi.value.1))
    else if head.verb != Post then Refuse(Response(405, VerbNotAllowed))
    else if head.json then BodyVerdict(cfg, if cfg.restApi == Disabled then None else Some(head.path), script)
    else if cfg.restApi == Unsecure && |head.path| > 2 then Serve(RestCall(cfg, head.path))
    else Refuse(Response(415, TypeNotSupported))
  }

  /** The same for a server that may be gone when the headers are read. */
  function Expected(cfg: Config, head: Head, goOn: bool, script: seq<BodyPoll>, alive: bool): Verdict {
    if !Refused(head, goOn) && !alive then Refuse(Response(503, ServerClosing)) else Decide(cfg, head, goOn, script)
  }

  /** The response to a request that the RPC handler answered. */
  predicate Tells(job: Job, answer: Answer, response: Response) {
    match answer
    case Silent => response == if job.Health? then Response(500, NoHealthAnswer) else Response(200, Said(""))
    case Reply(text) => response == Response(200, Said(if job.Health? then text else text + "\n"))
    case Failed(text) =>
      response == if job.Health? then Response(503, Said(text)) else Response(200, Said(text + "\n"))
  }

  lemma AnswerTells(job: Job, answer: Answer)
    ensures Tells(job, answer, AnswerResponse(job, answer))
  {
  }

  lemma {:induction false} ReadAllAt(read: string -> JsonRpc.Value, parts: seq<string>)
    ensures |ReadAll(read, parts)| == |parts|
    ensures forall i :: 0 <= i < |parts| ==> ReadAll(read, parts)[i] == read(parts[i])
  {
    if parts != [] { ReadAllAt(read, parts[1..]); }
  }

  lemma RestJobIsRestCall(cfg: Config, path: Path)
    ensures RestJob(cfg, path) == RestCall(cfg, path)
  {
    if |path| > 2 { ReadAllAt(cfg.readParam, path[2..]); }
  }

  // ---------------------------------------------------------------- one poll

  /** A request for the RPC handler is dispatched, and answered if the handler is done, unless the server is gone. */
  predicate Finishes(job: Job, input: Input, next: Machine, outcome: Outcome, serve: Job -> Answer) {
    if !input.aliveAtDispatch then next == Machine(Done, []) && outcome == Answered(Response(503, ServerClosing))
    else if !input.done then next == Machine(Waiting(job), [job]) && outcome == Pending
    else next == Machine(Done, [job]) && outcome.Answered? && Tells(job, serve(job), outcome.response)
  }

  predicate Lands(v: Verdict, input: Input, next: Machine, outcome: Outcome, serve: Job -> Answer) {
    match v
    case Refuse(response) => next == Machine(Done, []) && outcome == Answered(response)
    case Fail => next == Machine(Done, []) && outcome == BodyFailed
    case Serve(job) => Finishes(job, input, next, outcome, serve)
  }

  lemma PollDispatch(cfg: Config, state: State, job: Job, input: Input, serve: Job -> Answer)
    requires Rank(state) >= 2 && Advance(cfg, state, input, serve) == Dispatch(job, input.aliveAtDispatch)
    ensures var (next, outcome) := Poll(cfg, Machine(state, []), input, serve);
      Finishes(job, input, next, outcome, serve)
  {
    AnswerTells(job, serve(job));
    if input.aliveAtDispatch {
      var waiting := Machine(Waiting(job), [job]);
      assert [] + [job] == [job] && [job] + [] == [job];
      assert Poll(cfg, Machine(state, []), input, serve) == Poll(cfg, waiting, input, serve);
    }
  }

  lemma PollRest(cfg: Config, path: Path, input: Input, serve: Job -> Answer)
    ensures var (next, outcome) := Poll(cfg, Machine(ProcessRest(path), []), input, serve);
      Finishes(RestCall(cfg, path), input, next, outcome, serve)
  {
    RestJobIsRestCall(cfg, path);
    PollDispatch(cfg, ProcessRest(path), RestJob(cfg, path), input, serve);
  }

  predicate Fits(offered: seq<BodyPoll>, more: seq<BodyPoll>, script: seq<BodyPoll>) {
    Orderly(script) && Closed(script) && offered + more <= script
  }

  lemma FitsReads(cfg: Config, offered: seq<BodyPoll>, more: seq<BodyPoll>, script: seq<BodyPoll>)
    requires Fits(offered, more, script) && !Closed(offered) && |Gathered(offered)| <= cfg.maxBody
    ensures var seen := offered + more;
      && ReadBody(Gathered(offered), more, cfg.maxBody)
         == (if |Gathered(seen)| > cfg.maxBody then Oversized
             else if !Closed(seen) then More(Gathered(seen))
             else if script[|script| - 1].End? then Ended(Gathered(script))
             else BodyState.Error)
      && |Gathered(seen)| <= |Gathered(script)| && (Closed(seen) ==> seen == script)
  {
    var seen := offered + more;
    var rest := script[|seen|..];
    assert script == seen + rest;
    GatheredConcat(seen, rest);
    GatheredConcat(offered, more);
    assert Orderly(more) by {
      assert forall i :: 0 <= i < |more| ==> more[i] == script[|offered| + i];
    }
    BodyIsGathered(Gathered(offered), more, cfg.maxBody);
    if more == [] {
      assert seen == offered;
    } else {
      assert seen[|seen| - 1] == more[|more| - 1] == script[|seen| - 1];
    }
  }

  /** Whether what has come out of a body decides the request. */
  predicate Decided(cfg: Config, seen: seq<BodyPoll>) { Closed(seen) || |Gathered(seen)| > cfg.maxBody }

  lemma PollEnded(cfg: Config, uri: Option<Path>, request: Bytes, body: Bytes, input: Input, serve: Job -> Answer)
    requires ReadBody(request, input.body, cfg.maxBody) == Ended(body)
    ensures var (next, outcome) := Poll(cfg, Machine(ReadingBody(uri, request), []), input, serve);
      if uri.Some? && body == [] then Finishes(RestCall(cfg, uri.value), input, next, outcome, serve)
      else if !Utf8.Valid(body) then
        next == Machine(Done, []) && outcome == Answered(Response(400, NotUtf8(Utf8.ValidUpTo(body))))
      else Finishes(Text(body), input, next, outcome, serve)
  {
    if uri.Some? && body == [] {
      var none: seq<Job> := [];
      assert none + none == none;
      PollRest(cfg, uri.value, input, serve);
      assert Poll(cfg, Machine(ReadingBody(uri, request), none), input, serve)
          == Poll(cfg, Machine(ProcessRest(uri.value), none), input, serve);
    } else if Utf8.Valid(body) {
      PollDispatch(cfg, ReadingBody(uri, request), Text(body), input, serve);
    }
  }

  lemma PollBody(
    cfg: Config, uri: Option<Path>, offered: seq<BodyPoll>, script: seq<BodyPoll>, input: Input, serve: Job -> Answer)
    requires Fits(offered, input.body, script) && !Closed(offered) && |Gathered(offered)| <= cfg.maxBody
    ensures var seen := offered + input.body;
      var (next, outcome) := Poll(cfg, Machine(ReadingBody(uri, Gathered(offered)), []), input, serve);
      if Decided(cfg, seen) then
        && Lands(BodyVerdict(cfg, uri, script), input, next, outcome, serve)
        && (!Closed(seen) ==> BodyVerdict(cfg, uri, script).Refuse?)
      else next == Machine(ReadingBody(uri, Gathered(seen)), []) && outcome == Pending
  {
    FitsReads(cfg, offered, input.body, script);
    var r := ReadBody(Gathered(offered), input.body, cfg.maxBody);
    if r.Ended? { PollEnded(cfg, uri, Gathered(offered), r.request, input, serve); }
  }

  /** Where reading the headers leads. */
  lemma HeadersDecide(cfg: Config, head: Head, goOn: bool, script: seq<BodyPoll>, alive: bool)
    ensures var v := Expected(cfg, head, goOn, script, alive); var state := ReadHeaders(cfg, head, goOn, alive);
      && (state.ReadingBody? <==> NeedsBody(head) && !Refused(head, goOn) && alive)
      && (state.Writing? ==> v == Refuse(state.response))
      && (state.ReadingBody? ==> state.request == [] && BodyVerdict(cfg, state.uri, script) == v)
      && (state.ProcessRest? ==> v == Serve(RestCall(cfg, state.path)))
      && (state.ProcessHealth? ==> v == Serve(Health(state.name)))
      && (NeedsBody(head) && !state.ReadingBody? ==> state.Writing?)
      && !state.ReadingHeaders? && !state.Waiting? && !state.Done?
  {
  }

  lemma PollHead(cfg: Config, head: Head, goOn: bool, script: seq<BodyPoll>, input: Input, serve: Job -> Answer)
    requires Fits([], input.body, script)
    ensures var v := Expected(cfg, head, goOn, script, input.aliveAtHead);
      var (next, outcome) := Poll(cfg, Start(head, goOn), input, serve);
      if NeedsBody(head) && !Refused(head, goOn) && input.aliveAtHead && !Decided(cfg, input.body) then
        && outcome == Pending && next.dispatched == [] && next.state.ReadingBody?
        && next.state.request == Gathered(input.body) && BodyVerdict(cfg, next.state.uri, script) == v
      else
        && Lands(v, input, next, outcome, serve)
        && (NeedsBody(head) && !Closed(input.body) ==> v.Refuse?)
  {
    var after := ReadHeaders(cfg, head, goOn, input.aliveAtHead);
    HeadersDecide(cfg, head, goOn, script, input.aliveAtHead);
    assert [] + input.body == input.body && Gathered([]) == [];
    if !after.Writing? {
      assert Poll(cfg, Start(head, goOn), input, serve) == Poll(cfg, Machine(after, []), input, serve);
    }
    match after
    case ReadingBody(uri, _) => PollBody(cfg, uri, [], script, input, serve);
    case ProcessRest(path) => PollRest(cfg, path, input, serve);
    case ProcessHealth(name) => PollDispatch(cfg, after, Health(name), input, serve);
    case _ =>
  }

  lemma PollWaiting(cfg: Config, job: Job, input: Input, serve: Job -> Answer)
    ensures var (next, outcome) := Poll(cfg, Machine(Waiting(job), [job]), input, serve);
      if input.done
      then next == Machine(Done, [job]) && outcome.Answered? && Tells(job, serve(job), outcome.response)
      else next == Machine(Waiting(job), [job]) && outcome == Pending
  {
    AnswerTells(job, serve(job));
    assert [job] + [] == [job];
  }

  // ---------------------------------------------------------------- every schedule

  function Offered(inputs: seq<Input>): seq<BodyPoll> {
    if inputs == [] then [] else Offered(inputs[..|inputs| - 1]) + inputs[|inputs| - 1].body
  }

  /** Whether the server was there at the poll where the request was complete, if there was one. */
  function Life(needsBody: bool, inputs: seq<Input>): Option<bool> {
    if inputs == [] then None
    else
      var before := Life(needsBody, inputs[..|inputs| - 1]);
      if before.Some? then before
      else if !needsBody || Closed(Offered(inputs)) then Some(inputs[|inputs| - 1].aliveAtDispatch)
      else None
  }

  /** What polls returned other than `Pending`. */
  function Ends(outcomes: seq<Outcome>): seq<Outcome> {
    if outcomes == [] then []
    else
      var last := outcomes[|outcomes| - 1];
      Ends(outcomes[..|outcomes| - 1]) + (if last.Pending? then [] else [last])
  }

  /** What a finished machine gave back and what it dispatched. */
  predicate Right(v: Verdict, life: Option<bool>, end: Outcome, dispatched: seq<Job>, serve: Job -> Answer) {
    match v
    case Refuse(response) => end == Answered(response) && dispatched == []
    case Fail => end == BodyFailed && dispatched == []
    case Serve(job) =>
      life.Some? &&
      if life.value then end.Answered? && Tells(job, serve(job), end.response) && dispatched == [job]
      else end == Answered(Response(503, ServerClosing)) && dispatched == []
  }

  /** How a machine stands that is to come to verdict `v`, once `seen` has come out of the body. */
  predicate Stands(
    cfg: Config, m: Machine, script: seq<BodyPoll>, seen: seq<BodyPoll>, v: Verdict, life: Option<bool>)
  {
    match m.state
    case ReadingBody(uri, request) =>
      && m.dispatched == [] && request == Gathered(seen) && !Decided(cfg, seen)
      && BodyVerdict(cfg, uri, script) == v && life.None?
    case Waiting(job) => m.dispatched == [job] && v == Serve(job) && life == Some(true)
    case Done => true
    case _ => false
  }

  /** The end of a run so far: none while the machine works, and one, the right one, when it is done. */
  predicate Settled(m: Machine, outcomes: seq<Outcome>, v: Verdict, life: Option<bool>, serve: Job -> Answer) {
    && |Ends(outcomes)| == (if m.state.Done? then 1 else 0)
    && (m.state.Done? ==> Right(v, life, Ends(outcomes)[0], m.dispatched, serve))
  }

  lemma SettledNext(
    m: Machine, outcomes: seq<Outcome>, next: Machine, outcome: Outcome, v: Verdict,
    before: Option<bool>, life: Option<bool>, serve: Job -> Answer)
    requires Settled(m, outcomes, v, before, serve) && (before.Some? ==> life == before)
    requires outcome.Pending? <==> next.state.Done? == m.state.Done?
    requires m.state.Done? ==> next == m
    requires next.state.Done? && !m.state.Done? ==> Right(v, life, outcome, next.dispatched, serve)
    ensures Settled(next, outcomes + [outcome], v, life, serve)
  {
    var all := outcomes + [outcome];
    assert all[..|all| - 1] == outcomes;
  }

  /** One poll of a machine past its headers. */
  lemma PollStands(
    cfg: Config, m: Machine, script: seq<BodyPoll>, seen: seq<BodyPoll>, v: Verdict,
    before: Option<bool>, life: Option<bool>, input: Input, serve: Job -> Answer)
    requires Stands(cfg, m, script, seen, v, before) && Fits(seen, input.body, script)
    requires before.Some? ==> life == before
    requires before.None? && m.state.ReadingBody? ==>
      life == if Closed(seen + input.body) then Some(input.aliveAtDispatch) else None
    ensures var (next, outcome) := Poll(cfg, m, input, serve);
      && Stands(cfg, next, script, seen + input.body, v, life)
      && (outcome.Pending? <==> next.state.Done? == m.state.Done?) && (m.state.Done? ==> next == m)
      && (next.state.Done? && !m.state.Done? ==> Right(v, life, outcome, next.dispatched, serve))
      && ((Closed(seen + input.body) || !m.state.ReadingBody?) && input.done ==> next.state.Done?)
  {
    match m.state
    case ReadingBody(uri, request) => PollBody(cfg, uri, seen, script, input, serve);
    case Waiting(job) => PollWaiting(cfg, job, input, serve);
    case Done => assert m.dispatched + [] == m.dispatched;
  }

  lemma FirstPollStands(cfg: Config, head: Head, goOn: bool, script: seq<BodyPoll>, input: Input, serve: Job -> Answer)
    requires Fits([], input.body, script)
    ensures var v := Expected(cfg, head, goOn, script, input.aliveAtHead);
      var life := if !NeedsBody(head) || Closed(input.body) then Some(input.aliveAtDispatch) else None;
      var (next, outcome) := Poll(cfg, Start(head, goOn), input, serve);
      && Stands(cfg, next, script, input.body, v, life) && Settled(next, [outcome], v, life, serve)
      && ((Closed(input.body) || !NeedsBody(head)) && input.done ==> next.state.Done?)
  {
    PollHead(cfg, head, goOn, script, input, serve);
    var outcome := Poll(cfg, Start(head, goOn), input, serve).1;
    assert [outcome][..0] == [];
  }

  /**
   However the body is cut into chunks and however the polls fall, the machine comes to one end, the
   verdict on the whole request, having dispatched exactly what the verdict says (or nothing, with the
   notice that the server is closing, if the server was gone at the poll that completed the request);
   and it has come to it after any poll by which the request is complete and the RPC handler is done.
   */
  lemma {:induction false} ScheduleDoesNotMatter(
    cfg: Config, head: Head, goOn: bool, script: seq<BodyPoll>, inputs: seq<Input>, serve: Job -> Answer)
    requires inputs != [] && Fits([], Offered(inputs), script)
    ensures var (m, outcomes) := Run(cfg, Start(head, goOn), inputs, serve);
      var v, life := Expected(cfg, head, goOn, script, inputs[0].aliveAtHead), Life(NeedsBody(head), inputs);
      && Stands(cfg, m, script, Offered(inputs), v, life) && Settled(m, outcomes, v, life, serve)
      && ((Closed(Offered(inputs)) || !NeedsBody(head)) && inputs[|inputs| - 1].done ==> m.state.Done?)
    decreases |inputs|, 1
  {
    var before, last := inputs[..|inputs| - 1], inputs[|inputs| - 1];
    assert Offered(inputs) == Offered(before) + last.body && [] + Offered(inputs) == Offered(inputs);
    if before == [] {
      assert Offered(inputs) == last.body && [] + last.body == last.body;
      assert Run(cfg, Start(head, goOn), before, serve) == (Start(head, goOn), []);
      assert Life(NeedsBody(head), before) == None;
      FirstPollStands(cfg, head, goOn, script, last, serve);
    } else {
      LaterPoll(cfg, head, goOn, script, inputs, serve);
    }
  }

  lemma NextPoll(
    cfg: Config, m: Machine, outcomes: seq<Outcome>, script: seq<BodyPoll>, seen: seq<BodyPoll>, v: Verdict,
    before: Option<bool>, life: Option<bool>, input: Input, serve: Job -> Answer)
    requires Stands(cfg, m, script, seen, v, before) && Settled(m, outcomes, v, before, serve)
    requires Fits(seen, input.body, script) && (before.Some? ==> life == before)
    requires before.None? && m.state.ReadingBody? ==>
      life == if Closed(seen + input.body) then Some(input.aliveAtDispatch) else None
    ensures var (next, outcome) := Poll(cfg, m, input, serve);
      && Stands(cfg, next, script, seen + input.body, v, life) && Settled(next, outcomes + [outcome], v, life, serve)
      && ((Closed(seen + input.body) || !m.state.ReadingBody?) && input.done ==> next.state.Done?)
  {
    PollStands(cfg, m, script, seen, v, before, life, input, serve);
    var (next, outcome) := Poll(cfg, m, input, serve);
    SettledNext(m, outcomes, next, outcome, v, before, life, serve);
  }

  lemma {:induction false} LifeOfBodiless(inputs: seq<Input>)
    requires inputs != []
    ensures Life(false, inputs).Some?
  {
  }

  lemma {:induction false} LaterPoll(
    cfg: Config, head: Head, goOn: bool, script: seq<BodyPoll>, inputs: seq<Input>, serve: Job -> Answer)
    requires |inputs| > 1 && Fits([], Offered(inputs), script)
    ensures var (m, outcomes) := Run(cfg, Start(head, goOn), inputs, serve);
      var v, life := Expected(cfg, head, goOn, script, inputs[0].aliveAtHead), Life(NeedsBody(head), inputs);
      && Stands(cfg, m, script, Offered(inputs), v, life) && Settled(m, outcomes, v, life, serve)
      && ((Closed(Offered(inputs)) || !NeedsBody(head)) && inputs[|inputs| - 1].done ==> m.state.Done?)
    decreases |inputs|, 0
  {
    var before, last := inputs[..|inputs| - 1], inputs[|inputs| - 1];
    var seen := Offered(before);
    assert Offered(inputs) == seen + last.body && [] + seen == seen && [] + Offered(inputs) == Offered(inputs);
    ScheduleDoesNotMatter(cfg, head, goOn, script, before, serve);
    var (m, outcomes) := Run(cfg, Start(head, goOn), before, serve);
    var v := Expected(cfg, head, goOn, script, inputs[0].aliveAtHead);
    if !NeedsBody(head) { LifeOfBodiless(before); }
    var was, life := Life(NeedsBody(head), before), Life(NeedsBody(head), inputs);
    NextPoll(cfg, m, outcomes, script, seen, v, was, life, last, serve);
  }

  // ---------------------------------------------------------------- REST requests

  /**
   A path of a name and further parts is dispatched as a call of that name with one param for each
   part, in order, whether it comes without a body type or with an empty JSON body.
   */
  lemma RestIsDispatched(
    cfg: Config, head: Head, goOn: bool, name: string, parts: seq<string>,
    script: seq<BodyPoll>, inputs: seq<Input>, serve: Job -> Answer)
    requires inputs != [] && Fits([], Offered(inputs), script) && !Refused(head, goOn)
    requires head.verb == Post && head.path == ["", name] + parts
    requires if head.json then !cfg.restApi.Disabled? && Gathered(script) == [] && script[|script| - 1].End?
             else cfg.restApi.Unsecure? && parts != []
    requires forall i :: 0 <= i < |inputs| ==> inputs[i].aliveAtHead && inputs[i].aliveAtDispatch
    ensures var m := Run(cfg, Start(head, goOn), inputs, serve).0;
      (m.state.Done? || m.state.Waiting?) ==>
        && |m.dispatched| == 1 && m.dispatched[0].Rest? && m.dispatched[0].name == name
        && |m.dispatched[0].params| == |parts|
        && forall i :: 0 <= i < |parts| ==> m.dispatched[0].params[i] == cfg.readParam(parts[i])
  {
    ScheduleDoesNotMatter(cfg, head, goOn, script, inputs, serve);
    ReadAllAt(cfg.readParam, parts);
    LifeOfLiving(NeedsBody(head), inputs);
    assert |parts| > 0 ==> head.path[2..] == parts;
    assert Expected(cfg, head, goOn, script, inputs[0].aliveAtHead) == Serve(Rest(name, ReadAll(cfg.readParam, parts)));
  }

  lemma {:induction false} LifeOfLiving(needsBody: bool, inputs: seq<Input>)
    requires forall i :: 0 <= i < |inputs| ==> inputs[i].aliveAtDispatch
    ensures Life(needsBody, inputs) != Some(false)
  {
    if inputs != [] { LifeOfLiving(needsBody, inputs[..|inputs| - 1]); }
  }
}

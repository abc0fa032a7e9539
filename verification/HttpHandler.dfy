/**
 One HTTP request on its way through the server: a state machine that is polled, reads the body in
 chunks, hands the request to the RPC handler and waits for the answer.
 */
module HttpHandler {
  import opened Basics
  import JsonRpc
  import Utf8

  type Bytes = seq<Byte>

  datatype Verb = Post | Options | Get | OtherVerb

  /** What a CORS check said. */
  datatype Cors = NotRequired | Allowed | Invalid

  datatype RestApi = Disabled | Secure | Unsecure

  /** The parts of the path between its slashes; a path always has at least one. */
  type Path = seq<string>

  /** What is read off the request before its body. */
  datatype Head = Head(verb: Verb, json: bool, path: Path, origin: Cors, headers: Cors)

  /** `healthApi` is the path that asks for the server's health and the method that tells it. */
  datatype Config = Config(
    restApi: RestApi,
    healthApi: Option<(Path, string)>,
    maxBody: U64,
    readParam: string -> JsonRpc.Value)

  /** A request given to the RPC handler. */
  datatype Job = Text(content: Bytes) | Rest(name: string, params: seq<JsonRpc.Value>) | Health(name: string)

  /** What the RPC handler's future resolves to; `text` is the serialized response, result or error. */
  datatype Answer = Silent | Reply(text: string) | Failed(text: string)

  /** What a response says: a text of the RPC handler or one of the server's own notices. */
  datatype Content =
    | Said(text: string)
    | OriginNotAllowed | HeadersNotAllowed | ServerClosing | TypeNotSupported | VerbNotAllowed
    | NotUtf8(validUpTo: nat) | BodyTooLarge | NoHealthAnswer

  datatype Response = Response(code: nat, content: Content)

  datatype State =
    | ReadingHeaders(head: Head, continueOnInvalidCors: bool)
    | ReadingBody(uri: Option<Path>, request: Bytes)
    | ProcessRest(path: Path)
    | ProcessHealth(name: string)
    | Waiting(job: Job)
    | Writing(response: Response)
    | Done

  /** One poll of the body. */
  datatype BodyPoll = Chunk(bytes: Bytes) | End | Broken

  /**
   What one poll is told: whether the server is still there when the headers are read and when the
   request is dispatched, the body's answers up to `Pending`, and whether the RPC handler is done.
   */
  datatype Input = Input(aliveAtHead: bool, aliveAtDispatch: bool, body: seq<BodyPoll>, done: bool)

  /** The handler with the requests it has dispatched. */
  datatype Machine = Machine(state: State, dispatched: seq<Job>)

  datatype Outcome = Pending | Answered(response: Response) | BodyFailed

  const CLOSING := Response(503, ServerClosing)

  // ---------------------------------------------------------------- transitions

  /** A sum that does not fit a machine word counts as too large. */
  predicate Exceeds(have: nat, more: nat, max: U64) {
    have + more >= TWO_TO_THE_64 || have + more > max
  }

  datatype BodyState = More(request: Bytes) | Ended(request: Bytes) | Oversized | Error

  function ReadBody(request: Bytes, polls: seq<BodyPoll>, max: U64): BodyState
    decreases polls
  {
    if polls == [] then More(request)
    else match polls[0]
      case Chunk(bytes) =>
        if Exceeds(|request|, |bytes|, max) then Oversized else ReadBody(request + bytes, polls[1..], max)
      case End => Ended(request)
      case Broken => Error
  }

  function ReadHeaders(cfg: Config, head: Head, continueOnInvalidCors: bool, alive: bool): State {
    if head.origin.Invalid? && !continueOnInvalidCors then Writing(Response(403, OriginNotAllowed))
    else if head.headers.Invalid? && !continueOnInvalidCors then Writing(Response(403, HeadersNotAllowed))
    else if !alive then Writing(CLOSING)
    else match head.verb
      case Post =>
        if head.json then ReadingBody(if cfg.restApi.Disabled? then None else Some(head.path), [])
        else if cfg.restApi.Unsecure? && |head.path| > 2 then ProcessRest(head.path)
        else Writing(Response(415, TypeNotSupported))
      case Options => Writing(Response(200, Said("")))
      case Get =>
        if cfg.healthApi.Some? && cfg.healthApi.value.0 == head.path then ProcessHealth(cfg.healthApi.value.1)
        else Writing(Response(405, VerbNotAllowed))
      case OtherVerb => Writing(Response(405, VerbNotAllowed))
  }

  function RestJob(cfg: Config, uri: Path): Job {
    Rest(if |uri| > 1 then uri[1] else "",
         if |uri| > 2 then seq(|uri| - 2, i requires 0 <= i < |uri| - 2 => cfg.readParam(uri[i + 2])) else [])
  }

  function AnswerResponse(job: Job, answer: Answer): Response {
    if job.Health? then
      match answer
      case Reply(text) => Response(200, Said(text))
      case Failed(text) => Response(503, Said(text))
      case Silent => Response(500, NoHealthAnswer)
    else
      match answer
      case Silent => Response(200, Said(""))
      case Reply(text) => Response(200, Said(text + "\n"))
      case Failed(text) => Response(200, Said(text + "\n"))
  }

  /** A transition: the next state, whether polling goes on at once, and what was dispatched. */
  datatype Turn = Turn(state: State, ready: bool, job: seq<Job>) | Failure

  function Dispatch(job: Job, alive: bool): Turn {
    if alive then Turn(Waiting(job), true, [job]) else Turn(Writing(CLOSING), true, [])
  }

  /** What follows from the body as far as it was read. */
  function AfterRead(uri: Option<Path>, body: BodyState, alive: bool): Turn {
    match body
    case More(now) => Turn(ReadingBody(uri, now), false, [])
    case Oversized => Turn(Writing(Response(413, BodyTooLarge)), true, [])
    case Error => Failure
    case Ended(all) =>
      if uri.Some? && all == [] then Turn(ProcessRest(uri.value), true, [])
      else if !Utf8.Valid(all) then Turn(Writing(Response(400, NotUtf8(Utf8.ValidUpTo(all)))), true, [])
      else Dispatch(Text(all), alive)
  }

  function ProcessBody(uri: Option<Path>, request: Bytes, input: Input, max: U64): Turn {
    AfterRead(uri, ReadBody(request, input.body, max), input.aliveAtDispatch)
  }

  function Advance(cfg: Config, state: State, input: Input, serve: Job -> Answer): Turn {
    match state
    case ReadingHeaders(head, continueOnInvalidCors) =>
      Turn(ReadHeaders(cfg, head, continueOnInvalidCors, input.aliveAtHead), true, [])
    case ReadingBody(uri, request) => ProcessBody(uri, request, input, cfg.maxBody)
    case ProcessRest(uri) => Dispatch(RestJob(cfg, uri), input.aliveAtDispatch)
    case ProcessHealth(name) => Dispatch(Health(name), input.aliveAtDispatch)
    case Waiting(job) =>
      if input.done then Turn(Writing(AnswerResponse(job, serve(job))), true, []) else Turn(state, false, [])
    case _ => Turn(state, false, [])
  }

  /** How far a request still has to go. */
  function Rank(state: State): nat {
    match state
    case ReadingHeaders(_, _) => 4
    case ReadingBody(_, _) => 3
    case ProcessRest(_) => 2
    case ProcessHealth(_) => 2
    case Waiting(_) => 1
    case Writing(_) => 0
    case Done => 0
  }

  /** A transition after which polling goes on at once brings the request nearer to its end. */
  lemma ReadyLowersRank(cfg: Config, state: State, input: Input, serve: Job -> Answer)
    ensures var turn := Advance(cfg, state, input, serve);
      turn.Turn? && turn.ready ==> Rank(turn.state) < Rank(state)
  {
  }

  function Poll(cfg: Config, m: Machine, input: Input, serve: Job -> Answer): (Machine, Outcome)
    decreases Rank(m.state)
  {
    match Advance(cfg, m.state, input, serve)
    case Failure => (m.(state := Done), BodyFailed)
    case Turn(Writing(response), _, job) => (Machine(Done, m.dispatched + job), Answered(response))
    case Turn(state, ready, job) =>
      var next := Machine(state, m.dispatched + job);
      if ready then ReadyLowersRank(cfg, m.state, input, serve); Poll(cfg, next, input, serve) else (next, Pending)
  }

  class RequestHandler {
    const cfg: Config
    var state: State
    ghost var dispatched: seq<Job>

    ghost function Now(): Machine
      reads this
    {
      Machine(state, dispatched)
    }

    constructor (cfg: Config, head: Head, continueOnInvalidCors: bool)
      ensures this.cfg == cfg && Now() == Machine(ReadingHeaders(head, continueOnInvalidCors), [])
    {
      this.cfg := cfg;
      state, dispatched := ReadingHeaders(head, continueOnInvalidCors), [];
    }

    /** The loop of `process_body`. */
    method AccumulateBody(request: Bytes, polls: seq<BodyPoll>) returns (r: BodyState)
      ensures r == ReadBody(request, polls, cfg.maxBody)
    {
      var buffer := request;
      for i := 0 to |polls|
        invariant ReadBody(request, polls, cfg.maxBody) == ReadBody(buffer, polls[i..], cfg.maxBody)
      {
        assert polls[i..][1..] == polls[i + 1..];
        match polls[i] {
          case Chunk(bytes) =>
            if Exceeds(|buffer|, |bytes|, cfg.maxBody) {
              return Oversized;
            }
            buffer := buffer + bytes;
          case End => return Ended(buffer);
          case Broken => return Error;
        }
      }
      r := More(buffer);
    }

    method ProcessBodyOnce(uri: Option<Path>, request: Bytes, input: Input) returns (turn: Turn)
      ensures turn == ProcessBody(uri, request, input, cfg.maxBody)
    {
      var body := AccumulateBody(request, input.body);
      match body {
        case More(now) => turn := Turn(ReadingBody(uri, now), false, []);
        case Oversized => turn := Turn(Writing(Response(413, BodyTooLarge)), true, []);
        case Error => turn := Failure;
        case Ended(all) =>
          if uri.Some? && all == [] {
            turn := Turn(ProcessRest(uri.value), true, []);
          } else if !Utf8.Valid(all) {
            turn := Turn(Writing(Response(400, NotUtf8(Utf8.ValidUpTo(all)))), true, []);
          } else {
            turn := Dispatch(Text(all), input.aliveAtDispatch);
          }
      }
    }

    method PollOnce(input: Input, serve: Job -> Answer) returns (r: Outcome)
      modifies this
      ensures (Now(), r) == Poll(cfg, old(Now()), input, serve)
      decreases Rank(state)
    {
      var taken := state;
      state := Done;
      var turn;
      match taken {
        case ReadingBody(uri, request) => turn := ProcessBodyOnce(uri, request, input);
        case _ => turn := Advance(cfg, taken, input, serve);
      }
      if turn.Failure? {
        return BodyFailed;
      }
      dispatched := dispatched + turn.job;
      if turn.state.Writing? {
        return Answered(turn.state.response);
      }
      state := turn.state;
      if turn.ready {
        ReadyLowersRank(cfg, taken, input, serve);
        r := PollOnce(input, serve);
      } else {
        r := Pending;
      }
    }
  }
}

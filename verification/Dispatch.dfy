/**
 The request handler without middleware: a table of methods, notifications and aliases.

 A method may answer differently each time it is called; `occasion` stands for whatever of the
 world (metadata, server state) it can see at that call.
 */
module Dispatch {
  import opened Basics
  import opened JsonRpc

  datatype Compatibility = OnlyV1 | OnlyV2 | Both

  predicate VersionValid(c: Compatibility, v: Option<Version>) {
    match c
    case OnlyV1 => v.None?
    case OnlyV2 => v.Some?
    case Both => true
  }

  function DefaultVersion(c: Compatibility): Option<Version> {
    if c.OnlyV1? then None else Some(V2)
  }

  /** What a name of the table stands for; notification handlers are told apart by a number. */
  datatype Procedure =
    | Method(run: (Params, nat) -> CoreResult)
    | Notifier(handler: nat)
    | Alias(target: string)

  /** A notification handler run with these parameters. */
  datatype Effect = Notified(handler: nat, params: Params)

  datatype Handler = Handler(compatibility: Compatibility, methods: map<string, Procedure>)

  /** `HashMap::get`. */
  function Get(methods: map<string, Procedure>, name: string): Option<Procedure> {
    if name in methods then Some(methods[name]) else None
  }

  function HandleCall(h: Handler, call: Call, occasion: nat): (Option<Output>, seq<Effect>) {
    match call
    case MethodCall(jsonrpc, name, params, id) =>
      var result :=
        if !VersionValid(h.compatibility, jsonrpc) then Err(InvalidVersion())
        else match Get(h.methods, name)
             case Some(Method(run)) => run(params, occasion)
             case Some(Alias(target)) =>
               (match Get(h.methods, target)
                case Some(Method(run)) => run(params, occasion)
                case _ => Err(MethodNotFound()))
             case _ => Err(MethodNotFound());
      (Some(OutputFrom(result, id, jsonrpc)), [])
    case Notification(jsonrpc, name, params) =>
      if !VersionValid(h.compatibility, jsonrpc) then (None, [])
      else (None, match Get(h.methods, name)
                  case Some(Notifier(handler)) => [Notified(handler, params)]
                  case Some(Alias(target)) =>
                    (match Get(h.methods, target)
                     case Some(Notifier(handler)) => [Notified(handler, params)]
                     case _ => [])
                  case _ => [])
    case Invalid(id) => (Some(Failure(DefaultVersion(h.compatibility), InvalidRequest(), id)), [])
  }

  /**
   `join_all` over the calls of a batch, each on an occasion of its own: their outputs in order,
   and the notifications run.
   */
  function HandleCalls(h: Handler, calls: seq<Call>, occasion: nat): (seq<Option<Output>>, seq<Effect>) {
    if calls == [] then ([], [])
    else
      var (output, effects) := HandleCall(h, calls[0], occasion);
      var (outputs, more) := HandleCalls(h, calls[1..], occasion + 1);
      ([output] + outputs, effects + more)
  }

  function Flatten(outputs: seq<Option<Output>>): seq<Output> {
    if outputs == [] then []
    else (if outputs[0].Some? then [outputs[0].value] else []) + Flatten(outputs[1..])
  }

  function OutputsAsBatch(outputs: seq<Option<Output>>): Option<Response> {
    var outs := Flatten(outputs);
    if outs == [] then None else Some(BatchResponse(outs))
  }

  function HandleRequest(h: Handler, request: Request, occasion: nat): (Option<Response>, seq<Effect>) {
    match request
    case Single(call) =>
      var (output, effects) := HandleCall(h, call, occasion);
      (match output case Some(o) => Some(SingleResponse(o)) case None => None, effects)
    case Batch(calls) =>
      var (outputs, effects) := HandleCalls(h, calls, occasion);
      (OutputsAsBatch(outputs), effects)
  }

  /** A text that is not a request is answered with a parse error. */
  function HandleText(h: Handler, request: Option<Request>, occasion: nat): (Option<Response>, seq<Effect>) {
    match request
    case None => (Some(SingleResponse(Failure(DefaultVersion(h.compatibility), ParseError(), NullId))), [])
    case Some(r) => HandleRequest(h, r, occasion)
  }

  // ---------------------------------------------------------------- answers of a batch

  /** The calls of section 6 of the JSON-RPC 2.0 specification that are answered. */
  predicate WantsAnswer(call: Call) { !call.Notification? }

  datatype Asked = Asked(call: Call, occasion: nat)

  /** The calls that are answered, in order, with the occasion of each. */
  function Answered(calls: seq<Call>, occasion: nat): (r: seq<Asked>)
    ensures forall i :: 0 <= i < |r| ==> WantsAnswer(r[i].call)
  {
    if calls == [] then []
    else (if WantsAnswer(calls[0]) then [Asked(calls[0], occasion)] else []) + Answered(calls[1..], occasion + 1)
  }

  lemma {:induction false} BatchOutputs(h: Handler, calls: seq<Call>, occasion: nat)
    ensures var outs := Flatten(HandleCalls(h, calls, occasion).0); var asked := Answered(calls, occasion);
      && |outs| == |asked|
      && forall i :: 0 <= i < |asked| ==>
           && outs[i].id == asked[i].call.id
           && Some(outs[i]) == HandleCall(h, asked[i].call, asked[i].occasion).0
  {
    if calls != [] {
      BatchOutputs(h, calls[1..], occasion + 1);
      var rest := HandleCalls(h, calls[1..], occasion + 1).0;
      assert HandleCalls(h, calls, occasion).0 == [HandleCall(h, calls[0], occasion).0] + rest;
    }
  }

  /**
   A batch is answered by one output for each call that wants one, in order and under the call's
   id, and by nothing at all exactly when no call wants an answer.
   */
  lemma BatchAnswers(h: Handler, calls: seq<Call>, occasion: nat)
    ensures var response := HandleRequest(h, Batch(calls), occasion).0; var asked := Answered(calls, occasion);
      && (response.None? <==> forall i :: 0 <= i < |calls| ==> calls[i].Notification?)
      && (response.Some? ==>
            && response.value.BatchResponse? && |response.value.outputs| == |asked|
            && forall i :: 0 <= i < |asked| ==>
                 && response.value.outputs[i].id == asked[i].call.id
                 && HandleRequest(h, Single(asked[i].call), asked[i].occasion).0
                    == Some(SingleResponse(response.value.outputs[i])))
  {
    BatchOutputs(h, calls, occasion);
    NobodyAsks(calls, occasion);
  }

  lemma {:induction false} NobodyAsks(calls: seq<Call>, occasion: nat)
    ensures Answered(calls, occasion) == [] <==> forall i :: 0 <= i < |calls| ==> calls[i].Notification?
  {
    if calls != [] {
      NobodyAsks(calls[1..], occasion + 1);
      assert forall i :: 0 < i < |calls| ==> calls[i] == calls[1..][i - 1];
    }
  }

  // ---------------------------------------------------------------- aliases

  /** What a name stands for when every alias is replaced by its target, one level deep. */
  function Resolve(methods: map<string, Procedure>, name: string): Option<Procedure> {
    match Get(methods, name)
    case Some(Alias(target)) =>
      (match Get(methods, target)
       case Some(Alias(_)) => None
       case other => other)
    case other => other
  }

  /** The table without aliases: each name that resolves, with what it resolves to. */
  function WithoutAliases(methods: map<string, Procedure>): (r: map<string, Procedure>)
    ensures forall name :: name in r ==> !r[name].Alias?
    ensures forall name :: Get(r, name) == Resolve(methods, name)
  {
    map name | name in methods && Resolve(methods, name).Some? :: Resolve(methods, name).value
  }

  /** Dispatch with aliases is dispatch on the table without them. */
  lemma AliasesResolve(h: Handler, request: Option<Request>, occasion: nat)
    ensures HandleText(h, request, occasion) == HandleText(h.(methods := WithoutAliases(h.methods)), request, occasion)
  {
    if request.Some? && request.value.Batch? {
      AliasesResolveInBatch(h, request.value.calls, occasion);
    } else if request.Some? {
      AliasesResolveInCall(h, request.value.call, occasion);
    }
  }

  lemma AliasesResolveInCall(h: Handler, call: Call, occasion: nat)
    ensures HandleCall(h, call, occasion) == HandleCall(h.(methods := WithoutAliases(h.methods)), call, occasion)
  {
    if !call.Invalid? {
      var direct := WithoutAliases(h.methods);
      assert Get(direct, call.name) == Resolve(h.methods, call.name);
    }
  }

  lemma {:induction false} AliasesResolveInBatch(h: Handler, calls: seq<Call>, occasion: nat)
    ensures HandleCalls(h, calls, occasion) == HandleCalls(h.(methods := WithoutAliases(h.methods)), calls, occasion)
  {
    if calls != [] {
      AliasesResolveInCall(h, calls[0], occasion);
      AliasesResolveInBatch(h, calls[1..], occasion + 1);
    }
  }

  // ---------------------------------------------------------------- what each kind of call gets

  /** A call with a version is welcome unless only version 1 is spoken, one without unless only version 2 is. */
  predicate Welcome(c: Compatibility, v: Option<Version>) { if v.Some? then !c.OnlyV1? else !c.OnlyV2? }

  /** The version named in answers to what is no call. */
  predicate NamesVersion(c: Compatibility, v: Option<Version>) { v == if c.OnlyV1? then None else Some(V2) }

  /** What the caller of a method is owed. */
  function Owed(h: Handler, jsonrpc: Option<Version>, name: string, params: Params, occasion: nat): CoreResult {
    if !Welcome(h.compatibility, jsonrpc) then Err(Error(-32600, "Unsupported JSON-RPC protocol version", None))
    else match Resolve(h.methods, name)
      case Some(Method(run)) => run(params, occasion)
      case _ => Err(Error(-32601, "Method not found", None))
  }

  /**
   A call is answered under its own id and version: with the version error when the version is not
   welcome, else by the one method its name resolves to, else with method not found.
   */
  lemma CallIsAnswered(h: Handler, jsonrpc: Option<Version>, name: string, params: Params, id: Id, occasion: nat)
    ensures var (output, effects) := HandleCall(h, MethodCall(jsonrpc, name, params, id), occasion);
      var owed := Owed(h, jsonrpc, name, params, occasion);
      && effects == []
      && (owed.Ok? ==> output == Some(Success(jsonrpc, owed.value, id)))
      && (owed.Err? ==> output == Some(Failure(jsonrpc, owed.error, id)))
  {
    AliasesResolveInCall(h, MethodCall(jsonrpc, name, params, id), occasion);
  }

  /** The handler that a call is to run without an answer. */
  function Effects(h: Handler, call: Call): seq<Effect> {
    match call
    case Notification(jsonrpc, name, params) =>
      if !Welcome(h.compatibility, jsonrpc) then []
      else (match Resolve(h.methods, name)
            case Some(Notifier(handler)) => [Notified(handler, params)]
            case _ => [])
    case _ => []
  }

  /** A notification is never answered, and runs the handler its name resolves to, if any, once. */
  lemma NotificationIsRun(h: Handler, jsonrpc: Option<Version>, name: string, params: Params, occasion: nat)
    ensures var call := Notification(jsonrpc, name, params);
      HandleCall(h, call, occasion) == (None, Effects(h, call))
  {
    AliasesResolveInCall(h, Notification(jsonrpc, name, params), occasion);
  }

  /** An invalid call is answered with an invalid request under its id, an unreadable text with a parse error. */
  lemma InvalidIsAnswered(h: Handler, id: Id, occasion: nat)
    ensures var (output, effects) := HandleCall(h, Invalid(id), occasion);
      && effects == [] && output.Some? && output.value.Failure? && output.value.id == id
      && output.value.error == Error(-32600, "Invalid request", None)
      && NamesVersion(h.compatibility, output.value.jsonrpc)
    ensures var (response, effects) := HandleText(h, None, occasion);
      && effects == [] && response.Some? && response.value.SingleResponse?
      && var output := response.value.output;
         && output.Failure? && output.id == NullId && output.error == Error(-32700, "Parse error", None)
         && NamesVersion(h.compatibility, output.jsonrpc)
  {
  }

  function AllEffects(h: Handler, calls: seq<Call>): seq<Effect> {
    if calls == [] then [] else Effects(h, calls[0]) + AllEffects(h, calls[1..])
  }

  lemma CallEffects(h: Handler, call: Call, occasion: nat)
    ensures HandleCall(h, call, occasion).1 == Effects(h, call)
  {
    if call.Notification? { NotificationIsRun(h, call.jsonrpc, call.name, call.params, occasion); }
  }

  lemma {:induction false} BatchRuns(h: Handler, calls: seq<Call>, occasion: nat)
    ensures HandleCalls(h, calls, occasion).1 == AllEffects(h, calls)
  {
    if calls != [] {
      CallEffects(h, calls[0], occasion);
      BatchRuns(h, calls[1..], occasion + 1);
    }
  }

  /** Single or in a batch, every notification runs its own handler once, in order, and nothing else runs. */
  lemma RequestEffects(h: Handler, request: Request, occasion: nat)
    ensures HandleText(h, Some(request), occasion).1
         == if request.Single? then Effects(h, request.call) else AllEffects(h, request.calls)
  {
    match request
    case Single(call) => CallEffects(h, call, occasion);
    case Batch(calls) => BatchRuns(h, calls, occasion);
  }
}

/** What the client makes of a text from the server, and what the server's typed sink writes. */
module ClientMessages {
  import opened Basics
  import opened JsonRpc

  datatype SubscriptionId = NumberId(n: U64) | TextId(s: string)

  function ParseSubscriptionId(v: Value): Option<SubscriptionId> {
    match v
    case Text(s) => Some(TextId(s))
    case Number(Unsigned(n)) => Some(NumberId(n))
    case _ => None
  }

  function SubscriptionIdValue(id: SubscriptionId): (v: Value)
    ensures ParseSubscriptionId(v) == Some(id)
  {
    match id
    case NumberId(n) => Number(Unsigned(n))
    case TextId(s) => Text(s)
  }

  /** A value is read as an id exactly when it is that id's value. */
  lemma SubscriptionIdReadIff(v: Value, id: SubscriptionId)
    ensures ParseSubscriptionId(v) == Some(id) <==> v == SubscriptionIdValue(id)
  {
  }

  datatype RpcError = JsonRpcError(error: Error) | Unparsable | ClientError(message: string)

  type RpcResult = Result<Value, RpcError>

  /** A text from the server as the client's JSON parser sees it. */
  datatype ServerText =
    | Reply(output: Output)
    | Notice(name: string, params: Params)
    | Garbage

  /** One entry of the incoming queue. */
  datatype Incoming = Incoming(id: Id, result: RpcResult, name: Option<string>, sid: Option<SubscriptionId>)

  /** How an "error" member is read back as an error object; JSON deserialization is not modelled. */
  type ErrorReader = Value -> Option<Error>

  function Lookup(m: map<string, Value>, key: string): Option<Value> { if key in m then Some(m[key]) else None }

  function NoticeSid(params: Params): Option<SubscriptionId> {
    match params
    case Named(m) => (match Lookup(m, "subscription") case Some(v) => ParseSubscriptionId(v) case None => None)
    case _ => None
  }

  function NoticeResult(params: Params, readError: ErrorReader): CoreResult {
    match params
    case Named(m) =>
      (match (Lookup(m, "subscription"), Lookup(m, "result"), Lookup(m, "error"))
       case (Some(_), Some(result), _) => Ok(result)
       case (Some(_), _, Some(error)) =>
         Err(match readError(error) case Some(e) => e case None => ParseError())
       case _ => Ok(ParamsValue(params)))
    case _ => Ok(ParamsValue(params))
  }

  function AsRpcResult(r: CoreResult): RpcResult {
    match r case Ok(v) => Ok(v) case Err(e) => Err(JsonRpcError(e))
  }

  function ParseResponse(text: ServerText, readError: ErrorReader): Result<Incoming, RpcError> {
    match text
    case Reply(output) => Ok(Incoming(output.id, AsRpcResult(OutputResult(output)), None, None))
    case Notice(name, params) =>
      Ok(Incoming(NullId, AsRpcResult(NoticeResult(params, readError)), Some(name), NoticeSid(params)))
    case Garbage => Err(Unparsable)
  }

  /** An output is read as the result it holds, under its id. */
  lemma ReplyIsRead(output: Output, readError: ErrorReader)
    ensures var r := ParseResponse(Reply(output), readError);
      && r.Ok? && r.value.id == output.id && r.value.name == None && r.value.sid == None
      && (output.Success? ==> r.value.result == Ok(output.result))
      && (output.Failure? ==> r.value.result == Err(JsonRpcError(output.error)))
  {
  }

  /** What a notification's params say: the result or, failing that, the error of a subscription, else themselves. */
  predicate SaysResult(params: Params, result: RpcResult, readError: ErrorReader) {
    match params
    case NoParams => result == Ok(Null)
    case Positional(args) => result == Ok(Array(args))
    case Named(m) =>
      if "subscription" in m && "result" in m then result == Ok(m["result"])
      else if "subscription" in m && "error" in m then
        result == Err(JsonRpcError(if readError(m["error"]).Some? then readError(m["error"]).value
                                   else Error(-32700, "Parse error", None)))
      else result == Ok(Object(m))
  }

  /** A notification is read under no id, with its name, its subscription id if it has one, and what it says. */
  lemma NoticeIsRead(name: string, params: Params, readError: ErrorReader)
    ensures var r := ParseResponse(Notice(name, params), readError);
      && r.Ok? && r.value.id == NullId && r.value.name == Some(name) && SaysResult(params, r.value.result, readError)
      && forall id :: r.value.sid == Some(id) <==>
           params.Named? && "subscription" in params.args_by_name
           && params.args_by_name["subscription"] == SubscriptionIdValue(id)
  {
    if params.Named? && "subscription" in params.args_by_name {
      forall id {
        SubscriptionIdReadIff(params.args_by_name["subscription"], id);
      }
    }
  }

  // ---------------------------------------------------------------- the server's side of a notification

  /** The parameters that the typed sink of subscription `id` sends for a value or an error. */
  function SinkParams(id: SubscriptionId, item: Result<Value, Value>): Params {
    Named(map["subscription" := SubscriptionIdValue(id)]
          + (match item case Ok(v) => map["result" := v] case Err(e) => map["error" := e]))
  }

  /** The client reads back from a sink's notification the subscription and the item it was sent for. */
  lemma SinkIsReadBack(name: string, id: SubscriptionId, item: Result<Value, Value>, readError: ErrorReader)
    ensures ParseResponse(Notice(name, SinkParams(id, item)), readError)
      == Ok(Incoming(NullId,
                     (match item
                      case Ok(v) => Ok(v)
                      case Err(e) =>
                        Err(JsonRpcError(if readError(e).Some? then readError(e).value else ParseError()))),
                     Some(name), Some(id)))
  {
    var m := SinkParams(id, item).args_by_name;
    assert "result" != "error" by { assert "result"[0] != "error"[0]; }
    assert "subscription" != "result" && "subscription" != "error" by {
      assert "subscription"[0] != "result"[0] && "subscription"[0] != "error"[0];
    }
    assert m["subscription"] == SubscriptionIdValue(id);
  }
}

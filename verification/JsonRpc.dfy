/** The JSON-RPC values that travel between client and server, after JSON parsing. */
module JsonRpc {
  import opened Basics

  datatype Number = Unsigned(n: U64) | OtherNumber(text: string)

  datatype Value =
    | Null
    | Bool(b: bool)
    | Number(number: Number)
    | Text(s: string)
    | Array(elements: seq<Value>)
    | Object(members: map<string, Value>)

  datatype Params = NoParams | Positional(args: seq<Value>) | Named(args_by_name: map<string, Value>)

  function ParamsValue(p: Params): Value {
    match p
    case NoParams => Null
    case Positional(args) => Array(args)
    case Named(members) => Object(members)
  }

  datatype Id = NullId | Num(n: U64) | Str(s: string)

  /** The one protocol version that is ever named, "2.0". */
  datatype Version = V2

  datatype Error = Error(code: int, message: string, data: Option<Value>)

  function ParseError(): Error { Error(-32700, "Parse error", None) }
  function InvalidRequest(): Error { Error(-32600, "Invalid request", None) }
  function InvalidVersion(): Error { Error(-32600, "Unsupported JSON-RPC protocol version", None) }
  function MethodNotFound(): Error { Error(-32601, "Method not found", None) }
  function InvalidParams(message: string): Error { Error(-32602, message, None) }

  type CoreResult = Result<Value, Error>

  datatype Call =
    | MethodCall(jsonrpc: Option<Version>, name: string, params: Params, id: Id)
    | Notification(jsonrpc: Option<Version>, name: string, params: Params)
    | Invalid(id: Id)

  datatype Request = Single(call: Call) | Batch(calls: seq<Call>)

  datatype Output =
    | Success(jsonrpc: Option<Version>, result: Value, id: Id)
    | Failure(jsonrpc: Option<Version>, error: Error, id: Id)

  function OutputFrom(result: CoreResult, id: Id, jsonrpc: Option<Version>): Output {
    match result
    case Ok(value) => Success(jsonrpc, value, id)
    case Err(error) => Failure(jsonrpc, error, id)
  }

  function OutputResult(o: Output): CoreResult {
    match o
    case Success(_, result, _) => Ok(result)
    case Failure(_, error, _) => Err(error)
  }

  datatype Response = SingleResponse(output: Output) | BatchResponse(outputs: seq<Output>)
}

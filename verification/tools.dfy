/** The tool executor of the chat handler (`executeToolCalls`): every tool
    call requested by the model becomes a resolved call carrying either the
    tool's result or an error payload; no failure escapes. */
module Tools {
  import opened Wrappers

  /** Structured values as `JSON.parse` produces them. Numbers are kept as
      integers; the model never looks inside them. */
  datatype Json =
    | JNull
    | JBool(b: bool)
    | JNumber(n: int)
    | JString(s: string)
    | JArray(items: seq<Json>)
    | JObject(members: seq<Member>)

  datatype Member = Member(key: string, value: Json)

  /** What a failing `JSON.parse` or tool throws: an `Error` instance with
      its message, or some other value. */
  datatype Thrown = ErrorInstance(message: string) | OtherValue

  /** A tool call as the model issued it: an id, the function name and the
      raw argument text. */
  datatype PendingCall = PendingCall(id: string, name: string, arguments: string)

  /** A tool call after execution. */
  datatype ToolCall = ToolCall(id: string, name: string, arguments: Json, result: Json)

  /** The parser (`JSON.parse`) and the tool registry (`executeTool`) the
      executor calls; both may throw. */
  type Parser = string -> Result<Json, Thrown>
  type Executor = (string, Json) -> Result<Json, Thrown>

  const EmptyObject: Json := JObject([])

  function ErrorPayload(message: string): Json
  {
    JObject([Member("error", JString(message))])
  }

  const FailurePrefix: string := "Failed to execute "
  const UnknownError: string := "Unknown error"

  /** The text of the error payload. */
  function FailureMessage(name: string, e: Thrown): string
  {
    FailurePrefix + name + ": " + (if e.ErrorInstance? then e.message else UnknownError)
  }

  /** The error text names the tool after a fixed prefix and ends with the
      message of an `Error`, or with "Unknown error" for any other thrown
      value. */
  lemma FailureMessageShape(name: string, e: Thrown)
    ensures var m := FailureMessage(name, e);
      && |FailurePrefix| + |name| + 2 <= |m|
      && m[..|FailurePrefix|] == FailurePrefix
      && m[|FailurePrefix|..|FailurePrefix| + |name|] == name
      && (e.OtherValue? ==> |UnknownError| <= |m| && m[|m| - |UnknownError|..] == UnknownError)
      && (e.ErrorInstance? ==> |e.message| <= |m| && m[|m| - |e.message|..] == e.message)
  {
    var tail := if e.ErrorInstance? then e.message else UnknownError;
    var m := FailureMessage(name, e);
    assert m == FailurePrefix + (name + (": " + tail));
    assert m == (FailurePrefix + name + ": ") + tail;
  }

  /** Empty argument text stands for `{}` and is not handed to the parser. */
  function ParseArguments(text: string, parse: Parser): Result<Json, Thrown>
  {
    if text == "" then Success(EmptyObject) else parse(text)
  }

  /** Whether parsing and running the call go through without a throw. */
  predicate Succeeds(call: PendingCall, parse: Parser, exec: Executor)
  {
    var args := ParseArguments(call.arguments, parse);
    args.Success? && exec(call.name, args.value).Success?
  }

  /** The `try`/`catch` around one call. */
  function Execute(call: PendingCall, parse: Parser, exec: Executor): (r: ToolCall)
    ensures r.id == call.id && r.name == call.name
    ensures Succeeds(call, parse, exec) ==>
              var args := ParseArguments(call.arguments, parse).value;
              r.arguments == args && r.result == exec(call.name, args).value
    ensures !Succeeds(call, parse, exec) ==>
              r.arguments == EmptyObject &&
              r.result == ErrorPayload(FailureMessage(call.name, Caught(call, parse, exec)))
  {
    match ParseArguments(call.arguments, parse)
    case Failure(e) => ToolCall(call.id, call.name, EmptyObject, ErrorPayload(FailureMessage(call.name, e)))
    case Success(args) =>
      match exec(call.name, args)
      case Failure(e) => ToolCall(call.id, call.name, EmptyObject, ErrorPayload(FailureMessage(call.name, e)))
      case Success(v) => ToolCall(call.id, call.name, args, v)
  }

  /** What the `catch` receives when the call does not go through. */
  function Caught(call: PendingCall, parse: Parser, exec: Executor): Thrown
    requires !Succeeds(call, parse, exec)
  {
    match ParseArguments(call.arguments, parse)
    case Failure(e) => e
    case Success(args) => exec(call.name, args).error
  }

  /** `Promise.all(calls.map(...))`: one resolved call per request, in the
      same order, each carrying the request's id and name. */
  function ExecuteToolCalls(calls: seq<PendingCall>, parse: Parser, exec: Executor): (r: seq<ToolCall>)
    ensures |r| == |calls|
    ensures forall i :: 0 <= i < |calls| ==> r[i] == Execute(calls[i], parse, exec)
    ensures forall i :: 0 <= i < |calls| ==> r[i].id == calls[i].id && r[i].name == calls[i].name
    decreases |calls|
  {
    if calls == [] then []
    else [Execute(calls[0], parse, exec)] + ExecuteToolCalls(calls[1..], parse, exec)
  }

  /** A call with empty argument text resolves with `{}` as its arguments,
      whether it succeeds or fails. */
  lemma EmptyArgumentsResolveToEmptyObject(call: PendingCall, parse: Parser, exec: Executor)
    requires call.arguments == ""
    ensures Execute(call, parse, exec).arguments == EmptyObject
  {
  }

  /** A failure in one call leaves every other call's result as it would be
      alone: the batch is never aborted. */
  lemma FailureIsolated(calls: seq<PendingCall>, parse: Parser, exec: Executor, k: nat, i: nat)
    requires k < |calls| && i < |calls| && i != k
    requires !Succeeds(calls[k], parse, exec)
    ensures ExecuteToolCalls(calls, parse, exec)[k].result
         == ErrorPayload(FailureMessage(calls[k].name, Caught(calls[k], parse, exec)))
    ensures ExecuteToolCalls(calls, parse, exec)[i] == Execute(calls[i], parse, exec)
  {
  }
}

/** The worker's line-framed JSON-RPC server (workers/py/narrowmind_workers/rpc/server.py).

    Handlers are arbitrary: what one does with a line is a parameter. */
module RpcServer {
  import opened Options
  import opened Json
  import opened Sequences

  const PARSE_ERROR := -32700
  const INVALID_REQUEST := -32600
  const METHOD_NOT_FOUND := -32601
  const INVALID_PARAMS := -32602
  const INTERNAL_ERROR := -32603

  /** How a handler ends: with a value, with a structured error, or by any other exception. */
  datatype HandlerResult =
    | Returned(value: Json)
    | Raised(code: int, message: string, data: Json)
    | Crashed(text: string)

  /** Mutable map of method name to handler; handlers are known by number. */
  class MethodRegistry {
    var methods: map<string, nat>

    constructor ()
      ensures methods == map[]
    {
      methods := map[];
    }

    /** Registering a name twice is refused and changes nothing. */
    method Register(name: string, handler: nat) returns (ok: bool)
      modifies this
      ensures ok <==> name !in old(methods)
      ensures methods == if ok then old(methods)[name := handler] else old(methods)
    {
      if name in methods {
        return false;
      }
      methods := methods[name := handler];
      return true;
    }
  }

  function ErrorBody(code: int, message: string): Json {
    Obj(map["code" := Num(code), "message" := Str(message)])
  }

  function ErrorResponse(id: Json, code: int, message: string): Json {
    Obj(map["jsonrpc" := Str("2.0"), "id" := id, "error" := ErrorBody(code, message)])
  }

  /** `data` is left out when there is none. */
  function RaisedResponse(id: Json, code: int, message: string, data: Json): Json {
    Obj(map["jsonrpc" := Str("2.0"), "id" := id,
            "error" := if data == Null then ErrorBody(code, message)
                       else Obj(map["code" := Num(code), "message" := Str(message), "data" := data])])
  }

  function OrNull(v: Option<Json>): Json {
    if v.Some? then v.value else Null
  }

  /** The values that count as false: a missing or false parameter object becomes the empty one. */
  predicate Falsy(v: Json) {
    v in {Null, Bool(false), Num(0), Frac(0.0), Str(""), Arr([]), Obj(map[])}
  }

  function ParamsOf(payload: Json): Json {
    var params := OrNull(payload.Get("params"));
    if Falsy(params) then Obj(map[]) else params
  }

  /** The reply to one line: `payload` is absent when the line is not JSON. */
  function HandleLine(names: set<string>, payload: Option<Json>, handler: (string, Json) -> HandlerResult): Option<Json> {
    if payload.None? then Some(ErrorResponse(Null, PARSE_ERROR, "parse error"))
    else if !payload.value.Obj? || payload.value.Get("jsonrpc") != Some(Str("2.0")) then
      Some(ErrorResponse(OrNull(payload.value.Get("id")), INVALID_REQUEST, "invalid request: missing or wrong jsonrpc version"))
    else
      var id := OrNull(payload.value.Get("id"));
      var method_ := payload.value.GetStr("method");
      var params := ParamsOf(payload.value);
      if method_.None? then Some(ErrorResponse(id, INVALID_REQUEST, "invalid request: method must be a string"))
      else if !params.Obj? then Some(ErrorResponse(id, INVALID_PARAMS, "invalid params: must be an object"))
      else if method_.value !in names then
        if id == Null then None
        else Some(ErrorResponse(id, METHOD_NOT_FOUND, "method not found: " + method_.value))
      else
        var result := handler(method_.value, params);
        if id == Null then None
        else match result
          case Returned(value) => Some(Obj(map["jsonrpc" := Str("2.0"), "id" := id, "result" := value]))
          case Raised(code, message, data) => Some(RaisedResponse(id, code, message, data))
          case Crashed(text) => Some(ErrorResponse(id, INTERNAL_ERROR, "handler raised " + text))
  }

  /** A notification frame: a method and parameters, no id. */
  function Notification(name: string, params: Json): Json {
    Obj(map["jsonrpc" := Str("2.0"), "method" := Str(name), "params" := params])
  }

  /** A line read from standard input: nothing on it, or text that may or may not be JSON, with
      what the handler does when it is reached. */
  datatype Input =
    | Blank
    | Content(payload: Option<Json>, notes: seq<(string, Json)>, handler: (string, Json) -> HandlerResult)

  predicate ReachesHandler(names: set<string>, payload: Option<Json>) {
    && payload.Some? && payload.value.Get("jsonrpc") == Some(Str("2.0"))
    && payload.value.GetStr("method").Some? && payload.value.GetStr("method").value in names
    && ParamsOf(payload.value).Obj?
  }

  function Notes(notes: seq<(string, Json)>): seq<Json> {
    FlatMap((n: (string, Json)) => [Notification(n.0, n.1)], notes)
  }

  /** What one input line adds to standard output: the handler's notifications, then the reply. */
  function LinesFor(names: set<string>, input: Input): seq<Json> {
    match input
    case Blank => []
    case Content(payload, notes, handler) =>
      (if ReachesHandler(names, payload) then Notes(notes) else [])
      + (match HandleLine(names, payload, handler) case None => [] case Some(reply) => [reply])
  }

  class JsonRpcServer {
    const names: set<string>
    var stdout: seq<Json>

    constructor (names: set<string>)
      ensures this.names == names && stdout == []
    {
      this.names := names;
      stdout := [];
    }

    method Write(frame: Json)
      modifies this
      ensures stdout == old(stdout) + [frame]
    {
      stdout := stdout + [frame];
    }

    /** Serve line after line until standard input ends. */
    method ServeForever(stdin: seq<Input>)
      modifies this
      ensures stdout == old(stdout) + FlatMap((input: Input) => LinesFor(names, input), stdin)
    {
      ghost var f := (input: Input) => LinesFor(names, input);
      assert stdin[..0] == [];
      for i := 0 to |stdin|
        invariant stdout == old(stdout) + FlatMap(f, stdin[..i])
      {
        ghost var before := stdout;
        ServeLine(stdin[i]);
        assert stdin[..i + 1] == stdin[..i] + [stdin[i]];
        FlatMapConcat(f, stdin[..i], [stdin[i]]);
        FlatMapOne(f, stdin[i]);
        Regroup(old(stdout), FlatMap(f, stdin[..i]), f(stdin[i]));
      }
      assert stdin[..|stdin|] == stdin;
    }

    method ServeLine(input: Input)
      modifies this
      ensures stdout == old(stdout) + LinesFor(names, input)
    {
      if input.Blank? {
        return;
      }
      ghost var start := stdout;
      if ReachesHandler(names, input.payload) {
        var notes := Notes(input.notes);
        assert notes[..0] == [];
        for i := 0 to |notes|
          invariant stdout == start + notes[..i]
        {
          assert notes[..i + 1] == notes[..i] + [notes[i]];
          Write(notes[i]);
        }
        assert notes[..|notes|] == notes;
      }
      var response := HandleLine(names, input.payload, input.handler);
      if response.Some? {
        Write(response.value);
      }
    }
  }

  // ------------------------------------------------------------------------------------------
  // Laws
  // ------------------------------------------------------------------------------------------

  /** A reply as sections 4.1 and 5 of the JSON-RPC 2.0 specification want it: the version, the id
      given, and exactly one of a result and an error. */
  ghost predicate IsResponse(reply: Json, id: Json) {
    && reply.Obj? && reply.Get("jsonrpc") == Some(Str("2.0")) && reply.Get("id") == Some(id)
    && (reply.Get("result").Some? <==> reply.Get("error").None?)
  }

  /** Every reply is a response that echoes the request's id, or null when it has none. */
  lemma {:induction false} RepliesEchoId(names: set<string>, payload: Option<Json>, handler: (string, Json) -> HandlerResult)
    ensures var reply := HandleLine(names, payload, handler);
            reply.Some? ==> IsResponse(reply.value, if payload.None? then Null else OrNull(payload.value.Get("id")))
  {
    var reply := HandleLine(names, payload, handler);
    if reply.Some? {
      var fields := reply.value.fields;
      assert "id" in fields && "jsonrpc" in fields;
    }
  }

  /** Silence is kept exactly for well-formed notifications: no id (or a null one), a string method
      and object parameters.  Anything malformed is answered, with or without an id. */
  lemma {:induction false} SilentIffNotification(names: set<string>, payload: Option<Json>, handler: (string, Json) -> HandlerResult)
    ensures HandleLine(names, payload, handler).None?
       <==> && payload.Some? && payload.value.Get("jsonrpc") == Some(Str("2.0"))
            && OrNull(payload.value.Get("id")) == Null
            && payload.value.GetStr("method").Some? && ParamsOf(payload.value).Obj?
  {
  }

  /** A frame on standard output is a notification (no id) or a response (an id). */
  lemma {:induction false} NotesHaveNoId(notes: seq<(string, Json)>)
    ensures forall i | 0 <= i < |Notes(notes)| :: Notes(notes)[i].Get("id").None?
    decreases |notes|
  {
    if notes != [] {
      NotesHaveNoId(notes[1..]);
      var first := Notification(notes[0].0, notes[0].1);
      assert first.Get("id").None?;
      assert Notes(notes) == [first] + Notes(notes[1..]);
    }
  }

  function RepliesIn(frames: seq<Json>): seq<Json> {
    FlatMap((frame: Json) => if frame.Get("id").Some? then [frame] else [], frames)
  }

  lemma {:induction false} NoReplies(frames: seq<Json>)
    requires forall i | 0 <= i < |frames| :: frames[i].Get("id").None?
    ensures RepliesIn(frames) == []
    decreases |frames|
  {
    if frames != [] { NoReplies(frames[1..]); }
  }

  function ReplyTo(names: set<string>, input: Input): seq<Json> {
    match input
    case Blank => []
    case Content(payload, _, handler) =>
      (match HandleLine(names, payload, handler) case None => [] case Some(reply) => [reply])
  }

  /** Of the frames written, those with an id are exactly the replies to the lines read, in order,
      whatever notifications the handlers interleave. */
  lemma {:induction false} RepliesInOrder(names: set<string>, stdin: seq<Input>)
    ensures RepliesIn(FlatMap((input: Input) => LinesFor(names, input), stdin))
         == FlatMap((input: Input) => ReplyTo(names, input), stdin)
    decreases |stdin|
  {
    if stdin != [] {
      RepliesInOrder(names, stdin[1..]);
      RepliesOfLine(names, stdin[0]);
      FlatMapConcat((frame: Json) => if frame.Get("id").Some? then [frame] else [],
                    LinesFor(names, stdin[0]), FlatMap((input: Input) => LinesFor(names, input), stdin[1..]));
    }
  }

  lemma {:induction false} RepliesOfLine(names: set<string>, input: Input)
    ensures RepliesIn(LinesFor(names, input)) == ReplyTo(names, input)
  {
    if input.Content? {
      var f := (frame: Json) => if frame.Get("id").Some? then [frame] else [];
      var notes := if ReachesHandler(names, input.payload) then Notes(input.notes) else [];
      NotesHaveNoId(input.notes);
      NoReplies(notes);
      var reply := HandleLine(names, input.payload, input.handler);
      if reply.Some? {
        RepliesEchoId(names, input.payload, input.handler);
        FlatMapConcat(f, notes, [reply.value]);
        FlatMapOne(f, reply.value);
      } else {
        assert notes + [] == notes;
      }
    }
  }
}

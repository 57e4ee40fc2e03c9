/** What the worker's server answers and what it lets through, told from the line that came in
    (workers/py/narrowmind_workers/rpc/server.py:86-150, 165-190).  Error codes are those of section 5.1
    of the JSON-RPC 2.0 specification. */
module RpcServerLaws {
  import opened Options
  import opened Json
  import opened Sequences
  import opened RpcServer

  /** The payload is an object of version 2.0. */
  ghost predicate IsVersioned(payload: Option<Json>) {
    payload.Some? && payload.value.Obj? && payload.value.Get("jsonrpc") == Some(Str("2.0"))
  }

  /** It names a method. */
  ghost predicate Names(payload: Option<Json>, name: string) {
    IsVersioned(payload) && payload.value.Get("method") == Some(Str(name))
  }

  /** It brings these parameters: an object, or nothing that counts, which is the empty object. */
  ghost predicate Brings(payload: Json, params: Json) {
    match payload.Get("params")
    case Some(Obj(fields)) => params == Obj(fields)
    case Some(v) => v in {Null, Bool(false), Num(0), Frac(0.0), Str(""), Arr([])} && params == Obj(map[])
    case None => params == Obj(map[])
  }

  /** The request asks for a method there is, with parameters that can be had. */
  ghost predicate Calls(names: set<string>, payload: Option<Json>, name: string, params: Json) {
    Names(payload, name) && name in names && Brings(payload.value, params)
  }

  ghost predicate IsError(reply: Option<Json>, code: int) {
    && reply.Some? && reply.value.Get("result").None?
    && reply.value.Get("error").Some? && reply.value.Get("error").value.Get("code") == Some(Num(code))
  }

  lemma {:induction false} ErrorHasCode(id: Json, code: int, message: string)
    ensures IsError(Some(ErrorResponse(id, code, message)), code)
  {
    assert ErrorResponse(id, code, message).Get("error") == Some(ErrorBody(code, message));
  }

  /** Lines that name no method are refused with the code for their kind, with or without an id. */
  lemma {:induction false} Refusals(names: set<string>, payload: Option<Json>, handler: (string, Json) -> HandlerResult)
    ensures var reply := HandleLine(names, payload, handler);
            && (payload.None? ==> IsError(reply, -32700))
            && (payload.Some? && !IsVersioned(payload) ==> IsError(reply, -32600))
            && (IsVersioned(payload) && !(exists name :: Names(payload, name)) ==> IsError(reply, -32600))
  {
    if payload.None? {
      ErrorHasCode(Null, -32700, "parse error");
    } else {
      var id := OrNull(payload.value.Get("id"));
      ErrorHasCode(id, -32600, "invalid request: missing or wrong jsonrpc version");
      ErrorHasCode(id, -32600, "invalid request: method must be a string");
      if IsVersioned(payload) && payload.value.GetStr("method").Some? {
        assert Names(payload, payload.value.GetStr("method").value);
      }
    }
  }

  /** A method is refused for parameters that cannot be had, then for being unknown; an unknown method
      without an id is passed over in silence. */
  lemma {:induction false} MethodRefusals(
      names: set<string>, payload: Option<Json>, handler: (string, Json) -> HandlerResult, name: string)
    requires Names(payload, name)
    ensures var reply := HandleLine(names, payload, handler);
            if !(exists params :: Brings(payload.value, params)) then IsError(reply, -32602)
            else name in names || if OrNull(payload.value.Get("id")) == Null then reply.None? else IsError(reply, -32601)
  {
    var id := OrNull(payload.value.Get("id"));
    ErrorHasCode(id, -32602, "invalid params: must be an object");
    ErrorHasCode(id, -32601, "method not found: " + name);
    ParamsAreBrought(payload.value);
    if params :| Brings(payload.value, params) {
      assert ParamsOf(payload.value) == params;
    } else {
      assert !Brings(payload.value, ParamsOf(payload.value));
    }
  }

  lemma {:induction false} ParamsAreBrought(payload: Json)
    ensures ParamsOf(payload).Obj? ==> Brings(payload, ParamsOf(payload))
    ensures forall params | Brings(payload, params) :: params == ParamsOf(payload)
  {
  }

  /** A call that can be served is answered with what the handler makes of that very method and these
      very parameters: its value, its own error, or an internal error if it crashes. */
  lemma {:induction false} ServedByHandler(
      names: set<string>, payload: Option<Json>, handler: (string, Json) -> HandlerResult, name: string, params: Json)
    requires Calls(names, payload, name, params) && OrNull(payload.value.Get("id")) != Null
    ensures var reply := HandleLine(names, payload, handler);
            && reply.Some?
            && match handler(name, params)
               case Returned(value) => reply.value.Get("result") == Some(value)
               case Raised(code, message, data) =>
                 && IsError(reply, code)
                 && reply.value.Get("error").value.Get("message") == Some(Str(message))
                 && reply.value.Get("error").value.Get("data") == if data == Null then None else Some(data)
               case Crashed(_) => IsError(reply, -32603)
  {
    ParamsAreBrought(payload.value);
    var id := OrNull(payload.value.Get("id"));
    var reply := HandleLine(names, payload, handler);
    match handler(name, params) {
      case Returned(value) =>
        assert reply == Some(Obj(map["jsonrpc" := Str("2.0"), "id" := id, "result" := value]));
      case Raised(code, message, data) =>
        RaisedSays(id, code, message, data);
      case Crashed(text) =>
        ErrorHasCode(id, -32603, "handler raised " + text);
    }
  }

  lemma {:induction false} RaisedSays(id: Json, code: int, message: string, data: Json)
    ensures var reply := RaisedResponse(id, code, message, data);
            && IsError(Some(reply), code)
            && reply.Get("error").value.Get("message") == Some(Str(message))
            && reply.Get("error").value.Get("data") == if data == Null then None else Some(data)
  {
    var body := if data == Null then ErrorBody(code, message)
                else Obj(map["code" := Num(code), "message" := Str(message), "data" := data]);
    assert RaisedResponse(id, code, message, data).Get("error") == Some(body);
    assert body.Get("code") == Some(Num(code)) && body.Get("message") == Some(Str(message));
  }

  // ------------------------------------------------------------------------------------------
  // Notifications
  // ------------------------------------------------------------------------------------------

  ghost function NotesIn(frames: seq<Json>): seq<Json> {
    FlatMap((frame: Json) => if frame.Get("id").None? then [frame] else [], frames)
  }

  ghost predicate IsCall(names: set<string>, input: Input) {
    input.Content? && exists name, params :: Calls(names, input.payload, name, params)
  }

  /** The frames of the notifications made while one line was served: none unless a handler ran. */
  ghost function NoteFrames(names: set<string>, input: Input): seq<Json> {
    if IsCall(names, input) then
      seq(|input.notes|, i requires 0 <= i < |input.notes| =>
        Obj(map["jsonrpc" := Str("2.0"), "method" := Str(input.notes[i].0), "params" := input.notes[i].1]))
    else []
  }

  lemma {:induction false} NotesAt(notes: seq<(string, Json)>)
    ensures |Notes(notes)| == |notes|
    ensures forall i | 0 <= i < |notes| ::
              Notes(notes)[i] == Obj(map["jsonrpc" := Str("2.0"), "method" := Str(notes[i].0), "params" := notes[i].1])
    decreases |notes|
  {
    if notes != [] {
      NotesAt(notes[1..]);
      assert Notes(notes) == [Notification(notes[0].0, notes[0].1)] + Notes(notes[1..]);
    }
  }

  lemma {:induction false} AllAreNotes(frames: seq<Json>)
    requires forall i | 0 <= i < |frames| :: frames[i].Get("id").None?
    ensures NotesIn(frames) == frames
    decreases |frames|
  {
    if frames != [] {
      AllAreNotes(frames[1..]);
      assert frames == [frames[0]] + frames[1..];
    }
  }

  lemma {:induction false} ReachIsCall(names: set<string>, input: Input)
    requires input.Content?
    ensures ReachesHandler(names, input.payload) <==> IsCall(names, input)
  {
    if input.payload.Some? {
      ParamsAreBrought(input.payload.value);
      if ReachesHandler(names, input.payload) {
        assert Calls(names, input.payload, input.payload.value.GetStr("method").value, ParamsOf(input.payload.value));
      }
    }
  }

  lemma {:induction false} NotesOfLine(names: set<string>, input: Input)
    ensures NotesIn(LinesFor(names, input)) == NoteFrames(names, input)
  {
    if input.Content? {
      var f := (frame: Json) => if frame.Get("id").None? then [frame] else [];
      var notes := if ReachesHandler(names, input.payload) then Notes(input.notes) else [];
      ReachIsCall(names, input);
      NotesAt(input.notes);
      NotesHaveNoId(input.notes);
      AllAreNotes(notes);
      assert notes == NoteFrames(names, input);
      var reply := HandleLine(names, input.payload, input.handler);
      if reply.Some? {
        RepliesEchoId(names, input.payload, input.handler);
        FlatMapConcat(f, notes, [reply.value]);
        FlatMapOne(f, reply.value);
        assert notes + [] == notes;
      } else {
        assert notes + [] == notes;
      }
    }
  }

  /** Of the frames written, those without an id are exactly the notifications the handlers made, in
      order, none lost and none made up. */
  lemma {:induction false} NotificationsInOrder(names: set<string>, stdin: seq<Input>)
    ensures NotesIn(FlatMap((input: Input) => LinesFor(names, input), stdin))
         == FlatMap((input: Input) => NoteFrames(names, input), stdin)
    decreases |stdin|
  {
    if stdin != [] {
      NotificationsInOrder(names, stdin[1..]);
      NotesOfLine(names, stdin[0]);
      FlatMapConcat((frame: Json) => if frame.Get("id").None? then [frame] else [],
                    LinesFor(names, stdin[0]), FlatMap((input: Input) => LinesFor(names, input), stdin[1..]));
    }
  }
}

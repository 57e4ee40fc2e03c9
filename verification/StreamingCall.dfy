/** The one-shot worker call that streams notifications (crates/orchestrator/src/worker.rs:231-432).

    What reaches the waiting caller is a script of timed stimuli: bytes of the child's output, its
    end, and flips of the cancel switch.  A script that has run out means silence for ever. */
module StreamingCall {
  import opened Options
  import opened Json

  /** Bytes that end a line or do not; end of the output; a failing read; the cancel switch. */
  datatype Stimulus = Bytes(text: string, ends: bool) | Eof | ReadError | Flip(on: bool) | SenderDropped

  /** A stimulus and the time since the one before. */
  datatype Timed = Timed(gap: nat, what: Stimulus)

  datatype Note = Note(name: string, params: Json)

  datatype StreamResult =
    | Value(value: Json)
    | RpcError(code: int, message: string)
    | Malformed
    | EarlyExit
    | IoError
    | Timeout
    | Cancelled

  const REQUEST_ID := 1

  /** What a complete line comes to: a notification, nothing, or the end of the call. */
  datatype Heard = Notify(note: Note) | Nothing | End(result: StreamResult)

  function Hear(parse: string -> Option<Json>, line: string): Heard {
    match parse(line)
    case None => End(Malformed)
    case Some(frame) =>
      if frame.Get("id").None? then
        match frame.GetStr("method")
        case Some(name) => Notify(Note(name, OrElse(frame.Get("params"), Null)))
        case None => Nothing
      else if frame.GetU64("id") != Some(REQUEST_ID) then Nothing
      else match frame.Get("error")
        case Some(err) =>
          var code := match err.Get("code") case Some(n) => n.AsI64() case None => None;
          End(RpcError(OrElse(code, -1), OrElse(err.GetStr("message"), "unknown rpc error")))
        case None => (
          match frame.Get("result")
          case Some(value) => End(Value(value))
          case None => End(Malformed))
  }

  /** The call while it waits: the bytes of the line being read, the time since it last woke up,
      whether the cancel sender is still there, and what was passed on. */
  datatype Call = Call(partial: string, quiet: nat, cancelOpen: bool, notes: seq<Note>, result: Option<StreamResult>)

  const WAITING := Call("", 0, true, [], None)

  function Finish(c: Call, result: StreamResult): Call {
    c.(result := Some(result))
  }

  /** The call wakes up; the next round starts with an empty line and a full idle window. */
  function Wake(c: Call): Call {
    c.(partial := "", quiet := 0)
  }

  function TakeLine(parse: string -> Option<Json>, c: Call, line: string): Call {
    match Hear(parse, line)
    case Notify(note) => Wake(c).(notes := c.notes + [note])
    case Nothing => Wake(c)
    case End(result) => Finish(Wake(c), result)
  }

  function Receive(parse: string -> Option<Json>, idle: nat, c: Call, t: Timed): Call {
    if c.quiet + t.gap >= idle then Finish(c, Timeout)
    else match t.what
      case Bytes(text, true) => TakeLine(parse, c, c.partial + text)
      case Bytes(text, false) => c.(partial := c.partial + text, quiet := c.quiet + t.gap)
      case Eof =>
        if c.partial == "" then Finish(c, EarlyExit)
        else
          var c' := TakeLine(parse, c, c.partial);
          if c'.result.None? then Finish(c', EarlyExit) else c'
      case ReadError => Finish(c, IoError)
      case Flip(on) =>
        if !c.cancelOpen then c.(quiet := c.quiet + t.gap)
        else if on then Finish(c, Cancelled)
        else Wake(c)
      case SenderDropped =>
        if !c.cancelOpen then c.(quiet := c.quiet + t.gap) else Wake(c).(cancelOpen := false)
  }

  /** What the caller gets in the end. */
  datatype Outcome = Outcome(notes: seq<Note>, result: StreamResult)

  function Run(parse: string -> Option<Json>, idle: nat, c: Call, script: seq<Timed>): Outcome
    decreases |script|
  {
    if c.result.Some? then Outcome(c.notes, c.result.value)
    else if script == [] then Outcome(c.notes, Timeout)
    else Run(parse, idle, Receive(parse, idle, c, script[0]), script[1..])
  }

  /** What ends a wait; `last` marks a line after which the output has ended. */
  datatype Woken =
    | Line(text: string, last: bool)
    | OutputEnded
    | ReadFailed
    | SwitchMoved(on: bool)
    | SenderGone
    | TooQuiet

  /** How the call goes on after a wait. */
  function GoOn(parse: string -> Option<Json>, idle: nat, c: Call, w: Woken, rest: seq<Timed>): Outcome {
    match w
    case Line(text, false) => Run(parse, idle, TakeLine(parse, c, text), rest)
    case Line(text, true) =>
      var c' := TakeLine(parse, c, text);
      Outcome(c'.notes, OrElse(c'.result, EarlyExit))
    case OutputEnded => Outcome(c.notes, EarlyExit)
    case ReadFailed => Outcome(c.notes, IoError)
    case SwitchMoved(on) => if on then Outcome(c.notes, Cancelled) else Run(parse, idle, Wake(c), rest)
    case SenderGone => Run(parse, idle, Wake(c).(cancelOpen := false), rest)
    case TooQuiet => Outcome(c.notes, Timeout)
  }

  /** The three-way wait for a line, the idle timer or the cancel switch.  The line being read is
      dropped with the wait. */
  method Select(parse: string -> Option<Json>, idle: nat, script: seq<Timed>, c: Call) returns (w: Woken, rest: seq<Timed>)
    requires c.partial == "" && c.quiet == 0 && c.result.None?
    ensures Run(parse, idle, c, script) == GoOn(parse, idle, c, w, rest)
    ensures |rest| < |script| || w.TooQuiet?
    ensures w.SenderGone? || w.SwitchMoved? ==> c.cancelOpen
  {
    var line: string, slept: nat := "", 0;
    rest := script;
    while rest != []
      invariant |rest| <= |script|
      invariant Run(parse, idle, c, script) == Run(parse, idle, c.(partial := line, quiet := slept), rest)
    {
      var t := rest[0];
      if slept + t.gap >= idle { return TooQuiet, rest; }
      slept, rest := slept + t.gap, rest[1..];
      match t.what {
        case Bytes(text, ends) =>
          line := line + text;
          if ends { return Line(line, false), rest; }
        case Eof =>
          if line == "" { return OutputEnded, rest; }
          return Line(line, true), rest;
        case ReadError => return ReadFailed, rest;
        case Flip(on) => if c.cancelOpen { return SwitchMoved(on), rest; }
        case SenderDropped => if c.cancelOpen { return SenderGone, rest; }
      }
    }
    return TooQuiet, rest;
  }

  /** The call: it waits, passes notifications on and skips frames that are not the answer, until it
      ends; it ends as the stimuli, taken one by one, say. */
  method CallWorkerStreaming(parse: string -> Option<Json>, idle: nat, script: seq<Timed>)
      returns (result: StreamResult, notes: seq<Note>)
    ensures Outcome(notes, result) == Run(parse, idle, WAITING, script)
  {
    var cancelOpen, ended, rest := true, false, script;
    notes := [];
    while true
      invariant Run(parse, idle, WAITING, script) ==
                  if ended then Outcome(notes, EarlyExit) else Run(parse, idle, Call("", 0, cancelOpen, notes, None), rest)
      decreases |rest|, !ended
    {
      if ended { return EarlyExit, notes; }
      var w, rest' := Select(parse, idle, rest, Call("", 0, cancelOpen, notes, None));
      rest := rest';
      match w {
        case TooQuiet => return Timeout, notes;
        case OutputEnded => return EarlyExit, notes;
        case ReadFailed => return IoError, notes;
        case SwitchMoved(on) => if on { return Cancelled, notes; }
        case SenderGone => cancelOpen := false;
        case Line(text, last) =>
          ended := last;
          var parsed := parse(text);
          if parsed.None? { return Malformed, notes; }
          var frame := parsed.value;
          if frame.Get("id").None? {
            var name := frame.GetStr("method");
            if name.Some? { notes := notes + [Note(name.value, OrElse(frame.Get("params"), Null))]; }
          } else if frame.GetU64("id") == Some(REQUEST_ID) {
            var err := frame.Get("error");
            if err.Some? {
              var code := match err.value.Get("code") case Some(n) => n.AsI64() case None => None;
              return RpcError(OrElse(code, -1), OrElse(err.value.GetStr("message"), "unknown rpc error")), notes;
            }
            var value := frame.Get("result");
            if value.None? { return Malformed, notes; }
            return Value(value.value), notes;
          }
      }
    }
  }
}

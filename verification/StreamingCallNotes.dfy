/** What a streaming call passes on and what it returns, told from the frames on its lines
    (crates/orchestrator/src/worker.rs:326-430). */
module StreamingCallNotes {
  import opened Options
  import opened Json
  import opened Sequences
  import opened StreamingCall
  import opened StreamingCallLaws

  /** The frame answers the one request there is. */
  predicate IsAnswer(frame: Json) {
    frame.Get("id") == Some(Num(1))
  }

  /** The line is JSON and not the answer: a notification, or a frame nobody asked for. */
  predicate IsPassed(parse: string -> Option<Json>, line: string) {
    parse(line).Some? && !IsAnswer(parse(line).value)
  }

  /** What the answer tells the caller: an error goes before a result. */
  predicate Says(frame: Json, result: StreamResult) {
    match result
    case Value(value) => frame.Get("error").None? && frame.Get("result") == Some(value)
    case RpcError(code, message) => frame.Get("error").Some? && ErrorSays(frame.Get("error").value, code, message)
    case Malformed => frame.Get("error").None? && frame.Get("result").None?
    case _ => false
  }

  /** This event ends the call with this result. */
  predicate Decides(parse: string -> Option<Json>, event: Event, result: StreamResult) {
    match event
    case Ended => result == EarlyExit
    case Failed => result == IoError
    case FullLine(text) =>
      match parse(text)
      case None => result == Malformed
      case Some(frame) => IsAnswer(frame) && Says(frame, result)
  }

  /** A frame without an id that names a method is a notification; without parameters it brings null. */
  function NoteIn(parse: string -> Option<Json>, event: Event): seq<Note> {
    match event
    case FullLine(text) => (
      match parse(text)
      case Some(frame) => (
        match (frame.Get("id"), frame.Get("method"), frame.Get("params"))
        case (None, Some(Str(name)), Some(params)) => [Note(name, params)]
        case (None, Some(Str(name)), None) => [Note(name, Null)]
        case _ => [])
      case None => [])
    case _ => []
  }

  /** The notifications on these lines, in order. */
  function NotesIn(parse: string -> Option<Json>, events: seq<Event>): seq<Note> {
    FlatMap((event: Event) => NoteIn(parse, event), events)
  }

  predicate AllPassed(parse: string -> Option<Json>, events: seq<Event>) {
    forall i | 0 <= i < |events| :: events[i].FullLine? && IsPassed(parse, events[i].text)
  }

  lemma {:induction false} PassedLine(parse: string -> Option<Json>, text: string)
    requires IsPassed(parse, text)
    ensures match Hear(parse, text)
            case Notify(note) => NoteIn(parse, FullLine(text)) == [note]
            case Nothing => NoteIn(parse, FullLine(text)) == []
            case End(_) => false
  {
  }

  lemma {:induction false} DecidingLine(parse: string -> Option<Json>, text: string, result: StreamResult)
    requires Decides(parse, FullLine(text), result)
    ensures Hear(parse, text) == End(result)
  {
  }

  lemma {:induction false} NotesAfterFirst(parse: string -> Option<Json>, events: seq<Event>)
    requires events != []
    ensures NotesIn(parse, events) == NoteIn(parse, events[0]) + NotesIn(parse, events[1..])
  {
  }

  lemma {:induction false} PassedFirst(parse: string -> Option<Json>, notes: seq<Note>, events: seq<Event>)
    requires events != [] && events[0].FullLine? && IsPassed(parse, events[0].text)
    ensures Listen(parse, notes, events) == Listen(parse, notes + NoteIn(parse, events[0]), events[1..])
  {
    PassedLine(parse, events[0].text);
    assert notes + [] == notes;
  }

  lemma {:induction false} ListenPasses(parse: string -> Option<Json>, notes: seq<Note>, events: seq<Event>, n: nat)
    requires n <= |events| && AllPassed(parse, events[..n])
    ensures Listen(parse, notes, events) == Listen(parse, notes + NotesIn(parse, events[..n]), events[n..])
    decreases n
  {
    if n == 0 {
      assert events[0..] == events && notes + [] == notes;
    } else {
      var some, rest := events[..n], events[1..];
      assert some[0] == events[0] && some[1..] == rest[..n - 1] && rest[n - 1..] == events[n..];
      PassedFirst(parse, notes, events);
      ListenPasses(parse, notes + NoteIn(parse, events[0]), rest, n - 1);
      NotesAfterFirst(parse, some);
      Regroup(notes, NoteIn(parse, events[0]), NotesIn(parse, some[1..]));
    }
  }

  lemma {:induction false} ListenDecides(
      parse: string -> Option<Json>, events: seq<Event>, n: nat, result: StreamResult)
    requires n <= |events| && AllPassed(parse, events[..n])
    requires if n < |events| then Decides(parse, events[n], result) else result == Timeout
    ensures Listen(parse, [], events) == Outcome(NotesIn(parse, events[..n]), result)
  {
    ListenPasses(parse, [], events, n);
    assert [] + NotesIn(parse, events[..n]) == NotesIn(parse, events[..n]);
    if n < |events| && events[n].FullLine? {
      DecidingLine(parse, events[n].text, result);
    }
  }

  /** End to end: while the switch keeps still inside lines and no wait is too long, the caller gets, in
      order and once each, exactly the notifications on the lines before the first one that is no JSON
      or carries the id of the request, and this line, or the end of the output, decides the result. */
  lemma {:induction false} CallSaysWhatItsLinesSay(
      parse: string -> Option<Json>, idle: nat, script: seq<Timed>, n: nat, result: StreamResult)
    requires Calm(script, "", true) && Steady(idle, script, 0, true) && !TurnedOn(script)
    requires var events := Events(script, "");
             && n <= |events| && AllPassed(parse, events[..n])
             && if n < |events| then Decides(parse, events[n], result) else result == Timeout
    ensures Run(parse, idle, WAITING, script) == Outcome(NotesIn(parse, Events(script, "")[..n]), result)
  {
    CallHearsTheLines(parse, idle, script);
    ListenDecides(parse, Events(script, ""), n, result);
  }

  /** Every line decides or is passed, so some result is always told. */
  lemma {:induction false} SomethingDecides(parse: string -> Option<Json>, events: seq<Event>)
      returns (n: nat, result: StreamResult)
    ensures n <= |events| && AllPassed(parse, events[..n])
    ensures if n < |events| then Decides(parse, events[n], result) else result == Timeout
    decreases |events|
  {
    n, result := 0, Timeout;
    if events != [] {
      var first := events[0];
      if first.FullLine? && IsPassed(parse, first.text) {
        n, result := SomethingDecides(parse, events[1..]);
        assert events[..n + 1] == [first] + events[1..][..n];
        n := n + 1;
      } else {
        result := match first case Ended => EarlyExit case Failed => IoError case FullLine(text) => ResultOf(parse(text));
      }
    }
  }

  function ResultOf(frame: Option<Json>): StreamResult {
    if frame.None? then Malformed
    else match frame.value.Get("error")
      case Some(err) =>
        var code := match err.Get("code") case Some(n) => n.AsI64() case None => None;
        RpcError(OrElse(code, -1), OrElse(err.GetStr("message"), "unknown rpc error"))
      case None => (match frame.value.Get("result") case Some(value) => Value(value) case None => Malformed)
  }

  // ------------------------------------------------------------------------------------------
  // Lines in pieces
  // ------------------------------------------------------------------------------------------

  function Joined(pieces: seq<string>): string {
    if pieces == [] then "" else pieces[0] + Joined(pieces[1..])
  }

  /** However a line is cut into pieces, it is one line. */
  lemma {:induction false} LineInPieces(pieces: seq<string>, script: seq<Timed>, partial: string)
    requires 0 < |pieces| <= |script|
    requires forall i | 0 <= i < |pieces| :: script[i].what == Bytes(pieces[i], i == |pieces| - 1)
    ensures Events(script, partial) == [FullLine(partial + Joined(pieces))] + Events(script[|pieces|..], "")
    decreases |pieces|
  {
    if |pieces| == 1 {
      assert Joined(pieces) == pieces[0] + Joined([]) == pieces[0];
    } else {
      LineInPieces(pieces[1..], script[1..], partial + pieces[0]);
      assert (partial + pieces[0]) + Joined(pieces[1..]) == partial + Joined(pieces);
      assert script[1..][|pieces| - 1..] == script[|pieces|..];
    }
  }

  // ------------------------------------------------------------------------------------------
  // Cancelling
  // ------------------------------------------------------------------------------------------

  /** So far the output goes on, nobody has asked to cancel and the sender is still there. */
  predicate GoesOn(script: seq<Timed>) {
    forall i | 0 <= i < |script| :: script[i].what.Bytes? || script[i].what == Flip(false)
  }

  lemma {:induction false} CancelFrom(parse: string -> Option<Json>, idle: nat, c: Call, script: seq<Timed>, n: nat)
    requires c.result.None? && c.cancelOpen && n < |script| && script[n].what == Flip(true)
    requires GoesOn(script[..n]) && Calm(script[..n], c.partial, true) && Steady(idle, script[..n + 1], c.quiet, true)
    requires AllPassed(parse, Events(script[..n], c.partial))
    ensures Run(parse, idle, c, script) == Outcome(c.notes + NotesIn(parse, Events(script[..n], c.partial)), Cancelled)
    decreases n
  {
    if n == 0 {
      assert c.notes + [] == c.notes;
      assert script[..1][0] == script[0];
    } else {
      var c' := Receive(parse, idle, c, script[0]);
      var some, rest := script[..n], script[1..];
      assert some[0] == script[0] && some[1..] == rest[..n - 1];
      assert script[..n + 1][0] == script[0] && script[..n + 1][1..] == rest[..n];
      var events := Events(some, c.partial);
      if script[0].what.Bytes? && script[0].what.ends {
        assert events[1..] == Events(rest[..n - 1], "");
        PassedLine(parse, events[0].text);
        NotesAfterFirst(parse, events);
        CancelFrom(parse, idle, c', rest, n - 1);
        Regroup(c.notes, NoteIn(parse, events[0]), NotesIn(parse, events[1..]));
        assert c.notes + [] == c.notes;
      } else {
        CancelFrom(parse, idle, c', rest, n - 1);
      }
    }
  }

  /** Turning the switch on ends a call that is still waiting as cancelled, whatever may follow; the
      caller has had exactly the notifications on the lines until then. */
  lemma {:induction false} CancelEndsCall(parse: string -> Option<Json>, idle: nat, script: seq<Timed>, n: nat)
    requires n < |script| && script[n].what == Flip(true)
    requires GoesOn(script[..n]) && Calm(script[..n], "", true) && Steady(idle, script[..n + 1], 0, true)
    requires AllPassed(parse, Events(script[..n], ""))
    ensures Run(parse, idle, WAITING, script) == Outcome(NotesIn(parse, Events(script[..n], "")), Cancelled)
  {
    CancelFrom(parse, idle, WAITING, script, n);
    assert [] + NotesIn(parse, Events(script[..n], "")) == NotesIn(parse, Events(script[..n], ""));
  }
}

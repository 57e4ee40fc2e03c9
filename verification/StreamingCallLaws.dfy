/** What a streaming call hears depends on the lines alone, as long as the cancel switch moves only
    between lines and no wait is too long (crates/orchestrator/src/worker.rs:326-430). */
module StreamingCallLaws {
  import opened Options
  import opened Json
  import opened StreamingCall

  // ------------------------------------------------------------------------------------------
  // The reference: the lines of the output, whatever else happens
  // ------------------------------------------------------------------------------------------

  datatype Event = FullLine(text: string) | Ended | Failed

  /** The output as lines; the switch and the clock play no part. */
  function Events(script: seq<Timed>, partial: string): seq<Event>
    decreases |script|
  {
    if script == [] then []
    else
      var rest := script[1..];
      match script[0].what
      case Bytes(text, true) => [FullLine(partial + text)] + Events(rest, "")
      case Bytes(text, false) => Events(rest, partial + text)
      case Eof => (if partial == "" then [] else [FullLine(partial)]) + [Ended]
      case ReadError => [Failed]
      case Flip(_) => Events(rest, partial)
      case SenderDropped => Events(rest, partial)
  }

  /** Notifications are passed on in order, each once, up to the first line that ends the call. */
  function Listen(parse: string -> Option<Json>, notes: seq<Note>, events: seq<Event>): Outcome
    decreases |events|
  {
    if events == [] then Outcome(notes, Timeout)
    else match events[0]
      case Ended => Outcome(notes, EarlyExit)
      case Failed => Outcome(notes, IoError)
      case FullLine(text) =>
        match Hear(parse, text)
        case Notify(note) => Listen(parse, notes + [note], events[1..])
        case Nothing => Listen(parse, notes, events[1..])
        case End(result) => Outcome(notes, result)
  }

  /** The switch asks for nothing, or is dropped, only between lines; it may be turned on at any time. */
  predicate Calm(script: seq<Timed>, partial: string, open: bool)
    decreases |script|
  {
    script == [] ||
    var rest := script[1..];
    match script[0].what
    case Bytes(text, ends) => Calm(rest, if ends then "" else partial + text, open)
    case Eof => true
    case ReadError => true
    case Flip(on) => (open && !on ==> partial == "") && Calm(rest, partial, open)
    case SenderDropped => (open ==> partial == "") && Calm(rest, partial, false)
  }

  predicate TurnedOn(script: seq<Timed>) {
    exists i :: 0 <= i < |script| && script[i].what == Flip(true)
  }

  /** No full idle window passes without a line or a move of the switch. */
  predicate Steady(idle: nat, script: seq<Timed>, quiet: nat, open: bool)
    decreases |script|
  {
    script == [] ||
    var t, rest := script[0], script[1..];
    && quiet + t.gap < idle
    && match t.what
       case Bytes(_, ends) => Steady(idle, rest, if ends then 0 else quiet + t.gap, open)
       case Eof => true
       case ReadError => true
       case Flip(_) => Steady(idle, rest, if open then 0 else quiet + t.gap, open)
       case SenderDropped => Steady(idle, rest, if open then 0 else quiet + t.gap, false)
  }

  // ------------------------------------------------------------------------------------------
  // The run and the reference
  // ------------------------------------------------------------------------------------------

  lemma {:induction false} ListenLine(parse: string -> Option<Json>, notes: seq<Note>, text: string, rest: seq<Event>)
    ensures Listen(parse, notes, [FullLine(text)] + rest) ==
              match Hear(parse, text)
              case Notify(note) => Listen(parse, notes + [note], rest)
              case Nothing => Listen(parse, notes, rest)
              case End(result) => Outcome(notes, result)
  {
    assert ([FullLine(text)] + rest)[1..] == rest;
  }

  lemma {:induction false} NotesGrow(parse: string -> Option<Json>, notes: seq<Note>, events: seq<Event>)
    ensures notes <= Listen(parse, notes, events).notes
    decreases |events|
  {
    if events != [] && events[0].FullLine? {
      match Hear(parse, events[0].text)
      case Notify(note) => NotesGrow(parse, notes + [note], events[1..]);
      case Nothing => NotesGrow(parse, notes, events[1..]);
      case End(_) =>
    }
  }

  /** A call that is still waiting ends as its lines say; or it times out after a full idle window of
      silence, or is cancelled by a switch that is turned on, having passed on the first of the
      notifications. */
  ghost predicate Faithful(parse: string -> Option<Json>, idle: nat, c: Call, script: seq<Timed>) {
    var heard := Listen(parse, c.notes, Events(script, c.partial));
    var got := Run(parse, idle, c, script);
    || got == heard
    || (got.result == Timeout && got.notes <= heard.notes && !Steady(idle, script, c.quiet, c.cancelOpen))
    || (got.result == Cancelled && got.notes <= heard.notes && TurnedOn(script))
  }

  lemma {:induction false} EndIsFaithful(parse: string -> Option<Json>, idle: nat, c: Call, script: seq<Timed>)
    requires c.result.None? && script != [] && c.quiet + script[0].gap < idle && script[0].what.Eof?
    ensures Faithful(parse, idle, c, script)
  {
    if c.partial != "" { ListenLine(parse, c.notes, c.partial, [Ended]); }
  }

  lemma {:induction false} RunIsFaithful(parse: string -> Option<Json>, idle: nat, c: Call, script: seq<Timed>)
    requires c.result.None? && Calm(script, c.partial, c.cancelOpen)
    ensures Faithful(parse, idle, c, script)
    decreases |script|
  {
    if script != [] {
      var t, rest := script[0], script[1..];
      var c' := Receive(parse, idle, c, t);
      if c.quiet + t.gap >= idle {
        NotesGrow(parse, c.notes, Events(script, c.partial));
      } else if t.what.Eof? {
        EndIsFaithful(parse, idle, c, script);
      } else if t.what == Flip(true) && c.cancelOpen {
        NotesGrow(parse, c.notes, Events(script, c.partial));
      } else {
        if t.what.Bytes? && t.what.ends { ListenLine(parse, c.notes, c.partial + t.what.text, Events(rest, "")); }
        if c'.result.None? {
          RunIsFaithful(parse, idle, c', rest);
          if i :| 0 <= i < |rest| && rest[i].what == Flip(true) { assert script[i + 1].what == Flip(true); }
        }
      }
    }
  }

  /** With the switch never turned on, moved only between lines, and no wait too long, the call gives exactly what the
      lines say: of the frames before the answer those without an id that name a method, in order,
      once each, and then the answer. */
  lemma {:induction false} CallHearsTheLines(parse: string -> Option<Json>, idle: nat, script: seq<Timed>)
    requires Calm(script, "", true) && Steady(idle, script, 0, true) && !TurnedOn(script)
    ensures Run(parse, idle, WAITING, script) == Listen(parse, [], Events(script, ""))
  {
    RunIsFaithful(parse, idle, WAITING, script);
  }

  // ------------------------------------------------------------------------------------------
  // The idle timer, whatever the script
  // ------------------------------------------------------------------------------------------

  /** The call after all stimuli of the script, as far as it waits for them. */
  function ReceiveAll(parse: string -> Option<Json>, idle: nat, c: Call, script: seq<Timed>): Call
    decreases |script|
  {
    if c.result.Some? || script == [] then c
    else ReceiveAll(parse, idle, Receive(parse, idle, c, script[0]), script[1..])
  }

  /** The idle timer ends the call before the script is over. */
  predicate Reaped(parse: string -> Option<Json>, idle: nat, c: Call, script: seq<Timed>) {
    ReceiveAll(parse, idle, c, script).result == Some(Timeout)
  }

  lemma {:induction false} AllAfterFirst(parse: string -> Option<Json>, idle: nat, c: Call, script: seq<Timed>)
    requires c.result.None? && script != []
    ensures var c' := Receive(parse, idle, c, script[0]);
            ReceiveAll(parse, idle, c, script) == if c'.result.Some? then c' else ReceiveAll(parse, idle, c', script[1..])
    ensures c.quiet + script[0].gap >= idle <==> Receive(parse, idle, c, script[0]).result == Some(Timeout)
  {
  }

  /** The silence so far, and whether the switch can still move, read off the script alone. */
  datatype Clock = Clock(quiet: nat, open: bool)

  function Tick(clock: Clock, t: Timed): Clock {
    var open := clock.open && !t.what.SenderDropped?;
    var wakes := match t.what
      case Bytes(_, ends) => ends
      case Flip(_) => clock.open
      case SenderDropped => clock.open
      case _ => false;
    Clock(if wakes then 0 else clock.quiet + t.gap, open)
  }

  function ClockAfter(clock: Clock, script: seq<Timed>): Clock
    decreases |script|
  {
    if script == [] then clock else ClockAfter(Tick(clock, script[0]), script[1..])
  }

  /** Before stimulus `n` the call still waits, and a full idle window passes without a line or a move
      of the switch. */
  ghost predicate SilentAt(parse: string -> Option<Json>, idle: nat, c: Call, script: seq<Timed>, n: nat)
    requires n < |script|
  {
    && ReceiveAll(parse, idle, c, script[..n]).result.None?
    && ClockAfter(Clock(c.quiet, c.cancelOpen), script[..n]).quiet + script[n].gap >= idle
  }

  lemma {:induction false} SilentLater(
      parse: string -> Option<Json>, idle: nat, c: Call, script: seq<Timed>, n: nat)
    requires c.result.None? && n + 1 < |script| && c.quiet + script[0].gap < idle
    ensures var c' := Receive(parse, idle, c, script[0]);
            if c'.result.Some? then !SilentAt(parse, idle, c, script, n + 1)
            else SilentAt(parse, idle, c, script, n + 1) <==> SilentAt(parse, idle, c', script[1..], n)
  {
    assert script[..n + 1][1..] == script[1..][..n] && script[..n + 1][0] == script[0];
    AllAfterFirst(parse, idle, c, script[..n + 1]);
  }

  /** The idle timer ends a call exactly after a full window of silence in which it waited; so a call
      of any length whose silences stay below the window is never timed out, whatever the switch does. */
  lemma {:induction false} TimeoutMeansSilence(parse: string -> Option<Json>, idle: nat, c: Call, script: seq<Timed>)
    requires c.result.None?
    ensures Reaped(parse, idle, c, script) <==> exists n | 0 <= n < |script| :: SilentAt(parse, idle, c, script, n)
    decreases |script|
  {
    if script != [] {
      var c' := Receive(parse, idle, c, script[0]);
      AllAfterFirst(parse, idle, c, script);
      if c.quiet + script[0].gap >= idle {
        assert script[..0] == [];
        assert SilentAt(parse, idle, c, script, 0);
      } else {
        assert !SilentAt(parse, idle, c, script, 0) by { assert script[..0] == []; }
        if c'.result.None? { TimeoutMeansSilence(parse, idle, c', script[1..]); }
        forall n | 1 <= n < |script|
          ensures SilentAt(parse, idle, c, script, n) <==>
                    c'.result.None? && SilentAt(parse, idle, c', script[1..], n - 1)
        {
          SilentLater(parse, idle, c, script, n - 1);
        }
        if c'.result.None? && Reaped(parse, idle, c', script[1..]) {
          var n :| 0 <= n < |script| - 1 && SilentAt(parse, idle, c', script[1..], n);
          assert SilentAt(parse, idle, c, script, n + 1);
        }
      }
    }
  }

  /** A steady call is never timed out by the timer; only an output that never decides is. */
  lemma {:induction false} SteadyIsNotReaped(parse: string -> Option<Json>, idle: nat, c: Call, script: seq<Timed>)
    requires c.result.None? && Steady(idle, script, c.quiet, c.cancelOpen)
    ensures !Reaped(parse, idle, c, script)
    decreases |script|
  {
    if script != [] {
      var c' := Receive(parse, idle, c, script[0]);
      AllAfterFirst(parse, idle, c, script);
      if c'.result.None? { SteadyIsNotReaped(parse, idle, c', script[1..]); }
    }
  }

  // ------------------------------------------------------------------------------------------
  // False flips of the cancel switch, and a sender that is dropped
  // ------------------------------------------------------------------------------------------

  /** The two moves of the switch that ask for nothing. */
  predicate AsksForNothing(what: Stimulus) {
    what == Flip(false) || what == SenderDropped
  }

  predicate NoSwitch(script: seq<Timed>) {
    forall i | 0 <= i < |script| :: !script[i].what.Flip? && !script[i].what.SenderDropped?
  }

  /** What can come after a move of the switch: once the sender is gone the switch moves no more. */
  predicate CanFollow(what: Stimulus, rest: seq<Timed>) {
    what.SenderDropped? ==> NoSwitch(rest)
  }

  lemma {:induction false} SameFirstStep(parse: string -> Option<Json>, idle: nat, c: Call, quiet: nat, open: bool, t: Timed)
    requires c.result.None? && quiet <= c.quiet && c.quiet + t.gap < idle
    requires open == c.cancelOpen || (!t.what.Flip? && !t.what.SenderDropped?)
    ensures var c', d := Receive(parse, idle, c, t), Receive(parse, idle, c.(quiet := quiet, cancelOpen := open), t);
            && d == c'.(quiet := d.quiet, cancelOpen := d.cancelOpen)
            && d.quiet <= c'.quiet && (quiet == c.quiet ==> d.quiet == c'.quiet)
            && (open == c.cancelOpen ==> d.cancelOpen == c'.cancelOpen)
  {
    hide Hear;
  }

  /** Less silence so far, or a switch that does not move anyway, makes no difference to a call that
      the timer does not end. */
  lemma {:induction false} SameUnlessReaped(
      parse: string -> Option<Json>, idle: nat, c: Call, quiet: nat, open: bool, rest: seq<Timed>)
    requires quiet == c.quiet || (quiet < c.quiet && !Reaped(parse, idle, c, rest))
    requires open == c.cancelOpen || NoSwitch(rest)
    ensures Run(parse, idle, c.(quiet := quiet, cancelOpen := open), rest) == Run(parse, idle, c, rest)
    decreases |rest|
  {
    if c.result.None? && rest != [] {
      AllAfterFirst(parse, idle, c, rest);
      if c.quiet + rest[0].gap < idle {
        var c', d := Receive(parse, idle, c, rest[0]), Receive(parse, idle, c.(quiet := quiet, cancelOpen := open), rest[0]);
        SameFirstStep(parse, idle, c, quiet, open, rest[0]);
        hide Receive;
        SameUnlessReaped(parse, idle, c', d.quiet, d.cancelOpen, rest[1..]);
      }
    }
  }

  /** What an idle move of the switch makes of a waiting call. */
  lemma {:induction false} AfterIdleMove(
      parse: string -> Option<Json>, idle: nat, c: Call, what: Stimulus, rest: seq<Timed>)
    requires c.result.None? && c.cancelOpen && c.quiet < idle && AsksForNothing(what)
    ensures Run(parse, idle, c, [Timed(0, what)] + rest)
            == Run(parse, idle, c.(partial := "", quiet := 0, cancelOpen := what.Flip?), rest)
  {
    assert ([Timed(0, what)] + rest)[1..] == rest;
  }

  /** The move changes nothing for `rest`. */
  ghost predicate Harmless(parse: string -> Option<Json>, idle: nat, c: Call, what: Stimulus, rest: seq<Timed>) {
    Run(parse, idle, c, [Timed(0, what)] + rest) == Run(parse, idle, c, rest)
  }

  const ANSWER := Obj(map["id" := Num(REQUEST_ID), "result" := Null])

  /** A parser that takes every text but the empty one for the answer. */
  function AnswerUnlessEmpty(text: string): Option<Json> {
    if text == "" then None else Some(ANSWER)
  }

  /** A parser that takes every text for the answer. */
  function AlwaysAnswer(text: string): Option<Json> {
    Some(ANSWER)
  }

  lemma {:induction false} HalfLineShows(idle: nat, c: Call, what: Stimulus)
    requires c.result.None? && c.cancelOpen && c.quiet < idle && AsksForNothing(what) && c.partial != ""
    ensures var rest := [Timed(0, Bytes("", true))];
            && CanFollow(what, rest) && !Reaped(AnswerUnlessEmpty, idle, c, rest)
            && !Harmless(AnswerUnlessEmpty, idle, c, what, rest)
  {
    var rest := [Timed(0, Bytes("", true))];
    assert c.partial + "" == c.partial;
    assert Hear(AnswerUnlessEmpty, c.partial) == End(Value(Null));
    AfterIdleMove(AnswerUnlessEmpty, idle, c, what, rest);
  }

  lemma {:induction false} SilenceShows(idle: nat, c: Call, what: Stimulus)
    requires c.result.None? && c.cancelOpen && 0 < c.quiet < idle && AsksForNothing(what) && c.partial == ""
    ensures var rest := [Timed(idle - c.quiet, Bytes("", true))];
            CanFollow(what, rest) && !Harmless(AlwaysAnswer, idle, c, what, rest)
  {
    var rest := [Timed(idle - c.quiet, Bytes("", true))];
    assert "" + "" == "" && Hear(AlwaysAnswer, "") == End(Value(Null));
    AfterIdleMove(AlwaysAnswer, idle, c, what, rest);
    assert Receive(AlwaysAnswer, idle, c, rest[0]) == Finish(c, Timeout);
    assert Run(AlwaysAnswer, idle, c, rest).result == Timeout;
    var woken := c.(partial := "", quiet := 0, cancelOpen := what.Flip?);
    assert Receive(AlwaysAnswer, idle, woken, rest[0]).result == Some(Value(Null));
  }

  /** A false flip or a dropped sender never changes what follows, whatever the lines mean, exactly when
      it comes between lines and right after the call woke up: otherwise it loses the half-read line or
      lengthens the wait. */
  lemma {:induction false} IdleMoveIsHarmlessIff(idle: nat, c: Call, what: Stimulus)
    requires c.result.None? && c.cancelOpen && c.quiet < idle && AsksForNothing(what)
    ensures (forall parse, rest | CanFollow(what, rest) :: Harmless(parse, idle, c, what, rest))
       <==> c.partial == "" && c.quiet == 0
  {
    if c.partial == "" && c.quiet == 0 {
      forall parse, rest | CanFollow(what, rest) ensures Harmless(parse, idle, c, what, rest) {
        AfterIdleMove(parse, idle, c, what, rest);
        SameUnlessReaped(parse, idle, c, 0, what.Flip?, rest);
      }
    } else if c.partial != "" {
      HalfLineShows(idle, c, what);
    } else {
      SilenceShows(idle, c, what);
    }
  }

  /** Of calls that the timer would not end, it changes none exactly when it comes between lines. */
  lemma {:induction false} IdleMoveIsHarmlessInTimeIff(idle: nat, c: Call, what: Stimulus)
    requires c.result.None? && c.cancelOpen && c.quiet < idle && AsksForNothing(what)
    ensures (forall parse, rest | CanFollow(what, rest) && !Reaped(parse, idle, c, rest) ::
               Harmless(parse, idle, c, what, rest))
       <==> c.partial == ""
  {
    if c.partial == "" {
      forall parse, rest | CanFollow(what, rest) && !Reaped(parse, idle, c, rest)
        ensures Harmless(parse, idle, c, what, rest)
      {
        AfterIdleMove(parse, idle, c, what, rest);
        SameUnlessReaped(parse, idle, c, 0, what.Flip?, rest);
      }
    } else {
      HalfLineShows(idle, c, what);
    }
  }

  /** Wherever in a wait it comes: a false flip or a dropped sender between lines changes nothing in a
      call that would not have timed out. */
  lemma {:induction false} IdleMoveBetweenLines(
      parse: string -> Option<Json>, idle: nat, c: Call, what: Stimulus, before: nat, next: Timed, rest: seq<Timed>)
    requires c.result.None? && c.cancelOpen && c.partial == "" && AsksForNothing(what) && c.quiet + before < idle
    requires CanFollow(what, [next] + rest)
    requires !Reaped(parse, idle, c, [Timed(before + next.gap, next.what)] + rest)
    ensures Run(parse, idle, c, [Timed(before, what), next] + rest)
            == Run(parse, idle, c, [Timed(before + next.gap, next.what)] + rest)
  {
    var plain, later := [Timed(before + next.gap, next.what)] + rest, [next] + rest;
    var moved := [Timed(before, what), next] + rest;
    assert plain[1..] == rest && later[1..] == rest && moved[1..] == later;
    var waited := c.(quiet := c.quiet + before);
    var d, e := Receive(parse, idle, waited, next), Receive(parse, idle, c, plain[0]);
    assert d.notes == e.notes && d.result == e.result && (d.result.None? ==> d == e);
    AllAfterFirst(parse, idle, c, plain);
    AllAfterFirst(parse, idle, waited, later);
    assert Reaped(parse, idle, waited, later) <==> Reaped(parse, idle, c, plain);
    SameUnlessReaped(parse, idle, waited, 0, what.Flip?, later);
  }

  /** A false flip or a dropped sender in the middle of a line loses the first half: an answer becomes
      a protocol error. */
  lemma {:induction false} IdleMoveInsideLine(
      parse: string -> Option<Json>, idle: nat, c: Call, what: Stimulus, end: string, value: Json, rest: seq<Timed>)
    requires c.result.None? && c.cancelOpen && c.quiet < idle && AsksForNothing(what)
    requires Hear(parse, c.partial + end) == End(Value(value)) && parse(end).None?
    ensures Run(parse, idle, c, [Timed(0, Bytes(end, true))] + rest) == Outcome(c.notes, Value(value))
    ensures Run(parse, idle, c, [Timed(0, what), Timed(0, Bytes(end, true))] + rest) == Outcome(c.notes, Malformed)
    ensures c.partial != ""
  {
    var last := [Timed(0, Bytes(end, true))] + rest;
    assert [Timed(0, what), Timed(0, Bytes(end, true))] + rest == [Timed(0, what)] + last;
    assert "" + end == end;
    AfterIdleMove(parse, idle, c, what, last);
  }

  /** It also restarts the idle timer: a wait that was too long may end well. */
  lemma {:induction false} IdleMoveRestartsTimer(
      parse: string -> Option<Json>, idle: nat, c: Call, what: Stimulus, before: nat, after: nat, line: string, value: Json)
    requires c.result.None? && c.cancelOpen && c.partial == "" && AsksForNothing(what) && Hear(parse, line) == End(Value(value))
    requires c.quiet + before < idle && after < idle <= c.quiet + before + after
    ensures Run(parse, idle, c, [Timed(before + after, Bytes(line, true))]) == Outcome(c.notes, Timeout)
    ensures Run(parse, idle, c, [Timed(before, what), Timed(after, Bytes(line, true))]) == Outcome(c.notes, Value(value))
  {
    var moved := [Timed(before, what), Timed(after, Bytes(line, true))];
    assert moved[1..] == [Timed(after, Bytes(line, true))];
    assert "" + line == line;
    var c' := Receive(parse, idle, c, moved[0]);
    assert Run(parse, idle, c', moved[1..]) == Outcome(c.notes, Value(value));
  }

  /** Once the sender is gone the switch has no effect at all. */
  lemma {:induction false} NoSwitchWithoutSender(parse: string -> Option<Json>, idle: nat, c: Call, script: seq<Timed>)
    requires !c.cancelOpen
    ensures Run(parse, idle, c, script).result == Cancelled ==> c.result == Some(Cancelled)
    decreases |script|
  {
    if c.result.None? && script != [] {
      NoSwitchWithoutSender(parse, idle, Receive(parse, idle, c, script[0]), script[1..]);
    }
  }
}

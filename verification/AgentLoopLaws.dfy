/** What every run of the agent loop keeps (crates/agent/src/session.rs:104-274). */
module AgentLoopLaws {
  import opened Options
  import opened Sequences
  import opened SseFraming
  import opened ProviderStream
  import opened ProviderStreamLaws
  import opened AgentLoop

  // ------------------------------------------------------------------------------------------
  // The conversation stays well formed
  // ------------------------------------------------------------------------------------------

  /** The ids of the tools a message asks for, in order. */
  function UseIds(content: seq<Content>): seq<string> {
    FlatMap((c: Content) => match c case ToolUseBlock(id, _, _) => [id] case _ => [], content)
  }

  /** Exactly one result per id, in the order of the ids, and nothing else. */
  ghost predicate Answers(content: seq<Content>, ids: seq<string>) {
    |content| == |ids| && forall i | 0 <= i < |ids| :: content[i].ToolResultBlock? && content[i].toolUseId == ids[i]
  }

  ghost predicate AssistantOk(messages: seq<Message>, i: nat)
    requires i < |messages|
  {
    var content := messages[i].content;
    && content != []
    && (forall k | 0 <= k < |content| :: !content[k].ToolResultBlock?)
    && (i + 1 < |messages| ==> messages[i + 1].role == User)
    && (UseIds(content) != [] ==> i + 1 < |messages| && Answers(messages[i + 1].content, UseIds(content)))
  }

  ghost predicate UserOk(messages: seq<Message>, i: nat)
    requires i < |messages|
  {
    var content := messages[i].content;
    && (forall k | 0 <= k < |content| :: !content[k].ToolUseBlock?)
    && ((exists k | 0 <= k < |content| :: content[k].ToolResultBlock?) ==>
          i > 0 && messages[i - 1].role == Assistant && Answers(content, UseIds(messages[i - 1].content)))
  }

  /** Assistant messages are never empty and never adjacent; one that asks for tools is followed
      at once by a user message with exactly the matching results in order; results occur nowhere
      else. */
  ghost predicate WellFormed(messages: seq<Message>) {
    forall i: nat | i < |messages| ::
      && (messages[i].role == Assistant ==> AssistantOk(messages, i))
      && (messages[i].role == User ==> UserOk(messages, i))
      && messages[i].role != System
  }

  ghost predicate EndsWithUser(messages: seq<Message>) {
    messages != [] && messages[|messages| - 1].role == User
  }

  lemma {:induction false} UseIdsOfTurn(turn: Turn)
    ensures var text: seq<Content> := if turn.Text() == "" then [] else [TextBlock(turn.Text())];
            var content := text + ToolUses(turn.calls);
            && |UseIds(content)| == |turn.calls|
            && (forall i | 0 <= i < |turn.calls| :: UseIds(content)[i] == turn.calls[i].id)
            && (forall k | 0 <= k < |content| :: !content[k].ToolResultBlock?)
  {
    var f := (c: Content) => match c case ToolUseBlock(id, _, _) => [id] case _ => [];
    var text: seq<Content> := if turn.Text() == "" then [] else [TextBlock(turn.Text())];
    FlatMapConcat(f, text, ToolUses(turn.calls));
    if text != [] { FlatMapOne(f, text[0]); }
    UseIdsOfCalls(turn.calls);
  }

  lemma {:induction false} UseIdsOfCalls(calls: seq<PendingToolCall>)
    ensures |UseIds(ToolUses(calls))| == |calls|
    ensures forall i | 0 <= i < |calls| :: UseIds(ToolUses(calls))[i] == calls[i].id
    ensures forall k | 0 <= k < |ToolUses(calls)| :: ToolUses(calls)[k].ToolUseBlock?
    decreases |calls|
  {
    if calls != [] {
      UseIdsOfCalls(calls[1..]);
      var f := (c: Content) => match c case ToolUseBlock(id, _, _) => [id] case _ => [];
      var first := ToolUseBlock(calls[0].id, calls[0].name, calls[0].input);
      FlatMapConcat(f, [first], ToolUses(calls[1..]));
      FlatMapOne(f, first);
      assert ToolUses(calls) == [first] + ToolUses(calls[1..]);
    }
  }

  /** Appending the messages of one turn behind a user message keeps the conversation well formed. */
  lemma {:induction false} TurnKeepsWellFormed(messages: seq<Message>, turn: Turn, outcomes: seq<ToolOutcome>)
    requires |turn.calls| == |outcomes|
    requires WellFormed(messages) && EndsWithUser(messages)
    ensures WellFormed(messages + MessagesOf(turn, outcomes))
    ensures turn.calls != [] ==> EndsWithUser(messages + MessagesOf(turn, outcomes))
  {
    UseIdsOfTurn(turn);
    var n := |messages|;
    var all := messages + MessagesOf(turn, outcomes);
    forall i: nat | i < |all|
      ensures all[i].role == Assistant ==> AssistantOk(all, i)
      ensures all[i].role == User ==> UserOk(all, i)
      ensures all[i].role != System
    {
      if i < n {
        assert all[i] == messages[i];
        assert i + 1 < n ==> all[i + 1] == messages[i + 1];
        assert i > 0 ==> all[i - 1] == messages[i - 1];
      } else if i == n {
        assert all[i] == AssistantTurn(turn)[0];
      }
    }
  }

  lemma {:induction false} UserMessageKeepsWellFormed(messages: seq<Message>, text: string)
    requires WellFormed(messages)
    ensures WellFormed(messages + [Message(User, [TextBlock(text)])])
  {
    var n := |messages|;
    var all := messages + [Message(User, [TextBlock(text)])];
    forall i: nat | i < |all|
      ensures all[i].role == Assistant ==> AssistantOk(all, i)
      ensures all[i].role == User ==> UserOk(all, i)
      ensures all[i].role != System
    {
      if i < n {
        assert all[i] == messages[i];
        assert i + 1 < n ==> all[i + 1] == messages[i + 1];
        assert i > 0 ==> all[i - 1] == messages[i - 1];
      }
    }
  }

  /** A request that is the prompt plus the first `m` messages, a well-formed conversation that
      ends with a user message. */
  ghost predicate RequestIs(world: World, messages: seq<Message>, request: seq<Message>, m: int) {
    && 0 <= m <= |messages|
    && request == Outgoing(world, messages[..m])
    && WellFormed(messages[..m]) && EndsWithUser(messages[..m])
  }

  ghost predicate RequestOk(world: World, log: Log, k: nat)
    requires k < |log.requests|
  {
    exists m :: RequestIs(world, log.messages, log.requests[k], m)
  }

  /** Every request made since `from` was of that kind. */
  ghost predicate RequestsOk(world: World, log: Log, from: nat) {
    forall k | from <= k < |log.requests| :: RequestOk(world, log, k)
  }

  lemma {:induction false} RequestRecorded(world: World, log: Log, log': Log, from: nat)
    requires RequestsOk(world, log, from) && from <= |log.requests|
    requires WellFormed(log.messages) && EndsWithUser(log.messages)
    requires log.messages <= log'.messages
    requires log'.requests == log.requests + [Outgoing(world, log.messages)]
    ensures RequestsOk(world, log', from)
  {
    forall k | from <= k < |log'.requests| ensures RequestOk(world, log', k) {
      if k == |log.requests| {
        assert log'.messages[..|log.messages|] == log.messages;
        assert RequestIs(world, log'.messages, log'.requests[k], |log.messages|);
      } else {
        assert RequestOk(world, log, k);
        var m :| RequestIs(world, log.messages, log.requests[k], m);
        assert log'.messages[..m] == log.messages[..m];
        assert RequestIs(world, log'.messages, log'.requests[k], m);
      }
    }
  }

  /** What a run keeps: the log is ready for the next request, and every request since `from` was
      well formed. */
  ghost predicate Ready(world: World, log: Log, from: nat) {
    WellFormed(log.messages) && EndsWithUser(log.messages) && from <= |log.requests| && RequestsOk(world, log, from)
  }

  lemma {:induction false} OneTurnKeepsWellFormed(world: World, log: Log, from: nat, mid: Log, end: Option<AgentResult>)
    requires Ready(world, log, from) && OneTurn(world, log) == (mid, end)
    ensures WellFormed(mid.messages) && log.messages <= mid.messages && RequestsOk(world, mid, from)
    ensures end.None? ==> Ready(world, mid, from)
  {
    var reply := world.provider(|log.requests|, Outgoing(world, log.messages));
    if reply.Opened? {
      var turn := ReadTurn(reply.stream);
      TurnKeepsWellFormed(log.messages, turn, Outcomes(world, |log.dispatched|, turn.calls));
    }
    RequestRecorded(world, log, mid, from);
  }

  lemma {:induction false} RunKeepsWellFormed(world: World, log: Log, left: nat, from: nat, log': Log)
    requires Ready(world, log, from) && RunTurns(world, log, left).0 == log'
    ensures WellFormed(log'.messages) && log.messages <= log'.messages && RequestsOk(world, log', from)
    decreases left
  {
    hide WellFormed;
    hide RequestsOk;
    hide OneTurn;
    if left > 0 {
      var (mid, end) := OneTurn(world, log);
      OneTurnKeepsWellFormed(world, log, from, mid, end);
      if end.None? {
        RunKeepsWellFormed(world, mid, left - 1, from, log');
      }
    }
  }

  /** At every return of a send (finished, refused by the provider or stopped by the cap) the
      conversation is well formed, nothing said before was altered, and every request carried a
      well-formed conversation ending with a user message. */
  lemma {:induction false} SendKeepsWellFormed(world: World, log: Log, text: string)
    requires WellFormed(log.messages)
    ensures var log' := AfterSend(world, log, text).0;
            && WellFormed(log'.messages)
            && log.messages + [Message(User, [TextBlock(text)])] <= log'.messages
            && RequestsOk(world, log', |log.requests|)
  {
    UserMessageKeepsWellFormed(log.messages, text);
    var start := log.(messages := log.messages + [Message(User, [TextBlock(text)])]);
    RunKeepsWellFormed(world, start, MAX_TURN_ITERATIONS, |log.requests|, AfterSend(world, log, text).0);
  }

  datatype Act = SendAct(text: string) | ResetAct

  function Perform(world: World, log: Log, acts: seq<Act>): Log
    decreases |acts|
  {
    if acts == [] then log
    else match acts[0]
      case SendAct(text) => Perform(world, AfterSend(world, log, text).0, acts[1..])
      case ResetAct => Perform(world, log.(messages := []), acts[1..])
  }

  /** Well formed after any sequence of sends and resets. */
  lemma {:induction false} SessionStaysWellFormed(world: World, log: Log, acts: seq<Act>)
    requires WellFormed(log.messages)
    ensures WellFormed(Perform(world, log, acts).messages)
    decreases |acts|
  {
    if acts != [] {
      match acts[0]
      case SendAct(text) =>
        SendKeepsWellFormed(world, log, text);
        SessionStaysWellFormed(world, AfterSend(world, log, text).0, acts[1..]);
      case ResetAct =>
        SessionStaysWellFormed(world, log.(messages := []), acts[1..]);
    }
  }

  // ------------------------------------------------------------------------------------------
  // Every run is a sequence of turns
  // ------------------------------------------------------------------------------------------

  datatype Exchange = Exchange(turn: Turn, outcomes: seq<ToolOutcome>)

  type PlayedTurn = p: Exchange | |p.turn.calls| == |p.outcomes|
    witness Exchange(Turn([], [], EndTurn, TokenUsage(0, 0)), [])

  function AllMessages(played: seq<PlayedTurn>): seq<Message> {
    FlatMap((p: PlayedTurn) => MessagesOf(p.turn, p.outcomes), played)
  }

  function AllEvents(played: seq<PlayedTurn>): seq<AgentEvent> {
    FlatMap((p: PlayedTurn) => EventsOf(p.turn, p.outcomes), played)
  }

  function AllCalls(played: seq<PlayedTurn>): seq<PendingToolCall> {
    FlatMap((p: PlayedTurn) => p.turn.calls, played)
  }

  /** `log'` is `log` after exactly the turns `played`. */
  ghost predicate Extends(log: Log, log': Log, played: seq<PlayedTurn>) {
    && log'.messages == log.messages + AllMessages(played)
    && log'.events == log.events + AllEvents(played)
    && log'.dispatched == log.dispatched + AllCalls(played)
  }

  lemma {:induction false} PlayFirst(log: Log, p: PlayedTurn, mid: Log, played: seq<PlayedTurn>, log': Log)
    requires mid.messages == log.messages + MessagesOf(p.turn, p.outcomes)
    requires mid.events == log.events + EventsOf(p.turn, p.outcomes)
    requires mid.dispatched == log.dispatched + p.turn.calls
    requires Extends(mid, log', played)
    ensures Extends(log, log', [p] + played)
  {
    assert ([p] + played)[1..] == played;
    Regroup(log.messages, MessagesOf(p.turn, p.outcomes), AllMessages(played));
    Regroup(log.events, EventsOf(p.turn, p.outcomes), AllEvents(played));
    Regroup(log.dispatched, p.turn.calls, AllCalls(played));
  }

  /** The result tells how the turns ended: all but the last ask for tools; the run is done
      exactly when the last one does not; the cap error means all `left` turns did. */
  ghost predicate EndsAs(result: AgentResult, played: seq<PlayedTurn>, left: nat) {
    && |played| <= left
    && (forall k | 0 <= k < |played| - 1 :: played[k].turn.calls != [])
    && (result.Done? <==> played != [] && played[|played| - 1].turn.calls == [])
    && (result.LoopLimitExceeded? ==> |played| == left)
    && (result.ProviderFailed? ==> |played| < left)
  }

  /** Request `i` carried `messages`, its answer was a stream, and `turn` is what the stream says. */
  ghost predicate TurnRead(world: World, log': Log, i: nat, messages: seq<Message>, turn: Turn) {
    && i < |log'.requests| && log'.requests[i] == Outgoing(world, messages)
    && var reply := world.provider(i, log'.requests[i]);
       reply.Opened? && turn == ReadTurn(reply.stream)
  }

  /** Turn `k` was read from the answer to the conversation so far, and its outcomes are what the
      dispatcher made of its calls, counting on from the calls before. */
  ghost predicate TurnPlayed(world: World, log: Log, log': Log, played: seq<PlayedTurn>, k: nat)
    requires k < |played|
  {
    && TurnRead(world, log', |log.requests| + k, log.messages + AllMessages(played[..k]), played[k].turn)
    && played[k].outcomes == Outcomes(world, |log.dispatched| + |AllCalls(played[..k])|, played[k].turn.calls)
  }

  ghost predicate TurnsPlayed(world: World, log: Log, log': Log, played: seq<PlayedTurn>) {
    forall k | 0 <= k < |played| :: TurnPlayed(world, log, log', played, k)
  }

  /** The request after the turns carried the conversation they left, and was refused. */
  ghost predicate Rejected(world: World, log: Log, log': Log, played: seq<PlayedTurn>, error: string) {
    var i := |log.requests| + |played|;
    && i < |log'.requests| && log'.requests[i] == Outgoing(world, log'.messages)
    && world.provider(i, log'.requests[i]) == Refused(error)
  }

  lemma {:induction false} NothingPlayed(log: Log)
    ensures Extends(log, log, [])
  {
    assert log.messages + [] == log.messages && log.events + [] == log.events && log.dispatched + [] == log.dispatched;
  }

  lemma {:induction false} AllOfFirst(p: PlayedTurn, rest: seq<PlayedTurn>)
    ensures AllMessages([p] + rest) == MessagesOf(p.turn, p.outcomes) + AllMessages(rest)
    ensures AllCalls([p] + rest) == p.turn.calls + AllCalls(rest)
  {
    assert ([p] + rest)[1..] == rest;
  }

  lemma {:induction false} LaterTurnPlayed(
      world: World, log: Log, p: PlayedTurn, mid: Log, log': Log, rest: seq<PlayedTurn>, k: nat)
    requires Plays(world, log, p, mid) && k < |rest| && TurnPlayed(world, mid, log', rest, k)
    ensures TurnPlayed(world, log, log', [p] + rest, k + 1)
  {
    hide MessagesOf;
    hide Outcomes;
    hide TurnRead;
    assert ([p] + rest)[..k + 1] == [p] + rest[..k] && ([p] + rest)[k + 1] == rest[k];
    AllOfFirst(p, rest[..k]);
    Regroup(log.messages, MessagesOf(p.turn, p.outcomes), AllMessages(rest[..k]));
  }

  lemma {:induction false} FirstTurnPlayed(
      world: World, log: Log, p: PlayedTurn, mid: Log, log': Log, rest: seq<PlayedTurn>)
    requires Plays(world, log, p, mid) && mid.requests <= log'.requests
    requires TurnsPlayed(world, mid, log', rest)
    ensures TurnsPlayed(world, log, log', [p] + rest)
  {
    hide MessagesOf;
    hide EventsOf;
    hide AllMessages;
    var played := [p] + rest;
    forall k | 0 <= k < |played| ensures TurnPlayed(world, log, log', played, k) {
      if k == 0 {
        assert played[..0] == [];
        NothingPlayed(log);
      } else {
        assert TurnPlayed(world, mid, log', rest, k - 1);
        LaterTurnPlayed(world, log, p, mid, log', rest, k - 1);
      }
    }
  }

  /** `mid` is `log` after the single turn `p`, read from the answer to the next request, with the
      dispatcher's outcomes. */
  ghost predicate Plays(world: World, log: Log, p: PlayedTurn, mid: Log) {
    && mid.messages == log.messages + MessagesOf(p.turn, p.outcomes)
    && mid.events == log.events + EventsOf(p.turn, p.outcomes)
    && mid.dispatched == log.dispatched + p.turn.calls
    && p.outcomes == Outcomes(world, |log.dispatched|, p.turn.calls)
    && log.requests <= mid.requests && |mid.requests| == |log.requests| + 1
    && TurnRead(world, mid, |log.requests|, log.messages, p.turn)
  }

  lemma {:induction false} RoundPlaysTurn(world: World, log: Log, mid: Log, end: Option<AgentResult>) returns (p: PlayedTurn)
    requires OneTurn(world, log) == (mid, end) && (end.None? || end.value.Done?)
    ensures Plays(world, log, p, mid) && (end.Some? <==> p.turn.calls == [])
  {
    var turn := ReadTurn(world.provider(|log.requests|, Outgoing(world, log.messages)).stream);
    p := Exchange(turn, Outcomes(world, |log.dispatched|, turn.calls));
  }

  /** `played` accounts for all that happened between `log` and `log'`. */
  ghost predicate Accounts(world: World, log: Log, log': Log, result: AgentResult, left: nat, played: seq<PlayedTurn>) {
    && Extends(log, log', played) && EndsAs(result, played, left)
    && TurnsPlayed(world, log, log', played)
    && log.requests <= log'.requests
    && |log'.requests| == |log.requests| + |played| + (if result.ProviderFailed? then 1 else 0)
    && (result.ProviderFailed? ==> Rejected(world, log, log', played, result.error))
  }

  lemma {:induction false} OneMoreTurn(
      world: World, log: Log, p: PlayedTurn, mid: Log, log': Log, result: AgentResult, left: nat, rest: seq<PlayedTurn>)
    requires Plays(world, log, p, mid) && p.turn.calls != []
    requires Accounts(world, mid, log', result, left, rest)
    ensures Accounts(world, log, log', result, left + 1, [p] + rest)
  {
    hide MessagesOf;
    hide EventsOf;
    hide Extends;
    hide EndsAs;
    hide TurnsPlayed;
    PlayFirst(log, p, mid, rest, log');
    FirstTurnPlayed(world, log, p, mid, log', rest);
    EndsLater(result, p, rest, left);
  }

  lemma {:induction false} EndsLater(result: AgentResult, p: PlayedTurn, rest: seq<PlayedTurn>, left: nat)
    requires EndsAs(result, rest, left) && p.turn.calls != []
    ensures EndsAs(result, [p] + rest, left + 1)
  {
    var played := [p] + rest;
    forall k | 0 <= k < |played| - 1 ensures played[k].turn.calls != [] {
      if k > 0 { assert played[k] == rest[k - 1]; }
    }
  }

  lemma {:induction false} LastTurn(world: World, log: Log, p: PlayedTurn, mid: Log, left: nat)
    requires Plays(world, log, p, mid) && p.turn.calls == [] && left > 0
    ensures Accounts(world, log, mid, Done, left, [p])
  {
    NothingPlayed(mid);
    PlayFirst(log, p, mid, [], mid);
    FirstTurnPlayed(world, log, p, mid, mid, []);
    assert [p] + [] == [p];
  }

  lemma {:induction false} NoTurn(world: World, log: Log, left: nat, log': Log, result: AgentResult)
    requires RunTurns(world, log, left) == (log', result)
    requires left == 0 || (OneTurn(world, log).1 == Some(result) && result.ProviderFailed?)
    ensures Accounts(world, log, log', result, left, [])
  {
    NothingPlayed(log);
  }

  lemma {:induction false} RoundEnds(world: World, log: Log, mid: Log, end: Option<AgentResult>)
    requires OneTurn(world, log) == (mid, end)
    ensures end.None? || end.value.Done? || end.value.ProviderFailed?
  {
  }

  /** A run is a sequence of turns, each read from the provider's answer to the conversation so far and
      with the dispatcher's outcomes: the conversation, the event trace, the requests and the tool
      invocations are exactly theirs, turn by turn. */
  lemma {:induction false} RunIsTurns(world: World, log: Log, left: nat, log': Log, result: AgentResult)
      returns (played: seq<PlayedTurn>)
    requires RunTurns(world, log, left) == (log', result)
    ensures Accounts(world, log, log', result, left, played)
    decreases left
  {
    hide Accounts;
    hide Plays;
    hide OneTurn;
    var (mid, end) := OneTurn(world, log);
    RoundEnds(world, log, mid, end);
    if left == 0 || (end.Some? && end.value.ProviderFailed?) {
      NoTurn(world, log, left, log', result);
      played := [];
    } else {
      var p := RoundPlaysTurn(world, log, mid, end);
      if end.Some? {
        LastTurn(world, log, p, mid, left);
        played := [p];
      } else {
        var rest := RunIsTurns(world, mid, left - 1, log', result);
        OneMoreTurn(world, log, p, mid, log', result, left - 1, rest);
        played := [p] + rest;
      }
    }
  }

  // ------------------------------------------------------------------------------------------
  // The event trace
  // ------------------------------------------------------------------------------------------

  function TurnEnds(events: seq<AgentEvent>): seq<AgentEvent> {
    FlatMap((e: AgentEvent) => if e.TurnEnd? then [e] else [], events)
  }

  lemma {:induction false} NoTurnEnds(events: seq<AgentEvent>)
    requires forall i | 0 <= i < |events| :: !events[i].TurnEnd?
    ensures TurnEnds(events) == []
    decreases |events|
  {
    if events != [] { NoTurnEnds(events[1..]); }
  }

  /** The start and the end of a call, next to each other. */
  ghost predicate PairAt(events: seq<AgentEvent>, i: int, call: PendingToolCall, outcome: ToolOutcome) {
    && 0 <= i < i + 1 < |events|
    && events[i] == ToolCallStart(call.id, call.name, call.input)
    && events[i + 1] == ToolCallEnd(call.id, call.name, outcome.content, outcome.isError)
  }

  lemma {:induction false} CallEventsHaveNoTurnEnd(calls: seq<PendingToolCall>, outcomes: seq<ToolOutcome>)
    requires |calls| == |outcomes|
    ensures forall i | 0 <= i < |AllCallEvents(calls, outcomes)| :: !AllCallEvents(calls, outcomes)[i].TurnEnd?
    ensures |AllCallEvents(calls, outcomes)| == 2 * |calls|
    ensures forall i | 0 <= i < |calls| :: PairAt(AllCallEvents(calls, outcomes), 2 * i, calls[i], outcomes[i])
    decreases |calls|
  {
    if calls != [] {
      var n := |calls| - 1;
      CallEventsHaveNoTurnEnd(calls[..n], outcomes[..n]);
      var before, all := AllCallEvents(calls[..n], outcomes[..n]), AllCallEvents(calls, outcomes);
      forall i | 0 <= i < |calls| ensures PairAt(all, 2 * i, calls[i], outcomes[i]) {
        if i < n { assert PairAt(before, 2 * i, calls[..n][i], outcomes[..n][i]); }
      }
    }
  }

  lemma {:induction false} TextEventsAreText(deltas: seq<string>)
    ensures |TextEvents(deltas)| == |deltas|
    ensures forall i | 0 <= i < |deltas| :: TextEvents(deltas)[i] == AssistantTextDelta(deltas[i])
    decreases |deltas|
  {
    if deltas != [] {
      TextEventsAreText(deltas[1..]);
      assert TextEvents(deltas) == [AssistantTextDelta(deltas[0])] + TextEvents(deltas[1..]);
    }
  }

  /** A turn shows as its text deltas, then one start/end pair per call in order, then one turn
      end that announces more turns exactly when there were calls. */
  lemma {:induction false} TurnTrace(p: PlayedTurn)
    ensures var trace, n, c := EventsOf(p.turn, p.outcomes), |p.turn.deltas|, |p.turn.calls|;
            && |trace| == n + 2 * c + 1
            && (forall i | 0 <= i < n :: trace[i] == AssistantTextDelta(p.turn.deltas[i]))
            && (forall i | 0 <= i < c :: PairAt(trace, n + 2 * i, p.turn.calls[i], p.outcomes[i]))
            && trace[n + 2 * c] == TurnEnd(p.turn.reason, c > 0, p.turn.usage)
            && TurnEnds(trace) == [trace[n + 2 * c]]
  {
    var n, c := |p.turn.deltas|, |p.turn.calls|;
    var text, pairs, end := TextEvents(p.turn.deltas), AllCallEvents(p.turn.calls, p.outcomes),
                            [TurnEnd(p.turn.reason, p.turn.calls != [], p.turn.usage)];
    TextEventsAreText(p.turn.deltas);
    CallEventsHaveNoTurnEnd(p.turn.calls, p.outcomes);
    var trace := text + pairs + end;
    forall i | 0 <= i < c ensures PairAt(trace, n + 2 * i, p.turn.calls[i], p.outcomes[i]) {
      assert PairAt(pairs, 2 * i, p.turn.calls[i], p.outcomes[i]);
    }
    var f := (e: AgentEvent) => if e.TurnEnd? then [e] else [];
    NoTurnEnds(text + pairs);
    FlatMapConcat(f, text + pairs, end);
    FlatMapOne(f, end[0]);
  }

  /** The turn ends of a run, one per turn, carrying that turn's reason and usage. */
  lemma {:induction false} OneTurnEndPerTurn(played: seq<PlayedTurn>)
    ensures |TurnEnds(AllEvents(played))| == |played|
    ensures forall k | 0 <= k < |played| ::
              TurnEnds(AllEvents(played))[k] == TurnEnd(played[k].turn.reason, played[k].turn.calls != [], played[k].turn.usage)
    decreases |played|
  {
    if played != [] {
      OneTurnEndPerTurn(played[1..]);
      TurnTrace(played[0]);
      var f := (e: AgentEvent) => if e.TurnEnd? then [e] else [];
      FlatMapConcat(f, EventsOf(played[0].turn, played[0].outcomes), AllEvents(played[1..]));
    }
  }

  /** In one send: at most 25 turns end; all but the last announce more; the send is done exactly
      when the last announces none; the cap error comes exactly after 25 turns that announced more. */
  lemma {:induction false} TurnEndsOfSend(world: World, log: Log, text: string)
    ensures var (log', result) := AfterSend(world, log, text);
            && log.events <= log'.events
            && (var ends := TurnEnds(log'.events[|log.events|..]);
                && |ends| <= MAX_TURN_ITERATIONS
                && (forall k | 0 <= k < |ends| :: ends[k].TurnEnd?)
                && (forall k | 0 <= k < |ends| - 1 :: ends[k].moreTurns)
                && (result.Done? <==> ends != [] && !ends[|ends| - 1].moreTurns)
                && (result.LoopLimitExceeded? <==>
                    |ends| == MAX_TURN_ITERATIONS && ends[MAX_TURN_ITERATIONS - 1].moreTurns))
  {
    hide TurnsPlayed;
    hide Rejected;
    hide RunTurns;
    var start := log.(messages := log.messages + [Message(User, [TextBlock(text)])]);
    var (log', result) := AfterSend(world, log, text);
    var played := RunIsTurns(world, start, MAX_TURN_ITERATIONS, log', result);
    OneTurnEndPerTurn(played);
    assert log'.events[|log.events|..] == AllEvents(played);
  }

  // ------------------------------------------------------------------------------------------
  // What the loop hears of a decoded stream
  // ------------------------------------------------------------------------------------------

  lemma {:induction false} FirstStop(out: seq<ProviderEvent>)
    requires out != [] && out[|out| - 1].Stop?
    ensures |Heard(out)| < |out| && out[|Heard(out)|].Stop?
    ensures forall i | 0 <= i < |Heard(out)| :: !out[i].Stop?
    decreases |out|
  {
    if !out[0].Stop? {
      FirstStop(out[1..]);
      assert Heard(out) == [out[0]] + Heard(out[1..]);
      assert out[1..][|Heard(out[1..])|] == out[|Heard(out)|];
      forall i | 0 <= i < |Heard(out)| ensures !out[i].Stop? {
        if i > 0 { assert out[i] == out[1..][i - 1]; }
      }
    }
  }

  lemma {:induction false} NoStopsCounted(out: seq<ProviderEvent>)
    ensures CountStops(out) == 0 <==> forall i | 0 <= i < |out| :: !out[i].Stop?
    decreases |out|
  {
    if out != [] {
      var before := out[..|out| - 1];
      NoStopsCounted(before);
      if forall i | 0 <= i < |before| :: !before[i].Stop? {
        assert forall i | 0 <= i < |out| - 1 :: out[i] == before[i];
      } else {
        var i :| 0 <= i < |before| && before[i].Stop?;
        assert out[i].Stop?;
      }
    }
  }

  /** The loop hears everything before the closing stop exactly when that is the only stop. */
  lemma {:induction false} HeardWholeIffOneStop(out: seq<ProviderEvent>)
    requires out != [] && out[|out| - 1].Stop?
    ensures Heard(out) == out[..|out| - 1] <==> CountStops(out) == 1
  {
    FirstStop(out);
    var before := out[..|out| - 1];
    NoStopsCounted(before);
    assert Heard(out) == out[..|Heard(out)|];
    if |Heard(out)| < |out| - 1 {
      assert before[|Heard(out)|].Stop?;
    }
  }

  lemma {:induction false} NoUsageReports(heard: seq<ProviderEvent>)
    requires forall i | 0 <= i < |heard| :: !heard[i].Usage?
    ensures UsageReports(heard) == []
    decreases |heard|
  {
    if heard != [] { NoUsageReports(heard[1..]); }
  }

  lemma {:induction false} LastReportIsUsage(before: seq<ProviderEvent>, i: nat, o: nat)
    requires forall k | 0 <= k < |before| :: !before[k].Usage?
    ensures UsageReports(before + [Usage(i, o)]) == [TokenUsage(i, o)]
  {
    NoUsageReports(before);
    var f := (e: ProviderEvent) => match e case Usage(i, o) => [TokenUsage(i, o)] case _ => [];
    FlatMapConcat(f, before, [Usage(i, o)]);
    FlatMapOne(f, Usage(i, o));
  }

  /** A stream heard to its last stop reports the totals, if it did not fail. */
  lemma {:induction false} UsageHeard(sent: seq<ProviderEvent>, chunks: seq<Chunk>, st: StreamState)
    requires forall k | 0 <= k < |sent| :: !sent[k].Usage?
    requires var out := sent + Ending(chunks, st); out != [] && Heard(out) == out[..|out| - 1]
    ensures ReadTurn(sent + Ending(chunks, st)).usage
            == if Fails(chunks) then TokenUsage(0, 0) else TokenUsage(st.inputTokens, st.outputTokens)
  {
    var out := sent + Ending(chunks, st);
    EndingOf(chunks, st);
    if |Ending(chunks, st)| == 2 {
      assert Heard(out) == sent + [Usage(st.inputTokens, st.outputTokens)];
      LastReportIsUsage(sent, st.inputTokens, st.outputTokens);
    } else {
      assert Heard(out) == sent;
      NoUsageReports(sent);
    }
  }

  /** A stream left at an earlier stop reports nothing. */
  lemma {:induction false} UsageMissed(out: seq<ProviderEvent>)
    requires out != [] && out[|out| - 1].Stop?
    requires forall i | 0 <= i < |out| && out[i].Usage? :: i == |out| - 2
    requires Heard(out) != out[..|out| - 1]
    ensures ReadTurn(out).usage == TokenUsage(0, 0)
  {
    FirstStop(out);
    assert Heard(out) == out[..|Heard(out)|];
    NoUsageReports(Heard(out));
  }

  /** The usage a turn reports is the stream's totals, unless the body failed or a frame was faulty:
      then the loop leaves at an early stop and reports nothing. */
  lemma {:induction false} FaultHidesUsage(codec: Codec, chunks: seq<Chunk>)
    ensures var blocks := DrainPieces([], PiecesBefore(chunks)).blocks;
            var st := Feed(codec, INITIAL, blocks).st;
            ReadTurn(PumpOutput(codec, [], INITIAL, chunks)).usage
              == if NoFault(codec.toolInput, FramesOfBlocks(codec, blocks)) && !Fails(chunks)
                 then TokenUsage(st.inputTokens, st.outputTokens) else TokenUsage(0, 0)
  {
    var out := PumpOutput(codec, [], INITIAL, chunks);
    var blocks := DrainPieces([], PiecesBefore(chunks)).blocks;
    var fed := Feed(codec, INITIAL, blocks);
    PumpOfChunks(codec, [], INITIAL, chunks);
    StreamEndsInStop(codec, [], INITIAL, chunks);
    OneStopIffNoFault(codec, chunks);
    HeardWholeIffOneStop(out);
    if CountStops(out) == 1 {
      DispatchSendsNoUsage(codec.toolInput, INITIAL, FramesOfBlocks(codec, blocks));
      UsageHeard(fed.sent, chunks, fed.st);
    } else {
      UsageMissed(out);
    }
  }
}

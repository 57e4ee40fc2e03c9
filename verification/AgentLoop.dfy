/** The agent loop (crates/agent/src/session.rs): one conversation, driven through a provider and
    a tool dispatcher.

    Provider and dispatcher are arbitrary functions of what they are given and of how often they
    were asked before, so every behaviour they can show is covered. */
module AgentLoop {
  import opened Options
  import opened Json
  import opened Sequences
  import opened ProviderStream

  const MAX_TURN_ITERATIONS: nat := 25

  datatype Role = System | User | Assistant

  datatype Content =
    | TextBlock(text: string)
    | ToolUseBlock(id: string, name: string, input: Json)
    | ToolResultBlock(toolUseId: string, content: string, isError: bool)

  datatype Message = Message(role: Role, content: seq<Content>)

  datatype TokenUsage = TokenUsage(inputTokens: nat, outputTokens: nat)

  datatype AgentEvent =
    | AssistantTextDelta(text: string)
    | ToolCallStart(id: string, name: string, input: Json)
    | ToolCallEnd(id: string, name: string, content: string, isError: bool)
    | TurnEnd(reason: StopReason, moreTurns: bool, usage: TokenUsage)

  datatype PendingToolCall = PendingToolCall(id: string, name: string, input: Json)
  datatype ToolOutcome = ToolOutcome(content: string, isError: bool)
  datatype Reply = Refused(error: string) | Opened(stream: seq<ProviderEvent>)
  datatype AgentResult = Done | ProviderFailed(error: string) | LoopLimitExceeded

  datatype World = World(
    provider: (nat, seq<Message>) -> Reply,
    dispatch: (nat, string, Json) -> ToolOutcome,
    systemPrompt: Option<string>)

  /** The conversation, the events emitted, the requests made and the tools invoked so far. */
  datatype Log = Log(
    messages: seq<Message>, events: seq<AgentEvent>, requests: seq<seq<Message>>, dispatched: seq<PendingToolCall>)

  // ------------------------------------------------------------------------------------------
  // One turn
  // ------------------------------------------------------------------------------------------

  /** What the loop hears of a stream: everything before the first stop. */
  function Heard(stream: seq<ProviderEvent>): (r: seq<ProviderEvent>)
    ensures r <= stream
  {
    if stream == [] || stream[0].Stop? then [] else [stream[0]] + Heard(stream[1..])
  }

  function Deltas(heard: seq<ProviderEvent>): seq<string> {
    FlatMap((e: ProviderEvent) => match e case Text(delta) => [delta] case _ => [], heard)
  }

  function Calls(heard: seq<ProviderEvent>): seq<PendingToolCall> {
    FlatMap((e: ProviderEvent) => match e case ToolCall(id, name, input) => [PendingToolCall(id, name, input)] case _ => [], heard)
  }

  function UsageReports(heard: seq<ProviderEvent>): seq<TokenUsage> {
    FlatMap((e: ProviderEvent) => match e case Usage(i, o) => [TokenUsage(i, o)] case _ => [], heard)
  }

  function Join(parts: seq<string>): string {
    FlatMap((part: string) => part, parts)
  }

  /** A turn as read from its stream. */
  datatype Turn = Turn(deltas: seq<string>, calls: seq<PendingToolCall>, reason: StopReason, usage: TokenUsage)
  {
    function Text(): string { Join(deltas) }
  }

  function ReadTurn(stream: seq<ProviderEvent>): Turn {
    var heard := Heard(stream);
    var reports := UsageReports(heard);
    Turn(Deltas(heard), Calls(heard),
         if |heard| < |stream| && stream[|heard|].Stop? then stream[|heard|].reason else EndTurn,
         if reports == [] then TokenUsage(0, 0) else reports[|reports| - 1])
  }

  function ToolUses(calls: seq<PendingToolCall>): seq<Content> {
    FlatMap((c: PendingToolCall) => [ToolUseBlock(c.id, c.name, c.input)], calls)
  }

  /** The message an assistant turn leaves behind; a turn with neither text nor calls leaves none. */
  function AssistantTurn(turn: Turn): seq<Message> {
    var content := (if turn.Text() == "" then [] else [TextBlock(turn.Text())]) + ToolUses(turn.calls);
    if content == [] then [] else [Message(Assistant, content)]
  }

  function Results(calls: seq<PendingToolCall>, outcomes: seq<ToolOutcome>): seq<Content>
    requires |calls| == |outcomes|
  {
    seq(|calls|, i requires 0 <= i < |calls| => ToolResultBlock(calls[i].id, outcomes[i].content, outcomes[i].isError))
  }

  function CallEvents(call: PendingToolCall, outcome: ToolOutcome): seq<AgentEvent> {
    [ToolCallStart(call.id, call.name, call.input), ToolCallEnd(call.id, call.name, outcome.content, outcome.isError)]
  }

  function AllCallEvents(calls: seq<PendingToolCall>, outcomes: seq<ToolOutcome>): seq<AgentEvent>
    requires |calls| == |outcomes|
    decreases |calls|
  {
    if calls == [] then []
    else
      var n := |calls| - 1;
      AllCallEvents(calls[..n], outcomes[..n]) + CallEvents(calls[n], outcomes[n])
  }

  /** The outcomes of dispatching `calls` in order when `before` tools were dispatched earlier. */
  function Outcomes(world: World, before: nat, calls: seq<PendingToolCall>): (r: seq<ToolOutcome>)
    ensures |r| == |calls|
  {
    seq(|calls|, i requires 0 <= i < |calls| => world.dispatch(before + i, calls[i].name, calls[i].input))
  }

  function TextEvents(deltas: seq<string>): seq<AgentEvent> {
    FlatMap((d: string) => [AssistantTextDelta(d)], deltas)
  }

  function Outgoing(world: World, messages: seq<Message>): seq<Message> {
    (match world.systemPrompt case None => [] case Some(prompt) => [Message(System, [TextBlock(prompt)])]) + messages
  }

  function MessagesOf(turn: Turn, outcomes: seq<ToolOutcome>): seq<Message>
    requires |turn.calls| == |outcomes|
  {
    AssistantTurn(turn) + if turn.calls == [] then [] else [Message(User, Results(turn.calls, outcomes))]
  }

  function EventsOf(turn: Turn, outcomes: seq<ToolOutcome>): seq<AgentEvent>
    requires |turn.calls| == |outcomes|
  {
    TextEvents(turn.deltas) + AllCallEvents(turn.calls, outcomes) + [TurnEnd(turn.reason, turn.calls != [], turn.usage)]
  }

  /** The log after a turn whose stream was opened. */
  function AfterTurn(world: World, log: Log, turn: Turn): Log {
    var outcomes := Outcomes(world, |log.dispatched|, turn.calls);
    Log(log.messages + MessagesOf(turn, outcomes),
        log.events + EventsOf(turn, outcomes),
        log.requests + [Outgoing(world, log.messages)],
        log.dispatched + turn.calls)
  }

  /** At most `left` turns from `log` on. */
  function RunTurns(world: World, log: Log, left: nat): (Log, AgentResult)
    decreases left, |log.requests|
  {
    if left == 0 then (log, LoopLimitExceeded)
    else
      var (log', result) := OneTurn(world, log);
      if result.Some? then (log', result.value) else RunTurns(world, log', left - 1)
  }

  /** One round: the result when the loop ends with it, nothing when it goes on. */
  function OneTurn(world: World, log: Log): (Log, Option<AgentResult>) {
    var outgoing := Outgoing(world, log.messages);
    match world.provider(|log.requests|, outgoing)
    case Refused(error) => (log.(requests := log.requests + [outgoing]), Some(ProviderFailed(error)))
    case Opened(stream) =>
      var turn := ReadTurn(stream);
      (AfterTurn(world, log, turn), if turn.calls == [] then Some(Done) else None)
  }

  // ------------------------------------------------------------------------------------------
  // The session object
  // ------------------------------------------------------------------------------------------

  class AgentSession {
    const world: World
    var messages: seq<Message>
    var events: seq<AgentEvent>
    var requests: seq<seq<Message>>
    var dispatched: seq<PendingToolCall>

    function State(): Log
      reads this
    {
      Log(messages, events, requests, dispatched)
    }

    /** Resume a conversation with an existing history. */
    constructor (world: World, messages: seq<Message>)
      ensures this.world == world && State() == Log(messages, [], [], [])
    {
      this.world, this.messages := world, messages;
      events, requests, dispatched := [], [], [];
    }

    /** Drop the history; the system prompt stays. */
    method Reset()
      modifies this`messages
      ensures messages == []
    {
      messages := [];
    }

    method Emit(event: AgentEvent)
      modifies this`events
      ensures events == old(events) + [event]
    {
      events := events + [event];
    }

    method BuildOutgoingMessages() returns (out: seq<Message>)
      ensures out == Outgoing(world, messages)
    {
      out := [];
      match world.systemPrompt {
        case None =>
        case Some(prompt) => out := out + [Message(System, [TextBlock(prompt)])];
      }
      out := out + messages;
    }

    method AppendAssistantTurn(text: string, calls: seq<PendingToolCall>, ghost turn: Turn)
      requires turn.Text() == text && turn.calls == calls
      modifies this`messages
      ensures messages == old(messages) + AssistantTurn(turn)
    {
      var content: seq<Content> := [];
      if text != "" {
        content := content + [TextBlock(text)];
      }
      ghost var start := content;
      for i := 0 to |calls|
        invariant content == start + ToolUses(calls[..i])
        invariant messages == old(messages)
      {
        FlatMapSnoc((c: PendingToolCall) => [ToolUseBlock(c.id, c.name, c.input)], calls, i);
        content := content + [ToolUseBlock(calls[i].id, calls[i].name, calls[i].input)];
      }
      assert calls[..|calls|] == calls;
      assert start == if turn.Text() == "" then [] else [TextBlock(turn.Text())];
      if content != [] {
        assert AssistantTurn(turn) == [Message(Assistant, content)];
        messages := messages + [Message(Assistant, content)];
      } else {
        assert AssistantTurn(turn) == [];
        assert messages + [] == messages;
      }
    }

    /** Read a stream up to its first stop, emitting the text as it comes. */
    method ReadStream(stream: seq<ProviderEvent>)
      returns (text: string, calls: seq<PendingToolCall>, reason: StopReason, usage: TokenUsage)
      modifies this`events
      ensures ReadTurn(stream) == Turn(ReadTurn(stream).deltas, calls, reason, usage)
      ensures text == ReadTurn(stream).Text()
      ensures events == old(events) + TextEvents(ReadTurn(stream).deltas)
    {
      text, calls, reason, usage := "", [], EndTurn, TokenUsage(0, 0);
      var i := 0;
      while i < |stream|
        invariant 0 <= i <= |stream| && HeardSoFar(stream, i)
        invariant text == Join(Deltas(stream[..i])) && calls == Calls(stream[..i])
        invariant reason == EndTurn && usage == LastUsage(stream[..i])
        invariant events == old(events) + TextEvents(Deltas(stream[..i]))
      {
        ReadOneMore(stream, i);
        match stream[i] {
          case Text(delta) =>
            text := text + delta;
            Emit(AssistantTextDelta(delta));
          case ToolCall(id, name, input) =>
            calls := calls + [PendingToolCall(id, name, input)];
          case ToolResultRequested =>
          case Usage(inputTokens, outputTokens) =>
            usage := TokenUsage(inputTokens, outputTokens);
          case Stop(r) =>
            reason := r;
            break;
        }
        i := i + 1;
      }
      HeardAll(stream, i);
    }

    /** Invoke every requested tool in order, surrounded by a start and an end event. */
    method DispatchAll(calls: seq<PendingToolCall>) returns (blocks: seq<Content>)
      modifies this`events, this`dispatched
      ensures var outcomes := Outcomes(world, |old(dispatched)|, calls);
              && blocks == Results(calls, outcomes)
              && events == old(events) + AllCallEvents(calls, outcomes)
              && dispatched == old(dispatched) + calls
    {
      blocks := [];
      ghost var outcomes := Outcomes(world, |dispatched|, calls);
      for i := 0 to |calls|
        invariant blocks == Results(calls[..i], outcomes[..i])
        invariant events == old(events) + AllCallEvents(calls[..i], outcomes[..i])
        invariant dispatched == old(dispatched) + calls[..i]
      {
        var call := calls[i];
        assert calls[..i + 1][..i] == calls[..i] && outcomes[..i + 1][..i] == outcomes[..i];
        Emit(ToolCallStart(call.id, call.name, call.input));
        var outcome := world.dispatch(|dispatched|, call.name, call.input);
        dispatched := dispatched + [call];
        Emit(ToolCallEnd(call.id, call.name, outcome.content, outcome.isError));
        blocks := blocks + [ToolResultBlock(call.id, outcome.content, outcome.isError)];
      }
      assert calls[..|calls|] == calls && outcomes[..|calls|] == outcomes;
    }

    /** One round of the loop. */
    method RunOnce() returns (result: Option<AgentResult>)
      modifies this
      ensures (State(), result) == OneTurn(world, old(State()))
    {
      ghost var log := State();
      var outgoing := BuildOutgoingMessages();
      var reply := world.provider(|requests|, outgoing);
      requests := requests + [outgoing];
      if reply.Refused? {
        return Some(ProviderFailed(reply.error));
      }
      ghost var turn := ReadTurn(reply.stream);
      var text, calls, reason, usage := ReadStream(reply.stream);
      AppendAssistantTurn(text, calls, turn);
      if calls == [] {
        Emit(TurnEnd(reason, false, usage));
        TurnWithoutCalls(world, log, turn);
        return Some(Done);
      }
      var blocks := DispatchAll(calls);
      messages := messages + [Message(User, blocks)];
      Emit(TurnEnd(reason, true, usage));
      TurnWithCalls(world, log, turn);
      return None;
    }

    method Run() returns (result: AgentResult)
      modifies this
      ensures (State(), result) == RunTurns(world, old(State()), MAX_TURN_ITERATIONS)
    {
      hide OneTurn;
      for iteration := 0 to MAX_TURN_ITERATIONS
        invariant RunTurns(world, State(), MAX_TURN_ITERATIONS - iteration) == RunTurns(world, old(State()), MAX_TURN_ITERATIONS)
      {
        var end := RunOnce();
        if end.Some? {
          return end.value;
        }
      }
      result := LoopLimitExceeded;
    }

    /** Append a user message and drive the loop until the model stops asking for tools. */
    method SendUserMessage(text: string) returns (result: AgentResult)
      modifies this
      ensures (State(), result) == AfterSend(world, old(State()), text)
    {
      messages := messages + [Message(User, [TextBlock(text)])];
      result := Run();
    }
  }

  function AfterSend(world: World, log: Log, text: string): (Log, AgentResult) {
    RunTurns(world, log.(messages := log.messages + [Message(User, [TextBlock(text)])]), MAX_TURN_ITERATIONS)
  }

  lemma {:induction false} TurnWithoutCalls(world: World, log: Log, turn: Turn)
    requires turn.calls == []
    ensures AfterTurn(world, log, turn)
         == Log(log.messages + AssistantTurn(turn),
                (log.events + TextEvents(turn.deltas)) + [TurnEnd(turn.reason, false, turn.usage)],
                log.requests + [Outgoing(world, log.messages)],
                log.dispatched)
  {
    assert AssistantTurn(turn) + [] == AssistantTurn(turn);
    assert log.dispatched + [] == log.dispatched;
    assert TextEvents(turn.deltas) + [] == TextEvents(turn.deltas);
    Regroup(log.events, TextEvents(turn.deltas), [TurnEnd(turn.reason, false, turn.usage)]);
  }

  lemma {:induction false} TurnWithCalls(world: World, log: Log, turn: Turn)
    requires turn.calls != []
    ensures var outcomes := Outcomes(world, |log.dispatched|, turn.calls);
            AfterTurn(world, log, turn)
              == Log((log.messages + AssistantTurn(turn)) + [Message(User, Results(turn.calls, outcomes))],
                     ((log.events + TextEvents(turn.deltas)) + AllCallEvents(turn.calls, outcomes))
                       + [TurnEnd(turn.reason, true, turn.usage)],
                     log.requests + [Outgoing(world, log.messages)],
                     log.dispatched + turn.calls)
  {
    var outcomes := Outcomes(world, |log.dispatched|, turn.calls);
    var a, b, c := TextEvents(turn.deltas), AllCallEvents(turn.calls, outcomes), [TurnEnd(turn.reason, true, turn.usage)];
    Regroup(log.messages, AssistantTurn(turn), [Message(User, Results(turn.calls, outcomes))]);
    Regroup(log.events, a, b);
    Regroup(log.events, a + b, c);
  }

  // ------------------------------------------------------------------------------------------
  // Reading a stream one event further
  // ------------------------------------------------------------------------------------------

  lemma {:induction false} FlatMapSnoc<A, B>(f: A -> seq<B>, s: seq<A>, i: nat)
    requires i < |s|
    ensures FlatMap(f, s[..i + 1]) == FlatMap(f, s[..i]) + f(s[i])
  {
    assert s[..i + 1] == s[..i] + [s[i]];
    FlatMapConcat(f, s[..i], [s[i]]);
    FlatMapOne(f, s[i]);
  }

  function LastUsage(heard: seq<ProviderEvent>): TokenUsage {
    var reports := UsageReports(heard);
    if reports == [] then TokenUsage(0, 0) else reports[|reports| - 1]
  }

  ghost predicate HeardSoFar(stream: seq<ProviderEvent>, i: nat)
    requires i <= |stream|
  {
    forall j | 0 <= j < i :: !stream[j].Stop?
  }

  lemma {:induction false} ReadOneMore(stream: seq<ProviderEvent>, i: nat)
    requires i < |stream|
    ensures Join(Deltas(stream[..i + 1])) == Join(Deltas(stream[..i])) + (if stream[i].Text? then stream[i].delta else "")
    ensures TextEvents(Deltas(stream[..i + 1]))
         == TextEvents(Deltas(stream[..i])) + (if stream[i].Text? then [AssistantTextDelta(stream[i].delta)] else [])
    ensures Calls(stream[..i + 1])
         == Calls(stream[..i]) + (match stream[i] case ToolCall(id, name, input) => [PendingToolCall(id, name, input)] case _ => [])
    ensures LastUsage(stream[..i + 1])
         == if stream[i].Usage? then TokenUsage(stream[i].inputTokens, stream[i].outputTokens) else LastUsage(stream[..i])
  {
    FlatMapSnoc((e: ProviderEvent) => match e case Text(delta) => [delta] case _ => [], stream, i);
    FlatMapSnoc((e: ProviderEvent) => match e case ToolCall(id, name, input) => [PendingToolCall(id, name, input)] case _ => [], stream, i);
    FlatMapSnoc((e: ProviderEvent) => match e case Usage(u, o) => [TokenUsage(u, o)] case _ => [], stream, i);
    var before := Deltas(stream[..i]);
    if stream[i].Text? {
      FlatMapConcat((part: string) => part, before, [stream[i].delta]);
      FlatMapOne((part: string) => part, stream[i].delta);
      FlatMapConcat((d: string) => [AssistantTextDelta(d)], before, [stream[i].delta]);
      FlatMapOne((d: string) => [AssistantTextDelta(d)], stream[i].delta);
    } else {
      assert before + [] == before;
    }
  }

  /** What is heard is the longest prefix without a stop. */
  lemma {:induction false} HeardAll(stream: seq<ProviderEvent>, i: nat)
    requires i <= |stream| && HeardSoFar(stream, i) && (i < |stream| ==> stream[i].Stop?)
    ensures Heard(stream) == stream[..i]
    decreases i
  {
    if i > 0 {
      HeardAll(stream[1..], i - 1);
      assert [stream[0]] + stream[1..][..i - 1] == stream[..i];
    }
  }
}

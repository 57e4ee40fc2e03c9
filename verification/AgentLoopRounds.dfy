/** What each round of the agent loop remembers, shows and asks, told from the provider's stream and
    the tools' answers alone (crates/agent/src/session.rs:133-274). */
module AgentLoopRounds {
  import opened Options
  import opened Json
  import opened Sequences
  import opened ProviderStream
  import opened AgentLoop
  import opened AgentLoopLaws

  /** The events that are wanted, in order. */
  function Only(wanted: ProviderEvent -> bool, events: seq<ProviderEvent>): seq<ProviderEvent>
    decreases |events|
  {
    if events == [] then [] else (if wanted(events[0]) then [events[0]] else []) + Only(wanted, events[1..])
  }

  predicate IsText(e: ProviderEvent) {
    e.Text?
  }

  predicate IsCall(e: ProviderEvent) {
    e.ToolCall?
  }

  /** The text that these events spell. */
  function Spelled(texts: seq<ProviderEvent>): string
    requires forall i | 0 <= i < |texts| :: texts[i].Text?
  {
    if texts == [] then "" else texts[0].delta + Spelled(texts[1..])
  }

  /** What the last report before position `n` says, or zero. */
  ghost predicate IsUsageBefore(stream: seq<ProviderEvent>, n: nat, usage: TokenUsage)
    requires n <= |stream|
  {
    || (usage == TokenUsage(0, 0) && forall i | 0 <= i < n :: !stream[i].Usage?)
    || (exists i :: && 0 <= i < n && stream[i].Usage?
                    && usage == TokenUsage(stream[i].inputTokens, stream[i].outputTokens)
                    && forall j | i < j < n :: !stream[j].Usage?)
  }

  /** One round: the stream, how much of it was heard, the text and the calls in it, the blocks
      remembered and the events shown. */
  datatype Round = Round(
    stream: seq<ProviderEvent>, heard: nat, texts: seq<ProviderEvent>, asked: seq<ProviderEvent>,
    said: seq<Content>, results: seq<Content>, trace: seq<AgentEvent>)
  {
    /** The stream is heard up to its first stop; text and calls are what lies before. */
    ghost predicate IsHeard() {
      && heard <= |stream|
      && (forall i | 0 <= i < heard :: !stream[i].Stop?) && (heard < |stream| ==> stream[heard].Stop?)
      && texts == Only(IsText, stream[..heard])
      && asked == Only(IsCall, stream[..heard])
      && (forall i | 0 <= i < |texts| :: texts[i].Text?)
      && (forall i | 0 <= i < |asked| :: asked[i].ToolCall?)
    }

    /** The text, if there is any, and every call. */
    ghost predicate IsSaid()
      requires IsHeard()
    {
      var text := Spelled(texts);
      var t := if text == "" then 0 else 1;
      && |said| == t + |asked| && (t == 1 ==> said[0] == TextBlock(text))
      && forall i | 0 <= i < |asked| :: said[t + i] == ToolUseBlock(asked[i].id, asked[i].name, asked[i].input)
    }

    /** What tool `i` of this round answers when `before` tools were run earlier. */
    ghost function Outcome(world: World, before: nat, i: nat): ToolOutcome
      requires IsHeard() && i < |asked|
    {
      world.dispatch(before + i, asked[i].name, asked[i].input)
    }

    /** One result per call, under its id, with what the tool said and whether it failed. */
    ghost predicate IsAnswered(world: World, before: nat)
      requires IsHeard()
    {
      && |results| == |asked|
      && forall i | 0 <= i < |asked| ::
           var o := Outcome(world, before, i); results[i] == ToolResultBlock(asked[i].id, o.content, o.isError)
    }

    /** The text as it came, a start and an end for each call, and the end of the turn. */
    ghost predicate IsShown(world: World, before: nat)
      requires IsHeard()
    {
      var n, c := |texts|, |asked|;
      && |trace| == n + 2 * c + 1
      && (forall i | 0 <= i < n :: trace[i] == AssistantTextDelta(texts[i].delta))
      && (forall i | 0 <= i < c ::
            var o := Outcome(world, before, i);
            && trace[n + 2 * i] == ToolCallStart(asked[i].id, asked[i].name, asked[i].input)
            && trace[n + 2 * i + 1] == ToolCallEnd(asked[i].id, asked[i].name, o.content, o.isError))
      && trace[n + 2 * c].TurnEnd? && trace[n + 2 * c].moreTurns == (c > 0)
      && trace[n + 2 * c].reason == (if heard < |stream| then stream[heard].reason else EndTurn)
      && IsUsageBefore(stream, heard, trace[n + 2 * c].usage)
    }
  }

  /** The prompt, if there is one, and the conversation. */
  ghost predicate IsRequest(world: World, messages: seq<Message>, request: seq<Message>) {
    match world.systemPrompt
    case None => request == messages
    case Some(prompt) => request == [Message(System, [TextBlock(prompt)])] + messages
  }

  /** The provider was asked once, and answered with the stream of this round. */
  ghost predicate IsAsked(world: World, before: Log, after: Log, r: Round) {
    exists request :: && IsRequest(world, before.messages, request) && after.requests == before.requests + [request]
                      && world.provider(|before.requests|, request) == Opened(r.stream)
  }

  /** The conversation and the event trace grow by what the round says; every tool is run, in order. */
  ghost predicate IsRecorded(before: Log, after: Log, r: Round)
    requires r.IsHeard()
  {
    && after.messages == before.messages + (if r.said == [] then [] else [Message(Assistant, r.said)])
                         + (if r.asked == [] then [] else [Message(User, r.results)])
    && after.events == before.events + r.trace
    && before.dispatched <= after.dispatched && |after.dispatched| == |before.dispatched| + |r.asked|
    && forall i | 0 <= i < |r.asked| ::
         after.dispatched[|before.dispatched| + i] == PendingToolCall(r.asked[i].id, r.asked[i].name, r.asked[i].input)
  }

  /** `after` is `before` after the round `r`. */
  ghost predicate IsRound(world: World, before: Log, after: Log, r: Round) {
    && r.IsHeard() && r.IsSaid() && r.IsAnswered(world, |before.dispatched|) && r.IsShown(world, |before.dispatched|)
    && IsAsked(world, before, after, r) && IsRecorded(before, after, r)
  }

  // ------------------------------------------------------------------------------------------
  // What is heard
  // ------------------------------------------------------------------------------------------

  lemma {:induction false} HeardEndsAtStop(stream: seq<ProviderEvent>)
    ensures var n := |Heard(stream)|;
            && n <= |stream| && Heard(stream) == stream[..n]
            && (forall i | 0 <= i < n :: !stream[i].Stop?) && (n < |stream| ==> stream[n].Stop?)
    decreases |stream|
  {
    if stream != [] && !stream[0].Stop? {
      HeardEndsAtStop(stream[1..]);
      var n := |Heard(stream)|;
      forall i | 0 <= i < n ensures !stream[i].Stop? {
        if i > 0 { assert stream[i] == stream[1..][i - 1]; }
      }
    }
  }

  lemma {:induction false} DeltasAndCallsOfFirst(heard: seq<ProviderEvent>)
    requires heard != []
    ensures Deltas(heard) == (if heard[0].Text? then [heard[0].delta] else []) + Deltas(heard[1..])
    ensures Calls(heard) == (if heard[0].ToolCall? then [PendingToolCall(heard[0].id, heard[0].name, heard[0].input)] else [])
                            + Calls(heard[1..])
  {
  }

  lemma {:induction false} JoinOfFirst(part: string, rest: seq<string>)
    ensures Join([part] + rest) == part + Join(rest)
  {
    assert ([part] + rest)[1..] == rest;
  }

  lemma {:induction false} TextsHeard(heard: seq<ProviderEvent>)
    ensures var texts := Only(IsText, heard);
            && |texts| == |Deltas(heard)|
            && (forall i | 0 <= i < |texts| :: texts[i].Text? && texts[i].delta == Deltas(heard)[i])
            && Spelled(texts) == Join(Deltas(heard))
    decreases |heard|
  {
    if heard != [] {
      TextsHeard(heard[1..]);
      DeltasAndCallsOfFirst(heard);
      var texts, later := Only(IsText, heard), Only(IsText, heard[1..]);
      hide Deltas;
      hide Join;
      if heard[0].Text? {
        assert texts == [heard[0]] + later && texts[1..] == later;
        JoinOfFirst(heard[0].delta, Deltas(heard[1..]));
      } else {
        assert texts == later && Deltas(heard) == Deltas(heard[1..]);
      }
    }
  }

  lemma {:induction false} CallsHeard(heard: seq<ProviderEvent>)
    ensures var asked := Only(IsCall, heard);
            && |asked| == |Calls(heard)|
            && forall i | 0 <= i < |asked| ::
                 asked[i].ToolCall? && Calls(heard)[i] == PendingToolCall(asked[i].id, asked[i].name, asked[i].input)
    decreases |heard|
  {
    if heard != [] {
      CallsHeard(heard[1..]);
      DeltasAndCallsOfFirst(heard);
      hide Calls;
      var asked, later := Only(IsCall, heard), Only(IsCall, heard[1..]);
      if heard[0].ToolCall? {
        assert asked == [heard[0]] + later;
      } else {
        assert asked == later && Calls(heard) == Calls(heard[1..]);
      }
    }
  }

  lemma {:induction false} UsageSnoc(heard: seq<ProviderEvent>)
    requires heard != []
    ensures var last := heard[|heard| - 1];
            LastUsage(heard) == if last.Usage? then TokenUsage(last.inputTokens, last.outputTokens)
                                else LastUsage(heard[..|heard| - 1])
  {
    ReadOneMore(heard, |heard| - 1);
    assert heard[..|heard|] == heard;
  }

  lemma {:induction false} UsageHeard(stream: seq<ProviderEvent>, n: nat)
    requires n <= |stream|
    ensures IsUsageBefore(stream, n, LastUsage(stream[..n]))
    decreases n
  {
    if n > 0 {
      UsageHeard(stream, n - 1);
      UsageSnoc(stream[..n]);
      assert stream[..n][..n - 1] == stream[..n - 1];
      hide LastUsage;
      if stream[n - 1].Usage? { assert IsUsageBefore(stream, n, TokenUsage(stream[n - 1].inputTokens, stream[n - 1].outputTokens)); }
    }
  }

  // ------------------------------------------------------------------------------------------
  // What is remembered and shown
  // ------------------------------------------------------------------------------------------

  lemma {:induction false} ToolUsesAt(calls: seq<PendingToolCall>)
    ensures |ToolUses(calls)| == |calls|
    ensures forall i | 0 <= i < |calls| :: ToolUses(calls)[i] == ToolUseBlock(calls[i].id, calls[i].name, calls[i].input)
    decreases |calls|
  {
    if calls != [] {
      ToolUsesAt(calls[1..]);
      assert ToolUses(calls) == [ToolUseBlock(calls[0].id, calls[0].name, calls[0].input)] + ToolUses(calls[1..]);
    }
  }

  /** The round that the loop makes of a stream. */
  function RoundOf(world: World, log: Log, stream: seq<ProviderEvent>): Round {
    var heard := Heard(stream);
    var turn := ReadTurn(stream);
    var outcomes := Outcomes(world, |log.dispatched|, turn.calls);
    Round(stream, |heard|, Only(IsText, heard), Only(IsCall, heard),
          (if turn.Text() == "" then [] else [TextBlock(turn.Text())]) + ToolUses(turn.calls),
          Results(turn.calls, outcomes), EventsOf(turn, outcomes))
  }

  lemma {:induction false} RoundIsHeard(world: World, log: Log, stream: seq<ProviderEvent>)
    ensures RoundOf(world, log, stream).IsHeard()
  {
    HeardEndsAtStop(stream);
    TextsHeard(Heard(stream));
    CallsHeard(Heard(stream));
  }

  lemma {:induction false} RoundIsSaid(world: World, log: Log, stream: seq<ProviderEvent>)
    requires RoundOf(world, log, stream).IsHeard()
    ensures RoundOf(world, log, stream).IsSaid()
  {
    hide EventsOf;
    hide Results;
    hide Outcomes;
    hide UsageReports;
    hide Only;
    hide Heard;
    hide Deltas;
    hide Calls;
    hide ToolUses;
    hide Join;
    hide Spelled;
    TextsHeard(Heard(stream));
    CallsHeard(Heard(stream));
    ToolUsesAt(ReadTurn(stream).calls);
  }

  /** The calls of the turn are those asked for, and so are their outcomes. */
  ghost predicate SameCalls(world: World, before: nat, r: Round, turn: Turn, outcomes: seq<ToolOutcome>) {
    && r.IsHeard() && |r.asked| == |turn.calls| == |outcomes|
    && forall i | 0 <= i < |r.asked| ::
         && turn.calls[i] == PendingToolCall(r.asked[i].id, r.asked[i].name, r.asked[i].input)
         && outcomes[i] == r.Outcome(world, before, i)
  }

  lemma {:induction false} RoundHasCalls(world: World, before: nat, r: Round, turn: Turn)
    requires r.IsHeard() && turn.calls == Calls(r.stream[..r.heard])
    ensures SameCalls(world, before, r, turn, Outcomes(world, before, turn.calls))
  {
    CallsHeard(r.stream[..r.heard]);
    hide Only;
    hide Calls;
  }

  lemma {:induction false} RoundIsAnswered(world: World, before: nat, r: Round, turn: Turn, outcomes: seq<ToolOutcome>)
    requires SameCalls(world, before, r, turn, outcomes) && r.results == Results(turn.calls, outcomes)
    ensures r.IsAnswered(world, before)
  {
    hide r.IsHeard;
  }

  lemma {:induction false} CallsAreShown(world: World, before: nat, r: Round, turn: Turn, outcomes: seq<ToolOutcome>)
    requires SameCalls(world, before, r, turn, outcomes) && r.trace == EventsOf(turn, outcomes)
    requires |r.texts| == |turn.deltas|
    ensures var n, c := |r.texts|, |r.asked|;
            && |r.trace| == n + 2 * c + 1
            && forall i | 0 <= i < c ::
                 var o := r.Outcome(world, before, i);
                 && r.trace[n + 2 * i] == ToolCallStart(r.asked[i].id, r.asked[i].name, r.asked[i].input)
                 && r.trace[n + 2 * i + 1] == ToolCallEnd(r.asked[i].id, r.asked[i].name, o.content, o.isError)
  {
    hide Only;
    hide EventsOf;
    TurnTrace(Exchange(turn, outcomes));
    var n := |r.texts|;
    forall i | 0 <= i < |r.asked|
      ensures var o := r.Outcome(world, before, i);
              && r.trace[n + 2 * i] == ToolCallStart(r.asked[i].id, r.asked[i].name, r.asked[i].input)
              && r.trace[n + 2 * i + 1] == ToolCallEnd(r.asked[i].id, r.asked[i].name, o.content, o.isError)
    {
      assert PairAt(r.trace, n + 2 * i, turn.calls[i], outcomes[i]);
    }
  }

  lemma {:induction false} SameCallsMeans(world: World, before: nat, r: Round, turn: Turn, outcomes: seq<ToolOutcome>)
    requires SameCalls(world, before, r, turn, outcomes)
    ensures r.IsHeard() && |r.asked| == |turn.calls| == |outcomes|
  {
  }

  lemma {:induction false} RoundIsShown(world: World, before: nat, r: Round, turn: Turn, outcomes: seq<ToolOutcome>)
    requires SameCalls(world, before, r, turn, outcomes) && r.trace == EventsOf(turn, outcomes)
    requires |r.texts| == |turn.deltas| && forall i | 0 <= i < |r.texts| :: r.texts[i].delta == turn.deltas[i]
    requires turn.reason == if r.heard < |r.stream| then r.stream[r.heard].reason else EndTurn
    requires IsUsageBefore(r.stream, r.heard, turn.usage)
    ensures r.IsShown(world, before)
  {
    hide EventsOf;
    hide IsUsageBefore;
    hide PairAt;
    hide TurnEnds;
    hide Only;
    hide SameCalls;
    SameCallsMeans(world, before, r, turn, outcomes);
    CallsAreShown(world, before, r, turn, outcomes);
    TurnTrace(Exchange(turn, outcomes));
  }

  lemma {:induction false} RoundIsRight(world: World, log: Log, stream: seq<ProviderEvent>)
    ensures var r := RoundOf(world, log, stream);
            r.IsHeard() && r.IsSaid() && r.IsAnswered(world, |log.dispatched|) && r.IsShown(world, |log.dispatched|)
  {
    RoundIsHeard(world, log, stream);
    RoundIsSaid(world, log, stream);
    HeardEndsAtStop(stream);
    TextsHeard(Heard(stream));
    UsageHeard(stream, |Heard(stream)|);
    var r, turn := RoundOf(world, log, stream), ReadTurn(stream);
    RoundHasCalls(world, |log.dispatched|, r, turn);
    hide SameCalls;
    hide Only;
    hide Heard;
    hide EventsOf;
    hide Results;
    var outcomes := Outcomes(world, |log.dispatched|, turn.calls);
    RoundIsAnswered(world, |log.dispatched|, r, turn, outcomes);
    RoundIsShown(world, |log.dispatched|, r, turn, outcomes);
  }

  lemma {:induction false} OutgoingIsRequest(world: World, messages: seq<Message>)
    ensures IsRequest(world, messages, Outgoing(world, messages))
  {
    assert [] + messages == messages;
  }

  lemma {:induction false} TurnIsRecorded(world: World, log: Log, stream: seq<ProviderEvent>)
    requires RoundOf(world, log, stream).IsHeard()
    ensures IsRecorded(log, AfterTurn(world, log, ReadTurn(stream)), RoundOf(world, log, stream))
    ensures RoundOf(world, log, stream).asked == [] <==> ReadTurn(stream).calls == []
  {
    CallsHeard(Heard(stream));
    hide Only;
    hide Heard;
    hide Calls;
    hide Deltas;
    hide EventsOf;
    hide Outcomes;
    hide Results;
    hide ToolUses;
    hide Join;
    hide UsageReports;
    var turn := ReadTurn(stream);
    var r := RoundOf(world, log, stream);
    assert AssistantTurn(turn) == if r.said == [] then [] else [Message(Assistant, r.said)];
    Regroup(log.messages, AssistantTurn(turn), if turn.calls == [] then [] else [Message(User, r.results)]);
  }

  /** Every turn of the loop is such a round; it is the last one exactly when no tool was asked for. */
  lemma {:induction false} TurnIsRound(world: World, log: Log, mid: Log, end: Option<AgentResult>) returns (r: Round)
    requires OneTurn(world, log) == (mid, end) && (end.None? || end.value.Done?)
    ensures IsRound(world, log, mid, r) && (end.Some? <==> r.asked == [])
  {
    hide ReadTurn;
    hide RoundOf;
    hide IsRecorded;
    hide IsRequest;
    hide MessagesOf;
    hide EventsOf;
    hide Outcomes;
    hide Outgoing;
    var request := Outgoing(world, log.messages);
    var stream := world.provider(|log.requests|, request).stream;
    r := RoundOf(world, log, stream);
    RoundIsRight(world, log, stream);
    TurnIsRecorded(world, log, stream);
    OutgoingIsRequest(world, log.messages);
    RoundHasStream(world, log, stream);
  }

  lemma {:induction false} RoundHasStream(world: World, log: Log, stream: seq<ProviderEvent>)
    ensures RoundOf(world, log, stream).stream == stream
  {
  }

  // ------------------------------------------------------------------------------------------
  // Whole runs
  // ------------------------------------------------------------------------------------------

  /** From state to state a round was made, and all but perhaps the last one asked for tools. */
  ghost predicate AreRounds(world: World, logs: seq<Log>, rounds: seq<Round>) {
    && |logs| == |rounds| + 1
    && (forall k | 0 <= k < |rounds| :: IsRound(world, logs[k], logs[k + 1], rounds[k]))
    && forall k | 0 <= k < |rounds| - 1 :: rounds[k].asked != []
  }

  /** How the run ends: with a round that asked for nothing, with a request that was refused, or with
      no round left. */
  ghost predicate EndsRight(world: World, log': Log, result: AgentResult, left: nat, last: Log, rounds: seq<Round>) {
    match result
    case Done => log' == last && |rounds| <= left && rounds != [] && rounds[|rounds| - 1].asked == []
    case LoopLimitExceeded => log' == last && |rounds| == left && (rounds != [] ==> rounds[|rounds| - 1].asked != [])
    case ProviderFailed(error) =>
      && |rounds| < left && (rounds != [] ==> rounds[|rounds| - 1].asked != [])
      && exists request :: && IsRequest(world, last.messages, request) && log' == last.(requests := last.requests + [request])
                           && world.provider(|last.requests|, request) == Refused(error)
  }

  lemma {:induction false} RoundFirst(world: World, log: Log, r: Round, logs: seq<Log>, rounds: seq<Round>)
    requires AreRounds(world, logs, rounds) && IsRound(world, log, logs[0], r) && (rounds != [] ==> r.asked != [])
    ensures AreRounds(world, [log] + logs, [r] + rounds)
  {
    hide IsRound;
    var logs', rounds' := [log] + logs, [r] + rounds;
    forall k | 0 <= k < |rounds'| ensures IsRound(world, logs'[k], logs'[k + 1], rounds'[k]) {
      if k > 0 { assert logs'[k] == logs[k - 1] && logs'[k + 1] == logs[k] && rounds'[k] == rounds[k - 1]; }
    }
    forall k | 0 <= k < |rounds'| - 1 ensures rounds'[k].asked != [] {
      if k > 0 { assert rounds'[k] == rounds[k - 1]; }
    }
  }

  lemma {:induction false} LastStays(world: World, log': Log, result: AgentResult, left: nat, last: Log, r: Round, rounds: seq<Round>)
    requires EndsRight(world, log', result, left, last, rounds) && r.asked != []
    ensures EndsRight(world, log', result, left + 1, last, [r] + rounds)
  {
    if rounds == [] {
      assert ([r] + rounds)[0] == r;
    } else {
      assert ([r] + rounds)[|rounds|] == rounds[|rounds| - 1];
    }
  }

  /** A run is made of rounds: in each the provider is sent the prompt and the conversation so far, its
      stream is heard up to the first stop, its text and calls are remembered, every tool it asked for
      is run in order, and the next message brings back under each id what that tool said. */
  lemma {:induction false} RunIsRounds(world: World, log: Log, left: nat, log': Log, result: AgentResult)
      returns (logs: seq<Log>, rounds: seq<Round>)
    requires RunTurns(world, log, left) == (log', result)
    ensures AreRounds(world, logs, rounds) && logs[0] == log
    ensures EndsRight(world, log', result, left, logs[|rounds|], rounds)
    decreases left
  {
    hide IsRound;
    hide EndsRight;
    hide OneTurn;
    logs, rounds := [log], [];
    var (mid, end) := OneTurn(world, log);
    RoundEnds(world, log, mid, end);
    if left == 0 || (end.Some? && end.value.ProviderFailed?) {
      RunStops(world, log, left, log', result);
    } else {
      var r := TurnIsRound(world, log, mid, end);
      if end.Some? {
        logs, rounds := [log, mid], [r];
        RunIsDone(world, log', left, r);
      } else {
        var logs1, rounds1 := RunIsRounds(world, mid, left - 1, log', result);
        RoundFirst(world, log, r, logs1, rounds1);
        LastStays(world, log', result, left - 1, logs1[|rounds1|], r, rounds1);
        logs, rounds := [log] + logs1, [r] + rounds1;
      }
    }
  }

  lemma {:induction false} RunStops(world: World, log: Log, left: nat, log': Log, result: AgentResult)
    requires RunTurns(world, log, left) == (log', result)
    requires left == 0 || (OneTurn(world, log).1 == Some(result) && result.ProviderFailed?)
    ensures EndsRight(world, log', result, left, log, [])
  {
    if left > 0 { OutgoingIsRequest(world, log.messages); }
  }

  lemma {:induction false} RunIsDone(world: World, log: Log, left: nat, r: Round)
    requires left > 0 && r.asked == []
    ensures EndsRight(world, log, Done, left, log, [r])
  {
  }

  /** A send appends the user's words and makes at most 25 rounds. */
  lemma {:induction false} SendIsRounds(world: World, log: Log, text: string) returns (logs: seq<Log>, rounds: seq<Round>)
    ensures AreRounds(world, logs, rounds)
    ensures logs[0] == Log(log.messages + [Message(User, [TextBlock(text)])], log.events, log.requests, log.dispatched)
    ensures var (log', result) := AfterSend(world, log, text);
            EndsRight(world, log', result, 25, logs[|rounds|], rounds)
  {
    hide AreRounds;
    hide EndsRight;
    hide RunTurns;
    var (log', result) := AfterSend(world, log, text);
    logs, rounds := RunIsRounds(world, log.(messages := log.messages + [Message(User, [TextBlock(text)])]), 25, log', result);
  }

  /** What the tools said reaches the provider: the request after a round that asked for tools ends
      with one result for each of them, in order, under its id, with its very words and whether it
      failed; and the same words and flag were shown. */
  lemma {:induction false} ToolAnswersReachProvider(
      world: World, logs: seq<Log>, rounds: seq<Round>, k: nat)
    requires AreRounds(world, logs, rounds) && k + 1 < |rounds|
    ensures var request := logs[k + 2].requests[|logs[k + 1].requests|];
            && |logs[k + 1].requests| < |logs[k + 2].requests|
            && request != [] && request[|request| - 1].role == User
            && var r, blocks, before := rounds[k], request[|request| - 1].content, |logs[k].dispatched|;
               && |blocks| == |r.asked| > 0
               && forall i | 0 <= i < |blocks| ::
                    var o := world.dispatch(before + i, r.asked[i].name, r.asked[i].input);
                    && blocks[i] == ToolResultBlock(r.asked[i].id, o.content, o.isError)
                    && ToolCallEnd(r.asked[i].id, r.asked[i].name, o.content, o.isError) in logs[k + 1].events
  {
    assert IsRound(world, logs[k], logs[k + 1], rounds[k]);
    assert IsRound(world, logs[k + 1], logs[k + 2], rounds[k + 1]);
    var request := logs[k + 2].requests[|logs[k + 1].requests|];
    var r := rounds[k];
    assert IsRequest(world, logs[k + 1].messages, request);
    assert request[|request| - 1] == Message(User, r.results);
    forall i | 0 <= i < |r.asked|
      ensures var o := r.Outcome(world, |logs[k].dispatched|, i);
              ToolCallEnd(r.asked[i].id, r.asked[i].name, o.content, o.isError) in logs[k + 1].events
    {
      var at := |r.texts| + 2 * i + 1;
      assert logs[k + 1].events[|logs[k].events| + at] == r.trace[at];
    }
  }
}

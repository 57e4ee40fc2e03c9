/** From server-sent events to provider events (crates/agent/src/anthropic.rs, `StreamState`,
    `dispatch`, `drain_events`, `pump_sse`).

    JSON text parsing and UTF-8 validation are parameters, collected in `Codec`. */
module ProviderStream {
  import opened Options
  import opened Json
  import opened Sequences
  import opened SseFraming
  import opened SseBlocks

  datatype Codec = Codec(validUtf8: Bytes -> bool, json: Bytes -> Option<Json>, toolInput: string -> Option<Json>)

  datatype StreamError =
    | Transport(message: string)
    | ToolInput(raw: string)
    | Upstream(message: string)
    | UnknownReason(reason: string)
    | ClosedEarly

  datatype StopReason = EndTurn | MaxTokens | StopSequence | ToolUse | Error(error: StreamError)

  datatype ProviderEvent =
    | Text(delta: string)
    | ToolCall(id: string, name: string, input: Json)
    | ToolResultRequested
    | Usage(inputTokens: nat, outputTokens: nat)
    | Stop(reason: StopReason)

  /** A payload, by its `type`; one that lacks a field the decoder needs is ignored. */
  datatype Frame =
    | Ignored
    | MessageStart(inputTokens: Option<nat>, outputTokens: Option<nat>)
    | ToolBlockStart(index: nat, id: string, name: string)
    | TextDelta(text: string)
    | JsonDelta(index: nat, partial: string)
    | BlockStop(index: nat)
    | MessageDelta(stopReason: Option<string>, outputTokens: Option<nat>)
    | ErrorFrame(message: string)

  function FrameOf(payload: Json): Frame {
    match payload.GetStr("type")
    case None => Ignored
    case Some(kind) =>
      if kind == "message_start" then
        match payload.Get("message")
        case None => Ignored
        case Some(message) => (
          match message.Get("usage")
          case None => Ignored
          case Some(usage) => MessageStart(usage.GetU64("input_tokens"), usage.GetU64("output_tokens")))
      else if kind == "content_block_start" then
        match payload.Get("content_block")
        case None => Ignored
        case Some(block) =>
          var index := payload.GetU64("index");
          if block.GetStr("type") == Some("tool_use") && index.Some?
          then ToolBlockStart(index.value, OrEmpty(block.GetStr("id")), OrEmpty(block.GetStr("name")))
          else Ignored
      else if kind == "content_block_delta" then
        match payload.Get("delta")
        case None => Ignored
        case Some(delta) => DeltaFrame(payload.GetU64("index"), delta)
      else if kind == "content_block_stop" then
        match payload.GetU64("index") case None => Ignored case Some(index) => BlockStop(index)
      else if kind == "message_delta" then
        MessageDelta(
          match payload.Get("delta") case None => None case Some(delta) => delta.GetStr("stop_reason"),
          match payload.Get("usage") case None => None case Some(usage) => usage.GetU64("output_tokens"))
      else if kind == "error" then
        var message := match payload.Get("error") case None => None case Some(e) => e.GetStr("message");
        ErrorFrame(if message.Some? then message.value else "unknown anthropic error")
      else Ignored
  }

  function DeltaFrame(index: Option<nat>, delta: Json): Frame {
    if delta.GetStr("type") == Some("text_delta") then
      match delta.GetStr("text") case None => Ignored case Some(text) => TextDelta(text)
    else if delta.GetStr("type") == Some("input_json_delta") && index.Some? then
      match delta.GetStr("partial_json") case None => Ignored case Some(partial) => JsonDelta(index.value, partial)
    else Ignored
  }

  function OrEmpty(s: Option<string>): string {
    if s.Some? then s.value else ""
  }

  function StopReasonFromWire(s: string): StopReason {
    if s == "end_turn" then EndTurn
    else if s == "max_tokens" then MaxTokens
    else if s == "stop_sequence" then StopSequence
    else if s == "tool_use" then ToolUse
    else Error(UnknownReason(s))
  }

  datatype ToolInputBuffer = ToolInputBuffer(id: string, name: string, json: string)

  datatype StreamState = StreamState(
    tools: map<nat, ToolInputBuffer>, stopReason: Option<StopReason>, inputTokens: nat, outputTokens: nat)

  const INITIAL := StreamState(map[], None, 0, 0)

  /** Buffers are keyed by a 32-bit index; a larger index falls back to zero. */
  function BlockKey(index: nat): nat {
    if index < U32_LIMIT then index else 0
  }

  /** What closing a tool block sends: the call and the marker, or a stop when the text that the
      deltas spell is not JSON.  No text at all means the empty object. */
  function ClosedBlock(toolInput: string -> Option<Json>, buffer: ToolInputBuffer): seq<ProviderEvent> {
    var raw := if buffer.json == "" then "{}" else buffer.json;
    match toolInput(raw)
    case Some(input) => [ToolCall(buffer.id, buffer.name, input), ToolResultRequested]
    case None => [Stop(Error(ToolInput(raw)))]
  }

  function NextState(st: StreamState, frame: Frame): StreamState {
    match frame
    case MessageStart(i, o) => st.(inputTokens := OrElse(i, st.inputTokens), outputTokens := OrElse(o, st.outputTokens))
    case ToolBlockStart(index, id, name) => st.(tools := st.tools[BlockKey(index) := ToolInputBuffer(id, name, "")])
    case JsonDelta(index, partial) =>
      var key := BlockKey(index);
      if key in st.tools
      then st.(tools := st.tools[key := st.tools[key].(json := st.tools[key].json + partial)])
      else st
    case BlockStop(index) => st.(tools := st.tools - {BlockKey(index)})
    case MessageDelta(reason, o) =>
      st.(stopReason := if reason.Some? then Some(StopReasonFromWire(reason.value)) else st.stopReason,
          outputTokens := OrElse(o, st.outputTokens))
    case _ => st
  }

  function Sent(toolInput: string -> Option<Json>, st: StreamState, frame: Frame): seq<ProviderEvent> {
    match frame
    case TextDelta(text) => [Text(text)]
    case BlockStop(index) =>
      if BlockKey(index) in st.tools then ClosedBlock(toolInput, st.tools[BlockKey(index)]) else []
    case ErrorFrame(message) => [Stop(Error(Upstream(message)))]
    case _ => []
  }

  function StateAfter(st: StreamState, frames: seq<Frame>): StreamState
    decreases |frames|
  {
    if frames == [] then st else NextState(StateAfter(st, frames[..|frames| - 1]), frames[|frames| - 1])
  }

  function SentOver(toolInput: string -> Option<Json>, st: StreamState, frames: seq<Frame>): seq<ProviderEvent>
    decreases |frames|
  {
    if frames == [] then []
    else
      var before := frames[..|frames| - 1];
      SentOver(toolInput, st, before) + Sent(toolInput, StateAfter(st, before), frames[|frames| - 1])
  }

  /** The frames of the events whose data is JSON. */
  function FramesOfEvent(codec: Codec, ev: ParsedSse): seq<Frame> {
    match codec.json(ev.data) case None => [] case Some(payload) => [FrameOf(payload)]
  }

  function Frames(codec: Codec, events: seq<ParsedSse>): seq<Frame> {
    FlatMap(ev => FramesOfEvent(codec, ev), events)
  }

  function FramesOfBlocks(codec: Codec, blocks: seq<Bytes>): seq<Frame> {
    Frames(codec, ReadBlocks(codec.validUtf8, blocks))
  }

  /** Where a state is taken, and what is sent on the way. */
  datatype Fed = Fed(st: StreamState, sent: seq<ProviderEvent>)

  function Feed(codec: Codec, st: StreamState, blocks: seq<Bytes>): Fed {
    var frames := FramesOfBlocks(codec, blocks);
    Fed(StateAfter(st, frames), SentOver(codec.toolInput, st, frames))
  }

  /** What is sent when the body ends: totals unless both are zero, then the stop. */
  function Closing(st: StreamState): seq<ProviderEvent> {
    (if st.inputTokens > 0 || st.outputTokens > 0 then [Usage(st.inputTokens, st.outputTokens)] else [])
    + [Stop(OrElse(st.stopReason, Error(ClosedEarly)))]
  }

  datatype Chunk = Received(bytes: Bytes) | Failed(message: string)

  /** Everything sent for a body that arrives as `chunks`, from a given buffer and state on. */
  function PumpOutput(codec: Codec, buf: Bytes, st: StreamState, chunks: seq<Chunk>): seq<ProviderEvent>
    decreases |chunks|
  {
    if chunks == [] then
      var fed := Feed(codec, st, Drain(buf).blocks);
      fed.sent + Closing(fed.st)
    else match chunks[0]
      case Failed(message) => [Stop(Error(Transport(message)))]
      case Received(bytes) =>
        var drained := Drain(buf + bytes);
        var fed := Feed(codec, st, drained.blocks);
        fed.sent + PumpOutput(codec, drained.rest, fed.st, chunks[1..])
  }

  // ------------------------------------------------------------------------------------------
  // Feeding frames in two steps
  // ------------------------------------------------------------------------------------------

  lemma {:induction false} StateAfterSnoc(st: StreamState, a: seq<Frame>, f: Frame)
    ensures StateAfter(st, a + [f]) == NextState(StateAfter(st, a), f)
  {
    assert (a + [f])[..|a|] == a;
  }

  lemma {:induction false} SentOverSnoc(toolInput: string -> Option<Json>, st: StreamState, a: seq<Frame>, f: Frame)
    ensures SentOver(toolInput, st, a + [f]) == SentOver(toolInput, st, a) + Sent(toolInput, StateAfter(st, a), f)
  {
    assert (a + [f])[..|a|] == a;
  }

  lemma {:induction false} StateAfterConcat(st: StreamState, a: seq<Frame>, b: seq<Frame>)
    ensures StateAfter(st, a + b) == StateAfter(StateAfter(st, a), b)
    decreases |b|
  {
    if b == [] {
      assert a + b == a;
    } else {
      var b', f := b[..|b| - 1], b[|b| - 1];
      SplitLast(b);
      Regroup(a, b', [f]);
      StateAfterConcat(st, a, b');
      StateAfterSnoc(st, a + b', f);
    }
  }

  lemma {:induction false} SentOverConcat(toolInput: string -> Option<Json>, st: StreamState, a: seq<Frame>, b: seq<Frame>)
    ensures SentOver(toolInput, st, a + b) == SentOver(toolInput, st, a) + SentOver(toolInput, StateAfter(st, a), b)
    decreases |b|
  {
    var first := SentOver(toolInput, st, a);
    if b == [] {
      assert a + b == a;
      assert first + [] == first;
    } else {
      var b', f := b[..|b| - 1], b[|b| - 1];
      SplitLast(b);
      Regroup(a, b', [f]);
      SentOverConcat(toolInput, st, a, b');
      SentOverSnoc(toolInput, st, a + b', f);
      StateAfterConcat(st, a, b');
      Regroup(first, SentOver(toolInput, StateAfter(st, a), b'), Sent(toolInput, StateAfter(st, a + b'), f));
    }
  }

  lemma {:induction false} FramesOfBlocksConcat(codec: Codec, a: seq<Bytes>, b: seq<Bytes>)
    ensures FramesOfBlocks(codec, a + b) == FramesOfBlocks(codec, a) + FramesOfBlocks(codec, b)
  {
    FlatMapConcat(payload => ReadBlock(codec.validUtf8, payload), a, b);
    FlatMapConcat(ev => FramesOfEvent(codec, ev), ReadBlocks(codec.validUtf8, a), ReadBlocks(codec.validUtf8, b));
  }

  lemma {:induction false} FeedConcat(codec: Codec, st: StreamState, a: seq<Bytes>, b: seq<Bytes>)
    ensures var first := Feed(codec, st, a);
            var second := Feed(codec, first.st, b);
            Feed(codec, st, a + b) == Fed(second.st, first.sent + second.sent)
  {
    FramesOfBlocksConcat(codec, a, b);
    StateAfterConcat(st, FramesOfBlocks(codec, a), FramesOfBlocks(codec, b));
    SentOverConcat(codec.toolInput, st, FramesOfBlocks(codec, a), FramesOfBlocks(codec, b));
  }

  lemma {:induction false} FramesOfOneBlock(codec: Codec, payload: Bytes)
    ensures var events := ReadBlock(codec.validUtf8, payload);
            FramesOfBlocks(codec, [payload]) == if events == [] then [] else FramesOfEvent(codec, events[0])
  {
    var events := ReadBlock(codec.validUtf8, payload);
    FlatMapOne(p => ReadBlock(codec.validUtf8, p), payload);
    if events != [] {
      assert events == [events[0]];
      FlatMapOne(ev => FramesOfEvent(codec, ev), events[0]);
    }
  }

  function FeedBuffer(codec: Codec, st: StreamState, buf: Bytes): Fed {
    Feed(codec, st, Drain(buf).blocks)
  }

  lemma {:induction false} FeedNothing(codec: Codec, st: StreamState, buf: Bytes)
    requires FindEventBoundary(buf).None?
    ensures FeedBuffer(codec, st, buf) == Fed(st, []) && Drain(buf).rest == buf
  {
  }

  lemma {:induction false} FeedFirstBlock(codec: Codec, st: StreamState, buf: Bytes, cut: Boundary, sent: seq<ProviderEvent>)
    requires FindEventBoundary(buf) == Some(cut)
    ensures cut.payloadLen < cut.end <= |buf|
    ensures var first := Feed(codec, st, [buf[..cut.payloadLen]]);
            var later := FeedBuffer(codec, first.st, buf[cut.end..]);
            && FeedBuffer(codec, st, buf).st == later.st
            && sent + FeedBuffer(codec, st, buf).sent == (sent + first.sent) + later.sent
            && Drain(buf).rest == Drain(buf[cut.end..]).rest
  {
    DrainCut(buf, cut);
    var x, blocks := [buf[..cut.payloadLen]], Drain(buf[cut.end..]).blocks;
    FeedConcat(codec, st, x, blocks);
    var first := Feed(codec, st, x);
    Regroup(sent, first.sent, Feed(codec, first.st, blocks).sent);
  }

  // ------------------------------------------------------------------------------------------
  // The decoder as the program runs it
  // ------------------------------------------------------------------------------------------

  class SsePump {
    const codec: Codec
    var buf: Bytes
    var toolInputs: map<nat, ToolInputBuffer>
    var stopReason: Option<StopReason>
    var inputTokens: nat
    var outputTokens: nat
    var sent: seq<ProviderEvent>

    function State(): StreamState
      reads this
    {
      StreamState(toolInputs, stopReason, inputTokens, outputTokens)
    }

    constructor (codec: Codec)
      ensures this.codec == codec && buf == [] && State() == INITIAL && sent == []
    {
      this.codec := codec;
      buf, toolInputs, stopReason, inputTokens, outputTokens, sent := [], map[], None, 0, 0, [];
    }

    method Send(event: ProviderEvent)
      modifies this`sent
      ensures sent == old(sent) + [event]
    {
      sent := sent + [event];
    }

    method Dispatch(ev: ParsedSse)
      modifies this
      ensures buf == old(buf)
      ensures State() == StateAfter(old(State()), FramesOfEvent(codec, ev))
      ensures sent == old(sent) + SentOver(codec.toolInput, old(State()), FramesOfEvent(codec, ev))
    {
      var parsed := codec.json(ev.data);
      if parsed.None? {
        return;
      }
      var frame := FrameOf(parsed.value);
      assert FramesOfEvent(codec, ev) == [] + [frame];
      StateAfterSnoc(State(), [], frame);
      SentOverSnoc(codec.toolInput, State(), [], frame);
      DispatchFrame(frame);
    }

    method DispatchFrame(frame: Frame)
      modifies this
      ensures buf == old(buf)
      ensures State() == NextState(old(State()), frame)
      ensures sent == old(sent) + Sent(codec.toolInput, old(State()), frame)
    {
      match frame {
        case Ignored =>
        case MessageStart(i, o) =>
          if i.Some? { inputTokens := i.value; }
          if o.Some? { outputTokens := o.value; }
        case ToolBlockStart(index, id, name) =>
          toolInputs := toolInputs[BlockKey(index) := ToolInputBuffer(id, name, "")];
        case TextDelta(text) =>
          Send(Text(text));
        case JsonDelta(index, partial) =>
          var key := BlockKey(index);
          if key in toolInputs {
            var buffer := toolInputs[key];
            toolInputs := toolInputs[key := buffer.(json := buffer.json + partial)];
          }
        case BlockStop(index) =>
          var key := BlockKey(index);
          if key in toolInputs {
            var buffer := toolInputs[key];
            toolInputs := toolInputs - {key};
            var raw := if buffer.json == "" then "{}" else buffer.json;
            match codec.toolInput(raw) {
              case Some(input) =>
                Send(ToolCall(buffer.id, buffer.name, input));
                Send(ToolResultRequested);
              case None =>
                Send(Stop(Error(ToolInput(raw))));
            }
          }
        case MessageDelta(reason, o) =>
          if reason.Some? { stopReason := Some(StopReasonFromWire(reason.value)); }
          if o.Some? { outputTokens := o.value; }
        case ErrorFrame(message) =>
          Send(Stop(Error(Upstream(message))));
      }
    }

    method DispatchBlock(payload: Bytes)
      modifies this
      ensures buf == old(buf)
      ensures State() == Feed(codec, old(State()), [payload]).st
      ensures sent == old(sent) + Feed(codec, old(State()), [payload]).sent
    {
      FramesOfOneBlock(codec, payload);
      var text := if codec.validUtf8(payload) then payload else [];
      if text != [] {
        var parsed := ParseSseBlock(text);
        if parsed.Some? {
          Dispatch(parsed.value);
        }
      }
    }

    /** Remove every complete block from the buffer and dispatch it. */
    method DrainEvents()
      modifies this
      ensures buf == Drain(old(buf)).rest
      ensures State() == Feed(codec, old(State()), Drain(old(buf)).blocks).st
      ensures sent == old(sent) + Feed(codec, old(State()), Drain(old(buf)).blocks).sent
    {
      ghost var goal := FeedBuffer(codec, State(), buf);
      while true
        invariant Drain(buf).rest == Drain(old(buf)).rest
        invariant FeedBuffer(codec, State(), buf).st == goal.st
        invariant sent + FeedBuffer(codec, State(), buf).sent == old(sent) + goal.sent
        decreases |buf|
      {
        var boundary := FindEventBoundary(buf);
        if boundary.None? {
          FeedNothing(codec, State(), buf);
          return;
        }
        FeedFirstBlock(codec, State(), buf, boundary.value, sent);
        var payload := buf[..boundary.value.payloadLen];
        buf := buf[boundary.value.end..];
        DispatchBlock(payload);
      }
    }

    method Close()
      modifies this
      ensures sent == old(sent) + Closing(old(State()))
    {
      if inputTokens > 0 || outputTokens > 0 {
        Send(Usage(inputTokens, outputTokens));
      }
      Send(Stop(if stopReason.Some? then stopReason.value else Error(ClosedEarly)));
    }

    /** Drive a whole response body. */
    method PumpSse(chunks: seq<Chunk>)
      modifies this
      ensures sent == old(sent) + PumpOutput(codec, old(buf), old(State()), chunks)
    {
      var i := 0;
      assert chunks[0..] == chunks;
      while i < |chunks|
        invariant 0 <= i <= |chunks|
        invariant sent + PumpOutput(codec, buf, State(), chunks[i..])
               == old(sent) + PumpOutput(codec, old(buf), old(State()), chunks)
      {
        assert chunks[i..][1..] == chunks[i + 1..];
        match chunks[i] {
          case Received(bytes) =>
            ghost var fed := Feed(codec, State(), Drain(buf + bytes).blocks);
            Regroup(sent, fed.sent, PumpOutput(codec, Drain(buf + bytes).rest, fed.st, chunks[i + 1..]));
            buf := buf + bytes;
            DrainEvents();
          case Failed(message) =>
            Send(Stop(Error(Transport(message))));
            return;
        }
        i := i + 1;
      }
      ghost var fed := Feed(codec, State(), Drain(buf).blocks);
      Regroup(sent, fed.sent, Closing(fed.st));
      DrainEvents();
      Close();
    }
  }
}

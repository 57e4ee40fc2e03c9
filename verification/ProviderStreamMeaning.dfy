/** What is sent for a stream, told from the payloads that came (crates/agent/src/anthropic.rs:266-304,
    386-514). */
module ProviderStreamMeaning {
  import opened Options
  import opened Json
  import opened Sequences
  import opened SseFraming
  import opened SseBlocks
  import opened ProviderStream
  import opened ProviderStreamLaws

  // ------------------------------------------------------------------------------------------
  // Payloads
  // ------------------------------------------------------------------------------------------

  /** The value at the end of a path of member names. */
  function At(payload: Json, path: seq<string>): Option<Json>
    decreases |path|
  {
    if path == [] then Some(payload)
    else match payload.Get(path[0])
      case None => None
      case Some(v) => At(v, path[1..])
  }

  ghost predicate Says(payload: Json, path: seq<string>, text: string) {
    At(payload, path) == Some(Str(text))
  }

  ghost predicate Counts(payload: Json, path: seq<string>, n: nat) {
    n < 0x1_0000_0000_0000_0000 && At(payload, path) == Some(Num(n))
  }

  ghost predicate MayCount(payload: Json, path: seq<string>, n: Option<nat>) {
    match n
    case Some(v) => Counts(payload, path, v)
    case None => forall v: nat :: !Counts(payload, path, v)
  }

  ghost predicate MaySay(payload: Json, path: seq<string>, text: Option<string>) {
    match text
    case Some(v) => Says(payload, path, v)
    case None => forall v :: !Says(payload, path, v)
  }

  lemma {:induction false} AtOne(payload: Json, a: string)
    ensures At(payload, [a]) == payload.Get(a)
  {
    assert [a][1..] == [];
  }

  lemma {:induction false} AtTwo(payload: Json, a: string, b: string)
    ensures At(payload, [a, b]) == match payload.Get(a) case None => None case Some(v) => v.Get(b)
  {
    assert [a, b][1..] == [b];
    if payload.Get(a).Some? { AtOne(payload.Get(a).value, b); }
  }

  lemma {:induction false} AtThree(payload: Json, a: string, b: string, c: string)
    ensures At(payload, [a, b, c])
         == match payload.Get(a) case None => None case Some(v) => (match v.Get(b) case None => None case Some(w) => w.Get(c))
  {
    assert [a, b, c][1..] == [b, c];
    if payload.Get(a).Some? { AtTwo(payload.Get(a).value, b, c); }
  }

  /** The text of a text delta. */
  lemma {:induction false} TextDeltaIff(payload: Json, text: string)
    ensures FrameOf(payload) == TextDelta(text)
       <==> && Says(payload, ["type"], "content_block_delta") && Says(payload, ["delta", "type"], "text_delta")
            && Says(payload, ["delta", "text"], text)
  {
    AtOne(payload, "type");
    AtTwo(payload, "delta", "type");
    AtTwo(payload, "delta", "text");
  }

  /** A piece of the input of a tool call. */
  lemma {:induction false} JsonDeltaIff(payload: Json, index: nat, partial: string)
    ensures FrameOf(payload) == JsonDelta(index, partial)
       <==> && Says(payload, ["type"], "content_block_delta") && Says(payload, ["delta", "type"], "input_json_delta")
            && Counts(payload, ["index"], index) && Says(payload, ["delta", "partial_json"], partial)
  {
    AtOne(payload, "type");
    AtOne(payload, "index");
    AtTwo(payload, "delta", "type");
    AtTwo(payload, "delta", "partial_json");
  }

  /** A tool block begins; a missing id or name is empty. */
  lemma {:induction false} ToolBlockStartIff(payload: Json, index: nat, id: string, name: string)
    ensures FrameOf(payload) == ToolBlockStart(index, id, name)
       <==> && Says(payload, ["type"], "content_block_start") && Says(payload, ["content_block", "type"], "tool_use")
            && Counts(payload, ["index"], index)
            && (Says(payload, ["content_block", "id"], id) || (id == "" && MaySay(payload, ["content_block", "id"], None)))
            && (Says(payload, ["content_block", "name"], name) || (name == "" && MaySay(payload, ["content_block", "name"], None)))
  {
    AtOne(payload, "type");
    AtOne(payload, "index");
    AtTwo(payload, "content_block", "type");
    AtTwo(payload, "content_block", "id");
    AtTwo(payload, "content_block", "name");
    WordOrNone(payload, ["content_block", "id"]);
    WordOrNone(payload, ["content_block", "name"]);
  }

  lemma {:induction false} WordOrNone(payload: Json, path: seq<string>)
    ensures MaySay(payload, path, None) <==> !(At(payload, path).Some? && At(payload, path).value.Str?)
  {
    if At(payload, path).Some? && At(payload, path).value.Str? {
      assert Says(payload, path, At(payload, path).value.s);
    }
  }

  lemma {:induction false} CountOrNone(payload: Json, path: seq<string>)
    ensures MayCount(payload, path, None)
       <==> !(At(payload, path).Some? && At(payload, path).value.Num? && 0 <= At(payload, path).value.n < U64_LIMIT)
  {
    if At(payload, path).Some? && At(payload, path).value.Num? && 0 <= At(payload, path).value.n < U64_LIMIT {
      assert Counts(payload, path, At(payload, path).value.n);
    }
  }

  lemma {:induction false} BlockStopIff(payload: Json, index: nat)
    ensures FrameOf(payload) == BlockStop(index)
       <==> Says(payload, ["type"], "content_block_stop") && Counts(payload, ["index"], index)
  {
    AtOne(payload, "type");
    AtOne(payload, "index");
  }

  /** The first counts: those under the message's usage, which must be there. */
  lemma {:induction false} MessageStartIff(payload: Json, i: Option<nat>, o: Option<nat>)
    ensures FrameOf(payload) == MessageStart(i, o)
       <==> && Says(payload, ["type"], "message_start") && At(payload, ["message", "usage"]).Some?
            && MayCount(payload, ["message", "usage", "input_tokens"], i)
            && MayCount(payload, ["message", "usage", "output_tokens"], o)
  {
    AtOne(payload, "type");
    AtTwo(payload, "message", "usage");
    AtThree(payload, "message", "usage", "input_tokens");
    AtThree(payload, "message", "usage", "output_tokens");
    CountOrNone(payload, ["message", "usage", "input_tokens"]);
    CountOrNone(payload, ["message", "usage", "output_tokens"]);
  }

  /** The stop reason and the count so far, each if it is there. */
  lemma {:induction false} MessageDeltaIff(payload: Json, reason: Option<string>, o: Option<nat>)
    ensures FrameOf(payload) == MessageDelta(reason, o)
       <==> && Says(payload, ["type"], "message_delta")
            && MaySay(payload, ["delta", "stop_reason"], reason)
            && MayCount(payload, ["usage", "output_tokens"], o)
  {
    AtOne(payload, "type");
    AtTwo(payload, "delta", "stop_reason");
    AtTwo(payload, "usage", "output_tokens");
    WordOrNone(payload, ["delta", "stop_reason"]);
    CountOrNone(payload, ["usage", "output_tokens"]);
  }

  lemma {:induction false} ErrorFrameIff(payload: Json, message: string)
    ensures FrameOf(payload) == ErrorFrame(message)
       <==> && Says(payload, ["type"], "error")
            && (|| Says(payload, ["error", "message"], message)
                || (message == "unknown anthropic error" && MaySay(payload, ["error", "message"], None)))
  {
    AtOne(payload, "type");
    AtTwo(payload, "error", "message");
    WordOrNone(payload, ["error", "message"]);
  }

  // ------------------------------------------------------------------------------------------
  // Frame by frame
  // ------------------------------------------------------------------------------------------

  /** What a stop of a block tells: the call with the id and name of the start the block is open since
      and the input that exactly the deltas since then spell, no text being the empty object; or that
      this text is no JSON. */
  ghost predicate TellsCall(
      toolInput: string -> Option<Json>, before: seq<Frame>, key: nat, s: int, told: seq<ProviderEvent>)
    requires OpenSince(before, key, s)
  {
    var spelled := DeltasFor(before[s + 1..], key);
    var raw := if spelled == "" then "{}" else spelled;
    if toolInput(raw).Some?
    then told == [ToolCall(before[s].id, before[s].name, toolInput(raw).value), ToolResultRequested]
    else told == [Stop(Error(ToolInput(raw)))]
  }

  /** What a frame tells, given the frames before it. */
  ghost predicate Tells(toolInput: string -> Option<Json>, before: seq<Frame>, frame: Frame, told: seq<ProviderEvent>) {
    match frame
    case TextDelta(text) => told == [Text(text)]
    case ErrorFrame(message) => told == [Stop(Error(Upstream(message)))]
    case BlockStop(index) =>
      && (forall s | OpenSince(before, BlockKey(index), s) :: TellsCall(toolInput, before, BlockKey(index), s, told))
      && ((forall s :: !OpenSince(before, BlockKey(index), s)) ==> told == [])
    case _ => told == []
  }

  function Flat<T>(parts: seq<seq<T>>): seq<T> {
    FlatMap((part: seq<T>) => part, parts)
  }

  lemma {:induction false} FlatOfNone<T>()
    ensures Flat<T>([]) == []
  {
  }

  lemma {:induction false} FlatSnoc<T>(parts: seq<seq<T>>, part: seq<T>)
    ensures Flat(parts + [part]) == Flat(parts) + part
  {
    FlatMapConcat((x: seq<T>) => x, parts, [part]);
    FlatMapOne((x: seq<T>) => x, part);
  }

  lemma {:induction false} SentIsTold(toolInput: string -> Option<Json>, before: seq<Frame>, frame: Frame)
    ensures Tells(toolInput, before, frame, Sent(toolInput, StateAfter(INITIAL, before), frame))
  {
    if frame.BlockStop? {
      var key := BlockKey(frame.index);
      NoOpenBlockNoBuffer(before, key);
      forall s | OpenSince(before, key, s)
        ensures TellsCall(toolInput, before, key, s, Sent(toolInput, StateAfter(INITIAL, before), frame))
      {
        OpenBlockBuffer(before, key, s);
      }
    }
  }

  /** All that is sent is told frame by frame, in the order of the frames: nothing else is sent, and
      what a frame tells depends on the frames up to it alone. */
  lemma {:induction false} SentFrameByFrame(toolInput: string -> Option<Json>, frames: seq<Frame>)
      returns (parts: seq<seq<ProviderEvent>>)
    ensures |parts| == |frames| && SentOver(toolInput, INITIAL, frames) == Flat(parts)
    ensures forall n | 0 <= n < |frames| :: Tells(toolInput, frames[..n], frames[n], parts[n])
    decreases |frames|
  {
    hide Tells;
    hide Sent;
    hide StateAfter;
    if frames == [] {
      parts := [];
      FlatOfNone<ProviderEvent>();
    } else {
      var last := |frames| - 1;
      var before := frames[..last];
      var first := SentFrameByFrame(toolInput, before);
      var part := Sent(toolInput, StateAfter(INITIAL, before), frames[last]);
      SentIsTold(toolInput, before, frames[last]);
      FlatSnoc(first, part);
      hide Flat;
      parts := first + [part];
      forall n | 0 <= n < |frames| ensures Tells(toolInput, frames[..n], frames[n], parts[n]) {
        if n < last { assert before[..n] == frames[..n] && before[n] == frames[n]; }
      }
    }
  }

  // ------------------------------------------------------------------------------------------
  // The text
  // ------------------------------------------------------------------------------------------

  function TextOf(event: ProviderEvent): seq<string> {
    match event case Text(delta) => [delta] case _ => []
  }

  function TextsIn(events: seq<ProviderEvent>): seq<string> {
    FlatMap(TextOf, events)
  }

  function DeltaOf(frame: Frame): seq<string> {
    match frame case TextDelta(text) => [text] case _ => []
  }

  function DeltasIn(frames: seq<Frame>): seq<string> {
    FlatMap(DeltaOf, frames)
  }

  lemma {:induction false} TextsOfOneFrame(toolInput: string -> Option<Json>, st: StreamState, frame: Frame)
    ensures TextsIn(Sent(toolInput, st, frame)) == DeltasIn([frame])
  {
    var sent := Sent(toolInput, st, frame);
    FlatMapOne(DeltaOf, frame);
    if |sent| == 1 {
      FlatMapOne(TextOf, sent[0]);
      assert sent == [sent[0]];
    } else if |sent| == 2 {
      assert sent == [sent[0]] + [sent[1]];
      FlatMapConcat(TextOf, [sent[0]], [sent[1]]);
      FlatMapOne(TextOf, sent[0]);
      FlatMapOne(TextOf, sent[1]);
    }
  }

  /** The texts sent are the texts of the text deltas, in order, none lost and none made up. */
  lemma {:induction false} TextsAreTheDeltas(toolInput: string -> Option<Json>, st: StreamState, frames: seq<Frame>)
    ensures TextsIn(SentOver(toolInput, st, frames)) == DeltasIn(frames)
    decreases |frames|
  {
    if frames != [] {
      var last := |frames| - 1;
      var before := frames[..last];
      SplitLast(frames);
      TextsAreTheDeltas(toolInput, st, before);
      TextsOfOneFrame(toolInput, StateAfter(st, before), frames[last]);
      FlatMapConcat(TextOf, SentOver(toolInput, st, before), Sent(toolInput, StateAfter(st, before), frames[last]));
      FlatMapConcat(DeltaOf, before, [frames[last]]);
    }
  }

  // ------------------------------------------------------------------------------------------
  // How a body ends
  // ------------------------------------------------------------------------------------------

  /** The four reasons on the wire; any other word is an error that names it. */
  ghost predicate IsReason(word: string, reason: StopReason) {
    match reason
    case EndTurn => word == "end_turn"
    case MaxTokens => word == "max_tokens"
    case StopSequence => word == "stop_sequence"
    case ToolUse => word == "tool_use"
    case Error(UnknownReason(other)) => other == word && word !in {"end_turn", "max_tokens", "stop_sequence", "tool_use"}
    case _ => false
  }

  function ReportedReason(frame: Frame): Option<string> {
    match frame case MessageDelta(reason, _) => reason case _ => None
  }

  /** The reason is that of the last frame that gives one, or that the stream closed early. */
  ghost predicate IsLastReason(frames: seq<Frame>, reason: StopReason) {
    || (reason == Error(ClosedEarly) && forall m | 0 <= m < |frames| :: ReportedReason(frames[m]).None?)
    || (exists n :: && 0 <= n < |frames| && ReportedReason(frames[n]).Some?
                    && IsReason(ReportedReason(frames[n]).value, reason)
                    && forall m | n < m < |frames| :: ReportedReason(frames[m]).None?)
  }

  lemma {:induction false} WordIsReason(word: string)
    ensures IsReason(word, StopReasonFromWire(word))
  {
  }

  lemma {:induction false} StopIsLastReason(frames: seq<Frame>)
    ensures IsLastReason(frames, OrElse(StateAfter(INITIAL, frames).stopReason, Error(ClosedEarly)))
    ensures StateAfter(INITIAL, frames).stopReason.None? ==>
              forall m | 0 <= m < |frames| :: ReportedReason(frames[m]).None?
    decreases |frames|
  {
    if frames != [] {
      var last := |frames| - 1;
      var before := frames[..last];
      StopIsLastReason(before);
      if ReportedReason(frames[last]).Some? {
        WordIsReason(ReportedReason(frames[last]).value);
        hide StopReasonFromWire;
      } else {
        ReasonSnoc(frames, OrElse(StateAfter(INITIAL, before).stopReason, Error(ClosedEarly)));
        forall m | 0 <= m < |frames| && StateAfter(INITIAL, frames).stopReason.None? ensures ReportedReason(frames[m]).None? {
          if m < last { assert frames[m] == before[m]; }
        }
      }
    }
  }

  lemma {:induction false} ReasonSnoc(frames: seq<Frame>, reason: StopReason)
    requires frames != [] && ReportedReason(frames[|frames| - 1]).None? && IsLastReason(frames[..|frames| - 1], reason)
    ensures IsLastReason(frames, reason)
  {
    hide IsReason;
    var last := |frames| - 1;
    var before := frames[..last];
    if n :| && 0 <= n < last && ReportedReason(before[n]).Some? && IsReason(ReportedReason(before[n]).value, reason)
            && forall m | n < m < last :: ReportedReason(before[m]).None? {
      assert ReportedReason(frames[n]).Some?;
      forall m | n < m < |frames| ensures ReportedReason(frames[m]).None? {
        if m < last { assert frames[m] == before[m]; }
      }
    } else {
      forall m | 0 <= m < |frames| ensures ReportedReason(frames[m]).None? {
        if m < last { assert frames[m] == before[m]; }
      }
    }
  }

  /** A body received whole ends with the totals, unless both are zero, and a stop. */
  ghost predicate EndsWhole(frames: seq<Frame>, ending: seq<ProviderEvent>) {
    exists i, o, reason ::
      && LastReport(ReportedInput, frames, 0, i) && LastReport(ReportedOutput, frames, 0, o) && IsLastReason(frames, reason)
      && ending == if i == 0 && o == 0 then [Stop(reason)] else [Usage(i, o), Stop(reason)]
  }

  lemma {:induction false} ClosingEndsWhole(frames: seq<Frame>)
    ensures EndsWhole(frames, Closing(StateAfter(INITIAL, frames)))
  {
    var st := StateAfter(INITIAL, frames);
    TotalsAreLastReports(frames);
    StopIsLastReason(frames);
    var reason := OrElse(st.stopReason, Error(ClosedEarly));
    hide LastReport;
    hide IsLastReason;
    hide StateAfter;
    assert Closing(st) == if st.inputTokens == 0 && st.outputTokens == 0 then [Stop(reason)]
                          else [Usage(st.inputTokens, st.outputTokens), Stop(reason)];
  }

  /** A body that fails ends with a stop that says how. */
  ghost predicate EndsFailed(chunks: seq<Chunk>, ending: seq<ProviderEvent>) {
    exists n :: && 0 <= n < |chunks| && chunks[n].Failed? && (forall m | 0 <= m < n :: chunks[m].Received?)
                && ending == [Stop(Error(Transport(chunks[n].message)))]
  }

  lemma {:induction false} FailureEndsFailed(chunks: seq<Chunk>, st: StreamState)
    requires Fails(chunks)
    ensures EndsFailed(chunks, Ending(chunks, st))
    decreases |chunks|
  {
    if chunks[0].Received? {
      FailureEndsFailed(chunks[1..], st);
      var n :| && 0 <= n < |chunks[1..]| && chunks[1..][n].Failed? && (forall m | 0 <= m < n :: chunks[1..][m].Received?)
               && Ending(chunks[1..], st) == [Stop(Error(Transport(chunks[1..][n].message)))];
      forall m | 0 <= m < n + 1 ensures chunks[m].Received? {
        if m > 0 { assert chunks[m] == chunks[1..][m - 1]; }
      }
      assert chunks[n + 1].Failed?;
    }
  }

  lemma {:induction false} FailsIff(chunks: seq<Chunk>)
    ensures Fails(chunks) <==> exists n :: 0 <= n < |chunks| && chunks[n].Failed?
    decreases |chunks|
  {
    if chunks != [] && chunks[0].Received? {
      FailsIff(chunks[1..]);
      if n :| 0 <= n < |chunks| && chunks[n].Failed? { assert chunks[1..][n - 1].Failed?; }
      if n :| 0 <= n < |chunks[1..]| && chunks[1..][n].Failed? { assert chunks[n + 1].Failed?; }
    }
  }

  // ------------------------------------------------------------------------------------------
  // Whole bodies
  // ------------------------------------------------------------------------------------------

  /** The frames of a body: of the blocks that its bytes, up to a failure, complete. */
  function FramesOfBody(codec: Codec, chunks: seq<Chunk>): seq<Frame> {
    FramesOfBlocks(codec, DrainPieces([], PiecesBefore(chunks)).blocks)
  }

  /** Everything sent for a body: what its frames tell, frame by frame, and the ending. */
  lemma {:induction false} BodyIsTold(codec: Codec, chunks: seq<Chunk>)
      returns (parts: seq<seq<ProviderEvent>>, ending: seq<ProviderEvent>)
    ensures PumpOutput(codec, [], INITIAL, chunks) == Flat(parts) + ending
    ensures var frames := FramesOfBody(codec, chunks);
            && |parts| == |frames|
            && (forall n | 0 <= n < |frames| :: Tells(codec.toolInput, frames[..n], frames[n], parts[n]))
            && if exists n :: 0 <= n < |chunks| && chunks[n].Failed? then EndsFailed(chunks, ending)
               else EndsWhole(frames, ending)
  {
    hide Tells;
    hide EndsFailed;
    hide EndsWhole;
    var frames := FramesOfBody(codec, chunks);
    var st := StateAfter(INITIAL, frames);
    PumpOfChunks(codec, [], INITIAL, chunks);
    hide PumpOutput;
    hide FramesOfBlocks;
    parts := SentFrameByFrame(codec.toolInput, frames);
    ending := Ending(chunks, st);
    EndingOf(chunks, st);
    FailsIff(chunks);
    if Fails(chunks) { FailureEndsFailed(chunks, st); } else { ClosingEndsWhole(frames); }
  }

  /** The texts sent for a body are the texts of its text deltas, in order. */
  lemma {:induction false} TextOfBody(codec: Codec, chunks: seq<Chunk>)
    ensures TextsIn(PumpOutput(codec, [], INITIAL, chunks)) == DeltasIn(FramesOfBody(codec, chunks))
  {
    var frames := FramesOfBody(codec, chunks);
    var st := StateAfter(INITIAL, frames);
    PumpOfChunks(codec, [], INITIAL, chunks);
    TextsAreTheDeltas(codec.toolInput, INITIAL, frames);
    EndingHasNoText(chunks, st);
    FlatMapConcat(TextOf, SentOver(codec.toolInput, INITIAL, frames), Ending(chunks, st));
    assert DeltasIn(frames) + [] == DeltasIn(frames);
  }

  lemma {:induction false} EndingHasNoText(chunks: seq<Chunk>, st: StreamState)
    ensures TextsIn(Ending(chunks, st)) == []
    decreases |chunks|
  {
    if chunks == [] {
      var usage, stop := Usage(st.inputTokens, st.outputTokens), Stop(OrElse(st.stopReason, Error(ClosedEarly)));
      FlatMapOne(TextOf, stop);
      FlatMapOne(TextOf, usage);
      FlatMapConcat(TextOf, [usage], [stop]);
      assert [] + [stop] == [stop];
    } else if chunks[0].Received? {
      EndingHasNoText(chunks[1..], st);
    } else {
      FlatMapOne(TextOf, Ending(chunks, st)[0]);
      assert Ending(chunks, st) == [Ending(chunks, st)[0]];
    }
  }

  // ------------------------------------------------------------------------------------------
  // Text on the wire
  // ------------------------------------------------------------------------------------------

  /** The payloads of events whose data is JSON. */
  function Payloads(codec: Codec, events: seq<ParsedSse>): seq<Json> {
    FlatMap((ev: ParsedSse) => match codec.json(ev.data) case None => [] case Some(payload) => [payload], events)
  }

  /** The text a payload brings. */
  function WireText(payload: Json): seq<string> {
    match (At(payload, ["type"]), At(payload, ["delta", "type"]), At(payload, ["delta", "text"]))
    case (Some(Str(kind)), Some(Str(deltaKind)), Some(Str(text))) =>
      if kind == "content_block_delta" && deltaKind == "text_delta" then [text] else []
    case _ => []
  }

  function WireTexts(payloads: seq<Json>): seq<string> {
    FlatMap(WireText, payloads)
  }

  lemma {:induction false} WireTextIsDelta(payload: Json)
    ensures DeltaOf(FrameOf(payload)) == WireText(payload)
  {
    hide At;
    var frame := FrameOf(payload);
    if frame.TextDelta? {
      TextDeltaIff(payload, frame.text);
    } else if WireText(payload) != [] {
      TextDeltaIff(payload, WireText(payload)[0]);
    }
  }

  lemma {:induction false} WireTextsAreDeltas(codec: Codec, events: seq<ParsedSse>)
    ensures DeltasIn(Frames(codec, events)) == WireTexts(Payloads(codec, events))
    decreases |events|
  {
    if events != [] {
      hide At;
      hide WireText;
      WireTextsAreDeltas(codec, events[1..]);
      var frames, payloads := FramesOfEvent(codec, events[0]), Payloads(codec, [events[0]]);
      assert payloads == match codec.json(events[0].data) case None => [] case Some(payload) => [payload] by {
        FlatMapOne((ev: ParsedSse) => match codec.json(ev.data) case None => [] case Some(payload) => [payload], events[0]);
      }
      FlatMapConcat(DeltaOf, frames, Frames(codec, events[1..]));
      FlatMapConcat(WireText, payloads, Payloads(codec, events[1..]));
      assert Payloads(codec, events) == payloads + Payloads(codec, events[1..]);
      if frames != [] {
        FlatMapOne(DeltaOf, frames[0]);
        FlatMapOne(WireText, payloads[0]);
        WireTextIsDelta(payloads[0]);
      }
    }
  }

  /** However an unmixed body is chunked, the texts sent are those of the text deltas on the wire. */
  lemma {:induction false} TextOnTheWire(codec: Codec, pieces: seq<Bytes>)
    requires Unmixed(Concat(pieces))
    ensures TextsIn(PumpOutput(codec, [], INITIAL, AllReceived(pieces)))
         == WireTexts(Payloads(codec, ReadBlocks(codec.validUtf8, Drain(Concat(pieces)).blocks)))
  {
    var chunks := AllReceived(pieces);
    PiecesAreInvisibleIffUnmixed(Concat(pieces));
    PiecesOfReceived(pieces, INITIAL);
    TextOfBody(codec, chunks);
    WireTextsAreDeltas(codec, ReadBlocks(codec.validUtf8, Drain(Concat(pieces)).blocks));
  }

  /** A body printed from events, in whatever pieces it comes, sends their texts. */
  lemma {:induction false} TextOfPrinted(codec: Codec, events: seq<ParsedSse>, pieces: seq<Bytes>)
    requires forall i | 0 <= i < |events| :: Printable(events[i]) && codec.validUtf8(Payload(events[i]))
    requires Concat(pieces) == Print(events)
    ensures TextsIn(PumpOutput(codec, [], INITIAL, AllReceived(pieces))) == WireTexts(Payloads(codec, events))
  {
    ReadAfterPrintInPieces(codec.validUtf8, events, pieces);
    PiecesOfReceived(pieces, INITIAL);
    TextOfBody(codec, AllReceived(pieces));
    WireTextsAreDeltas(codec, events);
  }
}

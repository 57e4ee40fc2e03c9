/** What the provider stream promises its consumer (crates/agent/src/anthropic.rs:243-484 and the
    contract of `ProviderEvent` in crates/agent/src/types.rs:99-129). */
module ProviderStreamLaws {
  import opened Options
  import opened Json
  import opened Sequences
  import opened SseFraming
  import opened SseBlocks
  import opened ProviderStream

  // ------------------------------------------------------------------------------------------
  // Events depend on the bytes, not on how they were cut into chunks
  // ------------------------------------------------------------------------------------------

  function AllReceived(pieces: seq<Bytes>): seq<Chunk>
    decreases |pieces|
  {
    if pieces == [] then [] else [Received(pieces[0])] + AllReceived(pieces[1..])
  }

  /** The pieces that arrive before the body ends or fails. */
  function PiecesBefore(chunks: seq<Chunk>): seq<Bytes>
    decreases |chunks|
  {
    if chunks == [] || chunks[0].Failed? then [] else [chunks[0].bytes] + PiecesBefore(chunks[1..])
  }

  /** How a body ends: with the totals and the stop, or with the transport failure that comes first. */
  function Ending(chunks: seq<Chunk>, st: StreamState): seq<ProviderEvent>
    decreases |chunks|
  {
    if chunks == [] then Closing(st)
    else match chunks[0]
      case Failed(message) => [Stop(Error(Transport(message)))]
      case Received(_) => Ending(chunks[1..], st)
  }

  predicate Fails(chunks: seq<Chunk>)
    decreases |chunks|
  {
    chunks != [] && (chunks[0].Failed? || Fails(chunks[1..]))
  }

  lemma {:induction false} EndingOf(chunks: seq<Chunk>, st: StreamState)
    ensures if Fails(chunks) then |Ending(chunks, st)| == 1 && Ending(chunks, st)[0].Stop? else Ending(chunks, st) == Closing(st)
    decreases |chunks|
  {
    if chunks != [] && chunks[0].Received? { EndingOf(chunks[1..], st); }
  }

  /** A body cut off by a failure sends what its pieces lead to, and then the failure. */
  lemma {:induction false} PumpOfChunks(codec: Codec, buf: Bytes, st: StreamState, chunks: seq<Chunk>)
    requires FindEventBoundary(buf).None?
    ensures var fed := Feed(codec, st, DrainPieces(buf, PiecesBefore(chunks)).blocks);
            PumpOutput(codec, buf, st, chunks) == fed.sent + Ending(chunks, fed.st)
    decreases |chunks|
  {
    if chunks != [] && chunks[0].Received? {
      var pieces := PiecesBefore(chunks);
      assert pieces[1..] == PiecesBefore(chunks[1..]);
      var drained := Drain(buf + chunks[0].bytes);
      DrainRestIsSuffix(buf + chunks[0].bytes);
      var fed := Feed(codec, st, drained.blocks);
      PumpOfChunks(codec, drained.rest, fed.st, chunks[1..]);
      var later := DrainPieces(drained.rest, pieces[1..]).blocks;
      FeedConcat(codec, st, drained.blocks, later);
      var last := Feed(codec, fed.st, later);
      Regroup(fed.sent, last.sent, Ending(chunks[1..], last.st));
    }
  }

  lemma {:induction false} PiecesOfReceived(pieces: seq<Bytes>, st: StreamState)
    ensures PiecesBefore(AllReceived(pieces)) == pieces && Ending(AllReceived(pieces), st) == Closing(st)
    decreases |pieces|
  {
    if pieces != [] {
      assert AllReceived(pieces)[1..] == AllReceived(pieces[1..]);
      PiecesOfReceived(pieces[1..], st);
    }
  }

  lemma {:induction false} PumpOfPieces(codec: Codec, pieces: seq<Bytes>)
    ensures var fed := Feed(codec, INITIAL, DrainPieces([], pieces).blocks);
            PumpOutput(codec, [], INITIAL, AllReceived(pieces)) == fed.sent + Closing(fed.st)
  {
    PiecesOfReceived(pieces, Feed(codec, INITIAL, DrainPieces([], pieces).blocks).st);
    PumpOfChunks(codec, [], INITIAL, AllReceived(pieces));
  }

  /** For an unmixed body every way of chunking it sends the same provider events. */
  lemma {:induction false} PumpIgnoresChunking(codec: Codec, pieces: seq<Bytes>, pieces': seq<Bytes>)
    requires Concat(pieces) == Concat(pieces') && Unmixed(Concat(pieces))
    ensures PumpOutput(codec, [], INITIAL, AllReceived(pieces)) == PumpOutput(codec, [], INITIAL, AllReceived(pieces'))
  {
    PiecesAreInvisibleIffUnmixed(Concat(pieces));
    PumpOfPieces(codec, pieces);
    PumpOfPieces(codec, pieces');
  }

  /** A body printed from events is dispatched event by event, then closed. */
  lemma {:induction false} PumpOfPrinted(codec: Codec, events: seq<ParsedSse>, pieces: seq<Bytes>)
    requires forall i | 0 <= i < |events| :: Printable(events[i]) && codec.validUtf8(Payload(events[i]))
    requires Concat(pieces) == Print(events)
    ensures var frames := Frames(codec, events);
            PumpOutput(codec, [], INITIAL, AllReceived(pieces))
              == SentOver(codec.toolInput, INITIAL, frames) + Closing(StateAfter(INITIAL, frames))
  {
    ReadAfterPrintInPieces(codec.validUtf8, events, pieces);
    PumpOfPieces(codec, pieces);
  }

  // ------------------------------------------------------------------------------------------
  // The last event is a stop, and usage is reported at most once, right before it
  // ------------------------------------------------------------------------------------------

  lemma {:induction false} DispatchSendsNoUsage(toolInput: string -> Option<Json>, st: StreamState, frames: seq<Frame>)
    ensures forall i | 0 <= i < |SentOver(toolInput, st, frames)| :: !SentOver(toolInput, st, frames)[i].Usage?
    decreases |frames|
  {
    if frames != [] {
      DispatchSendsNoUsage(toolInput, st, frames[..|frames| - 1]);
    }
  }

  /** Whatever arrives, the last event is a stop and a usage report can only be next to last. */
  lemma {:induction false} StreamEndsInStop(codec: Codec, buf: Bytes, st: StreamState, chunks: seq<Chunk>)
    ensures var out := PumpOutput(codec, buf, st, chunks);
            && out != [] && out[|out| - 1].Stop?
            && forall i | 0 <= i < |out| && out[i].Usage? :: i == |out| - 2
    decreases |chunks|
  {
    if chunks == [] {
      DispatchSendsNoUsage(codec.toolInput, st, FramesOfBlocks(codec, Drain(buf).blocks));
    } else if chunks[0].Received? {
      var drained := Drain(buf + chunks[0].bytes);
      DispatchSendsNoUsage(codec.toolInput, st, FramesOfBlocks(codec, drained.blocks));
      StreamEndsInStop(codec, drained.rest, Feed(codec, st, drained.blocks).st, chunks[1..]);
    }
  }

  /** The cumulative output count a frame reports. */
  function ReportedOutput(frame: Frame): Option<nat> {
    match frame
    case MessageStart(_, o) => o
    case MessageDelta(_, o) => o
    case _ => None
  }

  function ReportedInput(frame: Frame): Option<nat> {
    match frame case MessageStart(i, _) => i case _ => None
  }

  /** `v` is what the last reporting frame says, or `start` when none reports. */
  ghost predicate LastReport(report: Frame -> Option<nat>, frames: seq<Frame>, start: nat, v: nat) {
    || (v == start && forall m | 0 <= m < |frames| :: report(frames[m]).None?)
    || (exists n :: 0 <= n < |frames| && report(frames[n]) == Some(v) && forall m | n < m < |frames| :: report(frames[m]).None?)
  }

  lemma {:induction false} LastReportSnoc(report: Frame -> Option<nat>, frames: seq<Frame>, start: nat, v: nat)
    requires frames != [] && LastReport(report, frames[..|frames| - 1], start, v)
    ensures LastReport(report, frames, start, OrElse(report(frames[|frames| - 1]), v))
  {
    var before, last := frames[..|frames| - 1], |frames| - 1;
    if report(frames[last]).None? {
      if n :| 0 <= n < last && report(before[n]) == Some(v) && forall m | n < m < last :: report(before[m]).None? {
        assert report(frames[n]) == Some(v);
        forall m | n < m < |frames| ensures report(frames[m]).None? {
          if m < last { assert frames[m] == before[m]; }
        }
      } else {
        forall m | 0 <= m < |frames| ensures report(frames[m]).None? {
          if m < last { assert frames[m] == before[m]; }
        }
      }
    }
  }

  /** The totals at the end are the last cumulative counts reported, not sums. */
  lemma {:induction false} TotalsAreLastReports(frames: seq<Frame>)
    ensures LastReport(ReportedOutput, frames, 0, StateAfter(INITIAL, frames).outputTokens)
    ensures LastReport(ReportedInput, frames, 0, StateAfter(INITIAL, frames).inputTokens)
    decreases |frames|
  {
    if frames != [] {
      var before := frames[..|frames| - 1];
      TotalsAreLastReports(before);
      LastReportSnoc(ReportedOutput, frames, 0, StateAfter(INITIAL, before).outputTokens);
      LastReportSnoc(ReportedInput, frames, 0, StateAfter(INITIAL, before).inputTokens);
    }
  }

  // ------------------------------------------------------------------------------------------
  // Assembling tool calls while blocks interleave
  // ------------------------------------------------------------------------------------------

  predicate Touches(frame: Frame, key: nat) {
    || (frame.ToolBlockStart? && BlockKey(frame.index) == key)
    || (frame.BlockStop? && BlockKey(frame.index) == key)
  }

  /** The partial JSON of the deltas for `key`, concatenated. */
  function DeltasFor(frames: seq<Frame>, key: nat): string
    decreases |frames|
  {
    if frames == [] then ""
    else
      var last := frames[|frames| - 1];
      DeltasFor(frames[..|frames| - 1], key)
      + if last.JsonDelta? && BlockKey(last.index) == key then last.partial else ""
  }

  /** A block of `key` is open since frame `s`: started there, neither started anew nor stopped since. */
  predicate OpenSince(frames: seq<Frame>, key: nat, s: int) {
    && 0 <= s < |frames|
    && frames[s].ToolBlockStart? && BlockKey(frames[s].index) == key
    && forall m | s < m < |frames| :: !Touches(frames[m], key)
  }

  lemma {:induction false} OpenBlockBuffer(frames: seq<Frame>, key: nat, s: int)
    requires OpenSince(frames, key, s)
    ensures key in StateAfter(INITIAL, frames).tools
    ensures StateAfter(INITIAL, frames).tools[key]
         == ToolInputBuffer(frames[s].id, frames[s].name, DeltasFor(frames[s + 1..], key))
    decreases |frames|
  {
    var last := |frames| - 1;
    var since := frames[s + 1..];
    if s == last {
      assert since == [];
    } else {
      assert !Touches(frames[last], key);
      assert since[|since| - 1] == frames[last];
      assert frames[..last][s + 1..] == since[..|since| - 1];
      OpenBlockBuffer(frames[..last], key, s);
    }
  }

  lemma {:induction false} NoOpenBlockNoBuffer(frames: seq<Frame>, key: nat)
    ensures key in StateAfter(INITIAL, frames).tools <==> exists s :: OpenSince(frames, key, s)
    decreases |frames|
  {
    if frames != [] {
      var last := |frames| - 1;
      var before := frames[..last];
      NoOpenBlockNoBuffer(before, key);
      if Touches(frames[last], key) {
        if frames[last].ToolBlockStart? { assert OpenSince(frames, key, last); }
      } else {
        forall s | OpenSince(before, key, s) ensures OpenSince(frames, key, s) {
          assert frames[s] == before[s];
        }
        forall s | OpenSince(frames, key, s) ensures OpenSince(before, key, s) {
          assert frames[s] == before[s];
        }
      }
    }
  }

  /** At a block stop the call carries the id and name of the start the block is open since and
      the parse of exactly the deltas for its key that came after that start; a stop with no open
      block sends nothing. */
  lemma {:induction false} StopSendsItsOwnCall(toolInput: string -> Option<Json>, frames: seq<Frame>, index: nat)
    ensures var sent := Sent(toolInput, StateAfter(INITIAL, frames), BlockStop(index));
            && (forall s | OpenSince(frames, BlockKey(index), s) ::
                  sent == ClosedBlock(toolInput, ToolInputBuffer(frames[s].id, frames[s].name,
                                                                DeltasFor(frames[s + 1..], BlockKey(index)))))
            && ((forall s :: !OpenSince(frames, BlockKey(index), s)) ==> sent == [])
  {
    NoOpenBlockNoBuffer(frames, BlockKey(index));
    forall s | OpenSince(frames, BlockKey(index), s)
      ensures StateAfter(INITIAL, frames).tools[BlockKey(index)]
           == ToolInputBuffer(frames[s].id, frames[s].name, DeltasFor(frames[s + 1..], BlockKey(index)))
    {
      OpenBlockBuffer(frames, BlockKey(index), s);
    }
  }

  /** Two block indexes share a buffer exactly when they are equal or both are zero or too large
      for 32 bits; below that limit blocks never mix. */
  lemma {:induction false} SharedBufferIff(i: nat, j: nat)
    ensures BlockKey(i) == BlockKey(j) <==> i == j || ((i == 0 || i >= 0x1_0000_0000) && (j == 0 || j >= 0x1_0000_0000))
  {
  }

  /** Every index that does not fit falls back to zero, so its deltas end up in block 0: whatever
      they spell becomes the input of a call that had none. */
  lemma {:induction false} LargeIndexMixesBlocks(toolInput: string -> Option<Json>, index: nat, partial: string)
    requires index >= U32_LIMIT && partial != "" && toolInput(partial).Some?
    ensures var frames := [ToolBlockStart(0, "a", "n"), JsonDelta(index, partial)];
            Sent(toolInput, StateAfter(INITIAL, frames), BlockStop(0))
              == [ToolCall("a", "n", toolInput(partial).value), ToolResultRequested]
  {
    var frames := [ToolBlockStart(0, "a", "n"), JsonDelta(index, partial)];
    assert OpenSince(frames, 0, 0);
    var later := frames[1..];
    assert later == [JsonDelta(index, partial)] && later[..0] == [];
    assert DeltasFor(later, 0) == "" + partial == partial;
    OpenBlockBuffer(frames, 0, 0);
  }

  /** Calls and markers come in pairs, call first. */
  ghost predicate Paired(out: seq<ProviderEvent>) {
    && (forall i | 0 <= i < |out| && out[i].ToolCall? :: i + 1 < |out| && out[i + 1].ToolResultRequested?)
    && (forall i | 0 <= i < |out| && out[i].ToolResultRequested? :: i > 0 && out[i - 1].ToolCall?)
  }

  lemma {:induction false} PairedConcat(a: seq<ProviderEvent>, b: seq<ProviderEvent>)
    requires Paired(a) && Paired(b)
    ensures Paired(a + b)
  {
    var out := a + b;
    forall i | 0 <= i < |out| && out[i].ToolCall? ensures i + 1 < |out| && out[i + 1].ToolResultRequested? {
      if i < |a| { assert a[i].ToolCall?; } else { assert b[i - |a|].ToolCall?; }
    }
    forall i | 0 <= i < |out| && out[i].ToolResultRequested? ensures i > 0 && out[i - 1].ToolCall? {
      if i < |a| { assert a[i].ToolResultRequested?; } else { assert b[i - |a|].ToolResultRequested?; }
    }
  }

  lemma {:induction false} MarkerFollowsCall(toolInput: string -> Option<Json>, st: StreamState, frames: seq<Frame>)
    ensures Paired(SentOver(toolInput, st, frames))
    decreases |frames|
  {
    if frames != [] {
      var before := frames[..|frames| - 1];
      MarkerFollowsCall(toolInput, st, before);
      PairedConcat(SentOver(toolInput, st, before), Sent(toolInput, StateAfter(st, before), frames[|frames| - 1]));
    }
  }

  // ------------------------------------------------------------------------------------------
  // "No further events" after a stop
  // ------------------------------------------------------------------------------------------

  function CountStops(events: seq<ProviderEvent>): nat
    decreases |events|
  {
    if events == [] then 0
    else CountStops(events[..|events| - 1]) + if events[|events| - 1].Stop? then 1 else 0
  }

  lemma {:induction false} CountStopsConcat(a: seq<ProviderEvent>, b: seq<ProviderEvent>)
    ensures CountStops(a + b) == CountStops(a) + CountStops(b)
    decreases |b|
  {
    if b == [] {
      assert a + b == a;
    } else {
      CountStopsConcat(a, b[..|b| - 1]);
      assert (a + b)[..|a + b| - 1] == a + b[..|b| - 1];
    }
  }

  /** Frame `n` reports an upstream error, or closes a block whose deltas are not JSON. */
  ghost predicate Faulty(toolInput: string -> Option<Json>, frames: seq<Frame>, n: nat)
    requires n < |frames|
  {
    || frames[n].ErrorFrame?
    || (frames[n].BlockStop? && exists s | OpenSince(frames[..n], BlockKey(frames[n].index), s) ::
          var json := DeltasFor(frames[..n][s + 1..], BlockKey(frames[n].index));
          toolInput(if json == "" then "{}" else json).None?)
  }

  lemma {:induction false} StopsOfOneFrame(toolInput: string -> Option<Json>, frames: seq<Frame>)
    requires frames != []
    ensures var last := |frames| - 1;
            CountStops(Sent(toolInput, StateAfter(INITIAL, frames[..last]), frames[last]))
              == if Faulty(toolInput, frames, last) then 1 else 0
  {
    var last := |frames| - 1;
    var sent := Sent(toolInput, StateAfter(INITIAL, frames[..last]), frames[last]);
    if frames[last].BlockStop? {
      var key := BlockKey(frames[last].index);
      StopSendsItsOwnCall(toolInput, frames[..last], frames[last].index);
      NoOpenBlockNoBuffer(frames[..last], key);
      if s :| OpenSince(frames[..last], key, s) {
        OpenBlockBuffer(frames[..last], key, s);
      }
    }
    if |sent| == 1 {
      assert sent[..0] == [];
    } else if |sent| == 2 {
      assert sent[..1] == [sent[0]] && sent[..1][..0] == [];
    }
  }

  ghost predicate NoFault(toolInput: string -> Option<Json>, frames: seq<Frame>) {
    forall n: nat | n < |frames| :: !Faulty(toolInput, frames, n)
  }

  lemma {:induction false} NoFaultSnoc(toolInput: string -> Option<Json>, frames: seq<Frame>)
    requires frames != []
    ensures var last := |frames| - 1;
            NoFault(toolInput, frames) <==> NoFault(toolInput, frames[..last]) && !Faulty(toolInput, frames, last)
  {
    var before := frames[..|frames| - 1];
    forall n: nat | n < |before| ensures Faulty(toolInput, frames, n) <==> Faulty(toolInput, before, n) {
      assert frames[..n] == before[..n] && frames[n] == before[n];
    }
  }

  lemma {:induction false} NoStopIffNoFault(toolInput: string -> Option<Json>, frames: seq<Frame>)
    ensures CountStops(SentOver(toolInput, INITIAL, frames)) == 0 <==> NoFault(toolInput, frames)
    decreases |frames|
  {
    if frames != [] {
      var last := |frames| - 1;
      var before := frames[..last];
      NoStopIffNoFault(toolInput, before);
      CountStopsConcat(SentOver(toolInput, INITIAL, before), Sent(toolInput, StateAfter(INITIAL, before), frames[last]));
      StopsOfOneFrame(toolInput, frames);
      NoFaultSnoc(toolInput, frames);
    }
  }

  lemma {:induction false} ClosingHasOneStop(st: StreamState)
    ensures CountStops(Closing(st)) == 1
  {
    var stop := [Stop(OrElse(st.stopReason, Error(ClosedEarly)))];
    var usage := [Usage(st.inputTokens, st.outputTokens)];
    assert stop[..0] == [] && usage[..0] == [];
    assert [] + stop == stop;
    CountStopsConcat(usage, stop);
  }

  lemma {:induction false} EndingHasOneStop(chunks: seq<Chunk>, st: StreamState)
    ensures CountStops(Ending(chunks, st)) == 1
  {
    EndingOf(chunks, st);
    ClosingHasOneStop(st);
    assert Fails(chunks) ==> Ending(chunks, st)[..0] == [];
  }

  /** The stop that ends a body, received whole or cut off by a failure, is its only one exactly when
      no frame before is faulty: an error frame or unreadable tool input sends a stop of its own and
      the stream goes on. */
  lemma {:induction false} OneStopIffNoFault(codec: Codec, chunks: seq<Chunk>)
    ensures var frames := FramesOfBlocks(codec, DrainPieces([], PiecesBefore(chunks)).blocks);
            CountStops(PumpOutput(codec, [], INITIAL, chunks)) == 1 <==> NoFault(codec.toolInput, frames)
  {
    PumpOfChunks(codec, [], INITIAL, chunks);
    var fed := Feed(codec, INITIAL, DrainPieces([], PiecesBefore(chunks)).blocks);
    CountStopsConcat(fed.sent, Ending(chunks, fed.st));
    EndingHasOneStop(chunks, fed.st);
    NoStopIffNoFault(codec.toolInput, FramesOfBlocks(codec, DrainPieces([], PiecesBefore(chunks)).blocks));
  }
}

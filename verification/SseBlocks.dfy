/** Reading one server-sent-event block, and the printer it inverts
    (crates/agent/src/anthropic.rs, `parse_sse_block` and the loop body of `drain_events`).

    Text is kept as bytes: every delimiter is ASCII, so splitting the decoded text and splitting
    its UTF-8 bytes agree.  Whether a payload is valid UTF-8 is a parameter. */
module SseBlocks {
  import opened Options
  import opened Sequences
  import opened SseFraming

  const COLON: Byte := 58
  const SPACE: Byte := 32
  /** The field names `event` and `data`. */
  const EVENT: Bytes := [101, 118, 101, 110, 116]
  const DATA: Bytes := [100, 97, 116, 97]

  datatype ParsedSse = ParsedSse(event: Option<Bytes>, data: Bytes)

  // ------------------------------------------------------------------------------------------
  // Lines
  // ------------------------------------------------------------------------------------------

  /** Split at every LF; the text between two LFs, before the first and after the last. */
  function Lines(block: Bytes): (lines: seq<Bytes>)
    ensures |lines| >= 1
  {
    if block == [] then [[]]
    else
      var later := Lines(block[1..]);
      if block[0] == LF then [[]] + later else [[block[0]] + later[0]] + later[1..]
  }

  function JoinLines(lines: seq<Bytes>): Bytes
    requires |lines| >= 1
  {
    if |lines| == 1 then lines[0] else lines[0] + [LF] + JoinLines(lines[1..])
  }

  function TrimEndCr(line: Bytes): (r: Bytes)
    ensures r <= line
    ensures r == line <==> line == [] || line[|line| - 1] != CR
  {
    if line != [] && line[|line| - 1] == CR then TrimEndCr(line[..|line| - 1]) else line
  }

  function TrimStartSpace(value: Bytes): (r: Bytes)
    ensures |r| <= |value| && r == value[|value| - |r|..]
    ensures r == value <==> value == [] || value[0] != SPACE
  {
    if value != [] && value[0] == SPACE then TrimStartSpace(value[1..]) else value
  }

  /** A line cut at its first colon: the field name, and the value without leading spaces. */
  function FieldAndValue(line: Bytes): (Bytes, Bytes) {
    match FindSubsequence(line, [COLON])
    case Some(colon) => (line[..colon], TrimStartSpace(line[colon + 1..]))
    case None => (line, [])
  }

  /** What one line does to the block read so far. */
  function ReadLine(acc: ParsedSse, raw: Bytes): ParsedSse {
    var line := TrimEndCr(raw);
    if line == [] || line[0] == COLON then acc
    else
      var (field, value) := FieldAndValue(line);
      if field == EVENT then acc.(event := Some(value))
      else if field == DATA then acc.(data := AppendData(acc.data, value))
      else acc
  }

  function AppendData(data: Bytes, value: Bytes): Bytes {
    if data == [] then value else data + [LF] + value
  }

  function ReadLines(acc: ParsedSse, lines: seq<Bytes>): ParsedSse
    decreases |lines|
  {
    if lines == [] then acc else ReadLines(ReadLine(acc, lines[0]), lines[1..])
  }

  const EMPTY_BLOCK := ParsedSse(None, [])

  function ParseBlock(block: Bytes): Option<ParsedSse> {
    var out := ReadLines(EMPTY_BLOCK, Lines(block));
    if out.data == [] && out.event.None? then None else Some(out)
  }

  /** One round of the loop over the lines of a block. */
  method ReadSseLine(acc: ParsedSse, raw: Bytes) returns (out: ParsedSse)
    ensures out == ReadLine(acc, raw)
  {
    out := acc;
    var line := TrimEndCr(raw);
    if line == [] || line[0] == COLON {
      return;
    }
    var (field, value) := FieldAndValue(line);
    if field == EVENT {
      out := out.(event := Some(value));
    } else if field == DATA {
      var data := out.data;
      if data != [] {
        data := data + [LF];
      }
      out := out.(data := data + value);
    }
  }

  lemma {:induction false} ReadOneMore(acc: ParsedSse, lines: seq<Bytes>, i: nat)
    requires i < |lines|
    ensures ReadLines(acc, lines[i..]) == ReadLines(ReadLine(acc, lines[i]), lines[i + 1..])
  {
    assert lines[i..][1..] == lines[i + 1..];
  }

  method ParseSseBlock(block: Bytes) returns (r: Option<ParsedSse>)
    ensures r == ParseBlock(block)
  {
    var out := EMPTY_BLOCK;
    var lines := Lines(block);
    for i := 0 to |lines|
      invariant ReadLines(out, lines[i..]) == ReadLines(EMPTY_BLOCK, lines)
    {
      ReadOneMore(out, lines, i);
      out := ReadSseLine(out, lines[i]);
    }
    r := if out.data == [] && out.event.None? then None else Some(out);
  }

  /** The event read from a payload that draining cut off; a payload that is empty or not valid
      UTF-8 is dropped, and so is a block with neither event name nor data. */
  function ReadBlock(validUtf8: Bytes -> bool, payload: Bytes): seq<ParsedSse> {
    if payload == [] || !validUtf8(payload) then []
    else match ParseBlock(payload) case None => [] case Some(ev) => [ev]
  }

  function ReadBlocks(validUtf8: Bytes -> bool, blocks: seq<Bytes>): seq<ParsedSse> {
    FlatMap(payload => ReadBlock(validUtf8, payload), blocks)
  }

  // ------------------------------------------------------------------------------------------
  // Printing
  // ------------------------------------------------------------------------------------------

  function DataLines(lines: seq<Bytes>): (r: seq<Bytes>)
    ensures |r| == |lines|
    decreases |lines|
  {
    if lines == [] then [] else [DATA + [COLON, SPACE] + lines[0]] + DataLines(lines[1..])
  }

  function WireLines(ev: ParsedSse): (r: seq<Bytes>)
    ensures |r| >= 1
  {
    (match ev.event case None => [] case Some(v) => [EVENT + [COLON, SPACE] + v]) + DataLines(Lines(ev.data))
  }

  /** A block as a server writes it: the event name, then one `data` line per line of data. */
  function Payload(ev: ParsedSse): Bytes {
    JoinLines(WireLines(ev))
  }

  function Print(events: seq<ParsedSse>): Bytes
    decreases |events|
  {
    if events == [] then [] else Payload(events[0]) + LF_BLANK + Print(events[1..])
  }

  predicate LfFree(s: Bytes) {
    forall i | 0 <= i < |s| :: s[i] != LF
  }

  /** Survives the trimming of trailing CRs and leading spaces. */
  predicate Tidy(value: Bytes) {
    value == [] || (value[0] != SPACE && value[|value| - 1] != CR)
  }

  predicate AllTidy(values: seq<Bytes>) {
    forall i | 0 <= i < |values| :: Tidy(values[i])
  }

  /** The events that printing and reading again preserves. */
  predicate Printable(ev: ParsedSse) {
    && (ev.event.Some? ==> LfFree(ev.event.value) && Tidy(ev.event.value))
    && AllTidy(Lines(ev.data))
    && (ev.data == [] ==> ev.event.Some?)
    && (ev.data != [] ==> ev.data[0] != LF)
  }

  // ------------------------------------------------------------------------------------------
  // Splitting and joining are inverse
  // ------------------------------------------------------------------------------------------

  lemma {:induction false} LinesAreLfFree(block: Bytes)
    ensures forall i | 0 <= i < |Lines(block)| :: LfFree(Lines(block)[i])
  {
    if block != [] { LinesAreLfFree(block[1..]); }
  }

  lemma {:induction false} JoinOfLines(block: Bytes)
    ensures JoinLines(Lines(block)) == block
  {
    if block != [] {
      JoinOfLines(block[1..]);
      var later := Lines(block[1..]);
      if block[0] == LF {
        assert Lines(block)[1..] == later;
      } else {
        assert Lines(block)[1..] == later[1..];
      }
    }
  }

  lemma {:induction false} LinesOfConcat(a: Bytes, b: Bytes)
    requires LfFree(a)
    ensures Lines(a + b) == [a + Lines(b)[0]] + Lines(b)[1..]
  {
    var first, others := Lines(b)[0], Lines(b)[1..];
    if a == [] {
      assert a + b == b && a + first == first;
    } else {
      LinesOfConcat(a[1..], b);
      assert (a + b)[1..] == a[1..] + b;
      assert ([a[1..] + first] + others)[1..] == others;
      assert [a[0]] + (a[1..] + first) == a + first;
    }
  }

  lemma {:induction false} LinesOfJoin(lines: seq<Bytes>)
    requires |lines| >= 1 && forall i | 0 <= i < |lines| :: LfFree(lines[i])
    ensures Lines(JoinLines(lines)) == lines
    decreases |lines|
  {
    if |lines| == 1 {
      LinesOfConcat(lines[0], []);
      assert Lines([])[0] == [] && Lines([])[1..] == [];
      assert lines[0] + [] == lines[0] && [lines[0]] + [] == lines;
    } else {
      LinesOfJoin(lines[1..]);
      var tail := [LF] + JoinLines(lines[1..]);
      assert tail[1..] == JoinLines(lines[1..]);
      LinesOfConcat(lines[0], tail);
      assert lines[0] + tail == JoinLines(lines);
      assert Lines(tail) == [[]] + lines[1..] && Lines(tail)[1..] == lines[1..];
      assert lines[0] + [] == lines[0] && [lines[0]] + lines[1..] == lines;
    }
  }

  // ------------------------------------------------------------------------------------------
  // Reading a printed line
  // ------------------------------------------------------------------------------------------

  /** What the reader keeps of a value. */
  function Trimmed(value: Bytes): (r: Bytes)
    ensures |r| <= |value|
    ensures |r| == |value| <==> Tidy(value)
    ensures r == value <==> Tidy(value)
  {
    var t := TrimEndCr(value);
    var r := TrimStartSpace(t);
    assert |t| == |value| ==> t == value;
    assert |r| == |t| ==> r == t;
    r
  }

  lemma {:induction false} TrimEndOfConcat(prefix: Bytes, value: Bytes)
    requires prefix != [] && prefix[|prefix| - 1] != CR
    ensures TrimEndCr(prefix + value) == prefix + TrimEndCr(value)
    decreases |value|
  {
    if value == [] {
      assert prefix + value == prefix;
    } else if value[|value| - 1] == CR {
      TrimEndOfConcat(prefix, value[..|value| - 1]);
      assert (prefix + value)[..|prefix + value| - 1] == prefix + value[..|value| - 1];
    }
  }

  lemma {:induction false} ColonAfterField(field: Bytes, rest: Bytes)
    requires forall i | 0 <= i < |field| :: field[i] != COLON
    ensures FieldAndValue(field + [COLON] + rest) == (field, TrimStartSpace(rest))
  {
    var line := field + [COLON] + rest;
    assert line[|field|..|field| + 1] == [COLON];
    forall j: nat | j < |field| ensures !OccursAt(line, [COLON], j) {
      assert line[j..j + 1][0] == field[j];
    }
    FirstIs(line, [COLON], |field|);
    assert line[..|field|] == field && line[|field| + 1..] == rest;
  }

  lemma {:induction false} PrintedLineTrims(field: Bytes, value: Bytes)
    ensures TrimEndCr(field + [COLON, SPACE] + value) == field + [COLON] + ([SPACE] + TrimEndCr(value))
  {
    TrimEndOfConcat(field + [COLON, SPACE], value);
    assert field + [COLON, SPACE] + TrimEndCr(value) == field + [COLON] + ([SPACE] + TrimEndCr(value));
  }

  lemma {:induction false} TrimAfterSpace(value: Bytes)
    ensures TrimStartSpace([SPACE] + TrimEndCr(value)) == Trimmed(value)
  {
    assert ([SPACE] + TrimEndCr(value))[1..] == TrimEndCr(value);
  }

  /** Of a printed line the reader sees the field name and the trimmed value. */
  lemma {:induction false} PrintedLineSplits(field: Bytes, value: Bytes, line: Bytes)
    requires field != [] && forall i | 0 <= i < |field| :: field[i] != COLON
    requires line == TrimEndCr(field + [COLON, SPACE] + value)
    ensures line != [] && line[0] != COLON && FieldAndValue(line) == (field, Trimmed(value))
  {
    PrintedLineTrims(field, value);
    ColonAfterField(field, [SPACE] + TrimEndCr(value));
    TrimAfterSpace(value);
    assert line[0] == field[0];
  }

  lemma {:induction false} ReadEventLine(acc: ParsedSse, value: Bytes)
    ensures ReadLine(acc, EVENT + [COLON, SPACE] + value) == acc.(event := Some(Trimmed(value)))
  {
    PrintedLineSplits(EVENT, value, TrimEndCr(EVENT + [COLON, SPACE] + value));
  }

  lemma {:induction false} ReadDataLine(acc: ParsedSse, value: Bytes)
    ensures ReadLine(acc, DATA + [COLON, SPACE] + value) == acc.(data := AppendData(acc.data, Trimmed(value)))
  {
    PrintedLineSplits(DATA, value, TrimEndCr(DATA + [COLON, SPACE] + value));
    assert DATA != EVENT;
  }

  function AppendAll(data: Bytes, lines: seq<Bytes>): Bytes
    decreases |lines|
  {
    if lines == [] then data else AppendAll(AppendData(data, Trimmed(lines[0])), lines[1..])
  }

  lemma {:induction false} ReadDataLines(acc: ParsedSse, lines: seq<Bytes>)
    ensures ReadLines(acc, DataLines(lines)) == acc.(data := AppendAll(acc.data, lines))
    decreases |lines|
  {
    if lines != [] {
      ReadDataLine(acc, lines[0]);
      assert DataLines(lines)[1..] == DataLines(lines[1..]);
      ReadDataLines(acc.(data := AppendData(acc.data, Trimmed(lines[0]))), lines[1..]);
    }
  }

  /** Length of `lines` joined behind `data`. */
  function JoinedLength(data: Bytes, lines: seq<Bytes>): nat
    requires |lines| >= 1
  {
    |JoinLines(lines)| + if data == [] then 0 else |data| + 1
  }

  lemma {:induction false} AllTidyCons(lines: seq<Bytes>)
    requires |lines| >= 1 && Tidy(lines[0]) && AllTidy(lines[1..])
    ensures AllTidy(lines)
  {
    forall i | 0 <= i < |lines| ensures Tidy(lines[i]) {
      if i > 0 { assert lines[i] == lines[1..][i - 1]; }
    }
  }

  lemma {:induction false} JoinedLengthStep(data: Bytes, value: Bytes, lines: seq<Bytes>)
    requires |lines| > 1 && |value| <= |lines[0]|
    ensures JoinedLength(AppendData(data, value), lines[1..]) <= JoinedLength(data, lines)
    ensures JoinedLength(AppendData(data, value), lines[1..]) == JoinedLength(data, lines) ==>
            |value| == |lines[0]| && (data != [] || lines[0] != [])
  {
    assert |JoinLines(lines)| == |lines[0]| + 1 + |JoinLines(lines[1..])|;
  }

  /** Reading never lengthens the data, and keeps its length only when nothing is trimmed and no
      empty line comes first. */
  lemma {:induction false} AppendAllLength(data: Bytes, lines: seq<Bytes>)
    requires |lines| >= 1
    ensures |AppendAll(data, lines)| <= JoinedLength(data, lines)
    ensures |AppendAll(data, lines)| == JoinedLength(data, lines) ==>
            AllTidy(lines) && (data != [] || lines[0] != [] || |lines| == 1)
    decreases |lines|
  {
    var value := Trimmed(lines[0]);
    if |lines| == 1 {
      assert AppendAll(AppendData(data, value), lines[1..]) == AppendData(data, value);
    } else {
      JoinedLengthStep(data, value, lines);
      AppendAllLength(AppendData(data, value), lines[1..]);
      if |AppendAll(data, lines)| == JoinedLength(data, lines) {
        AllTidyCons(lines);
      }
    }
  }

  lemma {:induction false} AppendDataTwice(data: Bytes, value: Bytes, rest: Bytes)
    requires data != [] || value != []
    ensures AppendData(AppendData(data, value), rest) == AppendData(data, value + [LF] + rest)
  {
    if data != [] {
      assert data + [LF] + value + [LF] + rest == data + [LF] + (value + [LF] + rest);
    }
  }

  lemma {:induction false} AppendAllTidy(data: Bytes, lines: seq<Bytes>)
    requires |lines| >= 1 && AllTidy(lines)
    requires data != [] || lines[0] != [] || |lines| == 1
    ensures AppendAll(data, lines) == AppendData(data, JoinLines(lines))
    decreases |lines|
  {
    var next := AppendData(data, lines[0]);
    if |lines| == 1 {
      assert AppendAll(next, lines[1..]) == next;
    } else {
      AppendAllTidy(next, lines[1..]);
      AppendDataTwice(data, lines[0], JoinLines(lines[1..]));
    }
  }

  // ------------------------------------------------------------------------------------------
  // One block: read after print
  // ------------------------------------------------------------------------------------------

  lemma {:induction false} DataLinesAreLfFree(lines: seq<Bytes>)
    requires forall i | 0 <= i < |lines| :: LfFree(lines[i])
    ensures forall i | 0 <= i < |lines| :: LfFree(DataLines(lines)[i]) && DataLines(lines)[i] != [] && DataLines(lines)[i][0] != CR
    decreases |lines|
  {
    if lines != [] {
      DataLinesAreLfFree(lines[1..]);
    }
  }

  lemma {:induction false} WireLinesAreLfFree(ev: ParsedSse)
    requires ev.event.Some? ==> LfFree(ev.event.value)
    ensures forall i | 0 <= i < |WireLines(ev)| :: LfFree(WireLines(ev)[i]) && WireLines(ev)[i] != [] && WireLines(ev)[i][0] != CR
  {
    LinesAreLfFree(ev.data);
    DataLinesAreLfFree(Lines(ev.data));
  }

  /** Reading a printed block trims every value and joins the data lines. */
  lemma {:induction false} ReadPrinted(ev: ParsedSse)
    requires ev.event.Some? ==> LfFree(ev.event.value)
    ensures ReadLines(EMPTY_BLOCK, Lines(Payload(ev)))
         == ParsedSse(if ev.event.Some? then Some(Trimmed(ev.event.value)) else None, AppendAll([], Lines(ev.data)))
  {
    WireLinesAreLfFree(ev);
    LinesOfJoin(WireLines(ev));
    match ev.event
    case None =>
      assert WireLines(ev) == DataLines(Lines(ev.data));
      ReadDataLines(EMPTY_BLOCK, Lines(ev.data));
    case Some(v) =>
      assert WireLines(ev)[1..] == DataLines(Lines(ev.data));
      ReadEventLine(EMPTY_BLOCK, v);
      ReadDataLines(EMPTY_BLOCK.(event := Some(Trimmed(v))), Lines(ev.data));
  }

  lemma {:induction false} EventNameIsLfFree(acc: ParsedSse, lines: seq<Bytes>)
    requires acc.event.Some? ==> LfFree(acc.event.value)
    requires forall i | 0 <= i < |lines| :: LfFree(lines[i])
    ensures var r := ReadLines(acc, lines).event; r.Some? ==> LfFree(r.value)
    decreases |lines|
  {
    if lines != [] {
      EventNameIsLfFree(ReadLine(acc, lines[0]), lines[1..]);
    }
  }

  lemma {:induction false} FirstLine(data: Bytes)
    ensures Lines(data)[0] != [] || |Lines(data)| == 1 <==> data == [] || data[0] != LF
  {
  }

  /** Reading a printed block returns it exactly when it is printable. */
  lemma {:induction false} ReadAfterPrintIffPrintable(ev: ParsedSse)
    ensures ParseBlock(Payload(ev)) == Some(ev) <==> Printable(ev)
  {
    FirstLine(ev.data);
    JoinOfLines(ev.data);
    if Printable(ev) {
      ReadPrinted(ev);
      AppendAllTidy([], Lines(ev.data));
    }
    if ParseBlock(Payload(ev)) == Some(ev) {
      LinesAreLfFree(Payload(ev));
      EventNameIsLfFree(EMPTY_BLOCK, Lines(Payload(ev)));
      ReadPrinted(ev);
      AppendAllLength([], Lines(ev.data));
    }
  }

  // ------------------------------------------------------------------------------------------
  // A whole stream: read after print, whatever the pieces
  // ------------------------------------------------------------------------------------------

  /** No LF LF inside, and no CR right after an LF. */
  ghost predicate NoBlankLine(s: Bytes) {
    forall i | 0 <= i < |s| - 1 && s[i] == LF :: s[i + 1] != LF && s[i + 1] != CR
  }

  lemma {:induction false} JoinHasNoBlankLine(lines: seq<Bytes>)
    requires |lines| >= 1
    requires forall i | 0 <= i < |lines| :: LfFree(lines[i]) && lines[i] != [] && lines[i][0] != CR
    ensures JoinLines(lines) != [] && JoinLines(lines)[0] == lines[0][0]
    ensures NoBlankLine(JoinLines(lines)) && JoinLines(lines)[|JoinLines(lines)| - 1] != LF
    decreases |lines|
  {
    if |lines| > 1 {
      JoinHasNoBlankLine(lines[1..]);
      var a, b := lines[0], JoinLines(lines[1..]);
      assert JoinLines(lines) == a + [LF] + b;
      assert b[0] == lines[1][0];
    }
  }

  lemma {:induction false} PayloadHasNoBlankLine(ev: ParsedSse)
    requires Printable(ev)
    ensures Payload(ev) != [] && Payload(ev)[0] != CR && Payload(ev)[0] != LF
    ensures NoBlankLine(Payload(ev)) && Payload(ev)[|Payload(ev)| - 1] != LF
  {
    WireLinesAreLfFree(ev);
    JoinHasNoBlankLine(WireLines(ev));
  }

  lemma {:induction false} BlankLineEndsPayload(payload: Bytes, rest: Bytes)
    requires NoBlankLine(payload) && payload != [] && payload[|payload| - 1] != LF
    ensures FindSubsequence(payload + LF_BLANK + rest, LF_BLANK) == Some(|payload|)
  {
    var s := payload + LF_BLANK + rest;
    assert s[|payload|..|payload| + 2] == LF_BLANK;
    forall j: nat | j < |payload| ensures !OccursAt(s, LF_BLANK, j) {
      assert s[j..j + 2][0] == s[j] == payload[j];
      assert j + 1 < |payload| ==> s[j..j + 2][1] == s[j + 1] == payload[j + 1];
    }
    FirstIs(s, LF_BLANK, |payload|);
  }

  function Payloads(events: seq<ParsedSse>): seq<Bytes>
    decreases |events|
  {
    if events == [] then [] else [Payload(events[0])] + Payloads(events[1..])
  }

  lemma {:induction false} DrainPrinted(events: seq<ParsedSse>)
    requires forall i | 0 <= i < |events| :: Printable(events[i])
    ensures Drain(Print(events)) == Drained(Payloads(events), [])
    decreases |events|
  {
    if events == [] {
    } else {
      var payload, rest := Payload(events[0]), Print(events[1..]);
      PayloadHasNoBlankLine(events[0]);
      BlankLineEndsPayload(payload, rest);
      var s := payload + LF_BLANK + rest;
      DrainCut(s, Boundary(|payload|, |payload| + 2));
      assert s[..|payload|] == payload && s[|payload| + 2..] == rest;
      DrainPrinted(events[1..]);
    }
  }

  lemma {:induction false} ReadPayloads(validUtf8: Bytes -> bool, events: seq<ParsedSse>)
    requires forall i | 0 <= i < |events| :: Printable(events[i]) && validUtf8(Payload(events[i]))
    ensures ReadBlocks(validUtf8, Payloads(events)) == events
    decreases |events|
  {
    if events != [] {
      PayloadHasNoBlankLine(events[0]);
      ReadAfterPrintIffPrintable(events[0]);
      assert Payloads(events)[1..] == Payloads(events[1..]);
      ReadPayloads(validUtf8, events[1..]);
    }
  }

  /** In a printed stream a CR never directly follows an LF. */
  lemma {:induction false} PrintedHasNoCrAfterLf(events: seq<ParsedSse>)
    requires forall i | 0 <= i < |events| :: Printable(events[i])
    ensures forall i | 0 <= i < |Print(events)| - 1 && Print(events)[i] == LF :: Print(events)[i + 1] != CR
    ensures Print(events) != [] ==> Print(events)[0] != CR
    decreases |events|
  {
    if events != [] {
      PayloadHasNoBlankLine(events[0]);
      PrintedHasNoCrAfterLf(events[1..]);
      var payload, rest := Payload(events[0]), Print(events[1..]);
      var s := payload + LF_BLANK + rest;
      forall i | 0 <= i < |s| - 1 && s[i] == LF ensures s[i + 1] != CR {
        if i + 1 < |payload| {
          assert s[i] == payload[i] && s[i + 1] == payload[i + 1];
        } else if i >= |payload| + 2 {
          assert s[i] == rest[i - |payload| - 2] && s[i + 1] == rest[i - |payload| - 1];
        }
      }
    }
  }

  lemma {:induction false} PrintedIsUnmixed(events: seq<ParsedSse>)
    requires forall i | 0 <= i < |events| :: Printable(events[i])
    ensures Unmixed(Print(events))
  {
    PrintedHasNoCrAfterLf(events);
    var s := Print(events);
    forall i: nat ensures !OccursAt(s, CRLF_BLANK, i) {
      if i + 4 <= |s| {
        assert s[i..i + 4][1] == s[i + 1] && s[i..i + 4][2] == s[i + 2];
      }
    }
  }

  /** However a printed stream is cut into pieces, draining after each piece and reading the
      blocks returns the printed events and leaves no bytes over. */
  lemma {:induction false} ReadAfterPrintInPieces(validUtf8: Bytes -> bool, events: seq<ParsedSse>, pieces: seq<Bytes>)
    requires forall i | 0 <= i < |events| :: Printable(events[i]) && validUtf8(Payload(events[i]))
    requires Concat(pieces) == Print(events)
    ensures ReadBlocks(validUtf8, DrainPieces([], pieces).blocks) == events
    ensures DrainPieces([], pieces).rest == []
  {
    PrintedIsUnmixed(events);
    PiecesAreInvisibleIffUnmixed(Print(events));
    DrainPrinted(events);
    ReadPayloads(validUtf8, events);
  }
}

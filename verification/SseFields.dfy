/** How each kind of line in a block is read (crates/agent/src/anthropic.rs:357-384), beyond the lines a
    printer writes. */
module SseFields {
  import opened Options
  import opened SseFraming
  import opened SseBlocks

  function Repeat(b: Byte, n: nat): Bytes {
    seq(n, _ => b)
  }

  predicate ColonFree(s: Bytes) {
    forall i | 0 <= i < |s| :: s[i] != 58
  }

  /** A field name, a colon, blanks, a value and carriage returns. */
  function FieldLine(field: Bytes, blanks: nat, value: Bytes, crs: nat): Bytes {
    field + [58] + (Repeat(32, blanks) + value) + Repeat(13, crs)
  }

  lemma {:induction false} TrimsAllCrs(s: Bytes, n: nat)
    ensures TrimEndCr(s + Repeat(13, n)) == TrimEndCr(s)
    decreases n
  {
    if n == 0 {
      assert s + Repeat(13, 0) == s;
    } else {
      var line := s + Repeat(13, n);
      assert line[..|line| - 1] == s + Repeat(13, n - 1);
      TrimsAllCrs(s, n - 1);
    }
  }

  lemma {:induction false} TrimsAllBlanks(n: nat, s: Bytes)
    ensures TrimStartSpace(Repeat(32, n) + s) == TrimStartSpace(s)
    decreases n
  {
    if n == 0 {
      assert Repeat(32, 0) + s == s;
    } else {
      assert (Repeat(32, n) + s)[1..] == Repeat(32, n - 1) + s;
      TrimsAllBlanks(n - 1, s);
    }
  }

  /** Before the line is cut only carriage returns fall off, and after it only the blanks: a value that
      neither begins with a blank nor ends in a carriage return comes through whole. */
  lemma {:induction false} FieldLineIsCut(field: Bytes, blanks: nat, value: Bytes, crs: nat)
    requires field != [] && ColonFree(field)
    requires value == [] || (value[0] != 32 && value[|value| - 1] != 13)
    ensures var line := TrimEndCr(FieldLine(field, blanks, value, crs));
            line != [] && line[0] != 58 && FieldAndValue(line) == (field, value)
  {
    var rest := Repeat(32, blanks) + value;
    var body := field + [58] + rest;
    TrimsAllCrs(body, crs);
    assert body[|body| - 1] != 13;
    ColonAfterField(field, rest);
    TrimsAllBlanks(blanks, value);
  }

  /** The event name is the value of the last `event` line. */
  lemma {:induction false} EventLine(acc: ParsedSse, blanks: nat, value: Bytes, crs: nat)
    requires value == [] || (value[0] != 32 && value[|value| - 1] != 13)
    ensures ReadLine(acc, FieldLine([101, 118, 101, 110, 116], blanks, value, crs)) == ParsedSse(Some(value), acc.data)
  {
    FieldLineIsCut([101, 118, 101, 110, 116], blanks, value, crs);
  }

  /** Data lines add up, a line feed between them. */
  lemma {:induction false} DataLine(acc: ParsedSse, blanks: nat, value: Bytes, crs: nat)
    requires value == [] || (value[0] != 32 && value[|value| - 1] != 13)
    ensures ReadLine(acc, FieldLine([100, 97, 116, 97], blanks, value, crs))
         == ParsedSse(acc.event, if acc.data == [] then value else acc.data + [10] + value)
  {
    var field: Bytes := [100, 97, 116, 97];
    FieldLineIsCut(field, blanks, value, crs);
    assert field[0] != EVENT[0];
  }

  /** Lines of other fields mean nothing. */
  lemma {:induction false} OtherLine(acc: ParsedSse, field: Bytes, blanks: nat, value: Bytes, crs: nat)
    requires field != [] && ColonFree(field) && field != [101, 118, 101, 110, 116] && field != [100, 97, 116, 97]
    requires value == [] || (value[0] != 32 && value[|value| - 1] != 13)
    ensures ReadLine(acc, FieldLine(field, blanks, value, crs)) == acc
  {
    FieldLineIsCut(field, blanks, value, crs);
  }

  /** Nor do comments, and lines with nothing on them. */
  lemma {:induction false} CommentOrNothing(acc: ParsedSse, comment: Bytes, crs: nat)
    ensures ReadLine(acc, [58] + comment) == acc
    ensures ReadLine(acc, Repeat(13, crs)) == acc
  {
    TrimKeepsFirst([58] + comment);
    TrimsAllCrs([], crs);
    assert [] + Repeat(13, crs) == Repeat(13, crs);
  }

  lemma {:induction false} TrimKeepsFirst(line: Bytes)
    requires line != [] && line[0] != 13
    ensures TrimEndCr(line) != [] && TrimEndCr(line)[0] == line[0]
    decreases |line|
  {
    if line[|line| - 1] == 13 { TrimKeepsFirst(line[..|line| - 1]); }
  }

  /** A field name without a colon has the empty value. */
  lemma {:induction false} BareField(acc: ParsedSse, field: Bytes)
    requires field != [] && ColonFree(field) && field[|field| - 1] != 13
    ensures ReadLine(acc, field)
         == if field == [101, 118, 101, 110, 116] then ParsedSse(Some([]), acc.data)
            else if field == [100, 97, 116, 97] then ParsedSse(acc.event, if acc.data == [] then [] else acc.data + [10])
            else acc
  {
    FindIsFirst(field, [58]);
    forall j: nat | j < |field| ensures !OccursAt(field, [58], j) {
      assert field[j..j + 1][0] == field[j];
    }
    assert acc.data + [10] + [] == acc.data + [10];
  }

  /** A payload that is empty or not UTF-8 yields nothing, whatever it holds, and so does one with
      neither an event name nor data. */
  lemma {:induction false} DroppedBlocks(validUtf8: Bytes -> bool, payload: Bytes)
    ensures payload == [] || !validUtf8(payload) || ParseBlock(payload).None? <==> ReadBlock(validUtf8, payload) == []
    ensures ReadBlock(validUtf8, payload) != [] ==>
              && |ReadBlock(validUtf8, payload)| == 1
              && (ReadBlock(validUtf8, payload)[0].event.Some? || ReadBlock(validUtf8, payload)[0].data != [])
  {
  }
}

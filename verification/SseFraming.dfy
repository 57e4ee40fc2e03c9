/** Cutting a byte stream into server-sent-event blocks (crates/agent/src/anthropic.rs).

    The decoder keeps a buffer, appends every piece that arrives and then removes complete
    blocks from the front.  A block ends at the first LF LF anywhere in the buffer; only a
    buffer without LF LF is searched for CR LF CR LF. */
module SseFraming {
  import opened Options

  newtype Byte = x: int | 0 <= x < 256
  type Bytes = seq<Byte>

  const LF: Byte := 10
  const CR: Byte := 13
  const LF_BLANK: Bytes := [LF, LF]
  const CRLF_BLANK: Bytes := [CR, LF, CR, LF]

  ghost predicate OccursAt(hay: Bytes, needle: Bytes, i: nat) {
    i + |needle| <= |hay| && hay[i..i + |needle|] == needle
  }

  /** The position of the first window of `hay` equal to `needle`. */
  function FindSubsequence(hay: Bytes, needle: Bytes): (r: Option<nat>)
    requires needle != []
    ensures r.Some? ==> r.value + |needle| <= |hay|
  {
    FindFrom(hay, needle, 0)
  }

  function FindFrom(hay: Bytes, needle: Bytes, i: nat): (r: Option<nat>)
    requires needle != []
    ensures r.Some? ==> i <= r.value && r.value + |needle| <= |hay|
    decreases |hay| - i
  {
    if i + |needle| > |hay| then None
    else if hay[i..i + |needle|] == needle then Some(i)
    else FindFrom(hay, needle, i + 1)
  }

  lemma {:induction false} FindFromIsFirst(hay: Bytes, needle: Bytes, i: nat)
    requires needle != []
    ensures var r := FindFrom(hay, needle, i);
            && (r.Some? ==> OccursAt(hay, needle, r.value) && forall j: nat | i <= j < r.value :: !OccursAt(hay, needle, j))
            && (r.None? ==> forall j: nat | i <= j :: !OccursAt(hay, needle, j))
    decreases |hay| - i
  {
    if i + |needle| <= |hay| && hay[i..i + |needle|] != needle {
      FindFromIsFirst(hay, needle, i + 1);
    }
  }

  lemma {:induction false} FindIsFirst(hay: Bytes, needle: Bytes)
    requires needle != []
    ensures var r := FindSubsequence(hay, needle);
            && (r.Some? ==> OccursAt(hay, needle, r.value) && forall j: nat | j < r.value :: !OccursAt(hay, needle, j))
            && (r.None? ==> forall j: nat :: !OccursAt(hay, needle, j))
  {
    FindFromIsFirst(hay, needle, 0);
  }

  datatype Boundary = Boundary(payloadLen: nat, end: nat)

  function FindEventBoundary(buf: Bytes): (r: Option<Boundary>)
    ensures r.Some? ==> r.value.payloadLen < r.value.end <= |buf|
  {
    match FindSubsequence(buf, LF_BLANK)
    case Some(pos) => Some(Boundary(pos, pos + 2))
    case None =>
      match FindSubsequence(buf, CRLF_BLANK)
      case Some(pos) => Some(Boundary(pos, pos + 4))
      case None => None
  }

  /** What draining a buffer yields: the payloads cut off, in order, and the bytes kept. */
  datatype Drained = Drained(blocks: seq<Bytes>, rest: Bytes)

  function Drain(buf: Bytes): Drained
    decreases |buf|
  {
    match FindEventBoundary(buf)
    case None => Drained([], buf)
    case Some(b) =>
      var later := Drain(buf[b.end..]);
      Drained([buf[..b.payloadLen]] + later.blocks, later.rest)
  }

  function Concat(pieces: seq<Bytes>): Bytes {
    if pieces == [] then [] else pieces[0] + Concat(pieces[1..])
  }

  /** Append one piece, drain, and go on with what is left. */
  function DrainPieces(buf: Bytes, pieces: seq<Bytes>): Drained
    decreases |pieces|
  {
    if pieces == [] then Drained([], buf)
    else
      var now := Drain(buf + pieces[0]);
      var later := DrainPieces(now.rest, pieces[1..]);
      Drained(now.blocks + later.blocks, later.rest)
  }

  /** No LF LF comes after a CR LF CR LF. */
  ghost predicate Unmixed(s: Bytes) {
    forall i: nat, j: nat | OccursAt(s, CRLF_BLANK, i) && OccursAt(s, LF_BLANK, j) :: j < i
  }

  // ------------------------------------------------------------------------------------------
  // Occurrences in prefixes, suffixes and concatenations
  // ------------------------------------------------------------------------------------------

  lemma {:induction false} OccursInConcat(a: Bytes, b: Bytes, needle: Bytes, i: nat)
    requires i + |needle| <= |a|
    ensures OccursAt(a, needle, i) <==> OccursAt(a + b, needle, i)
  {
    assert (a + b)[i..i + |needle|] == a[i..i + |needle|];
  }

  lemma {:induction false} OccursInSuffix(s: Bytes, k: nat, needle: Bytes, i: nat)
    requires k <= |s|
    ensures OccursAt(s[k..], needle, i) <==> OccursAt(s, needle, k + i)
  {
    if k + i + |needle| <= |s| {
      assert s[k..][i..i + |needle|] == s[k + i..k + i + |needle|];
    }
  }

  lemma {:induction false} FirstIs(hay: Bytes, needle: Bytes, p: nat)
    requires needle != [] && OccursAt(hay, needle, p)
    requires forall j: nat | j < p :: !OccursAt(hay, needle, j)
    ensures FindSubsequence(hay, needle) == Some(p)
  {
    FindIsFirst(hay, needle);
  }

  lemma {:induction false} UnmixedSuffix(s: Bytes, k: nat)
    requires k <= |s| && Unmixed(s)
    ensures Unmixed(s[k..])
  {
    forall i: nat, j: nat | OccursAt(s[k..], CRLF_BLANK, i) && OccursAt(s[k..], LF_BLANK, j)
      ensures j < i
    {
      OccursInSuffix(s, k, CRLF_BLANK, i);
      OccursInSuffix(s, k, LF_BLANK, j);
    }
  }

  lemma {:induction false} LfBlankStable(a: Bytes, b: Bytes)
    requires FindSubsequence(a, LF_BLANK).Some?
    ensures FindSubsequence(a + b, LF_BLANK) == FindSubsequence(a, LF_BLANK)
  {
    FindIsFirst(a, LF_BLANK);
    var p := FindSubsequence(a, LF_BLANK).value;
    forall j: nat | j <= p ensures OccursAt(a, LF_BLANK, j) <==> OccursAt(a + b, LF_BLANK, j) {
      OccursInConcat(a, b, LF_BLANK, j);
    }
    FirstIs(a + b, LF_BLANK, p);
  }

  lemma {:induction false} CrlfBlankStable(a: Bytes, b: Bytes)
    requires FindSubsequence(a, CRLF_BLANK).Some?
    ensures FindSubsequence(a + b, CRLF_BLANK) == FindSubsequence(a, CRLF_BLANK)
  {
    FindIsFirst(a, CRLF_BLANK);
    var p := FindSubsequence(a, CRLF_BLANK).value;
    forall j: nat | j <= p ensures OccursAt(a, CRLF_BLANK, j) <==> OccursAt(a + b, CRLF_BLANK, j) {
      OccursInConcat(a, b, CRLF_BLANK, j);
    }
    FirstIs(a + b, CRLF_BLANK, p);
  }

  /** A boundary found in a prefix is the boundary of the whole, unless the stream is mixed. */
  lemma {:induction false} BoundaryStable(a: Bytes, b: Bytes)
    requires Unmixed(a + b) && FindEventBoundary(a).Some?
    ensures FindEventBoundary(a + b) == FindEventBoundary(a)
  {
    if FindSubsequence(a, LF_BLANK).Some? {
      LfBlankStable(a, b);
    } else {
      CrlfBlankStable(a, b);
      FindIsFirst(a, LF_BLANK);
      FindIsFirst(a, CRLF_BLANK);
      FindIsFirst(a + b, LF_BLANK);
      var q := FindSubsequence(a, CRLF_BLANK).value;
      OccursInConcat(a, b, CRLF_BLANK, q);
      var r := FindSubsequence(a + b, LF_BLANK);
      if r.Some? {
        assert r.value < q;
        OccursInConcat(a, b, LF_BLANK, r.value);
        assert false;
      }
    }
  }

  // ------------------------------------------------------------------------------------------
  // Draining does not depend on how the bytes arrive, exactly on unmixed streams
  // ------------------------------------------------------------------------------------------

  /** Drain the first bytes before the others arrive. */
  function DrainTwice(a: Bytes, b: Bytes): Drained {
    var early := Drain(a);
    var late := Drain(early.rest + b);
    Drained(early.blocks + late.blocks, late.rest)
  }

  lemma {:induction false} DrainCut(buf: Bytes, cut: Boundary)
    requires FindEventBoundary(buf) == Some(cut)
    ensures cut.payloadLen < cut.end <= |buf|
    ensures Drain(buf).blocks == [buf[..cut.payloadLen]] + Drain(buf[cut.end..]).blocks
    ensures Drain(buf).rest == Drain(buf[cut.end..]).rest
  {
  }

  lemma {:induction false} DrainTwiceCut(a: Bytes, b: Bytes, cut: Boundary)
    requires FindEventBoundary(a) == Some(cut)
    ensures cut.payloadLen < cut.end <= |a|
    ensures DrainTwice(a, b).blocks == [a[..cut.payloadLen]] + DrainTwice(a[cut.end..], b).blocks
    ensures DrainTwice(a, b).rest == DrainTwice(a[cut.end..], b).rest
  {
    DrainCut(a, cut);
    var x, u, v := [a[..cut.payloadLen]], Drain(a[cut.end..]).blocks, Drain(Drain(a).rest + b).blocks;
    assert (x + u) + v == x + (u + v);
  }

  /** Draining a prefix early and then the remainder equals draining once. */
  lemma {:induction false} DrainSplit(a: Bytes, b: Bytes)
    requires Unmixed(a + b)
    ensures Drain(a + b) == DrainTwice(a, b)
    decreases |a|
  {
    match FindEventBoundary(a)
    case None => assert [] + Drain(a + b).blocks == Drain(a + b).blocks;
    case Some(cut) =>
      BoundaryStable(a, b);
      DrainCut(a + b, cut);
      DrainTwiceCut(a, b, cut);
      assert (a + b)[cut.end..] == a[cut.end..] + b;
      assert (a + b)[..cut.payloadLen] == a[..cut.payloadLen];
      UnmixedSuffix(a + b, cut.end);
      DrainSplit(a[cut.end..], b);
  }

  lemma {:induction false} DrainRestIsSuffix(buf: Bytes)
    ensures var d := Drain(buf);
            |d.rest| <= |buf| && d.rest == buf[|buf| - |d.rest|..] && FindEventBoundary(d.rest).None?
    decreases |buf|
  {
    match FindEventBoundary(buf)
    case None =>
    case Some(cut) => DrainRestIsSuffix(buf[cut.end..]);
  }

  /** Blocks with a blank line behind each. */
  function Woven(blocks: seq<Bytes>, blanks: seq<Bytes>): Bytes
    requires |blocks| == |blanks|
  {
    if blocks == [] then [] else blocks[0] + blanks[0] + Woven(blocks[1..], blanks[1..])
  }

  lemma {:induction false} WovenFirst(buf: Bytes, cut: Boundary, blocks: seq<Bytes>, blanks: seq<Bytes>, rest: Bytes)
    requires cut.payloadLen <= cut.end <= |buf| && |blocks| == |blanks|
    requires buf[cut.end..] == Woven(blocks, blanks) + rest
    ensures buf == Woven([buf[..cut.payloadLen]] + blocks, [buf[cut.payloadLen..cut.end]] + blanks) + rest
  {
    var block, blank := buf[..cut.payloadLen], buf[cut.payloadLen..cut.end];
    assert ([block] + blocks)[1..] == blocks && ([blank] + blanks)[1..] == blanks;
    assert buf == block + blank + buf[cut.end..];
    assert block + blank + (Woven(blocks, blanks) + rest) == block + blank + Woven(blocks, blanks) + rest;
  }

  lemma {:induction false} CutIsBlankLine(buf: Bytes, cut: Boundary)
    requires FindEventBoundary(buf) == Some(cut)
    ensures cut.payloadLen <= cut.end <= |buf|
    ensures buf[cut.payloadLen..cut.end] == LF_BLANK || buf[cut.payloadLen..cut.end] == CRLF_BLANK
    ensures forall j: nat :: !OccursAt(buf[..cut.payloadLen], LF_BLANK, j)
  {
    FindIsFirst(buf, LF_BLANK);
    FindIsFirst(buf, CRLF_BLANK);
    forall j: nat ensures !OccursAt(buf[..cut.payloadLen], LF_BLANK, j) {
      assert OccursAt(buf[..cut.payloadLen], LF_BLANK, j) ==> OccursAt(buf, LF_BLANK, j);
    }
  }

  lemma {:induction false} DrainWeaves(buf: Bytes) returns (blanks: seq<Bytes>)
    ensures |blanks| == |Drain(buf).blocks|
    ensures forall i | 0 <= i < |blanks| :: blanks[i] == LF_BLANK || blanks[i] == CRLF_BLANK
    ensures forall i, j: nat | 0 <= i < |blanks| :: !OccursAt(Drain(buf).blocks[i], LF_BLANK, j)
    ensures buf == Woven(Drain(buf).blocks, blanks) + Drain(buf).rest
    decreases |buf|
  {
    hide OccursAt;
    hide Woven;
    match FindEventBoundary(buf)
    case None =>
      blanks := [];
      WovenNone(buf);
    case Some(cut) =>
      CutIsBlankLine(buf, cut);
      DrainCut(buf, cut);
      var later := DrainWeaves(buf[cut.end..]);
      WovenFirst(buf, cut, Drain(buf[cut.end..]).blocks, later, Drain(buf).rest);
      blanks := [buf[cut.payloadLen..cut.end]] + later;
  }

  lemma {:induction false} WovenNone(rest: Bytes)
    ensures rest == Woven([], []) + rest
  {
  }

  /** Draining loses and adds nothing: the blocks, each followed by a blank line, and the leftover are
      the buffer.  No block holds an LF LF and no blank line is left over. */
  lemma {:induction false} DrainLosesNothing(buf: Bytes) returns (blanks: seq<Bytes>)
    ensures |blanks| == |Drain(buf).blocks|
    ensures forall i | 0 <= i < |blanks| :: blanks[i] == LF_BLANK || blanks[i] == CRLF_BLANK
    ensures forall i, j: nat | 0 <= i < |blanks| :: !OccursAt(Drain(buf).blocks[i], LF_BLANK, j)
    ensures buf == Woven(Drain(buf).blocks, blanks) + Drain(buf).rest
    ensures forall j: nat :: !OccursAt(Drain(buf).rest, LF_BLANK, j) && !OccursAt(Drain(buf).rest, CRLF_BLANK, j)
  {
    blanks := DrainWeaves(buf);
    DrainRestIsSuffix(buf);
    FindIsFirst(Drain(buf).rest, LF_BLANK);
    FindIsFirst(Drain(buf).rest, CRLF_BLANK);
  }

  lemma {:induction false} DrainThenMore(a: Bytes, b: Bytes)
    requires Unmixed(a + b)
    ensures Unmixed(Drain(a).rest + b) && FindEventBoundary(Drain(a).rest).None?
  {
    DrainRestIsSuffix(a);
    var rest := Drain(a).rest;
    assert rest + b == (a + b)[|a| - |rest|..];
    UnmixedSuffix(a + b, |a| - |rest|);
  }

  lemma {:induction false} DrainPiecesIsDrain(buf: Bytes, pieces: seq<Bytes>)
    requires FindEventBoundary(buf).None?
    requires Unmixed(buf + Concat(pieces))
    ensures DrainPieces(buf, pieces) == Drain(buf + Concat(pieces))
    decreases |pieces|
  {
    if pieces == [] {
      assert buf + Concat(pieces) == buf;
    } else {
      var a, b := buf + pieces[0], Concat(pieces[1..]);
      assert a + b == buf + Concat(pieces);
      DrainThenMore(a, b);
      DrainPiecesIsDrain(Drain(a).rest, pieces[1..]);
      DrainSplit(a, b);
    }
  }

  /** Draining `a` before `b` arrives gives other blocks than draining once. */
  ghost predicate CutShows(a: Bytes, b: Bytes) {
    DrainTwice(a, b).blocks != Drain(a + b).blocks
  }

  lemma {:induction false} DifferAfterHead<T>(x: T, u: seq<T>, v: seq<T>)
    requires u != v
    ensures [x] + u != [x] + v
  {
    if |u| == |v| {
      var i :| 0 <= i < |u| && u[i] != v[i];
      assert ([x] + u)[i + 1] == u[i] && ([x] + v)[i + 1] == v[i];
    }
  }

  lemma {:induction false} DifferenceAfterFirstBlock(a: Bytes, b: Bytes, p: nat)
    requires FindSubsequence(a, LF_BLANK) == Some(p)
    requires CutShows(a[p + 2..], b)
    ensures CutShows(a, b)
  {
    var cut := Boundary(p, p + 2);
    LfBlankStable(a, b);
    DrainCut(a + b, cut);
    DrainTwiceCut(a, b, cut);
    assert (a + b)[p + 2..] == a[p + 2..] + b;
    assert (a + b)[..p] == a[..p];
    DifferAfterHead(a[..p], DrainTwice(a[p + 2..], b).blocks, Drain(a[p + 2..] + b).blocks);
  }

  lemma {:induction false} FirstCrlfInSuffix(s: Bytes, k: nat, q: nat)
    requires FindSubsequence(s, CRLF_BLANK) == Some(q) && k <= q
    ensures FindSubsequence(s[k..], CRLF_BLANK) == Some(q - k)
  {
    FindIsFirst(s, CRLF_BLANK);
    forall i: nat ensures OccursAt(s[k..], CRLF_BLANK, i) <==> OccursAt(s, CRLF_BLANK, k + i) {
      OccursInSuffix(s, k, CRLF_BLANK, i);
    }
    FirstIs(s[k..], CRLF_BLANK, q - k);
  }

  /** An LF LF ends before the CR LF CR LF that comes first begins, or starts no earlier than its
      last byte. */
  lemma {:induction false} BlankLinesDoNotOverlap(a: Bytes, q: nat, p: nat)
    requires OccursAt(a, CRLF_BLANK, q) && OccursAt(a, LF_BLANK, p)
    ensures p + 2 <= q || q + 3 <= p
  {
    assert a[q..q + 4] == CRLF_BLANK && a[p..p + 2] == LF_BLANK;
    assert a[q] == CR && a[q + 1] == LF && a[q + 2] == CR && a[q + 3] == LF;
    assert a[p] == LF && a[p + 1] == LF;
  }

  /** A piece that ends with its first CR LF CR LF and has no LF LF is cut there; with what comes
      later the cut lies elsewhere. */
  lemma {:induction false} EarlyCut(a: Bytes, b: Bytes, j: nat)
    requires 4 <= |a| && FindSubsequence(a, CRLF_BLANK) == Some(|a| - 4)
    requires FindSubsequence(a, LF_BLANK).None? && OccursAt(a + b, LF_BLANK, j)
    ensures CutShows(a, b)
  {
    FindIsFirst(a, LF_BLANK);
    FindIsFirst(a + b, LF_BLANK);
    var p := FindSubsequence(a + b, LF_BLANK).value;
    if p + 2 <= |a| {
      OccursInConcat(a, b, LF_BLANK, p);
    }
    DrainTwiceCut(a, b, Boundary(|a| - 4, |a|));
    DrainCut(a + b, Boundary(p, p + 2));
    assert DrainTwice(a, b).blocks[0] == a[..|a| - 4];
    assert Drain(a + b).blocks[0] == (a + b)[..p];
  }

  /** When an LF LF follows the first CR LF CR LF, draining right after the latter shows. */
  lemma {:induction false} MixedStreamIsSplit(a: Bytes, b: Bytes, j: nat)
    requires 4 <= |a| && FindSubsequence(a, CRLF_BLANK) == Some(|a| - 4)
    requires |a| - 4 <= j && OccursAt(a + b, LF_BLANK, j)
    ensures CutShows(a, b)
    decreases |a|
  {
    match FindSubsequence(a, LF_BLANK)
    case None =>
      EarlyCut(a, b, j);
    case Some(p) =>
      FindIsFirst(a, LF_BLANK);
      FindIsFirst(a, CRLF_BLANK);
      BlankLinesDoNotOverlap(a, |a| - 4, p);
      assert (a + b)[p + 2..] == a[p + 2..] + b;
      OccursInSuffix(a + b, p + 2, LF_BLANK, j - p - 2);
      FirstCrlfInSuffix(a, p + 2, |a| - 4);
      MixedStreamIsSplit(a[p + 2..], b, j - p - 2);
      DifferenceAfterFirstBlock(a, b, p);
  }

  /** Draining piece by piece yields the blocks and the leftover of draining once, for every way
      of cutting the stream into pieces, exactly when no LF LF follows a CR LF CR LF. */
  lemma {:induction false} PiecesAreInvisibleIffUnmixed(s: Bytes)
    ensures Unmixed(s) <==> forall pieces: seq<Bytes> | Concat(pieces) == s :: DrainPieces([], pieces) == Drain(s)
  {
    if Unmixed(s) {
      forall pieces: seq<Bytes> | Concat(pieces) == s ensures DrainPieces([], pieces) == Drain(s) {
        assert [] + Concat(pieces) == s;
        DrainPiecesIsDrain([], pieces);
      }
    } else {
      var pieces := MixedStreamShowsItsPieces(s);
    }
  }

  lemma {:induction false} TwoPieces(a: Bytes, b: Bytes)
    ensures Concat([a, b]) == a + b
    ensures DrainPieces([], [a, b]).blocks == DrainTwice(a, b).blocks
  {
    assert [a, b][1..] == [b] && [b][1..] == [];
    assert Concat([b]) == b + Concat([]) == b;
    assert [] + a == a;
    LastPiece(Drain(a).rest, b);
  }

  lemma {:induction false} LastPiece(buf: Bytes, b: Bytes)
    ensures DrainPieces(buf, [b]).blocks == Drain(buf + b).blocks
  {
    assert [b][1..] == [];
  }

  lemma {:induction false} MixedStreamShowsItsPieces(s: Bytes) returns (pieces: seq<Bytes>)
    requires !Unmixed(s)
    ensures Concat(pieces) == s && DrainPieces([], pieces) != Drain(s)
  {
    var i: nat, j: nat :| OccursAt(s, CRLF_BLANK, i) && OccursAt(s, LF_BLANK, j) && i <= j;
    FindIsFirst(s, CRLF_BLANK);
    var k := FindSubsequence(s, CRLF_BLANK).value + 4;
    var a, b := s[..k], s[k..];
    assert a + b == s;
    CrlfBlankInPrefix(s, k);
    MixedStreamIsSplit(a, b, j);
    pieces := [a, b];
    TwoPieces(a, b);
  }

  lemma {:induction false} CrlfBlankInPrefix(s: Bytes, k: nat)
    requires 4 <= k && FindSubsequence(s, CRLF_BLANK) == Some(k - 4)
    ensures FindSubsequence(s[..k], CRLF_BLANK) == Some(k - 4)
  {
    FindIsFirst(s, CRLF_BLANK);
    assert s[..k] + s[k..] == s;
    forall j: nat | j <= k - 4 ensures OccursAt(s[..k], CRLF_BLANK, j) <==> OccursAt(s, CRLF_BLANK, j) {
      OccursInConcat(s[..k], s[k..], CRLF_BLANK, j);
    }
    FirstIs(s[..k], CRLF_BLANK, k - 4);
  }

  /** Streams that use one kind of blank line only are unmixed. */
  lemma {:induction false} OneKindOfBlankLine(s: Bytes)
    ensures FindSubsequence(s, CRLF_BLANK).None? || FindSubsequence(s, LF_BLANK).None? ==> Unmixed(s)
  {
    FindIsFirst(s, CRLF_BLANK);
    FindIsFirst(s, LF_BLANK);
  }
}

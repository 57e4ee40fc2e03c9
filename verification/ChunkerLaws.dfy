/** What every windowing of a document has: order, cover, exact token accounts, and little lost
    (workers/py/narrowmind_workers/chunking.py:100-143). */
module ChunkerLaws {
  import opened Sequences
  import opened Chunker

  lemma {:induction false} SumGrows(tokens: seq<nat>, i: nat, i': nat, j': nat, j: nat)
    requires i <= i' <= j' <= j <= |tokens|
    ensures Sum(tokens, i', j') <= Sum(tokens, i, j)
  {
    SumSplits(tokens, i, i', j);
    SumSplits(tokens, i', j', j);
  }

  // ------------------------------------------------------------------------------------------
  // Order and cover
  // ------------------------------------------------------------------------------------------

  /** A window that starts inside another one ends no earlier. */
  lemma {:induction false} EndsStay(tokens: seq<nat>, config: Config, w: Window, w': Window)
    requires WindowOk(tokens, config.targetTokens, w) && WindowOk(tokens, config.targetTokens, w')
    requires w.start < w'.start <= w.end
    ensures w.end <= w'.end
  {
    if w'.end < w.end {
      SumGrows(tokens, w.start, w'.start, w'.end + 1, w.end);
    }
  }

  /** Starts go up and ends never go down; no sentence is skipped between windows; so there are at
      most as many windows as sentences. */
  lemma {:induction false} WindowsAdvance(tokens: seq<nat>, config: Config, ws: seq<Window>, a: nat, b: nat)
    requires Windowing(tokens, config, ws) && a < b < |ws|
    ensures ws[a].start + (b - a) <= ws[b].start && ws[a].end <= ws[b].end
    ensures b == a + 1 ==> ws[b].start <= ws[a].end
    ensures |ws| <= |tokens|
    decreases b
  {
    assert NextOk(tokens, config.overlapTokens, ws[b - 1], ws[b].start);
    EndsStay(tokens, config, ws[b - 1], ws[b]);
    if a < b - 1 { WindowsAdvance(tokens, config, ws, a, b - 1); }
    StartAtLeast(tokens, config, ws, |ws| - 1);
  }

  lemma {:induction false} StartAtLeast(tokens: seq<nat>, config: Config, ws: seq<Window>, a: nat)
    requires Windowing(tokens, config, ws) && a < |ws|
    ensures a <= ws[a].start < |tokens|
    decreases a
  {
    if a > 0 {
      StartAtLeast(tokens, config, ws, a - 1);
      assert NextOk(tokens, config.overlapTokens, ws[a - 1], ws[a].start);
    }
  }

  /** Every sentence is in some window. */
  lemma {:induction false} EverySentenceIsCovered(tokens: seq<nat>, config: Config, ws: seq<Window>, s: nat) returns (a: nat)
    requires Complete(tokens, config, ws) && s < |tokens|
    ensures a < |ws| && ws[a].start <= s < ws[a].end
    ensures a > 0 ==> ws[a - 1].end <= s
  {
    a := FirstEndingAfter(tokens, config, ws, s, |ws| - 1);
    if a > 0 { assert NextOk(tokens, config.overlapTokens, ws[a - 1], ws[a].start); }
  }

  lemma {:induction false} FirstEndingAfter(tokens: seq<nat>, config: Config, ws: seq<Window>, s: nat, b: nat) returns (a: nat)
    requires Windowing(tokens, config, ws) && b < |ws| && s < ws[b].end
    ensures a <= b && s < ws[a].end && (a > 0 ==> ws[a - 1].end <= s)
    decreases b
  {
    if b == 0 || ws[b - 1].end <= s { a := b; } else { a := FirstEndingAfter(tokens, config, ws, s, b - 1); }
  }

  // ------------------------------------------------------------------------------------------
  // There is one windowing
  // ------------------------------------------------------------------------------------------

  lemma {:induction false} EndIsUnique(tokens: seq<nat>, target: int, w: Window, w': Window)
    requires WindowOk(tokens, target, w) && WindowOk(tokens, target, w') && w.start == w'.start
    ensures w.end >= w'.end
  {
    if w.end < w'.end { SumGrows(tokens, w.start, w.start, w.end + 1, w'.end); }
  }

  lemma {:induction false} NextIsUnique(tokens: seq<nat>, overlap: int, w: Window, next: nat, next': nat)
    requires w.start < w.end <= |tokens| && NextOk(tokens, overlap, w, next) && NextOk(tokens, overlap, w, next')
    ensures next <= next'
  {
    if next' < next { SumGrows(tokens, next', next - 1, w.end, w.end); }
  }

  /** The conditions fix the windows: two complete windowings of a document are the same. */
  lemma {:induction false} WindowingIsUnique(tokens: seq<nat>, config: Config, ws: seq<Window>, ws': seq<Window>)
    requires Complete(tokens, config, ws) && Complete(tokens, config, ws')
    ensures ws == ws'
  {
    if |ws| <= |ws'| {
      SameUpTo(tokens, config, ws, ws', |ws|);
    } else {
      SameUpTo(tokens, config, ws', ws, |ws'|);
    }
  }

  lemma {:induction false} SameUpTo(tokens: seq<nat>, config: Config, ws: seq<Window>, ws': seq<Window>, m: nat)
    requires Windowing(tokens, config, ws) && Windowing(tokens, config, ws') && m <= |ws| && m <= |ws'|
    ensures forall a | 0 <= a < m :: ws[a] == ws'[a]
    decreases m
  {
    if m > 0 {
      SameUpTo(tokens, config, ws, ws', m - 1);
      if m > 1 {
        NextIsUnique(tokens, config.overlapTokens, ws[m - 2], ws[m - 1].start, ws'[m - 1].start);
        NextIsUnique(tokens, config.overlapTokens, ws[m - 2], ws'[m - 1].start, ws[m - 1].start);
      }
      EndIsUnique(tokens, config.targetTokens, ws[m - 1], ws'[m - 1]);
      EndIsUnique(tokens, config.targetTokens, ws'[m - 1], ws[m - 1]);
    }
  }

  // ------------------------------------------------------------------------------------------
  // Tokens are conserved
  // ------------------------------------------------------------------------------------------

  /** The tokens of all windows together. */
  function WindowTokens(tokens: seq<nat>, ws: seq<Window>): nat
    requires forall a | 0 <= a < |ws| :: ws[a].end <= |tokens|
    decreases |ws|
  {
    if ws == [] then 0
    else
      var n := |ws| - 1;
      WindowTokens(tokens, ws[..n]) + Sum(tokens, ws[n].start, ws[n].end)
  }

  /** The tokens that consecutive windows share. */
  function SharedTokens(tokens: seq<nat>, ws: seq<Window>): nat
    requires forall a | 0 <= a < |ws| :: ws[a].end <= |tokens|
    decreases |ws|
  {
    if |ws| < 2 then 0
    else
      var n := |ws| - 1;
      SharedTokens(tokens, ws[..n]) + Sum(tokens, ws[n].start, ws[n - 1].end)
  }

  /** Windows `w` and `next`, one after the other. */
  lemma {:induction false} Neighbours(tokens: seq<nat>, config: Config, ws: seq<Window>, a: nat)
    requires Windowing(tokens, config, ws) && a + 1 < |ws|
    ensures ws[a].start < ws[a + 1].start <= ws[a].end <= ws[a + 1].end <= |tokens|
    ensures Sum(tokens, ws[a + 1].start, ws[a].end) <= config.overlapTokens
    ensures Sum(tokens, ws[a + 1].start, ws[a + 1].end)
            == Sum(tokens, ws[a + 1].start, ws[a].end) + Sum(tokens, ws[a].end, ws[a + 1].end)
    ensures Sum(tokens, 0, ws[a + 1].end) == Sum(tokens, 0, ws[a].end) + Sum(tokens, ws[a].end, ws[a + 1].end)
  {
    assert NextOk(tokens, config.overlapTokens, ws[a], ws[a + 1].start);
    EndsStay(tokens, config, ws[a], ws[a + 1]);
    SumSplits(tokens, ws[a + 1].start, ws[a].end, ws[a + 1].end);
    SumSplits(tokens, 0, ws[a].end, ws[a + 1].end);
  }

  lemma {:induction false} Beginning(tokens: seq<nat>, config: Config, ws: seq<Window>, m: nat)
    requires Windowing(tokens, config, ws) && m <= |ws|
    ensures Windowing(tokens, config, ws[..m])
  {
  }

  lemma {:induction false} TokensUpToEnd(tokens: seq<nat>, config: Config, ws: seq<Window>)
    requires Windowing(tokens, config, ws) && ws != []
    requires forall a | 0 <= a < |ws| :: ws[a].end <= |tokens|
    ensures WindowTokens(tokens, ws) == Sum(tokens, 0, ws[|ws| - 1].end) + SharedTokens(tokens, ws)
    decreases |ws|
  {
    var n := |ws| - 1;
    if n == 0 {
      assert WindowTokens(tokens, ws[..0]) == 0;
    } else {
      Beginning(tokens, config, ws, n);
      Neighbours(tokens, config, ws, n - 1);
      hide Windowing;
      hide Sum;
      TokensUpToEnd(tokens, config, ws[..n]);
    }
  }

  lemma {:induction false} OneTimeMore(n: nat, limit: int, before: nat, one: nat)
    requires before <= (n - 1) * limit && one <= limit
    ensures before + one <= n * limit
  {
    assert n * limit == (n - 1) * limit + limit;
  }

  lemma {:induction false} SharedAtMost(tokens: seq<nat>, config: Config, ws: seq<Window>)
    requires Windowing(tokens, config, ws) && ws != []
    requires forall a | 0 <= a < |ws| :: ws[a].end <= |tokens|
    ensures SharedTokens(tokens, ws) <= (|ws| - 1) * config.overlapTokens
    decreases |ws|
  {
    var n := |ws| - 1;
    if n > 0 {
      Beginning(tokens, config, ws, n);
      Neighbours(tokens, config, ws, n - 1);
      hide Windowing;
      hide Sum;
      SharedAtMost(tokens, config, ws[..n]);
      OneTimeMore(n, config.overlapTokens, SharedTokens(tokens, ws[..n]), Sum(tokens, ws[n].start, ws[n - 1].end));
    }
  }

  /** The windows' tokens are those of the document plus what consecutive windows share, which is at
      most the overlap each time. */
  lemma {:induction false} TokensAreConserved(tokens: seq<nat>, config: Config, ws: seq<Window>)
    requires Complete(tokens, config, ws)
    ensures forall a | 0 <= a < |ws| :: ws[a].end <= |tokens|
    ensures WindowTokens(tokens, ws) == Sum(tokens, 0, |tokens|) + SharedTokens(tokens, ws)
    ensures WindowTokens(tokens, ws) <= Sum(tokens, 0, |tokens|) + (|ws| - 1) * config.overlapTokens
  {
    WindowsCanBeStitched(tokens, config, ws);
    TokensUpToEnd(tokens, config, ws);
    SharedAtMost(tokens, config, ws);
  }

  // ------------------------------------------------------------------------------------------
  // The document can be put together again
  // ------------------------------------------------------------------------------------------

  /** Each window without what it shares with the one before. */
  function Stitched<T>(items: seq<T>, ws: seq<Window>): seq<T>
    requires forall a | 0 <= a < |ws| :: ws[a].start <= ws[a].end <= |items|
    requires forall a | 0 < a < |ws| :: ws[a - 1].end <= ws[a].end
    decreases |ws|
  {
    if ws == [] then []
    else
      var n := |ws| - 1;
      Stitched(items, ws[..n]) + if n == 0 then items[ws[0].start..ws[0].end] else items[ws[n - 1].end..ws[n].end]
  }

  lemma {:induction false} WindowsCanBeStitched(tokens: seq<nat>, config: Config, ws: seq<Window>)
    requires Windowing(tokens, config, ws)
    ensures forall a | 0 <= a < |ws| :: ws[a].start <= ws[a].end <= |tokens|
    ensures forall a | 0 < a < |ws| :: ws[a - 1].end <= ws[a].end
  {
    forall a | 0 < a < |ws| ensures ws[a - 1].end <= ws[a].end {
      WindowsAdvance(tokens, config, ws, a - 1, a);
    }
  }

  lemma {:induction false} FirstStartsAtZero(tokens: seq<nat>, config: Config, ws: seq<Window>)
    requires Windowing(tokens, config, ws) && ws != []
    ensures ws[0].start == 0
  {
  }

  lemma {:induction false} StitchUpToEnd<T>(items: seq<T>, tokens: seq<nat>, config: Config, ws: seq<Window>)
    requires Windowing(tokens, config, ws) && |items| == |tokens| && ws != []
    requires forall a | 0 <= a < |ws| :: ws[a].start <= ws[a].end <= |items|
    requires forall a | 0 < a < |ws| :: ws[a - 1].end <= ws[a].end
    ensures Stitched(items, ws) == items[..ws[|ws| - 1].end]
    decreases |ws|
  {
    var n := |ws| - 1;
    if n > 0 {
      Beginning(tokens, config, ws, n);
      hide Windowing;
      StitchUpToEnd(items, tokens, config, ws[..n]);
      assert Stitched(items, ws[..n]) == items[..ws[n - 1].end];
      assert items[..ws[n - 1].end] + items[ws[n - 1].end..ws[n].end] == items[..ws[n].end];
    } else {
      assert Stitched(items, ws[..0]) == [];
      FirstStartsAtZero(tokens, config, ws);
    }
  }

  /** Dropping from each window what it shares with the one before gives the document back, sentence
      by sentence. */
  lemma {:induction false} WindowsRestoreDocument<T>(items: seq<T>, tokens: seq<nat>, config: Config, ws: seq<Window>)
    requires Complete(tokens, config, ws) && |items| == |tokens|
    ensures forall a | 0 <= a < |ws| :: ws[a].start <= ws[a].end <= |items|
    ensures forall a | 0 < a < |ws| :: ws[a - 1].end <= ws[a].end
    ensures Stitched(items, ws) == items
  {
    WindowsCanBeStitched(tokens, config, ws);
    StitchUpToEnd(items, tokens, config, ws);
  }

  // ------------------------------------------------------------------------------------------
  // What is lost
  // ------------------------------------------------------------------------------------------

  ghost predicate Small(tokens: seq<nat>, config: Config, w: Window) {
    w.end <= |tokens| && Sum(tokens, w.start, w.end) < config.minChunkTokens
  }

  /** A window that is too small to keep and does not end the document is followed by a sentence
      longer than the target less the minimum. */
  lemma {:induction false} SmallBeforeLong(tokens: seq<nat>, config: Config, ws: seq<Window>, a: nat)
    requires Complete(tokens, config, ws) && a + 1 < |ws| && Small(tokens, config, ws[a])
    ensures ws[a].end < |tokens| && tokens[ws[a].end] > config.targetTokens - config.minChunkTokens
  {
    assert WindowOk(tokens, config.targetTokens, ws[a]);
    SumSplits(tokens, ws[a].start, ws[a].end, ws[a].end + 1);
  }

  /** Sentence `s` is in no window that is large enough. */
  ghost predicate Lost(tokens: seq<nat>, config: Config, ws: seq<Window>, s: nat) {
    forall a | 0 <= a < |ws| && ws[a].start <= s < ws[a].end :: Small(tokens, config, ws[a])
  }

  /** If no sentence is that long, only the tail that the last window alone holds can be lost, and
      that tail is smaller than the minimum. */
  lemma {:induction false} OnlyTailIsLost(tokens: seq<nat>, config: Config, ws: seq<Window>, s: nat)
    requires Complete(tokens, config, ws) && s < |tokens| && Lost(tokens, config, ws, s)
    requires forall i | 0 <= i < |tokens| :: tokens[i] <= config.targetTokens - config.minChunkTokens
    ensures var tail := if |ws| == 1 then 0 else ws[|ws| - 2].end;
            tail <= s && Sum(tokens, tail, |tokens|) < config.minChunkTokens
  {
    var n := |ws| - 1;
    var a := EverySentenceIsCovered(tokens, config, ws, s);
    assert Small(tokens, config, ws[a]);
    if a < n { SmallBeforeLong(tokens, config, ws, a); }
    if n > 0 {
      assert NextOk(tokens, config.overlapTokens, ws[n - 1], ws[n].start);
      SumGrows(tokens, ws[n].start, ws[n - 1].end, |tokens|, |tokens|);
    }
  }

  /** A window without any text. */
  ghost predicate Blank(tools: Tools, sentences: seq<string>, w: Window) {
    w.start < w.end <= |sentences| && tools.strip(JoinWithBlanks(sentences[w.start..w.end])) == ""
  }

  ghost predicate InWindow(w: Window, s: nat) {
    w.start <= s < w.end
  }

  ghost predicate InChunk(chunks: seq<Chunk>, s: nat) {
    exists c :: c in chunks && c.first <= s <= c.last
  }

  lemma {:induction false} ChunkOfWindow(tools: Tools, config: Config, sentences: seq<string>, w: Window, s: nat)
    requires w.start < w.end <= |sentences|
    ensures (exists c :: c in ChunkOf(tools, config, sentences, w) && c.first <= s <= c.last)
       <==> InWindow(w, s) && !Small(TokensOf(tools, sentences), config, w) && !Blank(tools, sentences, w)
  {
    var chunks := ChunkOf(tools, config, sentences, w);
    if chunks != [] {
      assert chunks[0] in chunks;
    }
  }

  /** A sentence is in no chunk exactly when every window that holds it is too small or blank. */
  lemma {:induction false} InNoChunkIff(tools: Tools, config: Config, sentences: seq<string>, ws: seq<Window>, s: nat)
    requires Complete(TokensOf(tools, sentences), config, ws)
    ensures !InChunk(ChunksOf(tools, config, sentences, ws), s) <==>
              forall a | 0 <= a < |ws| && InWindow(ws[a], s) ::
                Small(TokensOf(tools, sentences), config, ws[a]) || Blank(tools, sentences, ws[a])
  {
    var f := (w: Window) => ChunkOf(tools, config, sentences, w);
    var chunks := ChunksOf(tools, config, sentences, ws);
    forall a | 0 <= a < |ws|
      ensures (exists c :: c in f(ws[a]) && c.first <= s <= c.last)
         <==> InWindow(ws[a], s) && !Small(TokensOf(tools, sentences), config, ws[a]) && !Blank(tools, sentences, ws[a])
    {
      assert WindowOk(TokensOf(tools, sentences), config.targetTokens, ws[a]);
      ChunkOfWindow(tools, config, sentences, ws[a], s);
    }
    if InChunk(chunks, s) {
      var c :| c in chunks && c.first <= s <= c.last;
      InFlatMap(f, ws, c);
    }
    if a :| 0 <= a < |ws| && InWindow(ws[a], s)
            && !Small(TokensOf(tools, sentences), config, ws[a]) && !Blank(tools, sentences, ws[a]) {
      var c :| c in f(ws[a]) && c.first <= s <= c.last;
      InFlatMap(f, ws, c);
    }
  }

  /** So in a document without blank windows and without a sentence longer than the target less the
      minimum, a sentence that is in no chunk belongs to a tail smaller than the minimum. */
  lemma {:induction false} OnlyTailIsInNoChunk(
      tools: Tools, config: Config, sentences: seq<string>, ws: seq<Window>, s: nat)
    requires Complete(TokensOf(tools, sentences), config, ws) && s < |sentences|
    requires forall a | 0 <= a < |ws| :: !Blank(tools, sentences, ws[a])
    requires forall i | 0 <= i < |sentences| :: TokensOf(tools, sentences)[i] <= config.targetTokens - config.minChunkTokens
    requires !InChunk(ChunksOf(tools, config, sentences, ws), s)
    ensures var tail := if |ws| == 1 then 0 else ws[|ws| - 2].end;
            tail <= s && Sum(TokensOf(tools, sentences), tail, |sentences|) < config.minChunkTokens
  {
    InNoChunkIff(tools, config, sentences, ws, s);
    assert forall a | 0 <= a < |ws| && ws[a].start <= s < ws[a].end :: InWindow(ws[a], s);
    OnlyTailIsLost(TokensOf(tools, sentences), config, ws, s);
  }

  /** What a chunk says of its window: the sentence numbers, both inclusive, the tokens of these
      sentences, and their texts joined by blanks and stripped. */
  ghost predicate IsChunkOf(tools: Tools, sentences: seq<string>, w: Window, c: Chunk) {
    && w.start < w.end <= |sentences|
    && c.first == w.start && c.last == w.end - 1
    && c.text == tools.strip(JoinWithBlanks(sentences[w.start..w.end]))
    && (forall tokens: seq<nat> | |tokens| == |sentences|
                                  && (forall i | 0 <= i < |tokens| :: tokens[i] == tools.countTokens(sentences[i])) ::
          c.tokenCount == Sum(tokens, w.start, w.end))
  }

  lemma {:induction false} TokensAreCounts(tools: Tools, sentences: seq<string>, tokens: seq<nat>)
    requires |tokens| == |sentences| && forall i | 0 <= i < |tokens| :: tokens[i] == tools.countTokens(sentences[i])
    ensures tokens == TokensOf(tools, sentences)
  {
  }

  lemma {:induction false} ChunkSaysWindow(tools: Tools, config: Config, sentences: seq<string>, w: Window)
    requires w.start < w.end <= |sentences|
    ensures var chunks := ChunkOf(tools, config, sentences, w);
            if Small(TokensOf(tools, sentences), config, w) || Blank(tools, sentences, w) then chunks == []
            else |chunks| == 1 && IsChunkOf(tools, sentences, w, chunks[0])
  {
    forall tokens: seq<nat> | |tokens| == |sentences|
                              && (forall i | 0 <= i < |tokens| :: tokens[i] == tools.countTokens(sentences[i]))
      ensures tokens == TokensOf(tools, sentences)
    {
      TokensAreCounts(tools, sentences, tokens);
    }
  }

  /** Chunk `i` is that of window `from[i]`; a window that has none is too small or blank. */
  ghost predicate AreFrom(tools: Tools, config: Config, sentences: seq<string>, ws: seq<Window>, chunks: seq<Chunk>, from: seq<nat>) {
    && |from| == |chunks|
    && (forall i | 0 <= i < |from| :: from[i] < |ws| && IsChunkOf(tools, sentences, ws[from[i]], chunks[i]))
    && (forall i, j | 0 <= i < j < |from| :: from[i] < from[j])
    && (forall a: nat | a < |ws| ::
          a in from <==> !Small(TokensOf(tools, sentences), config, ws[a]) && !Blank(tools, sentences, ws[a]))
  }

  lemma {:induction false} FromDropped(
      tools: Tools, config: Config, sentences: seq<string>, ws: seq<Window>, w: Window, chunks: seq<Chunk>, from: seq<nat>)
    requires AreFrom(tools, config, sentences, ws, chunks, from)
    requires Small(TokensOf(tools, sentences), config, w) || Blank(tools, sentences, w)
    ensures AreFrom(tools, config, sentences, ws + [w], chunks, from)
  {
    hide IsChunkOf;
    hide Small;
    hide Blank;
    hide TokensOf;
    var ws' := ws + [w];
    forall i | 0 <= i < |from| ensures from[i] < |ws'| && ws'[from[i]] == ws[from[i]] {}
    forall a: nat | a < |ws'|
      ensures a in from <==> !Small(TokensOf(tools, sentences), config, ws'[a]) && !Blank(tools, sentences, ws'[a])
    {
      if a < |ws| { assert ws'[a] == ws[a]; }
    }
  }

  lemma {:induction false} FromKept(
      tools: Tools, config: Config, sentences: seq<string>, ws: seq<Window>, w: Window, chunks: seq<Chunk>, from: seq<nat>, c: Chunk)
    requires AreFrom(tools, config, sentences, ws, chunks, from) && IsChunkOf(tools, sentences, w, c)
    requires !Small(TokensOf(tools, sentences), config, w) && !Blank(tools, sentences, w)
    ensures AreFrom(tools, config, sentences, ws + [w], chunks + [c], from + [|ws|])
  {
    hide IsChunkOf;
    hide Small;
    hide Blank;
    hide TokensOf;
    var ws', chunks', from' := ws + [w], chunks + [c], from + [|ws|];
    forall i | 0 <= i < |from'| ensures from'[i] < |ws'| && IsChunkOf(tools, sentences, ws'[from'[i]], chunks'[i]) {
      if i < |from| { assert ws'[from'[i]] == ws[from[i]] && chunks'[i] == chunks[i]; }
    }
    forall a: nat | a < |ws'|
      ensures a in from' <==> !Small(TokensOf(tools, sentences), config, ws'[a]) && !Blank(tools, sentences, ws'[a])
    {
      assert from'[|from|] == |ws| && from' == from + [|ws|];
      if a < |ws| { assert ws'[a] == ws[a] && (a in from' <==> a in from); }
    }
  }

  /** The chunks of a document are those of its windows that are neither too small nor blank, each once
      and in order. */
  lemma {:induction false} ChunksAreWindows(tools: Tools, config: Config, sentences: seq<string>, ws: seq<Window>)
      returns (from: seq<nat>)
    requires forall a | 0 <= a < |ws| :: ws[a].start < ws[a].end <= |sentences|
    ensures AreFrom(tools, config, sentences, ws, ChunksOf(tools, config, sentences, ws), from)
    decreases |ws|
  {
    hide AreFrom;
    if ws == [] {
      from := [];
      NoneFromNone(tools, config, sentences);
    } else {
      var n := |ws| - 1;
      SplitLast(ws);
      var before := ChunksAreWindows(tools, config, sentences, ws[..n]);
      var chunks, more := ChunksOf(tools, config, sentences, ws[..n]), ChunkOf(tools, config, sentences, ws[n]);
      OneMoreChunk(tools, config, sentences, ws[..n], ws[n]);
      ChunkSaysWindow(tools, config, sentences, ws[n]);
      hide ChunksOf;
      hide ChunkOf;
      hide IsChunkOf;
      if more == [] {
        assert chunks + more == chunks;
        FromDropped(tools, config, sentences, ws[..n], ws[n], chunks, before);
        from := before;
      } else {
        assert more == [more[0]];
        FromKept(tools, config, sentences, ws[..n], ws[n], chunks, before, more[0]);
        from := before + [n];
      }
    }
  }

  lemma {:induction false} NoneFromNone(tools: Tools, config: Config, sentences: seq<string>)
    ensures AreFrom(tools, config, sentences, [], ChunksOf(tools, config, sentences, []), [])
  {
  }
}

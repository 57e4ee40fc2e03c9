/** The sentence-window chunker (workers/py/narrowmind_workers/chunking.py:36-147). */
module Chunker {
  import opened Sequences

  /** The tools the chunker relies on. */
  datatype Tools = Tools(segment: string -> seq<string>, countTokens: string -> nat, strip: string -> string)

  datatype Config = Config(targetTokens: int, overlapTokens: int, minChunkTokens: int) {
    predicate Valid() {
      0 < targetTokens && 0 <= overlapTokens < targetTokens
    }
  }

  /** `first` and `last` are sentence numbers, both inclusive. */
  datatype Chunk = Chunk(text: string, tokenCount: nat, first: nat, last: nat)

  /** Sentences `start` up to, not including, `end`. */
  datatype Window = Window(start: nat, end: nat)

  /** The tokens of sentences `i` up to, not including, `j`. */
  function Sum(tokens: seq<nat>, i: nat, j: nat): nat
    requires j <= |tokens|
    decreases j
  {
    if j <= i then 0 else Sum(tokens, i, j - 1) + tokens[j - 1]
  }

  lemma {:induction false} SumSplits(tokens: seq<nat>, i: nat, m: nat, j: nat)
    requires i <= m <= j <= |tokens|
    ensures Sum(tokens, i, j) == Sum(tokens, i, m) + Sum(tokens, m, j)
    decreases j
  {
    if m < j { SumSplits(tokens, i, m, j - 1); }
  }

  function TokensOf(tools: Tools, sentences: seq<string>): seq<nat> {
    seq<nat>(|sentences|, i requires 0 <= i < |sentences| => tools.countTokens(sentences[i]))
  }

  // ------------------------------------------------------------------------------------------
  // What a windowing is
  // ------------------------------------------------------------------------------------------

  /** A window holds at least one sentence, fits unless it is just one, and cannot take the next. */
  ghost predicate WindowOk(tokens: seq<nat>, target: int, w: Window) {
    && w.start < w.end <= |tokens|
    && (w.end == w.start + 1 || Sum(tokens, w.start, w.end) <= target)
    && (w.end < |tokens| ==> Sum(tokens, w.start, w.end + 1) > target)
  }

  /** The next window shares as many sentences as the overlap allows, but not the first. */
  ghost predicate NextOk(tokens: seq<nat>, overlap: int, w: Window, next: nat)
    requires w.start < w.end <= |tokens|
  {
    && w.start < next <= w.end
    && Sum(tokens, next, w.end) <= overlap
    && (next == w.start + 1 || Sum(tokens, next - 1, w.end) > overlap)
  }

  /** Windows from `start` on, up to the end of the document if `finished`. */
  ghost predicate Windowing(tokens: seq<nat>, config: Config, ws: seq<Window>) {
    && (forall a | 0 <= a < |ws| :: WindowOk(tokens, config.targetTokens, ws[a]))
    && (forall a | 0 <= a < |ws| - 1 ::
          ws[a].end < |tokens| && NextOk(tokens, config.overlapTokens, ws[a], ws[a + 1].start))
    && (ws != [] ==> ws[0].start == 0)
  }

  ghost predicate Complete(tokens: seq<nat>, config: Config, ws: seq<Window>) {
    Windowing(tokens, config, ws) && ws != [] && ws[|ws| - 1].end == |tokens|
  }

  /** The chunk made of a window, unless it is too small or blank. */
  function ChunkOf(tools: Tools, config: Config, sentences: seq<string>, w: Window): seq<Chunk> {
    if w.start < w.end <= |sentences| then
      var text := tools.strip(JoinWithBlanks(sentences[w.start..w.end]));
      var tokens := Sum(TokensOf(tools, sentences), w.start, w.end);
      if tokens >= config.minChunkTokens && text != "" then [Chunk(text, tokens, w.start, w.end - 1)] else []
    else []
  }

  function ChunksOf(tools: Tools, config: Config, sentences: seq<string>, ws: seq<Window>): seq<Chunk> {
    FlatMap((w: Window) => ChunkOf(tools, config, sentences, w), ws)
  }

  lemma {:induction false} OneMoreChunk(tools: Tools, config: Config, sentences: seq<string>, ws: seq<Window>, w: Window)
    ensures ChunksOf(tools, config, sentences, ws + [w])
            == ChunksOf(tools, config, sentences, ws) + ChunkOf(tools, config, sentences, w)
  {
    FlatMapConcat((w: Window) => ChunkOf(tools, config, sentences, w), ws, [w]);
    FlatMapOne((w: Window) => ChunkOf(tools, config, sentences, w), w);
  }

  // ------------------------------------------------------------------------------------------
  // The code
  // ------------------------------------------------------------------------------------------

  datatype ConfigResult = Configured(config: Config) | ValueError

  method MakeConfig(targetTokens: int, overlapTokens: int, minChunkTokens: int) returns (r: ConfigResult)
    ensures r.Configured? <==> Config(targetTokens, overlapTokens, minChunkTokens).Valid()
    ensures r.Configured? ==> r.config == Config(targetTokens, overlapTokens, minChunkTokens)
  {
    if targetTokens <= 0 { return ValueError; }
    if overlapTokens < 0 || overlapTokens >= targetTokens { return ValueError; }
    return Configured(Config(targetTokens, overlapTokens, minChunkTokens));
  }

  /** Greedy packing forward from sentence `i`. */
  method Pack(tokens: seq<nat>, target: int, i: nat) returns (j: nat, curTokens: nat)
    requires i < |tokens|
    ensures WindowOk(tokens, target, Window(i, j)) && curTokens == Sum(tokens, i, j)
  {
    curTokens := tokens[i];
    j := i + 1;
    while j < |tokens| && curTokens + tokens[j] <= target
      invariant i < j <= |tokens| && curTokens == Sum(tokens, i, j)
      invariant j == i + 1 || curTokens <= target
    {
      curTokens := curTokens + tokens[j];
      j := j + 1;
    }
  }

  function Max(a: int, b: int): int {
    if a < b then b else a
  }

  /** The walk back from the end of a window to the start of the next. */
  method WalkBack(tokens: seq<nat>, overlap: int, i: nat, j: nat) returns (next: nat)
    requires i < j <= |tokens| && 0 <= overlap
    ensures NextOk(tokens, overlap, Window(i, j), next)
  {
    var acc, k := 0, j - 1;
    while k > i && acc + tokens[k] <= overlap
      invariant i <= k < j && acc == Sum(tokens, k + 1, j) && acc <= overlap
    {
      SumSplits(tokens, k, k + 1, j);
      acc := acc + tokens[k];
      k := k - 1;
    }
    SumSplits(tokens, k, k + 1, j);
    next := Max(i + 1, k + 1);
  }

  /** Sentence `i` is where the next window starts. */
  ghost predicate StartsNext(tokens: seq<nat>, config: Config, ws: seq<Window>, i: nat) {
    if ws == [] then i == 0
    else
      var w := ws[|ws| - 1];
      w.start < w.end < |tokens| && NextOk(tokens, config.overlapTokens, w, i)
  }

  lemma {:induction false} NoWindows(tools: Tools, config: Config, sentences: seq<string>)
    ensures ChunksOf(tools, config, sentences, []) == [] && Windowing(TokensOf(tools, sentences), config, [])
  {
  }

  lemma {:induction false} OneMoreWindow(tokens: seq<nat>, config: Config, ws: seq<Window>, w: Window)
    requires Windowing(tokens, config, ws) && StartsNext(tokens, config, ws, w.start)
    requires WindowOk(tokens, config.targetTokens, w)
    ensures Windowing(tokens, config, ws + [w])
    ensures w.end == |tokens| ==> Complete(tokens, config, ws + [w])
  {
    var ws' := ws + [w];
    forall a | 0 <= a < |ws'| - 1
      ensures ws'[a].end < |tokens| && NextOk(tokens, config.overlapTokens, ws'[a], ws'[a + 1].start)
    {
    }
  }

  /** The chunks are made of the windows of a complete windowing (there is only one). */
  ghost predicate ChunksRight(tools: Tools, config: Config, sentences: seq<string>, chunks: seq<Chunk>) {
    exists ws :: Complete(TokensOf(tools, sentences), config, ws) && chunks == ChunksOf(tools, config, sentences, ws)
  }

  /** A document without sentences has no chunks. */
  method ChunkDocument(tools: Tools, config: Config, text: string) returns (chunks: seq<Chunk>)
    requires config.Valid()
    ensures var sentences := tools.segment(tools.strip(text));
            if tools.strip(text) == "" || sentences == [] then chunks == []
            else ChunksRight(tools, config, sentences, chunks)
  {
    hide Windowing;
    hide ChunksOf;
    hide Sum;
    chunks := [];
    ghost var ws: seq<Window> := [];
    var stripped := tools.strip(text);
    if stripped == "" { return; }
    var sentences := tools.segment(stripped);
    if sentences == [] { return; }
    var tokens := TokensOf(tools, sentences);
    NoWindows(tools, config, sentences);
    var i, n := 0, |sentences|;
    while i < n
      invariant chunks == ChunksOf(tools, config, sentences, ws) && Windowing(tokens, config, ws)
      invariant StartsNext(tokens, config, ws, i) && i < n
      decreases n - i
    {
      var j, curTokens := Pack(tokens, config.targetTokens, i);
      var chunkText := tools.strip(JoinWithBlanks(sentences[i..j]));
      OneMoreChunk(tools, config, sentences, ws, Window(i, j));
      OneMoreWindow(tokens, config, ws, Window(i, j));
      ws := ws + [Window(i, j)];
      if curTokens >= config.minChunkTokens && chunkText != "" {
        chunks := chunks + [Chunk(chunkText, curTokens, i, j - 1)];
      }
      if j >= n { break; }
      i := WalkBack(tokens, config.overlapTokens, i, j);
    }
  }
}

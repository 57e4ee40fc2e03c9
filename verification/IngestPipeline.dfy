/** Cleaning, chunking and deduplication of a source
    (workers/py/narrowmind_workers/ingestion/pipeline.py:33-127). */
module IngestPipeline {
  import opened Options
  import opened MinHash

  /** `metadataMerges` tells whether the document's metadata can be merged with its title. */
  datatype Doc = Doc(id: string, text: string, metadataMerges: bool)

  /** A line of documents.jsonl; JSON that is not an object has no fields to ask for. */
  datatype Parsed = NotJson | NotObject | Document(doc: Doc)

  /** The steps before deduplication; chunk ids are drawn anew for every line, so chunking also
      depends on the line's number.  Chunking may fail. */
  datatype Steps = Steps(
    strip: string -> string,
    parse: string -> Parsed,
    isLanguage: (string, string) -> bool,
    passesQuality: string -> bool,
    chunk: (nat, Doc) -> Option<seq<Chunk>>,
    lsh: Lsh)

  datatype Kind = Blank | Unreadable | Fatal | WrongLanguage | LowQuality | ChunkingFailed | Chunked

  /** What becomes of a line. */
  datatype Fate = Fate(kind: Kind, chunks: seq<Chunk>)

  function FateOf(steps: Steps, language: Option<string>, number: nat, rawLine: string): Fate {
    var line := steps.strip(rawLine);
    if line == "" then Fate(Blank, [])
    else match steps.parse(line)
      case NotJson => Fate(Unreadable, [])
      case NotObject => Fate(Fatal, [])
      case Document(doc) =>
        if language.Some? && !steps.isLanguage(doc.text, language.value) then Fate(WrongLanguage, [])
        else if !steps.passesQuality(doc.text) then Fate(LowQuality, [])
        else if !doc.metadataMerges then Fate(Fatal, [])
        else match steps.chunk(number, doc)
          case None => Fate(ChunkingFailed, [])
          case Some(chunks) => Fate(Chunked, chunks)
  }

  function Fates(steps: Steps, language: Option<string>, lines: seq<string>, n: nat): seq<Fate>
    requires n <= |lines|
    decreases n
  {
    if n == 0 then [] else Fates(steps, language, lines, n - 1) + [FateOf(steps, language, n - 1, lines[n - 1])]
  }

  function Count(fates: seq<Fate>, kind: Kind): nat
    decreases |fates|
  {
    if fates == [] then 0
    else
      var n := |fates| - 1;
      Count(fates[..n], kind) + if fates[n].kind == kind then 1 else 0
  }

  /** All chunks in the order in which they are made. */
  function Emitted(fates: seq<Fate>): seq<Chunk>
    decreases |fates|
  {
    if fates == [] then []
    else
      var n := |fates| - 1;
      Emitted(fates[..n]) + fates[n].chunks
  }

  datatype Stats = Stats(
    docsProcessed: nat, filteredLanguage: nat, filteredQuality: nat,
    emitted: nat, dropped: nat, kept: nat, failures: nat)

  /** The counters agree with what became of the lines. */
  ghost predicate Counted(lsh: Lsh, fates: seq<Fate>, stats: Stats)
    requires 1 <= lsh.shingleSize
  {
    && stats.docsProcessed + Count(fates, Blank) == |fates|
    && stats.filteredLanguage == Count(fates, WrongLanguage)
    && stats.filteredQuality == Count(fates, LowQuality)
    && stats.failures == Count(fates, Unreadable) + Count(fates, ChunkingFailed)
    && stats.emitted == |Emitted(fates)|
    && stats.kept == |KeptChunks(lsh, Emitted(fates))|
    && stats.kept + stats.dropped == stats.emitted
  }

  // ------------------------------------------------------------------------------------------
  // The code
  // ------------------------------------------------------------------------------------------

  datatype ProcessResult = Processed(stats: Stats) | FileNotFound | ValueError | Crashed

  class SourceDir {
    var documents: Option<seq<string>>
    var chunks: Option<seq<Chunk>>
    var chunksTmp: Option<seq<Chunk>>
  }

  lemma {:induction false} OneMoreChunk(lsh: Lsh, before: seq<Chunk>, c: Chunk)
    requires 1 <= lsh.shingleSize
    ensures var dup := Neighbours(lsh, Index(lsh, before), c.text) != [];
            && Index(lsh, before + [c]) == (if dup then Index(lsh, before) else Added(lsh, Index(lsh, before), c.text, c.id))
            && KeptChunks(lsh, before + [c]) == KeptChunks(lsh, before) + if dup then [] else [c]
  {
    assert (before + [c])[..|before|] == before;
  }

  lemma {:induction false} NothingCounted(lsh: Lsh)
    requires 1 <= lsh.shingleSize
    ensures UpToDate(lsh, [], [], Stats(0, 0, 0, 0, 0, 0, 0), [])
  {
  }

  /** The chunks of one document go through the index; those kept are written. */
  method DedupChunks(dedup: MinHashDedup, ghost before: seq<Chunk>, chunks: seq<Chunk>, out: seq<Chunk>)
      returns (out': seq<Chunk>, dropped: nat)
    requires 1 <= dedup.lsh.shingleSize && dedup.index == Index(dedup.lsh, before) && out == KeptChunks(dedup.lsh, before)
    modifies dedup
    ensures dedup.index == Index(dedup.lsh, before + chunks) && out' == KeptChunks(dedup.lsh, before + chunks)
    ensures |out'| + dropped == |out| + |chunks|
  {
    hide Index;
    hide KeptChunks;
    hide Neighbours;
    hide Added;
    out', dropped := out, 0;
    var k := 0;
    ghost var seen := before;
    while k < |chunks|
      invariant k <= |chunks| && seen == before + chunks[..k]
      invariant dedup.index == Index(dedup.lsh, seen) && out' == KeptChunks(dedup.lsh, seen)
      invariant |out'| + dropped == |out| + k
    {
      var ch := chunks[k];
      OneMoreChunk(dedup.lsh, seen, ch);
      var isDup, neighbours := dedup.AddUnlessDuplicate(ch.text, ch.id);
      k, seen := k + 1, seen + [ch];
      if isDup {
        dropped := dropped + 1;
        continue;
      }
      out' := out' + [ch];
    }
    assert chunks[..k] == chunks;
  }

  /** The counters after one more line, leaving the chunks aside. */
  function Tallied(stats: Stats, kind: Kind): Stats {
    var processed := if kind == Blank then stats.docsProcessed else stats.docsProcessed + 1;
    match kind
    case WrongLanguage => stats.(docsProcessed := processed, filteredLanguage := stats.filteredLanguage + 1)
    case LowQuality => stats.(docsProcessed := processed, filteredQuality := stats.filteredQuality + 1)
    case Unreadable => stats.(docsProcessed := processed, failures := stats.failures + 1)
    case ChunkingFailed => stats.(docsProcessed := processed, failures := stats.failures + 1)
    case _ => stats.(docsProcessed := processed)
  }

  /** One more line and what its document added. */
  lemma {:induction false} OneMoreLine(lsh: Lsh, fates: seq<Fate>, f: Fate, stats: Stats, out: seq<Chunk>, dropped: nat)
    requires 1 <= lsh.shingleSize && Counted(lsh, fates, stats) && f.kind != Fatal
    requires out == KeptChunks(lsh, Emitted(fates) + f.chunks) && |out| + dropped == stats.kept + |f.chunks|
    ensures Emitted(fates + [f]) == Emitted(fates) + f.chunks
    ensures Counted(lsh, fates + [f], Tallied(stats, f.kind).(
                    emitted := stats.emitted + |f.chunks|, dropped := stats.dropped + dropped, kept := |out|))
    ensures Count(fates + [f], Fatal) == Count(fates, Fatal)
  {
    hide KeptChunks;
    assert (fates + [f])[..|fates|] == fates;
  }

  /** A line without chunks. */
  lemma {:induction false} PlainLine(lsh: Lsh, fates: seq<Fate>, f: Fate, stats: Stats)
    requires 1 <= lsh.shingleSize && Counted(lsh, fates, stats) && f.kind != Fatal && f.chunks == []
    ensures Emitted(fates + [f]) == Emitted(fates)
    ensures Counted(lsh, fates + [f], Tallied(stats, f.kind))
    ensures Count(fates + [f], Fatal) == Count(fates, Fatal)
  {
    assert Emitted(fates) + [] == Emitted(fates);
    OneMoreLine(lsh, fates, f, stats, KeptChunks(lsh, Emitted(fates)), 0);
  }

  lemma {:induction false} FatalStays(steps: Steps, language: Option<string>, lines: seq<string>, i: nat, n: nat)
    requires i < n <= |lines| && FateOf(steps, language, i, lines[i]).kind == Fatal
    ensures Count(Fates(steps, language, lines, n), Fatal) > 0
    decreases n
  {
    if i < n - 1 { FatalStays(steps, language, lines, i, n - 1); }
    var before, f := Fates(steps, language, lines, n - 1), FateOf(steps, language, n - 1, lines[n - 1]);
    assert (before + [f])[..|before|] == before;
  }

  /** The state of the work after the lines with these fates. */
  ghost predicate UpToDate(lsh: Lsh, fates: seq<Fate>, index: seq<Entry>, stats: Stats, out: seq<Chunk>)
    requires 1 <= lsh.shingleSize
  {
    && index == Index(lsh, Emitted(fates)) && out == KeptChunks(lsh, Emitted(fates)) && stats.kept == |out|
    && Counted(lsh, fates, stats) && Count(fates, Fatal) == 0
  }

  lemma {:induction false} PlainLineKeeps(lsh: Lsh, fates: seq<Fate>, f: Fate, index: seq<Entry>, stats: Stats, out: seq<Chunk>)
    requires 1 <= lsh.shingleSize && UpToDate(lsh, fates, index, stats, out) && f.kind != Fatal && f.chunks == []
    ensures UpToDate(lsh, fates + [f], index, Tallied(stats, f.kind), out)
  {
    hide Counted;
    hide Index;
    hide KeptChunks;
    PlainLine(lsh, fates, f, stats);
  }

  lemma {:induction false} ChunkedLineKeeps(
      lsh: Lsh, fates: seq<Fate>, f: Fate, index: seq<Entry>, stats: Stats, out: seq<Chunk>,
      index': seq<Entry>, out': seq<Chunk>, dropped: nat)
    requires 1 <= lsh.shingleSize && UpToDate(lsh, fates, index, stats, out) && f.kind == Chunked
    requires index' == Index(lsh, Emitted(fates) + f.chunks) && out' == KeptChunks(lsh, Emitted(fates) + f.chunks)
    requires |out'| + dropped == |out| + |f.chunks|
    ensures UpToDate(lsh, fates + [f], index', Tallied(stats, Chunked).(
                     emitted := stats.emitted + |f.chunks|, dropped := stats.dropped + dropped, kept := |out'|), out')
  {
    hide Counted;
    hide Index;
    hide KeptChunks;
    OneMoreLine(lsh, fates, f, stats, out', dropped);
  }

  /** One line of documents.jsonl; false if it ends the work. */
  method ProcessLine(
      steps: Steps, language: Option<string>, number: nat, rawLine: string, dedup: MinHashDedup,
      ghost fates: seq<Fate>, stats: Stats, out: seq<Chunk>)
      returns (fine: bool, stats': Stats, out': seq<Chunk>)
    requires 1 <= steps.lsh.shingleSize && dedup.lsh == steps.lsh
    requires UpToDate(steps.lsh, fates, dedup.index, stats, out)
    modifies dedup
    ensures fine <==> FateOf(steps, language, number, rawLine).kind != Fatal
    ensures fine ==> UpToDate(steps.lsh, fates + [FateOf(steps, language, number, rawLine)], dedup.index, stats', out')
  {
    hide UpToDate;
    hide Counted;
    hide Index;
    hide KeptChunks;
    hide Emitted;
    hide Count;
    ghost var fate, index := FateOf(steps, language, number, rawLine), dedup.index;
    fine, stats', out' := true, stats, out;
    if fate.kind != Fatal && fate.chunks == [] { PlainLineKeeps(steps.lsh, fates, fate, index, stats, out); }
    var line := steps.strip(rawLine);
    if line == "" { return; }
    stats' := stats'.(docsProcessed := stats'.docsProcessed + 1);
    var parsed := steps.parse(line);
    if parsed.NotJson? {
      stats' := stats'.(failures := stats'.failures + 1);
      return;
    }
    if parsed.NotObject? { return false, stats', out'; }
    var doc := parsed.doc;
    if language.Some? && !steps.isLanguage(doc.text, language.value) {
      stats' := stats'.(filteredLanguage := stats'.filteredLanguage + 1);
      return;
    }
    if !steps.passesQuality(doc.text) {
      stats' := stats'.(filteredQuality := stats'.filteredQuality + 1);
      return;
    }
    if !doc.metadataMerges { return false, stats', out'; }
    var chunks := steps.chunk(number, doc);
    if chunks.None? {
      stats' := stats'.(failures := stats'.failures + 1);
      return;
    }
    stats' := stats'.(emitted := stats'.emitted + |chunks.value|);
    Unpack(steps.lsh, fates, index, stats, out);
    var dropped;
    out', dropped := DedupChunks(dedup, Emitted(fates), chunks.value, out);
    stats' := stats'.(dropped := stats'.dropped + dropped, kept := |out'|);
    ChunkedLineKeeps(steps.lsh, fates, fate, index, stats, out, dedup.index, out', dropped);
  }

  lemma {:induction false} Unpack(lsh: Lsh, fates: seq<Fate>, index: seq<Entry>, stats: Stats, out: seq<Chunk>)
    requires 1 <= lsh.shingleSize && UpToDate(lsh, fates, index, stats, out)
    ensures index == Index(lsh, Emitted(fates)) && out == KeptChunks(lsh, Emitted(fates)) && stats.kept == |out|
    ensures Counted(lsh, fates, stats) && Count(fates, Fatal) == 0
  {
  }

  // ------------------------------------------------------------------------------------------
  // Line by line, told from the steps alone
  // ------------------------------------------------------------------------------------------

  /** Line `i` holds a document. */
  predicate HoldsDoc(steps: Steps, lines: seq<string>, i: nat)
    requires i < |lines|
  {
    steps.strip(lines[i]) != "" && steps.parse(steps.strip(lines[i])).Document?
  }

  function DocAt(steps: Steps, lines: seq<string>, i: nat): Doc
    requires i < |lines| && HoldsDoc(steps, lines, i)
  {
    steps.parse(steps.strip(lines[i])).doc
  }

  /** Line `i` holds a document in a language that is not wanted. */
  predicate IsForeign(steps: Steps, language: Option<string>, lines: seq<string>, i: nat)
    requires i < |lines|
  {
    HoldsDoc(steps, lines, i) && language.Some? && !steps.isLanguage(DocAt(steps, lines, i).text, language.value)
  }

  /** Line `i` holds a document in the wanted language, or any if none is asked for, that is of low quality. */
  predicate IsPoor(steps: Steps, language: Option<string>, lines: seq<string>, i: nat)
    requires i < |lines|
  {
    && HoldsDoc(steps, lines, i) && !IsForeign(steps, language, lines, i)
    && !steps.passesQuality(DocAt(steps, lines, i).text)
  }

  /** Line `i` holds a document that both filters let through. */
  predicate IsGood(steps: Steps, language: Option<string>, lines: seq<string>, i: nat)
    requires i < |lines|
  {
    && HoldsDoc(steps, lines, i) && !IsForeign(steps, language, lines, i)
    && steps.passesQuality(DocAt(steps, lines, i).text)
  }

  /** Line `i` ends the work: it is JSON without fields, or a good document whose metadata do not merge. */
  predicate IsFatal(steps: Steps, language: Option<string>, lines: seq<string>, i: nat)
    requires i < |lines|
  {
    || (steps.strip(lines[i]) != "" && steps.parse(steps.strip(lines[i])).NotObject?)
    || (IsGood(steps, language, lines, i) && !DocAt(steps, lines, i).metadataMerges)
  }

  /** Line `i` is no JSON, or a good document that chunking fails on. */
  predicate IsFailure(steps: Steps, language: Option<string>, lines: seq<string>, i: nat)
    requires i < |lines|
  {
    || (steps.strip(lines[i]) != "" && steps.parse(steps.strip(lines[i])).NotJson?)
    || (IsGood(steps, language, lines, i) && DocAt(steps, lines, i).metadataMerges
        && steps.chunk(i, DocAt(steps, lines, i)).None?)
  }

  /** The chunks of the good documents on the first `n` lines, document after document. */
  function ChunksOfGood(steps: Steps, language: Option<string>, lines: seq<string>, n: nat): seq<Chunk>
    requires n <= |lines|
    decreases n
  {
    if n == 0 then []
    else
      var i := n - 1;
      ChunksOfGood(steps, language, lines, i)
      + if IsGood(steps, language, lines, i) then OrElse(steps.chunk(i, DocAt(steps, lines, i)), []) else []
  }

  /** Every counter is the number of lines, or of chunks, that it is named for. */
  ghost predicate Tells(steps: Steps, language: Option<string>, lines: seq<string>, stats: Stats)
    requires 1 <= steps.lsh.shingleSize
  {
    var chunks := ChunksOfGood(steps, language, lines, |lines|);
    && stats.docsProcessed == |set i: nat | i < |lines| && steps.strip(lines[i]) != ""|
    && stats.filteredLanguage == |set i: nat | i < |lines| && IsForeign(steps, language, lines, i)|
    && stats.filteredQuality == |set i: nat | i < |lines| && IsPoor(steps, language, lines, i)|
    && stats.failures == |set i: nat | i < |lines| && IsFailure(steps, language, lines, i)|
    && stats.emitted == |chunks| && stats.kept == |KeptChunks(steps.lsh, chunks)|
    && stats.dropped == |chunks| - |KeptChunks(steps.lsh, chunks)|
  }

  lemma {:induction false} FateMeans(steps: Steps, language: Option<string>, lines: seq<string>, i: nat)
    requires i < |lines|
    ensures var f := FateOf(steps, language, i, lines[i]);
            && (f.kind.Blank? <==> steps.strip(lines[i]) == "")
            && (f.kind.WrongLanguage? <==> IsForeign(steps, language, lines, i))
            && (f.kind.LowQuality? <==> IsPoor(steps, language, lines, i))
            && (f.kind.Fatal? <==> IsFatal(steps, language, lines, i))
            && (f.kind.Unreadable? || f.kind.ChunkingFailed? <==> IsFailure(steps, language, lines, i))
            && (!f.kind.Fatal? ==>
                  f.chunks == if IsGood(steps, language, lines, i) then OrElse(steps.chunk(i, DocAt(steps, lines, i)), []) else [])
  {
  }

  /** The lines so far whose fate is of one of these kinds. */
  ghost function Numbers(steps: Steps, language: Option<string>, lines: seq<string>, n: nat, kinds: set<Kind>): set<nat>
    requires n <= |lines|
  {
    set i: nat | i < n && FateOf(steps, language, i, lines[i]).kind in kinds
  }

  lemma {:induction false} OneMoreNumber(numbers: set<nat>, n: nat)
    requires forall i | i in numbers :: i < n
    ensures |numbers + {n}| == |numbers| + 1
  {
    assert n !in numbers;
  }

  lemma {:induction false} NumbersSnoc(steps: Steps, language: Option<string>, lines: seq<string>, n: nat, kinds: set<Kind>)
    requires 0 < n <= |lines|
    ensures |Numbers(steps, language, lines, n, kinds)|
         == |Numbers(steps, language, lines, n - 1, kinds)|
            + if FateOf(steps, language, n - 1, lines[n - 1]).kind in kinds then 1 else 0
  {
    hide FateOf;
    var before, now := Numbers(steps, language, lines, n - 1, kinds), Numbers(steps, language, lines, n, kinds);
    OneMoreNumber(before, n - 1);
    if FateOf(steps, language, n - 1, lines[n - 1]).kind in kinds {
      assert now == before + {n - 1};
    } else {
      assert now == before;
    }
  }

  lemma {:induction false} FatesLength(steps: Steps, language: Option<string>, lines: seq<string>, n: nat)
    requires n <= |lines|
    ensures |Fates(steps, language, lines, n)| == n
    decreases n
  {
    if n > 0 { FatesLength(steps, language, lines, n - 1); }
  }

  lemma {:induction false} CountIsNumber(steps: Steps, language: Option<string>, lines: seq<string>, n: nat, kind: Kind)
    requires n <= |lines|
    ensures Count(Fates(steps, language, lines, n), kind) == |Numbers(steps, language, lines, n, {kind})|
    decreases n
  {
    hide FateOf;
    if n > 0 {
      CountIsNumber(steps, language, lines, n - 1, kind);
      NumbersSnoc(steps, language, lines, n, {kind});
      var before, f := Fates(steps, language, lines, n - 1), FateOf(steps, language, n - 1, lines[n - 1]);
      assert (before + [f])[..|before|] == before;
    }
  }

  /** Counting two kinds together. */
  lemma {:induction false} TwoKinds(
      steps: Steps, language: Option<string>, lines: seq<string>, n: nat, a: Kind, b: Kind)
    requires n <= |lines| && a != b
    ensures |Numbers(steps, language, lines, n, {a, b})|
         == |Numbers(steps, language, lines, n, {a})| + |Numbers(steps, language, lines, n, {b})|
    decreases n
  {
    hide FateOf;
    if n > 0 {
      TwoKinds(steps, language, lines, n - 1, a, b);
      NumbersSnoc(steps, language, lines, n, {a, b});
      NumbersSnoc(steps, language, lines, n, {a});
      NumbersSnoc(steps, language, lines, n, {b});
    }
  }

  /** The lines so far with something on them. */
  ghost function Written(steps: Steps, lines: seq<string>, n: nat): set<nat>
    requires n <= |lines|
  {
    set i: nat | i < n && steps.strip(lines[i]) != ""
  }

  lemma {:induction false} WrittenSnoc(steps: Steps, lines: seq<string>, n: nat)
    requires 0 < n <= |lines|
    ensures |Written(steps, lines, n)| == |Written(steps, lines, n - 1)| + if steps.strip(lines[n - 1]) == "" then 0 else 1
  {
    var before, now := Written(steps, lines, n - 1), Written(steps, lines, n);
    OneMoreNumber(before, n - 1);
    if steps.strip(lines[n - 1]) == "" {
      assert now == before;
    } else {
      assert now == before + {n - 1};
    }
  }

  /** Blank lines and the others make all the lines. */
  lemma {:induction false} BlanksAndOthers(steps: Steps, language: Option<string>, lines: seq<string>, n: nat)
    requires n <= |lines|
    ensures |Numbers(steps, language, lines, n, {Blank})| + |Written(steps, lines, n)| == n
    decreases n
  {
    if n > 0 {
      BlanksAndOthers(steps, language, lines, n - 1);
      NumbersSnoc(steps, language, lines, n, {Blank});
      WrittenSnoc(steps, lines, n);
      FateMeans(steps, language, lines, n - 1);
      hide FateOf;
      hide Numbers;
      hide Written;
    }
  }

  lemma {:induction false} EmittedIsGood(steps: Steps, language: Option<string>, lines: seq<string>, n: nat)
    requires n <= |lines| && Count(Fates(steps, language, lines, n), Fatal) == 0
    ensures Emitted(Fates(steps, language, lines, n)) == ChunksOfGood(steps, language, lines, n)
    decreases n
  {
    if n > 0 {
      FateMeans(steps, language, lines, n - 1);
      hide FateOf;
      hide IsGood;
      var before, f := Fates(steps, language, lines, n - 1), FateOf(steps, language, n - 1, lines[n - 1]);
      assert (before + [f])[..|before|] == before;
      EmittedIsGood(steps, language, lines, n - 1);
    }
  }

  lemma {:induction false} FatalIff(steps: Steps, language: Option<string>, lines: seq<string>)
    ensures Count(Fates(steps, language, lines, |lines|), Fatal) > 0
       <==> exists i: nat :: i < |lines| && IsFatal(steps, language, lines, i)
  {
    CountIsNumber(steps, language, lines, |lines|, Fatal);
    var fatal := Numbers(steps, language, lines, |lines|, {Fatal});
    forall i: nat | i < |lines| ensures i in fatal <==> IsFatal(steps, language, lines, i) { FateMeans(steps, language, lines, i); }
    hide IsFatal;
    if |fatal| > 0 {
      var i :| i in fatal;
      assert IsFatal(steps, language, lines, i);
    } else {
      assert fatal == {};
    }
  }

  lemma {:induction false} NumbersMean(steps: Steps, language: Option<string>, lines: seq<string>)
    ensures Numbers(steps, language, lines, |lines|, {WrongLanguage}) == set i: nat | i < |lines| && IsForeign(steps, language, lines, i)
    ensures Numbers(steps, language, lines, |lines|, {LowQuality}) == set i: nat | i < |lines| && IsPoor(steps, language, lines, i)
    ensures Numbers(steps, language, lines, |lines|, {Unreadable, ChunkingFailed})
         == set i: nat | i < |lines| && IsFailure(steps, language, lines, i)
  {
    forall i: nat | i < |lines|
      ensures FateOf(steps, language, i, lines[i]).kind in {WrongLanguage} <==> IsForeign(steps, language, lines, i)
      ensures FateOf(steps, language, i, lines[i]).kind in {LowQuality} <==> IsPoor(steps, language, lines, i)
      ensures FateOf(steps, language, i, lines[i]).kind in {Unreadable, ChunkingFailed} <==> IsFailure(steps, language, lines, i)
    {
      FateMeans(steps, language, lines, i);
    }
    hide FateOf;
    hide IsForeign;
    hide IsPoor;
    hide IsFailure;
  }

  /** What the counters say of the fates, they say of the lines. */
  lemma {:induction false} CountedTells(steps: Steps, language: Option<string>, lines: seq<string>, stats: Stats)
    requires 1 <= steps.lsh.shingleSize
    requires var fates := Fates(steps, language, lines, |lines|); Counted(steps.lsh, fates, stats) && Count(fates, Fatal) == 0
    ensures Tells(steps, language, lines, stats)
  {
    hide FateOf;
    hide KeptChunks;
    hide IsForeign;
    hide IsPoor;
    hide IsFailure;
    hide Numbers;
    hide Count;
    hide Emitted;
    hide Fates;
    hide ChunksOfGood;
    FatesLength(steps, language, lines, |lines|);
    CountIsNumber(steps, language, lines, |lines|, Blank);
    CountIsNumber(steps, language, lines, |lines|, WrongLanguage);
    CountIsNumber(steps, language, lines, |lines|, LowQuality);
    CountIsNumber(steps, language, lines, |lines|, Unreadable);
    CountIsNumber(steps, language, lines, |lines|, ChunkingFailed);
    TwoKinds(steps, language, lines, |lines|, Unreadable, ChunkingFailed);
    BlanksAndOthers(steps, language, lines, |lines|);
    NumbersMean(steps, language, lines);
    EmittedIsGood(steps, language, lines, |lines|);
  }

  /** Process a source: chunks.jsonl is replaced by the chunks kept, if there are any; a line that is
      JSON but not an object, or metadata that cannot be merged, ends the work with an exception and the
      old file stays. */
  method ProcessSource(steps: Steps, dir: SourceDir, threshold: real, language: Option<string>) returns (r: ProcessResult)
    requires 1 <= steps.lsh.shingleSize
    modifies dir`chunks, dir`chunksTmp
    ensures r.FileNotFound? <==> dir.documents.None?
    ensures r.ValueError? <==> dir.documents.Some? && !(0.0 < threshold <= 1.0)
    ensures r.FileNotFound? || r.ValueError? ==> dir.chunks == old(dir.chunks) && dir.chunksTmp == old(dir.chunksTmp)
    ensures dir.documents.Some? && 0.0 < threshold <= 1.0 ==>
              var lines := dir.documents.value;
              var fates := Fates(steps, language, lines, |lines|);
              && (r.Crashed? <==> Count(fates, Fatal) > 0)
              && (r.Crashed? ==> dir.chunks == old(dir.chunks))
              && (r.Processed? ==>
                    var kept := KeptChunks(steps.lsh, Emitted(fates));
                    && Counted(steps.lsh, fates, r.stats) && dir.chunksTmp.None?
                    && dir.chunks == if kept == [] then old(dir.chunks) else Some(kept))
    ensures dir.documents.Some? && 0.0 < threshold <= 1.0 ==>
              var lines := dir.documents.value;
              && (r.Crashed? <==> exists i: nat :: i < |lines| && IsFatal(steps, language, lines, i))
              && (r.Processed? ==>
                    var kept := KeptChunks(steps.lsh, ChunksOfGood(steps, language, lines, |lines|));
                    && Tells(steps, language, lines, r.stats)
                    && dir.chunks == if kept == [] then old(dir.chunks) else Some(kept))
  {
    hide UpToDate;
    hide Counted;
    hide KeptChunks;
    hide Emitted;
    hide Count;
    hide FateOf;
    hide Tells;
    hide IsFatal;
    if dir.documents.None? { return FileNotFound; }
    if threshold <= 0.0 || threshold > 1.0 { return ValueError; }
    var lines := dir.documents.value;
    FatalIff(steps, language, lines);
    var dedup := new MinHashDedup(steps.lsh);
    var stats, out: seq<Chunk>, i := Stats(0, 0, 0, 0, 0, 0, 0), [], 0;
    ghost var fates: seq<Fate> := [];
    NothingCounted(steps.lsh);
    dir.chunksTmp := Some([]);
    while i < |lines|
      invariant i <= |lines| && fates == Fates(steps, language, lines, i)
      invariant dedup.lsh == steps.lsh && UpToDate(steps.lsh, fates, dedup.index, stats, out)
      invariant dir.chunks == old(dir.chunks) && dir.chunksTmp == Some(out)
      modifies dir`chunksTmp, dedup
    {
      var fine;
      ghost var fate := FateOf(steps, language, i, lines[i]);
      fine, stats, out := ProcessLine(steps, language, i, lines[i], dedup, fates, stats, out);
      if !fine {
        FatalStays(steps, language, lines, i, |lines|);
        return Crashed;
      }
      i, fates := i + 1, fates + [fate];
      dir.chunksTmp := Some(out);
    }
    Unpack(steps.lsh, fates, dedup.index, stats, out);
    CountedTells(steps, language, lines, stats);
    EmittedIsGood(steps, language, lines, |lines|);
    if stats.kept > 0 { dir.chunks := dir.chunksTmp; }
    dir.chunksTmp := None;
    return Processed(stats);
  }

  // ------------------------------------------------------------------------------------------
  // Nothing is lost
  // ------------------------------------------------------------------------------------------

  /** Every line that is not blank falls in exactly one of: filtered by language, filtered by quality,
      failed, chunked; and every chunk emitted was kept, hence written, or dropped. */
  lemma {:induction false} EveryLineCounts(lsh: Lsh, fates: seq<Fate>, stats: Stats)
    requires 1 <= lsh.shingleSize && Counted(lsh, fates, stats) && Count(fates, Fatal) == 0
    ensures stats.docsProcessed == stats.filteredLanguage + stats.filteredQuality + stats.failures + Count(fates, Chunked)
    ensures stats.emitted == stats.kept + stats.dropped
  {
    KindsAddUp(fates);
  }

  lemma {:induction false} KindsAddUp(fates: seq<Fate>)
    ensures |fates| == Count(fates, Blank) + Count(fates, Unreadable) + Count(fates, Fatal) + Count(fates, WrongLanguage)
                       + Count(fates, LowQuality) + Count(fates, ChunkingFailed) + Count(fates, Chunked)
    decreases |fates|
  {
    if fates != [] { KindsAddUp(fates[..|fates| - 1]); }
  }
}

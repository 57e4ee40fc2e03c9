/** Near-duplicate detection (workers/py/narrowmind_workers/cleaning/minhash.py:25-84).

    A sketch is a function of the set of shingles that went into it, so the set stands for the
    sketch; which sketches meet in a bucket of the index is left open. */
module MinHash {
  import opened Options
  import opened Sequences

  type Shingles = set<string>

  datatype Lsh = Lsh(tokenize: string -> seq<string>, collide: (Shingles, Shingles) -> bool, shingleSize: int)

  /** The shingle at place `i`. */
  function ShingleAt(tokens: seq<string>, size: nat, i: nat): string
    requires i + size <= |tokens|
  {
    JoinWithBlanks(tokens[i..i + size])
  }

  /** The shingles of the first `n` places. */
  function ShinglesUpTo(tokens: seq<string>, size: nat, n: nat): Shingles
    requires n + size <= |tokens| + 1
  {
    set i | 0 <= i < n :: ShingleAt(tokens, size, i)
  }

  /** Texts with fewer tokens than a shingle have no fingerprint. */
  function Sketch(lsh: Lsh, text: string): Option<Shingles>
    requires 1 <= lsh.shingleSize
  {
    var tokens := lsh.tokenize(text);
    if |tokens| < lsh.shingleSize then None
    else Some(ShinglesUpTo(tokens, lsh.shingleSize, |tokens| - lsh.shingleSize + 1))
  }

  datatype Entry = Entry(id: string, sketch: Shingles)

  /** The ids in the index whose sketches meet that of the text. */
  function Neighbours(lsh: Lsh, index: seq<Entry>, text: string): seq<string>
    requires 1 <= lsh.shingleSize
  {
    match Sketch(lsh, text)
    case None => []
    case Some(sketch) => FlatMap((e: Entry) => if lsh.collide(sketch, e.sketch) then [e.id] else [], index)
  }

  function Added(lsh: Lsh, index: seq<Entry>, text: string, id: string): seq<Entry>
    requires 1 <= lsh.shingleSize
  {
    match Sketch(lsh, text)
    case None => index
    case Some(sketch) => if exists e :: e in index && e.id == id then index else index + [Entry(id, sketch)]
  }

  class MinHashDedup {
    const lsh: Lsh
    var index: seq<Entry>

    constructor (lsh: Lsh)
      ensures this.lsh == lsh && index == []
    {
      this.lsh := lsh;
      index := [];
    }

    method Fingerprint(text: string) returns (sketch: Option<Shingles>)
      requires 1 <= lsh.shingleSize
      ensures sketch == Sketch(lsh, text)
    {
      var tokens := lsh.tokenize(text);
      if |tokens| < lsh.shingleSize { return None; }
      var hash: Shingles := {};
      for i := 0 to |tokens| - lsh.shingleSize + 1
        invariant hash == ShinglesUpTo(tokens, lsh.shingleSize, i)
      {
        var shingle := JoinWithBlanks(tokens[i..i + lsh.shingleSize]);
        assert shingle == ShingleAt(tokens, lsh.shingleSize, i);
        hash := hash + {shingle};
      }
      return Some(hash);
    }

    method IsDuplicate(text: string) returns (duplicate: bool, neighbours: seq<string>)
      requires 1 <= lsh.shingleSize
      ensures neighbours == Neighbours(lsh, index, text) && (duplicate <==> neighbours != [])
    {
      var sketch := Fingerprint(text);
      if sketch.None? { return false, []; }
      neighbours := FlatMap((e: Entry) => if lsh.collide(sketch.value, e.sketch) then [e.id] else [], index);
      duplicate := neighbours != [];
    }

    method Add(text: string, id: string) returns (added: bool)
      requires 1 <= lsh.shingleSize
      modifies this`index
      ensures index == Added(lsh, old(index), text, id)
      ensures added <==> index != old(index)
    {
      var sketch := Fingerprint(text);
      if sketch.None? { return false; }
      if exists e :: e in index && e.id == id { return false; }
      index := index + [Entry(id, sketch.value)];
      return true;
    }

    method AddUnlessDuplicate(text: string, id: string) returns (duplicate: bool, neighbours: seq<string>)
      requires 1 <= lsh.shingleSize
      modifies this`index
      ensures neighbours == Neighbours(lsh, old(index), text) && (duplicate <==> neighbours != [])
      ensures index == if duplicate then old(index) else Added(lsh, old(index), text, id)
    {
      duplicate, neighbours := IsDuplicate(text);
      if !duplicate { var added := Add(text, id); }
    }
  }

  // ------------------------------------------------------------------------------------------
  // A list of chunks, one after the other
  // ------------------------------------------------------------------------------------------

  datatype Chunk = Chunk(id: string, text: string)

  /** The index after the chunks went through. */
  function Index(lsh: Lsh, chunks: seq<Chunk>): seq<Entry>
    requires 1 <= lsh.shingleSize
    decreases |chunks|
  {
    if chunks == [] then []
    else
      var n := |chunks| - 1;
      var before := Index(lsh, chunks[..n]);
      if Neighbours(lsh, before, chunks[n].text) != [] then before else Added(lsh, before, chunks[n].text, chunks[n].id)
  }

  /** The chunk at place `i` is kept. */
  predicate Kept(lsh: Lsh, chunks: seq<Chunk>, i: nat)
    requires 1 <= lsh.shingleSize && i < |chunks|
  {
    Neighbours(lsh, Index(lsh, chunks[..i]), chunks[i].text) == []
  }

  function KeptChunks(lsh: Lsh, chunks: seq<Chunk>): seq<Chunk>
    requires 1 <= lsh.shingleSize
    decreases |chunks|
  {
    if chunks == [] then []
    else
      var n := |chunks| - 1;
      KeptChunks(lsh, chunks[..n]) + if Kept(lsh, chunks, n) then [chunks[n]] else []
  }

  /** The text of chunk `i` meets that of chunk `j`. */
  predicate Meets(lsh: Lsh, chunks: seq<Chunk>, i: nat, j: nat)
    requires 1 <= lsh.shingleSize && i < |chunks| && j < |chunks|
  {
    && Sketch(lsh, chunks[i].text).Some? && Sketch(lsh, chunks[j].text).Some?
    && lsh.collide(Sketch(lsh, chunks[i].text).value, Sketch(lsh, chunks[j].text).value)
  }

  /** The shingle is the run of `k` tokens from place `i` on, joined by blanks. */
  ghost predicate IsRun(tokens: seq<string>, k: nat, i: nat, shingle: string) {
    i + k <= |tokens| && shingle == JoinWithBlanks(tokens[i..i + k])
  }

  /** A text with enough tokens is sketched by exactly its shingles, every run of so many tokens. */
  lemma {:induction false} SketchIsItsShingles(lsh: Lsh, text: string, shingle: string)
    requires 1 <= lsh.shingleSize
    ensures var tokens, k := lsh.tokenize(text), lsh.shingleSize;
            if |tokens| < k then Sketch(lsh, text).None?
            else Sketch(lsh, text).Some?
                 && (shingle in Sketch(lsh, text).value <==>
                     exists i: nat :: IsRun(tokens, k, i, shingle))
  {
    var tokens, k := lsh.tokenize(text), lsh.shingleSize;
    if |tokens| >= k {
      var sketch := Sketch(lsh, text).value;
      if i: nat :| IsRun(tokens, k, i, shingle) {
        assert ShingleAt(tokens, k, i) in sketch;
      }
      if shingle in sketch {
        var i :| 0 <= i < |tokens| - k + 1 && shingle == ShingleAt(tokens, k, i);
        assert IsRun(tokens, k, i, shingle);
      }
    }
  }

  /** The ids reported are those of the entries whose sketches meet that of the text. */
  lemma {:induction false} NeighboursAreThoseMet(lsh: Lsh, index: seq<Entry>, text: string, id: string)
    requires 1 <= lsh.shingleSize
    ensures id in Neighbours(lsh, index, text) <==>
              Sketch(lsh, text).Some?
              && exists i :: 0 <= i < |index| && index[i].id == id && lsh.collide(Sketch(lsh, text).value, index[i].sketch)
  {
    if Sketch(lsh, text).Some? {
      InFlatMap((e: Entry) => if lsh.collide(Sketch(lsh, text).value, e.sketch) then [e.id] else [], index, id);
    }
  }

  // ------------------------------------------------------------------------------------------
  // What is kept
  // ------------------------------------------------------------------------------------------

  lemma {:induction false} NeighboursMeet(lsh: Lsh, index: seq<Entry>, text: string)
    requires 1 <= lsh.shingleSize
    ensures Neighbours(lsh, index, text) != [] <==>
              Sketch(lsh, text).Some? && exists e :: e in index && lsh.collide(Sketch(lsh, text).value, e.sketch)
    decreases |index|
  {
    if Sketch(lsh, text).Some? && index != [] {
      var n := |index| - 1;
      var f := (e: Entry) => if lsh.collide(Sketch(lsh, text).value, e.sketch) then [e.id] else [];
      assert index == index[..n] + [index[n]];
      FlatMapConcat(f, index[..n], [index[n]]);
      FlatMapOne(f, index[n]);
      NeighboursMeet(lsh, index[..n], text);
    }
  }

  /** Chunk `h` is kept, has a fingerprint and carries `id`. */
  ghost predicate Claims(lsh: Lsh, chunks: seq<Chunk>, h: nat, id: string)
    requires 1 <= lsh.shingleSize && h < |chunks|
  {
    Kept(lsh, chunks, h) && Sketch(lsh, chunks[h].text).Some? && chunks[h].id == id
  }

  lemma {:induction false} SameInPrefix(lsh: Lsh, chunks: seq<Chunk>, n: nat, j: nat)
    requires 1 <= lsh.shingleSize && j < n <= |chunks|
    ensures Kept(lsh, chunks[..n], j) <==> Kept(lsh, chunks, j)
    ensures forall id :: Claims(lsh, chunks[..n], j, id) <==> Claims(lsh, chunks, j, id)
  {
    assert chunks[..n][..j] == chunks[..j];
  }

  ghost predicate Holds(index: seq<Entry>, id: string) {
    exists e :: e in index && e.id == id
  }

  lemma {:induction false} LastClaims(lsh: Lsh, chunks: seq<Chunk>, id: string)
    requires 1 <= lsh.shingleSize && chunks != []
    ensures var n := |chunks| - 1;
            Holds(Index(lsh, chunks), id) <==> Holds(Index(lsh, chunks[..n]), id) || Claims(lsh, chunks, n, id)
  {
    hide Neighbours;
    var n := |chunks| - 1;
    var before, after := Index(lsh, chunks[..n]), Index(lsh, chunks);
    if Holds(before, id) {
      var e :| e in before && e.id == id;
      assert e in after;
    }
    if Claims(lsh, chunks, n, id) && !Holds(before, id) {
      assert after[|before|].id == id;
    }
  }

  /** Some chunk of the list is kept, has a fingerprint and carries `id`. */
  ghost predicate Claimed(lsh: Lsh, chunks: seq<Chunk>, id: string)
    requires 1 <= lsh.shingleSize
  {
    exists h | 0 <= h < |chunks| :: Claims(lsh, chunks, h, id)
  }

  /** An earlier chunk that was kept and has a fingerprint has the id of chunk `j`. */
  ghost predicate Hidden(lsh: Lsh, chunks: seq<Chunk>, j: nat)
    requires 1 <= lsh.shingleSize && j < |chunks|
  {
    Claimed(lsh, chunks[..j], chunks[j].id)
  }

  lemma {:induction false} ClaimedInPrefix(lsh: Lsh, chunks: seq<Chunk>, n: nat, id: string)
    requires 1 <= lsh.shingleSize && n <= |chunks|
    ensures Claimed(lsh, chunks[..n], id) <==> exists h | 0 <= h < n :: Claims(lsh, chunks, h, id)
  {
    hide Claims;
    forall h | 0 <= h < n ensures Claims(lsh, chunks[..n], h, id) <==> Claims(lsh, chunks, h, id) {
      SameInPrefix(lsh, chunks, n, h);
    }
  }

  lemma {:induction false} ClaimedBeforeOrLast(lsh: Lsh, chunks: seq<Chunk>, id: string)
    requires 1 <= lsh.shingleSize && chunks != []
    ensures var n := |chunks| - 1;
            Claimed(lsh, chunks, id) <==> Claimed(lsh, chunks[..n], id) || Claims(lsh, chunks, n, id)
  {
    hide Claims;
    ClaimedInPrefix(lsh, chunks, |chunks| - 1, id);
  }

  /** An id is in the index exactly when some kept chunk with a fingerprint carries it. */
  lemma {:induction false} IdIsHeldIffClaimed(lsh: Lsh, chunks: seq<Chunk>, id: string)
    requires 1 <= lsh.shingleSize
    ensures Holds(Index(lsh, chunks), id) <==> Claimed(lsh, chunks, id)
    decreases |chunks|
  {
    if chunks != [] {
      hide Index;
      hide Claimed;
      hide Claims;
      hide Holds;
      IdIsHeldIffClaimed(lsh, chunks[..|chunks| - 1], id);
      ClaimedBeforeOrLast(lsh, chunks, id);
      LastClaims(lsh, chunks, id);
    }
  }

  /** Every entry of the index is a kept chunk that is not hidden. */
  lemma {:induction false} EntryIsKept(lsh: Lsh, chunks: seq<Chunk>, e: Entry) returns (j: nat)
    requires 1 <= lsh.shingleSize && e in Index(lsh, chunks)
    ensures j < |chunks| && Kept(lsh, chunks, j) && !Hidden(lsh, chunks, j)
    ensures chunks[j].id == e.id && Sketch(lsh, chunks[j].text) == Some(e.sketch)
    decreases |chunks|
  {
    var n := |chunks| - 1;
    if e in Index(lsh, chunks[..n]) {
      j := EntryIsKept(lsh, chunks[..n], e);
      assert chunks[..n][..j] == chunks[..j];
    } else {
      j := n;
      IdIsHeldIffClaimed(lsh, chunks[..n], e.id);
    }
  }

  ghost predicate DistinctIds(chunks: seq<Chunk>) {
    forall i, j | 0 <= i < j < |chunks| :: chunks[i].id != chunks[j].id
  }

  lemma {:induction false} EntryStays(lsh: Lsh, chunks: seq<Chunk>, e: Entry)
    requires 1 <= lsh.shingleSize && chunks != [] && e in Index(lsh, chunks[..|chunks| - 1])
    ensures e in Index(lsh, chunks)
  {
    hide Neighbours;
  }

  lemma {:induction false} IndexGrows(lsh: Lsh, before: seq<Chunk>, more: seq<Chunk>, e: Entry)
    requires 1 <= lsh.shingleSize && e in Index(lsh, before)
    ensures e in Index(lsh, before + more)
    decreases |more|
  {
    hide Index;
    if more == [] {
      assert before + more == before;
    } else {
      assert (before + more)[..|before + more| - 1] == before + more[..|more| - 1];
      IndexGrows(lsh, before, more[..|more| - 1], e);
      EntryStays(lsh, before + more, e);
    }
  }

  /** Every kept chunk that has a fingerprint and is not hidden is in the index. */
  lemma {:induction false} KeptIsEntry(lsh: Lsh, chunks: seq<Chunk>, i: nat)
    requires 1 <= lsh.shingleSize && i < |chunks| && !Hidden(lsh, chunks, i)
    requires Kept(lsh, chunks, i) && Sketch(lsh, chunks[i].text).Some?
    ensures Entry(chunks[i].id, Sketch(lsh, chunks[i].text).value) in Index(lsh, chunks[..i + 1])
  {
    hide Neighbours;
    assert chunks[..i + 1][..i] == chunks[..i];
    IdIsHeldIffClaimed(lsh, chunks[..i], chunks[i].id);
  }

  /** A chunk is dropped only if it meets an earlier chunk that was kept and is not hidden. */
  lemma {:induction false} DroppedMeetsKept(lsh: Lsh, chunks: seq<Chunk>, i: nat) returns (j: nat)
    requires 1 <= lsh.shingleSize && i < |chunks| && !Kept(lsh, chunks, i)
    ensures j < i && Kept(lsh, chunks, j) && !Hidden(lsh, chunks, j) && Meets(lsh, chunks, i, j)
  {
    NeighboursMeet(lsh, Index(lsh, chunks[..i]), chunks[i].text);
    var e :| e in Index(lsh, chunks[..i]) && lsh.collide(Sketch(lsh, chunks[i].text).value, e.sketch);
    j := EntryIsKept(lsh, chunks[..i], e);
    assert chunks[..i][..j] == chunks[..j];
  }

  lemma {:induction false} MeetsIndexed(lsh: Lsh, chunks: seq<Chunk>, i: nat, j: nat)
    requires 1 <= lsh.shingleSize && j < i < |chunks|
    requires Kept(lsh, chunks, j) && !Hidden(lsh, chunks, j) && Meets(lsh, chunks, i, j)
    ensures !Kept(lsh, chunks, i)
  {
    hide Index;
    hide Hidden;
    KeptIsEntry(lsh, chunks, j);
    assert chunks[..i] == chunks[..j + 1] + chunks[j + 1..i];
    IndexGrows(lsh, chunks[..j + 1], chunks[j + 1..i], Entry(chunks[j].id, Sketch(lsh, chunks[j].text).value));
    NeighboursMeet(lsh, Index(lsh, chunks[..i]), chunks[i].text);
  }

  /** A chunk is kept exactly when it meets no earlier chunk that was kept and is not hidden behind a
      chunk with the same id. */
  lemma {:induction false} KeptIffMeetsNoneShown(lsh: Lsh, chunks: seq<Chunk>, i: nat)
    requires 1 <= lsh.shingleSize && i < |chunks|
    ensures Kept(lsh, chunks, i) <==>
              forall j | 0 <= j < i && Kept(lsh, chunks, j) && !Hidden(lsh, chunks, j) :: !Meets(lsh, chunks, i, j)
  {
    if Kept(lsh, chunks, i) {
      forall j | 0 <= j < i && Kept(lsh, chunks, j) && !Hidden(lsh, chunks, j) ensures !Meets(lsh, chunks, i, j) {
        if Meets(lsh, chunks, i, j) { MeetsIndexed(lsh, chunks, i, j); }
      }
    } else {
      var j := DroppedMeetsKept(lsh, chunks, i);
    }
  }

  lemma {:induction false} DistinctIdsHideNothing(lsh: Lsh, chunks: seq<Chunk>, j: nat)
    requires 1 <= lsh.shingleSize && DistinctIds(chunks) && j < |chunks|
    ensures !Hidden(lsh, chunks, j)
  {
  }

  /** With distinct ids a chunk is kept exactly when it meets no earlier chunk that was kept. */
  lemma {:induction false} KeptIffMeetsNoneKept(lsh: Lsh, chunks: seq<Chunk>, i: nat)
    requires 1 <= lsh.shingleSize && DistinctIds(chunks) && i < |chunks|
    ensures Kept(lsh, chunks, i) <==> forall j | 0 <= j < i && Kept(lsh, chunks, j) :: !Meets(lsh, chunks, i, j)
  {
    KeptIffMeetsNoneShown(lsh, chunks, i);
    forall j | 0 <= j < i ensures !Hidden(lsh, chunks, j) { DistinctIdsHideNothing(lsh, chunks, j); }
  }

  /** Two chunks with the same shingles are both kept only if the first is hidden, given that a sketch
      meets itself. */
  lemma {:induction false} SameShinglesKeptOnce(lsh: Lsh, chunks: seq<Chunk>, i: nat, j: nat)
    requires 1 <= lsh.shingleSize && j < i < |chunks|
    requires Sketch(lsh, chunks[i].text).Some? && Sketch(lsh, chunks[i].text) == Sketch(lsh, chunks[j].text)
    requires var s := Sketch(lsh, chunks[i].text).value; lsh.collide(s, s)
    ensures Kept(lsh, chunks, i) && Kept(lsh, chunks, j) ==> Hidden(lsh, chunks, j)
  {
    KeptIffMeetsNoneShown(lsh, chunks, i);
    assert Meets(lsh, chunks, i, j);
  }

  /** Texts too short for a fingerprint are always kept. */
  lemma {:induction false} ShortIsKept(lsh: Lsh, chunks: seq<Chunk>, i: nat)
    requires 1 <= lsh.shingleSize && i < |chunks| && |lsh.tokenize(chunks[i].text)| < lsh.shingleSize
    ensures Kept(lsh, chunks, i)
  {
  }

  /** Distinct ids are needed: a second chunk with the id of the first never enters the index, so a
      third that meets it is kept as well. */
  lemma {:induction false} SameIdHidesChunk(lsh: Lsh, a: Chunk, b: Chunk, c: Chunk)
    requires 1 <= lsh.shingleSize && a.id == b.id
    requires Sketch(lsh, a.text).Some? && !Meets(lsh, [a, b, c], 1, 0) && !Meets(lsh, [a, b, c], 2, 0)
    requires Meets(lsh, [a, b, c], 2, 1)
    ensures forall i: nat | i < 3 :: Kept(lsh, [a, b, c], i)
  {
    var chunks := [a, b, c];
    var first := Entry(a.id, Sketch(lsh, a.text).value);
    assert chunks[..0] == [] && chunks[..1] == [a] && chunks[..2] == [a, b] && [a][..0] == [] && [a, b][..1] == [a];
    assert Index(lsh, [a]) == [first];
    NeighboursMeet(lsh, [first], b.text);
    NeighboursMeet(lsh, [first], c.text);
    assert Index(lsh, [a, b]) == [first];
  }
}

/** Reciprocal rank fusion (workers/py/narrowmind_workers/rag/index.py:217-283), over exact reals. */
module RankFusion {
  import opened Options

  /** A row of a ranking: its columns, all taken as text. */
  type Row = map<string, string>

  /** A row's chunk id; a missing or empty one counts as none. */
  function IdOf(row: Row): Option<string> {
    if "chunk_id" in row && row["chunk_id"] != "" then Some(row["chunk_id"]) else None
  }

  /** The columns that are passed through. */
  function Visible(row: Row): Row {
    map key | key in row && !("_" <= key) :: row[key]
  }

  /** A row where it stands: in which ranking, at which rank (counted from 1). */
  datatype Hit = Hit(source: nat, rank: nat, row: Row)

  function Hits(source: nat, ranking: seq<Row>): seq<Hit> {
    seq(|ranking|, i requires 0 <= i < |ranking| => Hit(source, i + 1, ranking[i]))
  }

  /** All rows of the first `m` rankings, ranking by ranking. */
  function AllHits(rankings: seq<seq<Row>>, m: nat): seq<Hit>
    requires m <= |rankings|
  {
    if m == 0 then [] else AllHits(rankings, m - 1) + Hits(m - 1, rankings[m - 1])
  }

  predicate Is(hit: Hit, id: string) {
    IdOf(hit.row) == Some(id)
  }

  /** Reciprocal rank; a rank whose reciprocal does not exist counts nothing here. */
  function Reciprocal(rrfK: int, rank: nat): real {
    if rrfK + rank == 0 then 0.0 else 1.0 / (rrfK + rank) as real
  }

  /** The formula: the sum of 1/(rrf_k + rank) over all places where `id` occurs. */
  function Score(hits: seq<Hit>, rrfK: int, id: string): real
    decreases |hits|
  {
    if hits == [] then 0.0
    else
      var last := hits[|hits| - 1];
      Score(hits[..|hits| - 1], rrfK, id) + if Is(last, id) then Reciprocal(rrfK, last.rank) else 0.0
  }

  /** The rankings in which `id` occurs, once for each occurrence. */
  function Sources(hits: seq<Hit>, id: string): seq<nat>
    decreases |hits|
  {
    if hits == [] then []
    else
      var last := hits[|hits| - 1];
      Sources(hits[..|hits| - 1], id) + if Is(last, id) then [last.source] else []
  }

  /** The ids in the order in which they are first seen. */
  function Ids(hits: seq<Hit>): seq<string>
    decreases |hits|
  {
    if hits == [] then []
    else
      var ids := Ids(hits[..|hits| - 1]);
      var id := IdOf(hits[|hits| - 1].row);
      if id.None? || id.value in ids then ids else ids + [id.value]
  }

  /** `hits[i]` is the first place where `id` occurs. */
  ghost predicate FirstAt(hits: seq<Hit>, id: string, i: nat) {
    i < |hits| && Is(hits[i], id) && forall j | 0 <= j < i :: !Is(hits[j], id)
  }

  /** Some row that counts stands where the reciprocal does not exist. */
  ghost predicate DividesByZero(hits: seq<Hit>, rrfK: int) {
    exists i | 0 <= i < |hits| :: IdOf(hits[i].row).Some? && rrfK + hits[i].rank == 0
  }

  // ------------------------------------------------------------------------------------------
  // The stable descending sort
  // ------------------------------------------------------------------------------------------

  function Insert(sorted: seq<string>, score: map<string, real>, id: string): seq<string>
    requires id in score && forall s | s in sorted :: s in score
    decreases |sorted|
  {
    if sorted == [] then [id]
    else
      var n := |sorted| - 1;
      if score[sorted[n]] >= score[id] then sorted + [id] else Insert(sorted[..n], score, id) + [sorted[n]]
  }

  lemma {:induction false} InsertIsPermutation(sorted: seq<string>, score: map<string, real>, id: string)
    requires id in score && forall s | s in sorted :: s in score
    ensures multiset(Insert(sorted, score, id)) == multiset(sorted) + multiset{id}
    decreases |sorted|
  {
    if sorted != [] && score[sorted[|sorted| - 1]] < score[id] {
      var n := |sorted| - 1;
      InsertIsPermutation(sorted[..n], score, id);
      assert sorted == sorted[..n] + [sorted[n]];
    }
  }

  /** Equal scores keep the order they come in. */
  function SortDescending(ids: seq<string>, score: map<string, real>): (sorted: seq<string>)
    requires forall id | id in ids :: id in score
    ensures multiset(sorted) == multiset(ids)
    decreases |ids|
  {
    if ids == [] then []
    else
      var n := |ids| - 1;
      assert ids == ids[..n] + [ids[n]];
      var before := SortDescending(ids[..n], score);
      assert forall s | s in before :: s in multiset(ids[..n]);
      InsertIsPermutation(before, score, ids[n]);
      Insert(before, score, ids[n])
  }

  // ------------------------------------------------------------------------------------------
  // The code
  // ------------------------------------------------------------------------------------------

  datatype Fused = Fused(id: string, payload: Row, score: real, sources: seq<nat>)

  datatype FuseResult = FusedRows(rows: seq<Fused>) | ZeroDivisionError

  /** The dictionaries after the rows `hits`: `order` is the order of insertion. */
  ghost predicate Filled(
      hits: seq<Hit>, rrfK: int,
      order: seq<string>, fused: map<string, Row>, scores: map<string, real>, sources: map<string, seq<nat>>)
  {
    && order == Ids(hits)
    && (forall id :: id in scores <==> id in order) && (forall id :: id in sources <==> id in order)
    && (forall id :: id in fused <==> id in order)
    && (forall id | id in order :: Tallied(hits, rrfK, id, fused[id], scores[id], sources[id]))
  }

  ghost predicate Tallied(hits: seq<Hit>, rrfK: int, id: string, payload: Row, score: real, sources: seq<nat>) {
    score == Score(hits, rrfK, id) && sources == Sources(hits, id) && FirstPayload(hits, id, payload)
  }

  ghost predicate FirstPayload(hits: seq<Hit>, id: string, payload: Row) {
    exists i: nat :: FirstAt(hits, id, i) && payload == Visible(hits[i].row)
  }

  lemma {:induction false} AbsentCountsNothing(hits: seq<Hit>, rrfK: int, id: string)
    requires id !in Ids(hits)
    ensures Score(hits, rrfK, id) == 0.0 && Sources(hits, id) == []
    ensures forall i | 0 <= i < |hits| :: !Is(hits[i], id)
    decreases |hits|
  {
    if hits != [] { AbsentCountsNothing(hits[..|hits| - 1], rrfK, id); }
  }

  lemma {:induction false} PayloadStays(hits: seq<Hit>, hit: Hit, id: string, payload: Row)
    requires FirstPayload(hits, id, payload)
    ensures FirstPayload(hits + [hit], id, payload)
  {
    var i: nat :| FirstAt(hits, id, i) && payload == Visible(hits[i].row);
    assert FirstAt(hits + [hit], id, i);
  }

  lemma {:induction false} TallyGrows(
      hits: seq<Hit>, hit: Hit, rrfK: int, id: string, payload: Row, score: real, sources: seq<nat>)
    requires Tallied(hits, rrfK, id, payload, score, sources)
    ensures if Is(hit, id)
            then Tallied(hits + [hit], rrfK, id, payload, score + Reciprocal(rrfK, hit.rank), sources + [hit.source])
            else Tallied(hits + [hit], rrfK, id, payload, score, sources)
  {
    assert (hits + [hit])[..|hits|] == hits;
    PayloadStays(hits, hit, id, payload);
    if !Is(hit, id) {
      assert sources + [] == sources;
    }
  }

  lemma {:induction false} TallyStarts(hits: seq<Hit>, hit: Hit, rrfK: int, id: string)
    requires id !in Ids(hits) && Is(hit, id)
    ensures Tallied(hits + [hit], rrfK, id, Visible(hit.row), 0.0 + Reciprocal(rrfK, hit.rank), [] + [hit.source])
  {
    assert (hits + [hit])[..|hits|] == hits;
    AbsentCountsNothing(hits, rrfK, id);
    assert FirstAt(hits + [hit], id, |hits|);
  }

  lemma {:induction false} IdsGrow(hits: seq<Hit>, hit: Hit)
    ensures Ids(hits + [hit]) == if IdOf(hit.row).None? || IdOf(hit.row).value in Ids(hits) then Ids(hits)
                                 else Ids(hits) + [IdOf(hit.row).value]
  {
    assert (hits + [hit])[..|hits|] == hits;
  }

  /** A row without an id changes nothing. */
  lemma {:induction false} IdlessHit(
      hits: seq<Hit>, hit: Hit, rrfK: int,
      order: seq<string>, fused: map<string, Row>, scores: map<string, real>, sources: map<string, seq<nat>>)
    requires Filled(hits, rrfK, order, fused, scores, sources) && IdOf(hit.row).None?
    ensures Filled(hits + [hit], rrfK, order, fused, scores, sources)
  {
    hide Tallied;
    IdsGrow(hits, hit);
    forall id | id in order ensures Tallied(hits + [hit], rrfK, id, fused[id], scores[id], sources[id]) {
      TallyGrows(hits, hit, rrfK, id, fused[id], scores[id], sources[id]);
    }
  }

  /** One more occurrence of `id`. */
  lemma {:induction false} OneMoreHit(
      hits: seq<Hit>, hit: Hit, rrfK: int, id: string,
      order: seq<string>, fused: map<string, Row>, scores: map<string, real>, sources: map<string, seq<nat>>)
    requires Filled(hits, rrfK, order, fused, scores, sources) && IdOf(hit.row) == Some(id)
    ensures Filled(hits + [hit], rrfK,
                   if id in scores then order else order + [id],
                   if id in fused then fused else fused[id := Visible(hit.row)],
                   scores[id := (if id in scores then scores[id] else 0.0) + Reciprocal(rrfK, hit.rank)],
                   sources[id := (if id in sources then sources[id] else []) + [hit.source]])
  {
    hide Tallied;
    hide Ids;
    hide Visible;
    hide Reciprocal;
    IdsGrow(hits, hit);
    forall other | other in order
      ensures if other == id
              then Tallied(hits + [hit], rrfK, id, fused[id], scores[id] + Reciprocal(rrfK, hit.rank), sources[id] + [hit.source])
              else Tallied(hits + [hit], rrfK, other, fused[other], scores[other], sources[other])
    {
      TallyGrows(hits, hit, rrfK, other, fused[other], scores[other], sources[other]);
    }
    if id !in order { TallyStarts(hits, hit, rrfK, id); }
  }

  /** One output row: what was tallied for `id`. */
  ghost predicate RowOk(hits: seq<Hit>, rrfK: int, row: Fused) {
    Tallied(hits, rrfK, row.id, row.payload, row.score, row.sources)
  }

  /** The formula for every id there is. */
  ghost function Scores(hits: seq<Hit>, rrfK: int): map<string, real> {
    map id | id in Ids(hits) :: Score(hits, rrfK, id)
  }

  /** The best `topK` ids in the stable descending order of their scores, each with what was tallied. */
  ghost predicate Output(hits: seq<Hit>, rrfK: int, topK: nat, rows: seq<Fused>) {
    var sorted := SortDescending(Ids(hits), Scores(hits, rrfK));
    && |rows| == (if topK < |sorted| then topK else |sorted|)
    && (forall i | 0 <= i < |rows| :: rows[i].id == sorted[i] && RowOk(hits, rrfK, rows[i]))
  }

  lemma {:induction false} ScoresFilled(
      hits: seq<Hit>, rrfK: int,
      order: seq<string>, fused: map<string, Row>, scores: map<string, real>, sources: map<string, seq<nat>>)
    requires Filled(hits, rrfK, order, fused, scores, sources)
    ensures scores == Scores(hits, rrfK)
  {
    forall id | id in order ensures scores[id] == Score(hits, rrfK, id) {
      assert Tallied(hits, rrfK, id, fused[id], scores[id], sources[id]);
    }
  }

  /** What was gone through is the beginning of all. */
  lemma {:induction false} BeginningOfAll(rankings: seq<seq<Row>>, m: nat, n: nat)
    requires m < |rankings| && n <= |rankings[m]|
    ensures AllHits(rankings, m) + Hits(m, rankings[m])[..n] <= AllHits(rankings, |rankings|)
    decreases |rankings| - m
  {
    if m + 1 < |rankings| { BeginningOfAll(rankings, m + 1, 0); }
  }

  lemma {:induction false} RowIsTallied(
      hits: seq<Hit>, rrfK: int, id: string,
      order: seq<string>, fused: map<string, Row>, scores: map<string, real>, sources: map<string, seq<nat>>)
    requires Filled(hits, rrfK, order, fused, scores, sources) && id in order
    ensures id in fused && id in scores && id in sources
    ensures RowOk(hits, rrfK, Fused(id, fused[id], scores[id], sources[id]))
  {
  }

  lemma {:induction false} FilledOrder(
      hits: seq<Hit>, rrfK: int,
      order: seq<string>, fused: map<string, Row>, scores: map<string, real>, sources: map<string, seq<nat>>)
    requires Filled(hits, rrfK, order, fused, scores, sources)
    ensures order == Ids(hits) && forall id | id in order :: id in scores
  {
  }

  /** Sort, cut and put the rows together. */
  method TakeBest(
      ghost hits: seq<Hit>, rrfK: int, topK: nat,
      order: seq<string>, fused: map<string, Row>, scores: map<string, real>, sources: map<string, seq<nat>>)
      returns (out: seq<Fused>)
    requires Filled(hits, rrfK, order, fused, scores, sources)
    ensures Output(hits, rrfK, topK, out)
  {
    hide Filled;
    hide RowOk;
    hide Ids;
    hide Insert;
    FilledOrder(hits, rrfK, order, fused, scores, sources);
    ScoresFilled(hits, rrfK, order, fused, scores, sources);
    var sorted := SortDescending(order, scores);
    var ordered := if topK < |sorted| then sorted[..topK] else sorted;
    out := [];
    var i := 0;
    while i < |ordered|
      invariant i <= |ordered| && |out| == i
      invariant forall j | 0 <= j < i :: out[j].id == ordered[j] && RowOk(hits, rrfK, out[j])
    {
      var cid := ordered[i];
      assert cid in multiset(sorted) && cid in multiset(order);
      RowIsTallied(hits, rrfK, cid, order, fused, scores, sources);
      out := out + [Fused(cid, fused[cid], scores[cid], sources[cid])];
      i := i + 1;
    }
  }

  /** The formula is followed for all rows, unless some denominator is zero. */
  method RrfFuse(rankings: seq<seq<Row>>, topK: int, rrfK: int) returns (r: FuseResult)
    ensures topK <= 0 ==> r == FusedRows([])
    ensures 0 < topK ==> (r.ZeroDivisionError? <==> DividesByZero(AllHits(rankings, |rankings|), rrfK))
    ensures 0 < topK && r.FusedRows? ==> Output(AllHits(rankings, |rankings|), rrfK, topK, r.rows)
  {
    hide Filled;
    if topK <= 0 { return FusedRows([]); }
    var order: seq<string>, fused: map<string, Row>, scores: map<string, real>, sources: map<string, seq<nat>> :=
      [], map[], map[], map[];
    ghost var hits := [];
    StartIsFilled(rrfK);
    var m := 0;
    while m < |rankings|
      invariant m <= |rankings| && hits == AllHits(rankings, m)
      invariant Filled(hits, rrfK, order, fused, scores, sources) && !DividesByZero(hits, rrfK)
    {
      var ranking, n := rankings[m], 0;
      while n < |ranking|
        invariant n <= |ranking| && hits == AllHits(rankings, m) + Hits(m, ranking)[..n]
        invariant Filled(hits, rrfK, order, fused, scores, sources) && !DividesByZero(hits, rrfK)
      {
        var row := ranking[n];
        n := n + 1;
        ghost var hit := Hit(m, n, row);
        BeginningOfAll(rankings, m, n);
        assert hits + [hit] == AllHits(rankings, m) + Hits(m, ranking)[..n];
        var cid := IdOf(row);
        if cid.None? {
          IdlessHit(hits, hit, rrfK, order, fused, scores, sources);
        } else {
          if rrfK + n == 0 {
            assert AllHits(rankings, |rankings|)[|hits|] == hit;
            return ZeroDivisionError;
          }
          var id := cid.value;
          OneMoreHit(hits, hit, rrfK, id, order, fused, scores, sources);
          if id !in scores { order := order + [id]; }
          scores := scores[id := (if id in scores then scores[id] else 0.0) + 1.0 / (rrfK + n) as real];
          sources := sources[id := (if id in sources then sources[id] else []) + [m]];
          if id !in fused { fused := fused[id := Visible(row)]; }
        }
        hits := hits + [hit];
      }
      m := m + 1;
    }
    var rows := TakeBest(hits, rrfK, topK, order, fused, scores, sources);
    return FusedRows(rows);
  }

  lemma {:induction false} StartIsFilled(rrfK: int)
    ensures Filled([], rrfK, [], map[], map[], map[])
  {
  }
}

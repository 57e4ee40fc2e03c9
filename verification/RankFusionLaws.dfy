/** What fusion returns: the best ids, ties in the order of first sight; better-ranked rows first;
    one ranking alone unchanged (workers/py/narrowmind_workers/rag/index.py:217-283). */
module RankFusionLaws {
  import opened Options
  import opened Sequences
  import opened RankFusion

  // ------------------------------------------------------------------------------------------
  // Order of first sight
  // ------------------------------------------------------------------------------------------

  ghost predicate SeenBefore(hits: seq<Hit>, a: string, b: string) {
    exists i: nat, j: nat :: FirstAt(hits, a, i) && FirstAt(hits, b, j) && i < j
  }

  lemma {:induction false} FirstStays(hits: seq<Hit>, hit: Hit, id: string, i: nat)
    requires FirstAt(hits, id, i)
    ensures FirstAt(hits + [hit], id, i)
  {
  }

  lemma {:induction false} SeenBeforeStays(hits: seq<Hit>, hit: Hit, a: string, b: string)
    requires SeenBefore(hits, a, b)
    ensures SeenBefore(hits + [hit], a, b)
  {
    var i: nat, j: nat :| FirstAt(hits, a, i) && FirstAt(hits, b, j) && i < j;
    FirstStays(hits, hit, a, i);
    FirstStays(hits, hit, b, j);
  }

  lemma {:induction false} FirstPlace(hits: seq<Hit>, id: string) returns (i: nat)
    requires id in Ids(hits)
    ensures FirstAt(hits, id, i)
    decreases |hits|
  {
    var n := |hits| - 1;
    assert hits == hits[..n] + [hits[n]];
    if id in Ids(hits[..n]) {
      i := FirstPlace(hits[..n], id);
      FirstStays(hits[..n], hits[n], id, i);
    } else {
      AbsentCountsNothing(hits[..n], 0, id);
      i := n;
    }
  }

  /** The ids are exactly those that occur. */
  lemma {:induction false} IdsAreThoseThatOccur(hits: seq<Hit>, id: string)
    ensures id in Ids(hits) <==> exists i :: 0 <= i < |hits| && Is(hits[i], id)
  {
    if id in Ids(hits) {
      var i := FirstPlace(hits, id);
      assert Is(hits[i], id);
    } else {
      AbsentCountsNothing(hits, 0, id);
    }
  }

  /** The ids stand in the order of first sight; so they are distinct. */
  lemma {:induction false} IdsInOrderOfSight(hits: seq<Hit>)
    ensures forall i, j | 0 <= i < j < |Ids(hits)| :: SeenBefore(hits, Ids(hits)[i], Ids(hits)[j])
    decreases |hits|
  {
    if hits != [] {
      var n := |hits| - 1;
      var before, hit := hits[..n], hits[n];
      assert hits == before + [hit];
      IdsInOrderOfSight(before);
      IdsGrow(before, hit);
      forall i, j | 0 <= i < j < |Ids(hits)| ensures SeenBefore(hits, Ids(hits)[i], Ids(hits)[j]) {
        var a, b := Ids(hits)[i], Ids(hits)[j];
        if j < |Ids(before)| {
          SeenBeforeStays(before, hit, a, b);
        } else {
          var p := FirstPlace(before, a);
          FirstStays(before, hit, a, p);
          AbsentCountsNothing(before, 0, b);
          assert FirstAt(hits, b, n);
        }
      }
    }
  }

  // ------------------------------------------------------------------------------------------
  // The sort
  // ------------------------------------------------------------------------------------------

  /** `order[i]` comes before `order[j]` in the sorted result: by score, then by place. */
  ghost predicate SortsBefore(order: seq<string>, score: map<string, real>, a: string, b: string)
    requires a in score && b in score
  {
    score[a] > score[b]
    || (score[a] == score[b] && exists i, j :: 0 <= i < j < |order| && order[i] == a && order[j] == b)
  }

  ghost predicate InOrder(order: seq<string>, score: map<string, real>, sorted: seq<string>) {
    && (forall s | s in sorted :: s in score)
    && (forall i, j | 0 <= i < j < |sorted| :: SortsBefore(order, score, sorted[i], sorted[j]))
  }

  lemma {:induction false} LongerOrder(order: seq<string>, score: map<string, real>, id: string, a: string, b: string)
    requires a in score && b in score && SortsBefore(order, score, a, b)
    ensures SortsBefore(order + [id], score, a, b)
  {
    if score[a] == score[b] {
      var i, j :| 0 <= i < j < |order| && order[i] == a && order[j] == b;
      assert (order + [id])[i] == a && (order + [id])[j] == b;
    }
  }

  lemma {:induction false} NewestIsLast(order: seq<string>, score: map<string, real>, id: string, a: string)
    requires a in score && id in score && a in order && score[a] >= score[id]
    ensures SortsBefore(order + [id], score, a, id)
  {
    var p :| 0 <= p < |order| && order[p] == a;
    assert (order + [id])[p] == a && (order + [id])[|order|] == id;
  }

  lemma {:induction false} AtLeast(order: seq<string>, score: map<string, real>, sorted: seq<string>, i: nat, j: nat)
    requires InOrder(order, score, sorted) && i <= j < |sorted|
    ensures score[sorted[i]] >= score[sorted[j]]
  {
    if i < j { assert SortsBefore(order, score, sorted[i], sorted[j]); }
  }

  lemma {:induction false} InsertSorts(order: seq<string>, score: map<string, real>, sorted: seq<string>, id: string)
    requires id in score && InOrder(order, score, sorted) && forall s | s in sorted :: s in order
    ensures InOrder(order + [id], score, Insert(sorted, score, id))
    decreases |sorted|
  {
    hide SortsBefore;
    if sorted != [] {
      var n := |sorted| - 1;
      var order' := order + [id];
      if score[sorted[n]] >= score[id] {
        forall i, j | 0 <= i < j <= n + 1 ensures SortsBefore(order', score, (sorted + [id])[i], (sorted + [id])[j]) {
          if j <= n {
            LongerOrder(order, score, id, sorted[i], sorted[j]);
          } else {
            AtLeast(order, score, sorted, i, n);
            NewestIsLast(order, score, id, sorted[i]);
          }
        }
      } else {
        InsertSorts(order, score, sorted[..n], id);
        InsertIsPermutation(sorted[..n], score, id);
        var inserted := Insert(sorted[..n], score, id);
        forall i | 0 <= i < |inserted| ensures inserted[i] in score && SortsBefore(order', score, inserted[i], sorted[n]) {
          assert inserted[i] in multiset(inserted);
          if inserted[i] == id {
            HigherIsBefore(order', score, id, sorted[n]);
          } else {
            assert inserted[i] in sorted[..n];
            var k :| 0 <= k < n && sorted[k] == inserted[i];
            LongerOrder(order, score, id, sorted[k], sorted[n]);
          }
        }
      }
    }
  }

  lemma {:induction false} HigherIsBefore(order: seq<string>, score: map<string, real>, a: string, b: string)
    requires a in score && b in score && score[a] > score[b]
    ensures SortsBefore(order, score, a, b)
  {
  }

  /** The sort is by score, highest first, and keeps the order of equals. */
  lemma {:induction false} SortSorts(order: seq<string>, score: map<string, real>)
    requires forall id | id in order :: id in score
    ensures InOrder(order, score, SortDescending(order, score))
    decreases |order|
  {
    if order != [] {
      var n := |order| - 1;
      assert order == order[..n] + [order[n]];
      SortSorts(order[..n], score);
      var before := SortDescending(order[..n], score);
      forall s | s in before ensures s in order[..n] { assert s in multiset(before); }
      InsertSorts(order[..n], score, before, order[n]);
    }
  }

  /** What is in order already stays as it is. */
  lemma {:induction false} SortOfSorted(order: seq<string>, score: map<string, real>)
    requires forall id | id in order :: id in score
    requires forall i, j | 0 <= i < j < |order| :: score[order[i]] >= score[order[j]]
    ensures SortDescending(order, score) == order
    decreases |order|
  {
    if order != [] {
      var n := |order| - 1;
      assert order == order[..n] + [order[n]];
      SortOfSorted(order[..n], score);
    }
  }

  // ------------------------------------------------------------------------------------------
  // The best come first
  // ------------------------------------------------------------------------------------------

  /** `a` has the higher score, or the same and was seen first. */
  ghost predicate Better(hits: seq<Hit>, rrfK: int, a: string, b: string) {
    || Score(hits, rrfK, a) > Score(hits, rrfK, b)
    || (Score(hits, rrfK, a) == Score(hits, rrfK, b) && SeenBefore(hits, a, b))
  }

  lemma {:induction false} SortedAreBetter(hits: seq<Hit>, rrfK: int, i: nat, j: nat)
    requires i < j < |SortDescending(Ids(hits), Scores(hits, rrfK))|
    ensures var sorted := SortDescending(Ids(hits), Scores(hits, rrfK)); Better(hits, rrfK, sorted[i], sorted[j])
  {
    var ids, scores := Ids(hits), Scores(hits, rrfK);
    var sorted := SortDescending(ids, scores);
    SortSorts(ids, scores);
    assert SortsBefore(ids, scores, sorted[i], sorted[j]);
    if scores[sorted[i]] == scores[sorted[j]] {
      var p, q :| 0 <= p < q < |ids| && ids[p] == sorted[i] && ids[q] == sorted[j];
      IdsInOrderOfSight(hits);
    }
  }

  lemma {:induction false} SortedPlace(hits: seq<Hit>, rrfK: int, id: string) returns (i: nat)
    requires id in Ids(hits)
    ensures var sorted := SortDescending(Ids(hits), Scores(hits, rrfK));
            |sorted| == |Ids(hits)| && i < |sorted| && sorted[i] == id
  {
    var sorted := SortDescending(Ids(hits), Scores(hits, rrfK));
    assert |multiset(sorted)| == |multiset(Ids(hits))|;
    assert id in multiset(Ids(hits));
    i :| i < |sorted| && sorted[i] == id;
  }

  /** The rows are the best `topK` ids, best first: each row is better than all later rows and than
      every id left out; there are as many as there are ids, up to `topK`. */
  lemma {:induction false} RowsAreBest(hits: seq<Hit>, rrfK: int, topK: nat, rows: seq<Fused>, i: nat, id: string)
    requires Output(hits, rrfK, topK, rows) && i < |rows|
    ensures |rows| == if topK < |Ids(hits)| then topK else |Ids(hits)|
    ensures forall j | i < j < |rows| :: Better(hits, rrfK, rows[i].id, rows[j].id)
    ensures id in Ids(hits) && (forall j | 0 <= j < |rows| :: rows[j].id != id) ==> Better(hits, rrfK, rows[i].id, id)
  {
    var sorted := SortDescending(Ids(hits), Scores(hits, rrfK));
    assert |multiset(sorted)| == |multiset(Ids(hits))|;
    forall j | i < j < |rows| ensures Better(hits, rrfK, rows[i].id, rows[j].id) {
      SortedAreBetter(hits, rrfK, i, j);
    }
    if id in Ids(hits) && (forall j | 0 <= j < |rows| :: rows[j].id != id) {
      var p := SortedPlace(hits, rrfK, id);
      assert p >= |rows|;
      SortedAreBetter(hits, rrfK, i, p);
    }
  }

  // ------------------------------------------------------------------------------------------
  // Dominance
  // ------------------------------------------------------------------------------------------

  lemma {:induction false} ReciprocalFalls(rrfK: nat, m: nat, n: nat)
    requires 0 < m < n
    ensures 0.0 < Reciprocal(rrfK, n) < Reciprocal(rrfK, m)
  {
    var x, y := (rrfK + m) as real, (rrfK + n) as real;
    assert 0.0 < x < y;
    assert 1.0 / x - 1.0 / y == (y - x) / (x * y);
  }

  lemma {:induction false} ScoreOfSum(a: seq<Hit>, b: seq<Hit>, rrfK: int, id: string)
    ensures Score(a + b, rrfK, id) == Score(a, rrfK, id) + Score(b, rrfK, id)
    decreases |b|
  {
    if b == [] {
      assert a + b == a;
    } else {
      var n := |b| - 1;
      assert (a + b)[..|a + b| - 1] == a + b[..n];
      ScoreOfSum(a, b[..n], rrfK, id);
    }
  }

  ghost predicate Ranked(hits: seq<Hit>) {
    forall i | 0 <= i < |hits| :: 0 < hits[i].rank
  }

  /** One occurrence counts at least its reciprocal rank. */
  lemma {:induction false} OccurrenceCounts(hits: seq<Hit>, rrfK: nat, id: string, i: nat)
    requires Ranked(hits) && (i < |hits| ==> Is(hits[i], id))
    ensures Score(hits, rrfK, id) >= if i < |hits| then Reciprocal(rrfK, hits[i].rank) else 0.0
    decreases |hits|
  {
    if hits != [] {
      var n := |hits| - 1;
      ReciprocalFalls(rrfK, hits[n].rank, hits[n].rank + 1);
      OccurrenceCounts(hits[..n], rrfK, id, i);
    }
  }

  lemma {:induction false} OnlyOccurrenceCounts(hits: seq<Hit>, rrfK: nat, id: string, i: nat)
    requires i < |hits| ==> Is(hits[i], id)
    requires forall j | 0 <= j < |hits| && j != i :: !Is(hits[j], id)
    ensures Score(hits, rrfK, id) == if i < |hits| then Reciprocal(rrfK, hits[i].rank) else 0.0
    decreases |hits|
  {
    if hits != [] { OnlyOccurrenceCounts(hits[..|hits| - 1], rrfK, id, i); }
  }

  /** No id occurs twice. */
  ghost predicate NoDuplicates(ranking: seq<Row>) {
    forall i, j | 0 <= i < j < |ranking| && IdOf(ranking[i]).Some? :: IdOf(ranking[i]) != IdOf(ranking[j])
  }

  /** Wherever `b` occurs, `a` stands higher up. */
  ghost predicate Outranks(ranking: seq<Row>, a: string, b: string) {
    forall j | 0 <= j < |ranking| && IdOf(ranking[j]) == Some(b) :: exists i :: 0 <= i < j && IdOf(ranking[i]) == Some(a)
  }

  ghost predicate Occurs(ranking: seq<Row>, id: string) {
    exists j :: 0 <= j < |ranking| && IdOf(ranking[j]) == Some(id)
  }

  lemma {:induction false} OutranksInOne(source: nat, ranking: seq<Row>, rrfK: nat, a: string, b: string)
    requires NoDuplicates(ranking) && Outranks(ranking, a, b)
    ensures Score(Hits(source, ranking), rrfK, a) >= Score(Hits(source, ranking), rrfK, b)
    ensures Occurs(ranking, b) ==> Score(Hits(source, ranking), rrfK, a) > Score(Hits(source, ranking), rrfK, b)
  {
    hide Score;
    hide Reciprocal;
    var hits := Hits(source, ranking);
    if Occurs(ranking, b) {
      var j :| 0 <= j < |ranking| && IdOf(ranking[j]) == Some(b);
      var i :| 0 <= i < j && IdOf(ranking[i]) == Some(a);
      OccurrenceCounts(hits, rrfK, a, i);
      OnlyOccurrenceCounts(hits, rrfK, b, j);
      ReciprocalFalls(rrfK, i + 1, j + 1);
    } else {
      OccurrenceCounts(hits, rrfK, a, |hits|);
      OnlyOccurrenceCounts(hits, rrfK, b, |hits|);
    }
  }

  lemma {:induction false} NewIdOccurs(before: seq<Hit>, source: nat, ranking: seq<Row>, id: string)
    requires id in Ids(before + Hits(source, ranking)) && id !in Ids(before)
    ensures Occurs(ranking, id)
  {
    var p := FirstPlace(before + Hits(source, ranking), id);
    AbsentCountsNothing(before, 0, id);
    assert IdOf(ranking[p - |before|]) == Some(id);
  }

  lemma {:induction false} NothingCountsNothing(rrfK: int, id: string)
    ensures Score([], rrfK, id) == 0.0 && id !in Ids([])
  {
  }

  lemma {:induction false} OutranksInAll(rankings: seq<seq<Row>>, m: nat, rrfK: nat, a: string, b: string)
    requires m <= |rankings|
    requires forall s | 0 <= s < m :: NoDuplicates(rankings[s]) && Outranks(rankings[s], a, b)
    ensures Score(AllHits(rankings, m), rrfK, a) >= Score(AllHits(rankings, m), rrfK, b)
    ensures b in Ids(AllHits(rankings, m)) ==>
              Score(AllHits(rankings, m), rrfK, a) > Score(AllHits(rankings, m), rrfK, b)
    decreases m
  {
    NothingCountsNothing(rrfK, a);
    NothingCountsNothing(rrfK, b);
    hide Ids;
    hide Hits;
    hide Score;
    hide Occurs;
    hide Outranks;
    hide NoDuplicates;
    if m > 0 {
      OutranksInAll(rankings, m - 1, rrfK, a, b);
      var before, hits := AllHits(rankings, m - 1), Hits(m - 1, rankings[m - 1]);
      OutranksInOne(m - 1, rankings[m - 1], rrfK, a, b);
      ScoreOfSum(before, hits, rrfK, a);
      ScoreOfSum(before, hits, rrfK, b);
      if b in Ids(before + hits) && b !in Ids(before) { NewIdOccurs(before, m - 1, rankings[m - 1], b); }
    }
  }

  lemma {:induction false} ScoredIsSeen(hits: seq<Hit>, rrfK: nat, id: string)
    requires Score(hits, rrfK, id) > 0.0
    ensures id in Ids(hits)
  {
    if id !in Ids(hits) { AbsentCountsNothing(hits, rrfK, id); }
  }

  /** If `a` stands above `b` in every ranking that has `b`, then `b` is returned only after `a`. */
  lemma {:induction false} DominanceIsKept(
      rankings: seq<seq<Row>>, rrfK: nat, topK: nat, rows: seq<Fused>, a: string, b: string, j: nat)
      returns (i: nat)
    requires forall s | 0 <= s < |rankings| :: NoDuplicates(rankings[s]) && Outranks(rankings[s], a, b)
    requires Output(AllHits(rankings, |rankings|), rrfK, topK, rows)
    requires j < |rows| && rows[j].id == b
    ensures i < j && rows[i].id == a
  {
    var hits := AllHits(rankings, |rankings|);
    var sorted := SortDescending(Ids(hits), Scores(hits, rrfK));
    assert b in multiset(sorted);
    OutranksInAll(rankings, |rankings|, rrfK, a, b);
    ScoreIsPositive(rankings, |rankings|, rrfK, b);
    ScoredIsSeen(hits, rrfK, a);
    i := SortedPlace(hits, rrfK, a);
    if j < i {
      SortedAreBetter(hits, rrfK, j, i);
    }
  }

  lemma {:induction false} ScoreIsPositive(rankings: seq<seq<Row>>, m: nat, rrfK: nat, id: string)
    requires m <= |rankings|
    ensures Score(AllHits(rankings, m), rrfK, id) >= 0.0
    decreases m
  {
    if m > 0 {
      ScoreIsPositive(rankings, m - 1, rrfK, id);
      ScoreOfSum(AllHits(rankings, m - 1), Hits(m - 1, rankings[m - 1]), rrfK, id);
      OccurrenceCounts(Hits(m - 1, rankings[m - 1]), rrfK, id, |rankings[m - 1]|);
    }
  }

  // ------------------------------------------------------------------------------------------
  // One ranking alone
  // ------------------------------------------------------------------------------------------

  function IdsIn(ranking: seq<Row>): seq<string> {
    FlatMap((row: Row) => if IdOf(row).Some? then [IdOf(row).value] else [], ranking)
  }

  lemma {:induction false} IdsInGrow(ranking: seq<Row>, row: Row)
    ensures IdsIn(ranking + [row]) == IdsIn(ranking) + if IdOf(row).Some? then [IdOf(row).value] else []
  {
    FlatMapConcat((row: Row) => if IdOf(row).Some? then [IdOf(row).value] else [], ranking, [row]);
    FlatMapOne((row: Row) => if IdOf(row).Some? then [IdOf(row).value] else [], row);
  }

  lemma {:induction false} IdsOfOne(source: nat, ranking: seq<Row>)
    requires NoDuplicates(ranking)
    ensures Ids(Hits(source, ranking)) == IdsIn(ranking)
    decreases |ranking|
  {
    if ranking != [] {
      var n := |ranking| - 1;
      var before, row := ranking[..n], ranking[n];
      assert ranking == before + [row];
      IdsOfOne(source, before);
      IdsInGrow(before, row);
      assert Hits(source, ranking) == Hits(source, before) + [Hit(source, n + 1, row)];
      IdsGrow(Hits(source, before), Hit(source, n + 1, row));
      if IdOf(row).Some? && IdOf(row).value in Ids(Hits(source, before)) {
        var p := FirstPlace(Hits(source, before), IdOf(row).value);
      }
    }
  }

  lemma {:induction false} NoRowsNoHits(rankings: seq<seq<Row>>, m: nat)
    requires m < |rankings| && rankings[m] == []
    ensures AllHits(rankings, m + 1) == AllHits(rankings, m)
  {
    assert AllHits(rankings, m) + Hits(m, []) == AllHits(rankings, m);
  }

  lemma {:induction false} OnlyOneRanking(rankings: seq<seq<Row>>, s: nat, m: nat)
    requires m <= |rankings| && s < |rankings| && forall t | 0 <= t < |rankings| && t != s :: rankings[t] == []
    ensures m <= s ==> AllHits(rankings, m) == []
    ensures s < m ==> AllHits(rankings, m) == Hits(s, rankings[s])
    decreases m
  {
    hide Hits;
    if m > 0 {
      OnlyOneRanking(rankings, s, m - 1);
      if m - 1 == s {
        assert [] + Hits(s, rankings[s]) == Hits(s, rankings[s]);
      } else {
        NoRowsNoHits(rankings, m - 1);
      }
    }
  }

  lemma {:induction false} ScoresFall(source: nat, ranking: seq<Row>, rrfK: nat, i: nat, j: nat)
    requires NoDuplicates(ranking) && i < j < |Ids(Hits(source, ranking))|
    ensures var hits := Hits(source, ranking);
            Score(hits, rrfK, Ids(hits)[i]) > Score(hits, rrfK, Ids(hits)[j])
  {
    var hits := Hits(source, ranking);
    var a, b := Ids(hits)[i], Ids(hits)[j];
    IdsInOrderOfSight(hits);
    assert SeenBefore(hits, a, b);
    var p: nat, q: nat :| FirstAt(hits, a, p) && FirstAt(hits, b, q) && p < q;
    OnlyOccurrenceCounts(hits, rrfK, a, p);
    OnlyOccurrenceCounts(hits, rrfK, b, q);
    ReciprocalFalls(rrfK, p + 1, q + 1);
  }

  /** When all rankings but one are empty, as when the text index is missing, the ids of that one
      come back in its own order, cut at `topK`. */
  lemma {:induction false} OneRankingAlone(rankings: seq<seq<Row>>, s: nat, rrfK: nat, topK: nat, rows: seq<Fused>, i: nat)
    requires s < |rankings| && NoDuplicates(rankings[s])
    requires forall t | 0 <= t < |rankings| && t != s :: rankings[t] == []
    requires Output(AllHits(rankings, |rankings|), rrfK, topK, rows)
    ensures |rows| == if topK < |IdsIn(rankings[s])| then topK else |IdsIn(rankings[s])|
    ensures i < |rows| ==> rows[i].id == IdsIn(rankings[s])[i]
  {
    var hits := Hits(s, rankings[s]);
    OnlyOneRanking(rankings, s, |rankings|);
    IdsOfOne(s, rankings[s]);
    var scores := Scores(hits, rrfK);
    forall i, j | 0 <= i < j < |Ids(hits)| ensures scores[Ids(hits)[i]] >= scores[Ids(hits)[j]] {
      ScoresFall(s, rankings[s], rrfK, i, j);
    }
    SortOfSorted(Ids(hits), scores);
  }
}

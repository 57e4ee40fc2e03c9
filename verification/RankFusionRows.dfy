/** What a fused row says, told from the places where its id stands in the rankings
    (workers/py/narrowmind_workers/rag/index.py:237-262). */
module RankFusionRows {
  import opened Options
  import opened RankFusion
  import opened RankFusionLaws

  /** A row counts for the id in its `chunk_id`; an empty one is none. */
  predicate Bears(row: Row, id: string) {
    id != "" && "chunk_id" in row && row["chunk_id"] == id
  }

  /** A place: the ranking, and the row in it, both counted from 0. */
  type Place = (nat, nat)

  predicate Precedes(a: Place, b: Place) {
    a.0 < b.0 || (a.0 == b.0 && a.1 < b.1)
  }

  predicate Exists(rankings: seq<seq<Row>>, p: Place) {
    p.0 < |rankings| && p.1 < |rankings[p.0]|
  }

  predicate Holds(rankings: seq<seq<Row>>, p: Place, id: string) {
    Exists(rankings, p) && Bears(rankings[p.0][p.1], id)
  }

  /** `places` are all the places before `end` where `id` stands, in order. */
  ghost predicate ArePlaces(rankings: seq<seq<Row>>, end: Place, id: string, places: seq<Place>) {
    && (forall i | 0 <= i < |places| :: Holds(rankings, places[i], id) && Precedes(places[i], end))
    && (forall i, j | 0 <= i < j < |places| :: Precedes(places[i], places[j]))
    && (forall p | Holds(rankings, p, id) && Precedes(p, end) :: p in places)
  }

  ghost predicate NonZero(places: seq<Place>, rrfK: int) {
    forall i | 0 <= i < |places| :: rrfK + places[i].1 + 1 != 0
  }

  /** The sum of 1/(rrfK + rank) over the places, ranks counted from 1. */
  ghost function Sum(places: seq<Place>, rrfK: int): real
    requires NonZero(places, rrfK)
    decreases |places|
  {
    if places == [] then 0.0
    else
      var n := |places| - 1;
      Sum(places[..n], rrfK) + 1.0 / (rrfK + places[n].1 + 1) as real
  }

  function Rankings(places: seq<Place>): seq<nat> {
    seq(|places|, i requires 0 <= i < |places| => places[i].0)
  }

  /** No denominator is zero where `id` stands. */
  ghost predicate NoZero(rankings: seq<seq<Row>>, rrfK: int, id: string) {
    forall p | Holds(rankings, p, id) :: rrfK + p.1 + 1 != 0
  }

  function HitsBefore(rankings: seq<seq<Row>>, m: nat, n: nat): seq<Hit>
    requires m < |rankings| && n <= |rankings[m]|
  {
    AllHits(rankings, m) + Hits(m, rankings[m])[..n]
  }

  /** The places account for the score and the sources of the rows gone through. */
  ghost predicate Accounted(rankings: seq<seq<Row>>, end: Place, hits: seq<Hit>, rrfK: int, id: string, places: seq<Place>) {
    && ArePlaces(rankings, end, id, places)
    && NonZero(places, rrfK)
    && Score(hits, rrfK, id) == Sum(places, rrfK) && Sources(hits, id) == Rankings(places)
  }

  lemma {:induction false} SumSnoc(places: seq<Place>, p: Place, rrfK: int)
    requires NonZero(places, rrfK) && rrfK + p.1 + 1 != 0
    ensures NonZero(places + [p], rrfK)
    ensures Sum(places + [p], rrfK) == Sum(places, rrfK) + 1.0 / (rrfK + p.1 + 1) as real
    ensures Rankings(places + [p]) == Rankings(places) + [p.0]
  {
    assert (places + [p])[..|places|] == places;
  }

  lemma {:induction false} BearsIsId(row: Row, id: string)
    ensures Bears(row, id) <==> IdOf(row) == Some(id)
  {
  }

  lemma {:induction false} HitCounts(hits: seq<Hit>, hit: Hit, rrfK: int, id: string)
    ensures var bears := Bears(hit.row, id);
            && Sources(hits + [hit], id) == Sources(hits, id) + (if bears then [hit.source] else [])
            && (!bears ==> Score(hits + [hit], rrfK, id) == Score(hits, rrfK, id))
            && (bears && rrfK + hit.rank != 0 ==>
                  Score(hits + [hit], rrfK, id) == Score(hits, rrfK, id) + 1.0 / (rrfK + hit.rank) as real)
  {
    assert (hits + [hit])[..|hits|] == hits;
    BearsIsId(hit.row, id);
  }

  lemma {:induction false} RowThatBears(
      rankings: seq<seq<Row>>, m: nat, n: nat, hits: seq<Hit>, rrfK: int, id: string, places: seq<Place>)
    requires m < |rankings| && n < |rankings[m]| && Bears(rankings[m][n], id) && rrfK + n + 1 != 0
    requires Accounted(rankings, (m, n), hits, rrfK, id, places)
    ensures Accounted(rankings, (m, n + 1), hits + [Hit(m, n + 1, rankings[m][n])], rrfK, id, places + [(m, n)])
  {
    hide Bears;
    hide ArePlaces;
    hide Score;
    hide Sources;
    hide Sum;
    hide NonZero;
    hide Rankings;
    HitCounts(hits, Hit(m, n + 1, rankings[m][n]), rrfK, id);
    NextPlace(rankings, m, n, id, places, places + [(m, n)]);
    SumSnoc(places, (m, n), rrfK);
  }

  lemma {:induction false} RowPassedBy(
      rankings: seq<seq<Row>>, m: nat, n: nat, hits: seq<Hit>, rrfK: int, id: string, places: seq<Place>)
    requires m < |rankings| && n < |rankings[m]| && !Bears(rankings[m][n], id)
    requires Accounted(rankings, (m, n), hits, rrfK, id, places)
    ensures Accounted(rankings, (m, n + 1), hits + [Hit(m, n + 1, rankings[m][n])], rrfK, id, places)
  {
    hide Bears;
    hide ArePlaces;
    hide Score;
    hide Sources;
    hide Sum;
    hide NonZero;
    hide Rankings;
    HitCounts(hits, Hit(m, n + 1, rankings[m][n]), rrfK, id);
    NextPlace(rankings, m, n, id, places, places);
    assert Sources(hits, id) + [] == Sources(hits, id);
  }

  /** One row further. */
  lemma {:induction false} NextRow(
      rankings: seq<seq<Row>>, m: nat, n: nat, hits: seq<Hit>, rrfK: int, id: string, places: seq<Place>)
      returns (places': seq<Place>)
    requires m < |rankings| && n < |rankings[m]| && NoZero(rankings, rrfK, id)
    requires Accounted(rankings, (m, n), hits, rrfK, id, places)
    ensures Accounted(rankings, (m, n + 1), hits + [Hit(m, n + 1, rankings[m][n])], rrfK, id, places')
  {
    hide Accounted;
    if Bears(rankings[m][n], id) {
      var here: Place := (m, n);
      assert Holds(rankings, here, id);
      RowThatBears(rankings, m, n, hits, rrfK, id, places);
      places' := places + [here];
    } else {
      RowPassedBy(rankings, m, n, hits, rrfK, id, places);
      places' := places;
    }
  }

  /** Between one row and the next there is no other place. */
  lemma {:induction false} NoPlaceBetween(p: Place, m: nat, n: nat)
    ensures Precedes(p, (m, n + 1)) <==> Precedes(p, (m, n)) || p == (m, n)
  {
  }

  lemma {:induction false} NoNewPlace(rankings: seq<seq<Row>>, m: nat, n: nat, id: string, places: seq<Place>)
    requires !Holds(rankings, (m, n), id) && ArePlaces(rankings, (m, n), id, places)
    ensures ArePlaces(rankings, (m, n + 1), id, places)
  {
    forall p: Place ensures Precedes(p, (m, n + 1)) <==> Precedes(p, (m, n)) || p == (m, n) { NoPlaceBetween(p, m, n); }
    hide Holds;
    hide Precedes;
  }

  lemma {:induction false} NewPlace(rankings: seq<seq<Row>>, m: nat, n: nat, id: string, places: seq<Place>)
    requires Holds(rankings, (m, n), id) && ArePlaces(rankings, (m, n), id, places)
    ensures ArePlaces(rankings, (m, n + 1), id, places + [(m, n)])
  {
    forall p: Place ensures Precedes(p, (m, n + 1)) <==> Precedes(p, (m, n)) || p == (m, n) { NoPlaceBetween(p, m, n); }
    hide Holds;
    hide Precedes;
    var places' := places + [(m, n)];
    forall p | Holds(rankings, p, id) && Precedes(p, (m, n + 1)) ensures p in places' {
      assert places'[|places|] == (m, n);
    }
    forall i, j | 0 <= i < j < |places'| ensures Precedes(places'[i], places'[j]) {
      assert places'[i] == places[i];
      if j < |places| { assert places'[j] == places[j]; }
    }
  }

  lemma {:induction false} NextPlace(rankings: seq<seq<Row>>, m: nat, n: nat, id: string, places: seq<Place>, places': seq<Place>)
    requires m < |rankings| && n < |rankings[m]| && ArePlaces(rankings, (m, n), id, places)
    requires places' == if Bears(rankings[m][n], id) then places + [(m, n)] else places
    ensures ArePlaces(rankings, (m, n + 1), id, places')
  {
    hide ArePlaces;
    var here: Place := (m, n);
    assert Holds(rankings, here, id) <==> Bears(rankings[m][n], id);
    if Bears(rankings[m][n], id) { NewPlace(rankings, m, n, id, places); } else { NoNewPlace(rankings, m, n, id, places); }
  }

  lemma {:induction false} NextRanking(rankings: seq<seq<Row>>, m: nat, id: string, places: seq<Place>)
    requires m < |rankings| && ArePlaces(rankings, (m, |rankings[m]|), id, places)
    ensures ArePlaces(rankings, (m + 1, 0), id, places)
  {
    hide Bears;
    forall p | Holds(rankings, p, id) && Precedes(p, (m + 1, 0)) ensures p in places {
      assert Precedes(p, (m, |rankings[m]|));
    }
  }

  lemma {:induction false} AccountRanking(
      rankings: seq<seq<Row>>, m: nat, n: nat, rrfK: int, id: string, start: seq<Place>) returns (places: seq<Place>)
    requires m < |rankings| && n <= |rankings[m]| && NoZero(rankings, rrfK, id)
    requires Accounted(rankings, (m, 0), AllHits(rankings, m), rrfK, id, start)
    ensures Accounted(rankings, (m, n), HitsBefore(rankings, m, n), rrfK, id, places)
    decreases n
  {
    hide Accounted;
    hide NoZero;
    if n == 0 {
      places := start;
      assert HitsBefore(rankings, m, 0) == AllHits(rankings, m);
    } else {
      var before := AccountRanking(rankings, m, n - 1, rrfK, id, start);
      places := NextRow(rankings, m, n - 1, HitsBefore(rankings, m, n - 1), rrfK, id, before);
      assert HitsBefore(rankings, m, n) == HitsBefore(rankings, m, n - 1) + [Hit(m, n, rankings[m][n - 1])];
    }
  }

  lemma {:induction false} NothingYet(rankings: seq<seq<Row>>, rrfK: int, id: string)
    ensures Accounted(rankings, (0, 0), AllHits(rankings, 0), rrfK, id, [])
  {
  }

  lemma {:induction false} RankingIsDone(rankings: seq<seq<Row>>, m: nat, rrfK: int, id: string, places: seq<Place>)
    requires m < |rankings| && Accounted(rankings, (m, |rankings[m]|), HitsBefore(rankings, m, |rankings[m]|), rrfK, id, places)
    ensures Accounted(rankings, (m + 1, 0), AllHits(rankings, m + 1), rrfK, id, places)
  {
    NextRanking(rankings, m, id, places);
    hide ArePlaces;
    assert HitsBefore(rankings, m, |rankings[m]|) == AllHits(rankings, m + 1);
  }

  lemma {:induction false} AccountAll(rankings: seq<seq<Row>>, m: nat, rrfK: int, id: string) returns (places: seq<Place>)
    requires m <= |rankings| && NoZero(rankings, rrfK, id)
    ensures Accounted(rankings, (m, 0), AllHits(rankings, m), rrfK, id, places)
    decreases m
  {
    hide NoZero;
    hide Accounted;
    if m == 0 {
      places := [];
      NothingYet(rankings, rrfK, id);
    } else {
      var before := AccountAll(rankings, m - 1, rrfK, id);
      places := AccountRanking(rankings, m - 1, |rankings[m - 1]|, rrfK, id, before);
      RankingIsDone(rankings, m - 1, rrfK, id, places);
    }
  }

  lemma {:induction false} HitIsPlace(rankings: seq<seq<Row>>, m: nat, i: nat) returns (p: Place)
    requires m <= |rankings| && i < |AllHits(rankings, m)|
    ensures Exists(rankings, p) && p.0 < m
    ensures AllHits(rankings, m)[i] == Hit(p.0, p.1 + 1, rankings[p.0][p.1])
    ensures m < |rankings| ==> i < |AllHits(rankings, m + 1)| && AllHits(rankings, m + 1)[i] == AllHits(rankings, m)[i]
    decreases m
  {
    var before := AllHits(rankings, m - 1);
    if i < |before| {
      p := HitIsPlace(rankings, m - 1, i);
    } else {
      p := (m - 1, i - |before|);
    }
  }

  lemma {:induction false} PlaceIsHit(rankings: seq<seq<Row>>, m: nat, p: Place) returns (i: nat)
    requires m <= |rankings| && Exists(rankings, p) && p.0 < m
    ensures i < |AllHits(rankings, m)| && AllHits(rankings, m)[i] == Hit(p.0, p.1 + 1, rankings[p.0][p.1])
    decreases m
  {
    if p.0 == m - 1 {
      i := |AllHits(rankings, m - 1)| + p.1;
    } else {
      i := PlaceIsHit(rankings, m - 1, p);
    }
  }

  /** The division by zero, told from the places: some row that counts stands at rank -rrfK. */
  lemma {:induction false} DividesByZeroIff(rankings: seq<seq<Row>>, rrfK: int)
    ensures DividesByZero(AllHits(rankings, |rankings|), rrfK)
       <==> exists p, id :: Holds(rankings, p, id) && rrfK + p.1 + 1 == 0
  {
    var hits := AllHits(rankings, |rankings|);
    if i: nat :| i < |hits| && IdOf(hits[i].row).Some? && rrfK + hits[i].rank == 0 {
      var p := HitIsPlace(rankings, |rankings|, i);
      BearsIsId(hits[i].row, IdOf(hits[i].row).value);
      assert Holds(rankings, p, IdOf(hits[i].row).value);
    }
    if p: Place, id :| Holds(rankings, p, id) && rrfK + p.1 + 1 == 0 {
      var i := PlaceIsHit(rankings, |rankings|, p);
      BearsIsId(rankings[p.0][p.1], id);
      assert IdOf(hits[i].row).Some?;
    }
  }

  /** The payload is a row's columns but for those whose names begin with an underscore. */
  ghost predicate IsShownOf(row: Row, payload: Row) {
    && (forall key | key in payload :: key in row && payload[key] == row[key])
    && (forall key | key in row :: key in payload <==> !(key != "" && key[0] == '_'))
  }

  lemma {:induction false} VisibleIsShown(row: Row)
    ensures IsShownOf(row, Visible(row))
  {
    forall key: string ensures "_" <= key <==> key != "" && key[0] == '_' {
      if key != "" && key[0] == '_' { assert key[..1] == "_"; }
    }
  }

  /** In order and complete: the first place in a list of all places is the first of all. */
  lemma {:induction false} PayloadOfFirst(rankings: seq<seq<Row>>, id: string, places: seq<Place>, payload: Row)
    requires ArePlaces(rankings, (|rankings|, 0), id, places)
    requires FirstPayload(AllHits(rankings, |rankings|), id, payload)
    ensures places != [] && Exists(rankings, places[0]) && IsShownOf(rankings[places[0].0][places[0].1], payload)
  {
    var hits := AllHits(rankings, |rankings|);
    var i: nat :| FirstAt(hits, id, i) && payload == Visible(hits[i].row);
    var p := HitIsPlace(rankings, |rankings|, i);
    BearsIsId(hits[i].row, id);
    assert Holds(rankings, p, id) && p in places;
    VisibleIsShown(hits[i].row);
    if places[0] != p {
      var q := places[0];
      BearsIsId(rankings[q.0][q.1], id);
      var j := EarlierPlaceEarlierHit(rankings, |rankings|, q, p, i);
      assert false;
    }
  }

  lemma {:induction false} EarlierPlaceEarlierHit(rankings: seq<seq<Row>>, m: nat, q: Place, p: Place, i: nat) returns (j: nat)
    requires m <= |rankings| && Exists(rankings, p) && Exists(rankings, q) && Precedes(q, p) && p.0 < m
    requires i < |AllHits(rankings, m)| && AllHits(rankings, m)[i] == Hit(p.0, p.1 + 1, rankings[p.0][p.1])
    ensures j < i && AllHits(rankings, m)[j] == Hit(q.0, q.1 + 1, rankings[q.0][q.1])
    decreases m
  {
    var before := AllHits(rankings, m - 1);
    if i < |before| {
      var p' := HitIsPlace(rankings, m - 1, i);
      j := EarlierPlaceEarlierHit(rankings, m - 1, q, p, i);
    } else if q.0 == m - 1 {
      j := |before| + q.1;
    } else {
      j := PlaceIsHit(rankings, m - 1, q);
    }
  }

  /** A fused row tells of all the places where its id stands, ranking by ranking: its score is the sum
      of 1/(rrfK + rank) over them, its sources are their rankings, and its payload is what is shown of
      the row at the first of them. */
  lemma {:induction false} RowTellsPlaces(rankings: seq<seq<Row>>, rrfK: int, topK: nat, rows: seq<Fused>, i: nat)
      returns (places: seq<Place>)
    requires !DividesByZero(AllHits(rankings, |rankings|), rrfK)
    requires Output(AllHits(rankings, |rankings|), rrfK, topK, rows) && i < |rows|
    ensures ArePlaces(rankings, (|rankings|, 0), rows[i].id, places) && places != []
    ensures NonZero(places, rrfK)
    ensures rows[i].score == Sum(places, rrfK) && rows[i].sources == Rankings(places)
    ensures Exists(rankings, places[0]) && IsShownOf(rankings[places[0].0][places[0].1], rows[i].payload)
    ensures "chunk_id" in rows[i].payload && rows[i].payload["chunk_id"] == rows[i].id
  {
    var hits, id := AllHits(rankings, |rankings|), rows[i].id;
    assert RowOk(hits, rrfK, rows[i]);
    DividesByZeroIff(rankings, rrfK);
    hide Output;
    hide AllHits;
    assert NoZero(rankings, rrfK, id);
    places := AccountAll(rankings, |rankings|, rrfK, id);
    PayloadOfFirst(rankings, id, places, rows[i].payload);
    assert Holds(rankings, places[0], id);
  }
}

/** The bounded crawl: a breadth-first walk that marks addresses when they are taken from the queue,
    so the queue may hold one address several times
    (workers/py/narrowmind_workers/ingestion/url.py:34-105). */
module Crawl {
  import opened Sequences

  /** The addresses whose fetch succeeds, with the links found on each, and the removal of a
      fragment from an address. */
  datatype Web = Web(ok: map<string, seq<string>>, defrag: string -> string) {
    /** Removing a fragment twice removes it once. */
    ghost predicate Valid() {
      forall u :: defrag(defrag(u)) == defrag(u)
    }

    ghost function Known(seed: string): set<string> {
      {defrag(seed)} + set u, l | u in ok && l in ok[u] :: defrag(l)
    }

    ghost predicate Links(u: string, v: string) {
      u in ok && exists l :: l in ok[u] && defrag(l) == v
    }

    /** `v` can be reached from the seed in `d` steps through pages that are fetched well. */
    ghost predicate At(seed: string, v: string, d: nat)
      decreases d
    {
      if d == 0 then v == defrag(seed) else exists u :: At(seed, u, d - 1) && Links(u, v)
    }
  }

  /** An address with a depth. */
  type Entry = (string, int)

  ghost predicate Least(web: Web, seed: string, e: Entry) {
    0 <= e.1 && web.At(seed, e.0, e.1) && forall d: nat | web.At(seed, e.0, d) :: e.1 <= d
  }

  ghost predicate Fetched(fetched: seq<Entry>, u: string) {
    exists d: int :: (u, d) in fetched
  }

  function DocsOf(web: Web, fetched: seq<Entry>): seq<string> {
    FlatMap((e: Entry) => if e.0 in web.ok then [e.0] else [], fetched)
  }

  function FailuresOf(web: Web, fetched: seq<Entry>): seq<string> {
    FlatMap((e: Entry) => if e.0 in web.ok then [] else [e.0], fetched)
  }

  ghost predicate Ordered(entries: seq<Entry>) {
    forall i, j | 0 <= i < j < |entries| :: entries[i].1 <= entries[j].1
  }

  ghost predicate Distinct(fetched: seq<Entry>) {
    forall i, j | 0 <= i < j < |fetched| :: fetched[i].0 != fetched[j].0
  }

  /** Each address fetched once, at its least depth, in the order of depths. */
  ghost predicate EachOnce(web: Web, seed: string, fetched: seq<Entry>) {
    Distinct(fetched) && Ordered(fetched) && forall i | 0 <= i < |fetched| :: Least(web, seed, fetched[i])
  }

  /** Address `u` at depth `d` is accounted for: fetched, or left out because the documents are
      `full` and then no nearer than anything fetched. */
  ghost predicate Accounted(fetched: seq<Entry>, full: bool, u: string, d: int) {
    Fetched(fetched, u) || (full && forall i | 0 <= i < |fetched| :: fetched[i].1 <= d)
  }

  ghost predicate AllAccounted(web: Web, seed: string, maxDepth: int, fetched: seq<Entry>, full: bool) {
    forall u, d: nat | d <= maxDepth && web.At(seed, u, d) :: Accounted(fetched, full, u, d)
  }

  // ------------------------------------------------------------------------------------------
  // The invariant
  // ------------------------------------------------------------------------------------------

  ghost predicate Handled(web: Web, fetched: seq<Entry>, queue: seq<Entry>, u: string, k: int) {
    || (exists d: int :: d <= k && (u, d) in fetched)
    || (exists x: string, d: int :: d <= k && (x, d) in queue && web.defrag(x) == u)
  }

  /** Every page linked from `u` is handled. */
  ghost predicate Covered(web: Web, fetched: seq<Entry>, queue: seq<Entry>, u: string, k: int) {
    forall v | web.Links(u, v) :: Handled(web, fetched, queue, v, k)
  }

  ghost predicate CoverOk(web: Web, maxDepth: int, fetched: seq<Entry>, queue: seq<Entry>) {
    forall e | e in fetched && e.1 < maxDepth :: Covered(web, fetched, queue, e.0, e.1 + 1)
  }

  ghost predicate QueueOk(web: Web, seed: string, maxDepth: int, queue: seq<Entry>, cur: int) {
    && Ordered(queue)
    && forall i | 0 <= i < |queue| ::
         0 <= cur <= queue[i].1 <= cur + 1 && queue[i].1 <= maxDepth && web.At(seed, web.defrag(queue[i].0), queue[i].1)
  }

  ghost predicate FetchedOk(web: Web, seed: string, maxDepth: int, fetched: seq<Entry>, cur: int) {
    EachOnce(web, seed, fetched) && forall i | 0 <= i < |fetched| :: fetched[i].1 <= cur && fetched[i].1 <= maxDepth
  }

  ghost predicate VisitedOk(fetched: seq<Entry>, visited: set<string>) {
    forall u :: u in visited <==> Fetched(fetched, u)
  }

  /** `cur` is the depth last taken from the queue. */
  ghost predicate Inv(web: Web, seed: string, maxDepth: int, fetched: seq<Entry>, queue: seq<Entry>, cur: int) {
    && QueueOk(web, seed, maxDepth, queue, cur)
    && FetchedOk(web, seed, maxDepth, fetched, cur)
    && CoverOk(web, maxDepth, fetched, queue)
    && Handled(web, fetched, queue, web.defrag(seed), 0)
  }

  /** What is nearer than everything in the queue has been fetched. */
  lemma {:induction false} NearIsFetched(
      web: Web, seed: string, maxDepth: int, fetched: seq<Entry>, queue: seq<Entry>, u: string, d: nat)
      returns (e: int)
    requires CoverOk(web, maxDepth, fetched, queue) && Handled(web, fetched, queue, web.defrag(seed), 0)
    requires d <= maxDepth && web.At(seed, u, d)
    requires forall i | 0 <= i < |queue| :: d < queue[i].1
    ensures e <= d && (u, e) in fetched
    decreases d
  {
    if d == 0 {
      e :| e <= 0 && (u, e) in fetched;
    } else {
      var b :| web.At(seed, b, d - 1) && web.Links(b, u);
      var e' := NearIsFetched(web, seed, maxDepth, fetched, queue, b, d - 1);
      assert Covered(web, fetched, queue, b, e' + 1);
      assert Handled(web, fetched, queue, u, e' + 1);
      e :| e <= e' + 1 && (u, e) in fetched;
    }
  }

  /** Nothing fetched is forgotten, and what leaves the queue has been fetched in time. */
  ghost predicate Kept(web: Web, fetched: seq<Entry>, queue: seq<Entry>, fetched': seq<Entry>, queue': seq<Entry>) {
    && (forall e | e in fetched :: e in fetched')
    && (forall e | e in queue :: e in queue' || exists d: int :: d <= e.1 && (web.defrag(e.0), d) in fetched')
  }

  lemma {:induction false} HandledStays(
      web: Web, fetched: seq<Entry>, queue: seq<Entry>, fetched': seq<Entry>, queue': seq<Entry>, u: string, k: int)
    requires Handled(web, fetched, queue, u, k)
    requires Kept(web, fetched, queue, fetched', queue')
    ensures Handled(web, fetched', queue', u, k)
  {
    if !exists d: int :: d <= k && (u, d) in fetched {
      var x, d :| d <= k && (x, d) in queue && web.defrag(x) == u;
      if (x, d) !in queue' {
        var d' :| d' <= d && (u, d') in fetched';
      }
    }
  }

  lemma {:induction false} CoverStays(
      web: Web, maxDepth: int, fetched: seq<Entry>, queue: seq<Entry>, fetched': seq<Entry>, queue': seq<Entry>, e: Entry)
    requires CoverOk(web, maxDepth, fetched, queue) && e in fetched && e.1 < maxDepth
    requires Kept(web, fetched, queue, fetched', queue')
    ensures Covered(web, fetched', queue', e.0, e.1 + 1)
  {
    assert Covered(web, fetched, queue, e.0, e.1 + 1);
    forall v | web.Links(e.0, v) ensures Handled(web, fetched', queue', v, e.1 + 1) {
      HandledStays(web, fetched, queue, fetched', queue', v, e.1 + 1);
    }
  }

  /** Taking an address that was fetched before. */
  lemma {:induction false} SkipKeeps(web: Web, seed: string, maxDepth: int, fetched: seq<Entry>, queue: seq<Entry>, cur: int)
    requires Inv(web, seed, maxDepth, fetched, queue, cur) && queue != []
    requires Fetched(fetched, web.defrag(queue[0].0))
    ensures Inv(web, seed, maxDepth, fetched, queue[1..], queue[0].1)
  {
    var rest := queue[1..];
    var d :| (web.defrag(queue[0].0), d) in fetched;
    assert d <= queue[0].1;
    assert Kept(web, fetched, queue, fetched, rest) by {
      assert queue == [queue[0]] + rest;
    }
    forall e | e in fetched && e.1 < maxDepth ensures Covered(web, fetched, rest, e.0, e.1 + 1) {
      CoverStays(web, maxDepth, fetched, queue, fetched, rest, e);
    }
    HandledStays(web, fetched, queue, fetched, rest, web.defrag(seed), 0);
  }

  /** Taking an address that was not: this is its least depth. */
  lemma {:induction false} TakenIsLeast(web: Web, seed: string, maxDepth: int, fetched: seq<Entry>, queue: seq<Entry>, cur: int)
    requires Inv(web, seed, maxDepth, fetched, queue, cur) && queue != []
    requires !Fetched(fetched, web.defrag(queue[0].0))
    ensures Least(web, seed, (web.defrag(queue[0].0), queue[0].1))
  {
    var (x, depth) := queue[0];
    forall d: nat | web.At(seed, web.defrag(x), d) ensures depth <= d {
      if d < depth { var e := NearIsFetched(web, seed, maxDepth, fetched, queue, web.defrag(x), d); }
    }
  }

  /** All but the cover of the address just taken. */
  ghost predicate Taken(
      web: Web, seed: string, maxDepth: int, before: seq<Entry>, fetched: seq<Entry>, queue: seq<Entry>, cur: int)
  {
    && before <= fetched
    && QueueOk(web, seed, maxDepth, queue, cur)
    && FetchedOk(web, seed, maxDepth, fetched, cur)
    && (forall e | e in before && e.1 < maxDepth :: Covered(web, fetched, queue, e.0, e.1 + 1))
    && Handled(web, fetched, queue, web.defrag(seed), 0)
  }

  lemma {:induction false} OneMoreFetched(web: Web, seed: string, maxDepth: int, fetched: seq<Entry>, cur: int, e: Entry)
    requires FetchedOk(web, seed, maxDepth, fetched, cur) && !Fetched(fetched, e.0)
    requires Least(web, seed, e) && cur <= e.1 <= maxDepth
    ensures FetchedOk(web, seed, maxDepth, fetched + [e], e.1)
  {
    forall i | 0 <= i < |fetched| ensures fetched[i].0 != e.0 {
      assert fetched[i] == (fetched[i].0, fetched[i].1) && fetched[i] in fetched;
    }
  }

  lemma {:induction false} TakeKeepsCover(web: Web, seed: string, maxDepth: int, fetched: seq<Entry>, queue: seq<Entry>, e: Entry)
    requires CoverOk(web, maxDepth, fetched, queue) && Handled(web, fetched, queue, web.defrag(seed), 0)
    requires queue != [] && e == (web.defrag(queue[0].0), queue[0].1)
    ensures forall x | x in fetched && x.1 < maxDepth :: Covered(web, fetched + [e], queue[1..], x.0, x.1 + 1)
    ensures Handled(web, fetched + [e], queue[1..], web.defrag(seed), 0)
  {
    var fetched', rest := fetched + [e], queue[1..];
    assert fetched'[|fetched|] == e;
    assert Kept(web, fetched, queue, fetched', rest) by {
      assert queue == [queue[0]] + rest;
    }
    forall x | x in fetched && x.1 < maxDepth ensures Covered(web, fetched', rest, x.0, x.1 + 1) {
      CoverStays(web, maxDepth, fetched, queue, fetched', rest, x);
    }
    HandledStays(web, fetched, queue, fetched', rest, web.defrag(seed), 0);
  }

  lemma {:induction false} TakeKeeps(web: Web, seed: string, maxDepth: int, fetched: seq<Entry>, queue: seq<Entry>, cur: int)
    requires Inv(web, seed, maxDepth, fetched, queue, cur) && queue != []
    requires !Fetched(fetched, web.defrag(queue[0].0))
    ensures var e := (web.defrag(queue[0].0), queue[0].1);
            Taken(web, seed, maxDepth, fetched, fetched + [e], queue[1..], e.1)
  {
    var e := (web.defrag(queue[0].0), queue[0].1);
    TakenIsLeast(web, seed, maxDepth, fetched, queue, cur);
    OneMoreFetched(web, seed, maxDepth, fetched, cur, e);
    TakeKeepsCover(web, seed, maxDepth, fetched, queue, e);
  }

  lemma {:induction false} AtIsBare(web: Web, seed: string, u: string, d: nat)
    requires web.Valid() && web.At(seed, u, d)
    ensures web.defrag(u) == u && u in web.Known(seed)
  {
    if d > 0 {
      var b :| web.At(seed, b, d - 1) && web.Links(b, u);
      var l :| l in web.ok[b] && web.defrag(l) == u;
    }
  }

  /** A longer queue keeps what was handled. */
  lemma {:induction false} LongerQueue(
      web: Web, seed: string, maxDepth: int, before: seq<Entry>, fetched: seq<Entry>, queue: seq<Entry>, queue': seq<Entry>, cur: int)
    requires Taken(web, seed, maxDepth, before, fetched, queue, cur)
    requires queue <= queue' && QueueOk(web, seed, maxDepth, queue', cur)
    ensures Taken(web, seed, maxDepth, before, fetched, queue', cur)
  {
    assert Kept(web, fetched, queue, fetched, queue');
    forall x, v | x in before && x.1 < maxDepth && web.Links(x.0, v) ensures Handled(web, fetched, queue', v, x.1 + 1) {
      assert Covered(web, fetched, queue, x.0, x.1 + 1);
      HandledStays(web, fetched, queue, fetched, queue', v, x.1 + 1);
    }
    HandledStays(web, fetched, queue, fetched, queue', web.defrag(seed), 0);
  }

  lemma {:induction false} SeenIsHandled(web: Web, seed: string, maxDepth: int, fetched: seq<Entry>, queue: seq<Entry>, cur: int, link: string)
    requires web.Valid() && FetchedOk(web, seed, maxDepth, fetched, cur) && Fetched(fetched, link)
    ensures Handled(web, fetched, queue, web.defrag(link), cur + 1)
  {
    var d :| (link, d) in fetched;
    assert Least(web, seed, (link, d));
    AtIsBare(web, seed, link, d);
  }

  lemma {:induction false} LinkIsQueued(web: Web, seed: string, maxDepth: int, fetched: seq<Entry>, queue: seq<Entry>, e: Entry, link: string)
    requires QueueOk(web, seed, maxDepth, queue, e.1) && Least(web, seed, e)
    requires e.1 < maxDepth && e.0 in web.ok && link in web.ok[e.0]
    ensures var queue' := queue + [(link, e.1 + 1)];
            QueueOk(web, seed, maxDepth, queue', e.1) && Handled(web, fetched, queue', web.defrag(link), e.1 + 1)
  {
    var queue' := queue + [(link, e.1 + 1)];
    assert queue'[|queue|] == (link, e.1 + 1);
    assert web.Links(e.0, web.defrag(link));
    assert web.At(seed, web.defrag(link), e.1 + 1);
  }

  /** One link of the address just fetched: it is queued unless it was fetched before. */
  lemma {:induction false} LinkKeeps(
      web: Web, seed: string, maxDepth: int, before: seq<Entry>, fetched: seq<Entry>, queue: seq<Entry>, e: Entry, link: string)
    requires web.Valid() && Taken(web, seed, maxDepth, before, fetched, queue, e.1)
    requires e in fetched && e.1 < maxDepth && e.0 in web.ok && link in web.ok[e.0]
    ensures var queue' := if Fetched(fetched, link) then queue else queue + [(link, e.1 + 1)];
            && Taken(web, seed, maxDepth, before, fetched, queue', e.1) && queue <= queue'
            && Handled(web, fetched, queue', web.defrag(link), e.1 + 1)
  {
    if Fetched(fetched, link) {
      SeenIsHandled(web, seed, maxDepth, fetched, queue, e.1, link);
    } else {
      assert Least(web, seed, e);
      hide Handled;
      hide QueueOk;
      LinkIsQueued(web, seed, maxDepth, fetched, queue, e, link);
      LongerQueue(web, seed, maxDepth, before, fetched, queue, queue + [(link, e.1 + 1)], e.1);
    }
  }

  /** The address just taken needs no links, or has all of its links handled. */
  lemma {:induction false} TakenIsCovered(
      web: Web, seed: string, maxDepth: int, before: seq<Entry>, queue: seq<Entry>, e: Entry)
    requires Taken(web, seed, maxDepth, before, before + [e], queue, e.1)
    requires e.1 < maxDepth && e.0 in web.ok ==>
               forall l | l in web.ok[e.0] :: Handled(web, before + [e], queue, web.defrag(l), e.1 + 1)
    ensures Inv(web, seed, maxDepth, before + [e], queue, e.1)
  {
    forall x | x in before + [e] && x.1 < maxDepth ensures Covered(web, before + [e], queue, x.0, x.1 + 1) {
    }
  }

  /** With an empty queue all is fetched; with something in it, all that is nearer. */
  lemma {:induction false} RestIsAccounted(
      web: Web, seed: string, maxDepth: int, fetched: seq<Entry>, queue: seq<Entry>, cur: int, fetched': seq<Entry>, full: bool)
    requires Inv(web, seed, maxDepth, fetched, queue, cur)
    requires fetched <= fetched' && (queue != [] ==> full)
    requires queue != [] ==> forall i | 0 <= i < |fetched'| :: fetched'[i].1 <= queue[0].1
    ensures AllAccounted(web, seed, maxDepth, fetched', full)
  {
    forall u, d: nat | d <= maxDepth && web.At(seed, u, d) ensures Accounted(fetched', full, u, d) {
      if queue == [] || d < queue[0].1 {
        var e := NearIsFetched(web, seed, maxDepth, fetched, queue, u, d);
        assert (u, e) in fetched';
      }
    }
  }

  /** The next address, if it was not fetched before. */
  lemma {:induction false} NextIsFresh(
      web: Web, seed: string, maxDepth: int, fetched: seq<Entry>, queue: seq<Entry>, cur: int, visited: set<string>)
    requires web.Valid() && Inv(web, seed, maxDepth, fetched, queue, cur) && VisitedOk(fetched, visited)
    requires queue != [] && web.defrag(queue[0].0) !in visited
    ensures var e := (web.defrag(queue[0].0), queue[0].1);
            && Taken(web, seed, maxDepth, fetched, fetched + [e], queue[1..], e.1)
            && FetchedOk(web, seed, maxDepth, fetched + [e], e.1)
            && VisitedOk(fetched + [e], visited + {e.0})
            && AllAccounted(web, seed, maxDepth, fetched + [e], true)
            && |web.Known(seed) - (visited + {e.0})| < |web.Known(seed) - visited|
  {
    var e := (web.defrag(queue[0].0), queue[0].1);
    TakeKeeps(web, seed, maxDepth, fetched, queue, cur);
    RestIsAccounted(web, seed, maxDepth, fetched, queue, cur, fetched + [e], true);
    AtIsBare(web, seed, e.0, e.1);
    Fewer(web.Known(seed), visited, e.0);
    VisitedGrows(fetched, visited, e);
  }

  lemma {:induction false} VisitedGrows(fetched: seq<Entry>, visited: set<string>, e: Entry)
    requires VisitedOk(fetched, visited)
    ensures VisitedOk(fetched + [e], visited + {e.0})
  {
    var fetched' := fetched + [e];
    assert fetched'[|fetched|] == e;
    forall u | u in visited ensures Fetched(fetched', u) {
      var d :| (u, d) in fetched;
      assert (u, d) in fetched';
    }
    var (u0, d0) := e;
    assert (u0, d0) in fetched';
    forall u | Fetched(fetched', u) ensures u in visited + {e.0} {
      var d :| (u, d) in fetched';
      assert (u, d) == e || (u, d) in fetched;
    }
  }

  lemma {:induction false} FetchedGrows(web: Web, fetched: seq<Entry>, e: Entry)
    ensures DocsOf(web, fetched + [e]) == DocsOf(web, fetched) + if e.0 in web.ok then [e.0] else []
    ensures FailuresOf(web, fetched + [e]) == FailuresOf(web, fetched) + if e.0 in web.ok then [] else [e.0]
  {
    FlatMapConcat((e: Entry) => if e.0 in web.ok then [e.0] else [], fetched, [e]);
    FlatMapOne((e: Entry) => if e.0 in web.ok then [e.0] else [], e);
    FlatMapConcat((e: Entry) => if e.0 in web.ok then [] else [e.0], fetched, [e]);
    FlatMapOne((e: Entry) => if e.0 in web.ok then [] else [e.0], e);
  }

  lemma {:induction false} Fewer(known: set<string>, visited: set<string>, u: string)
    requires u in known && u !in visited
    ensures |known - (visited + {u})| < |known - visited|
  {
    assert known - visited == (known - (visited + {u})) + {u};
  }

  lemma {:induction false} StartIsOk(web: Web, seed: string, maxDepth: int)
    requires 0 <= maxDepth
    ensures Inv(web, seed, maxDepth, [], [(seed, 0)], 0) && FetchedOk(web, seed, maxDepth, [], 0)
  {
    assert [(seed, 0)][0] == (seed, 0);
  }

  lemma {:induction false} FetchedByNow(web: Web, seed: string, maxDepth: int, fetched: seq<Entry>, queue: seq<Entry>, cur: int)
    requires Inv(web, seed, maxDepth, fetched, queue, cur)
    ensures FetchedOk(web, seed, maxDepth, fetched, cur)
  {
  }

  lemma {:induction false} FetchedEachOnce(web: Web, seed: string, maxDepth: int, fetched: seq<Entry>, cur: int)
    requires FetchedOk(web, seed, maxDepth, fetched, cur)
    ensures EachOnce(web, seed, fetched) && forall i | 0 <= i < |fetched| :: fetched[i].1 <= maxDepth
  {
  }

  // ------------------------------------------------------------------------------------------
  // The code
  // ------------------------------------------------------------------------------------------

  datatype CrawlResult = Crawled(docs: seq<string>, failures: seq<string>) | ValueError

  /** The links of the page `e` that were not visited are queued. */
  method QueueLinks(web: Web, seed: string, maxDepth: int, ghost before: seq<Entry>, e: Entry, visited: set<string>, queue: seq<Entry>)
      returns (queue': seq<Entry>)
    requires web.Valid() && e.1 < maxDepth && e.0 in web.ok
    requires Taken(web, seed, maxDepth, before, before + [e], queue, e.1) && VisitedOk(before + [e], visited)
    ensures Inv(web, seed, maxDepth, before + [e], queue', e.1)
  {
    hide Taken;
    hide Inv;
    hide Handled;
    ghost var fetched := before + [e];
    assert fetched[|before|] == e;
    queue' := queue;
    var links, i := web.ok[e.0], 0;
    while i < |links|
      invariant i <= |links| && Taken(web, seed, maxDepth, before, fetched, queue', e.1)
      invariant forall j | 0 <= j < i :: Handled(web, fetched, queue', web.defrag(links[j]), e.1 + 1)
    {
      ghost var was := queue';
      LinkKeeps(web, seed, maxDepth, before, fetched, queue', e, links[i]);
      if links[i] !in visited { queue' := queue' + [(links[i], e.1 + 1)]; }
      assert Kept(web, fetched, was, fetched, queue');
      forall j | 0 <= j < i ensures Handled(web, fetched, queue', web.defrag(links[j]), e.1 + 1) {
        HandledStays(web, fetched, was, fetched, queue', web.defrag(links[j]), e.1 + 1);
      }
      i := i + 1;
    }
    TakenIsCovered(web, seed, maxDepth, before, queue', e);
  }

  /** The crawl.  `fetched` lists what was fetched, with depths: each address once, at its least
      depth, nearest first; what succeeded became a document and what did not a failure; and nothing
      within reach is left out unless the cap on documents was met by pages no farther away. */
  method IngestUrl(web: Web, seed: string, maxDepth: int, maxPages: int) returns (r: CrawlResult, ghost fetched: seq<Entry>)
    requires web.Valid()
    ensures r.ValueError? <==> maxPages < 1 || maxDepth < 0
    ensures r.Crawled? ==>
              && r.docs == DocsOf(web, fetched) && r.failures == FailuresOf(web, fetched)
              && |r.docs| <= maxPages && EachOnce(web, seed, fetched)
              && (forall i | 0 <= i < |fetched| :: fetched[i].1 <= maxDepth)
              && AllAccounted(web, seed, maxDepth, fetched, |r.docs| == maxPages)
  {
    hide Inv;
    hide Taken;
    hide FetchedOk;
    hide AllAccounted;
    fetched := [];
    if maxPages < 1 || maxDepth < 0 { return ValueError, fetched; }
    var visited: set<string> := {};
    var queue := [(seed, 0)];
    var docs, failures: seq<string> := [], [];
    ghost var cur := 0;
    StartIsOk(web, seed, maxDepth);
    while queue != [] && |docs| < maxPages
      invariant |docs| <= maxPages && docs == DocsOf(web, fetched) && failures == FailuresOf(web, fetched)
      invariant |docs| < maxPages ==> Inv(web, seed, maxDepth, fetched, queue, cur)
      invariant FetchedOk(web, seed, maxDepth, fetched, cur) && VisitedOk(fetched, visited)
      invariant |docs| == maxPages ==> AllAccounted(web, seed, maxDepth, fetched, true)
      decreases |web.Known(seed) - visited|, |queue|
    {
      var (link, depth) := queue[0];
      var url := web.defrag(link);
      if url in visited {
        SkipKeeps(web, seed, maxDepth, fetched, queue, cur);
        FetchedByNow(web, seed, maxDepth, fetched, queue[1..], depth);
        queue, cur := queue[1..], depth;
        continue;
      }
      ghost var before := fetched;
      NextIsFresh(web, seed, maxDepth, fetched, queue, cur, visited);
      FetchedGrows(web, fetched, (url, depth));
      queue, cur := queue[1..], depth;
      visited, fetched := visited + {url}, fetched + [(url, depth)];
      if url !in web.ok {
        failures := failures + [url];
        TakenIsCovered(web, seed, maxDepth, before, queue, (url, depth));
        continue;
      }
      docs := docs + [url];
      if depth < maxDepth && |docs| < maxPages {
        queue := QueueLinks(web, seed, maxDepth, before, (url, depth), visited, queue);
      } else if |docs| < maxPages {
        TakenIsCovered(web, seed, maxDepth, before, queue, (url, depth));
      }
    }
    if |docs| < maxPages { RestIsAccounted(web, seed, maxDepth, fetched, queue, cur, fetched, false); }
    FetchedEachOnce(web, seed, maxDepth, fetched, cur);
    return Crawled(docs, failures), fetched;
  }

  /** Every address fetched counts exactly once, as a document or as a failure. */
  lemma {:induction false} DocsAndFailures(web: Web, fetched: seq<Entry>)
    ensures |DocsOf(web, fetched)| + |FailuresOf(web, fetched)| == |fetched|
    decreases |fetched|
  {
    if fetched != [] {
      var n := |fetched| - 1;
      assert fetched == fetched[..n] + [fetched[n]];
      FetchedGrows(web, fetched[..n], fetched[n]);
      DocsAndFailures(web, fetched[..n]);
    }
  }

  /** Document `i` is what was fetched at place `places[i]`; these are the places where it could be had. */
  ghost predicate AreDocs(web: Web, fetched: seq<Entry>, docs: seq<string>, places: seq<nat>) {
    && |places| == |docs|
    && (forall i | 0 <= i < |places| :: places[i] < |fetched| && docs[i] == fetched[places[i]].0)
    && (forall i, j | 0 <= i < j < |places| :: places[i] < places[j])
    && (forall k: nat | k < |fetched| :: k in places <==> fetched[k].0 in web.ok)
  }

  lemma {:induction false} AnotherDoc(web: Web, fetched: seq<Entry>, docs: seq<string>, places: seq<nat>, e: Entry)
    requires AreDocs(web, fetched, docs, places)
    ensures if e.0 in web.ok then AreDocs(web, fetched + [e], docs + [e.0], places + [|fetched|])
            else AreDocs(web, fetched + [e], docs, places)
  {
    var fetched', places' := fetched + [e], places + [|fetched|];
    assert places'[|places|] == |fetched| && fetched'[|fetched|] == e;
    forall k: nat | k < |fetched| ensures fetched'[k] == fetched[k] && (k in places' <==> k in places) {}
  }

  /** The documents are the addresses fetched that could be had, in the order in which they were
      fetched; the failures are the others. */
  lemma {:induction false} DocsInOrder(web: Web, fetched: seq<Entry>) returns (places: seq<nat>)
    ensures AreDocs(web, fetched, DocsOf(web, fetched), places)
    decreases |fetched|
  {
    if fetched == [] {
      places := [];
    } else {
      hide AreDocs;
      var n := |fetched| - 1;
      assert fetched == fetched[..n] + [fetched[n]];
      FetchedGrows(web, fetched[..n], fetched[n]);
      var before := DocsInOrder(web, fetched[..n]);
      AnotherDoc(web, fetched[..n], DocsOf(web, fetched[..n]), before, fetched[n]);
      hide DocsOf;
      assert DocsOf(web, fetched[..n]) + [] == DocsOf(web, fetched[..n]);
      places := if fetched[n].0 in web.ok then before + [n] else before;
    }
  }

  lemma {:induction false} FetchedOneMore(fetched: seq<Entry>, e: Entry, u: string)
    ensures Fetched(fetched + [e], u) <==> Fetched(fetched, u) || e.0 == u
  {
    var fetched' := fetched + [e];
    var (u0, d0) := e;
    assert fetched'[|fetched|] == (u0, d0);
    if Fetched(fetched, u) {
      var d: int :| (u, d) in fetched;
      assert (u, d) in fetched';
    }
    if Fetched(fetched', u) {
      var d: int :| (u, d) in fetched';
      assert (u, d) == e || (u, d) in fetched;
    }
  }

  lemma {:induction false} FailuresAreTheRest(web: Web, fetched: seq<Entry>, u: string)
    ensures u in FailuresOf(web, fetched) <==> Fetched(fetched, u) && u !in web.ok
    decreases |fetched|
  {
    if fetched != [] {
      var n := |fetched| - 1;
      var before := fetched[..n];
      assert fetched == before + [fetched[n]];
      FetchedGrows(web, before, fetched[n]);
      FailuresAreTheRest(web, before, u);
      hide FailuresOf;
      FetchedOneMore(before, fetched[n], u);
    }
  }
}

/** The category walk is sound, complete up to its depth, free of duplicates and nearest first, on
    cyclic category graphs too (workers/py/narrowmind_workers/ingestion/wikipedia.py:119-153). */
module CategoryWalkLaws {
  import opened CategoryWalk

  type Entry = (string, int)

  /** The depth in force: the root is expanded even when `max_depth` is negative. */
  function Limit(maxDepth: int): nat {
    if maxDepth < 0 then 0 else maxDepth
  }

  /** Category `c` is `d` steps down from the root; categories are in namespace 14, articles in 0. */
  ghost predicate At(wiki: Wiki, root: string, c: string, d: nat)
    decreases d
  {
    if d == 0 then c == root
    else wiki.ns(c) == 14 && exists b :: At(wiki, root, b, d - 1) && c in wiki.Members(b)
  }

  /** Page `t` is listed in a category that is `d` steps down. */
  ghost predicate FoundAt(wiki: Wiki, root: string, t: string, d: nat) {
    wiki.ns(t) == 0 && exists c :: At(wiki, root, c, d) && t in wiki.Members(c)
  }

  ghost predicate Within(wiki: Wiki, root: string, t: string, limit: int) {
    exists d: nat :: d <= limit && FoundAt(wiki, root, t, d)
  }

  ghost predicate Distinct(pages: seq<string>) {
    forall i, j | 0 <= i < j < |pages| :: pages[i] != pages[j]
  }

  /** No page is as near the root as `d` without every earlier page being as near. */
  ghost predicate NearestFirst(wiki: Wiki, root: string, pages: seq<string>) {
    forall i, j, d: nat | 0 <= i < j < |pages| && FoundAt(wiki, root, pages[j], d) :: Within(wiki, root, pages[i], d)
  }

  // ------------------------------------------------------------------------------------------
  // The invariant: `done` are the categories expanded, `now` is the one being expanded
  // ------------------------------------------------------------------------------------------

  ghost predicate Logged(log: set<Entry>, queue: seq<Entry>, t: string, k: int) {
    exists d: int :: d <= k && ((t, d) in log || (t, d) in queue)
  }

  /** Title `t` was seen by an expansion at depth `k`. */
  ghost predicate Handled(wiki: Wiki, maxDepth: int, log: set<Entry>, w: Walker, t: string, k: int) {
    t in w.visited && (wiki.ns(t) == CATEGORY && k < maxDepth ==> Logged(log, w.queue, t, k + 1))
  }

  ghost predicate Covered(wiki: Wiki, maxDepth: int, log: set<Entry>, w: Walker, e: Entry) {
    forall t | t in wiki.Members(e.0) :: Handled(wiki, maxDepth, log, w, t, e.1)
  }

  ghost predicate EntryOk(wiki: Wiki, root: string, maxDepth: int, e: Entry) {
    0 <= e.1 <= Limit(maxDepth) && At(wiki, root, e.0, e.1)
  }

  /** Depths in the queue never go down and span at most one step. */
  ghost predicate QueueOk(queue: seq<Entry>, cur: int) {
    && (forall i | 0 <= i < |queue| :: cur <= queue[i].1 <= cur + 1)
    && (forall i, j | 0 <= i < j < |queue| :: queue[i].1 <= queue[j].1)
  }

  ghost predicate LogOk(wiki: Wiki, root: string, maxDepth: int, done: set<Entry>, now: set<Entry>, cur: int, queue: seq<Entry>) {
    && (forall e | e in done :: EntryOk(wiki, root, maxDepth, e) && e.1 <= cur)
    && (forall e | e in now :: EntryOk(wiki, root, maxDepth, e) && e.1 == cur)
    && (forall e | e in queue :: EntryOk(wiki, root, maxDepth, e))
    && QueueOk(queue, cur)
    && Logged(done + now, queue, root, 0)
  }

  ghost predicate MarksOk(wiki: Wiki, maxDepth: int, log: set<Entry>, cur: int, w: Walker) {
    forall t | t in w.visited ::
      (wiki.ns(t) == ARTICLE ==> t in w.pages) && Handled(wiki, maxDepth, log, w, t, cur)
  }

  ghost predicate PagesOk(wiki: Wiki, root: string, maxDepth: int, cur: int, w: Walker) {
    && Distinct(w.pages) && NearestFirst(wiki, root, w.pages)
    && (forall i | 0 <= i < |w.pages| ::
          w.pages[i] in w.visited && Within(wiki, root, w.pages[i], cur) && Within(wiki, root, w.pages[i], Limit(maxDepth)))
  }

  ghost predicate DoneCovered(wiki: Wiki, maxDepth: int, done: set<Entry>, log: set<Entry>, w: Walker) {
    forall e | e in done :: Covered(wiki, maxDepth, log, w, e)
  }

  ghost predicate Inv(wiki: Wiki, root: string, maxDepth: int, done: set<Entry>, now: set<Entry>, cur: int, w: Walker) {
    && LogOk(wiki, root, maxDepth, done, now, cur, w.queue)
    && MarksOk(wiki, maxDepth, done + now, cur, w)
    && PagesOk(wiki, root, maxDepth, cur, w)
    && DoneCovered(wiki, maxDepth, done, done + now, w)
  }

  // ------------------------------------------------------------------------------------------
  // Everything nearer than what is still open has been expanded
  // ------------------------------------------------------------------------------------------

  lemma {:induction false} NearIsDone(
      wiki: Wiki, root: string, maxDepth: int, done: set<Entry>, now: set<Entry>, cur: int, w: Walker, c: string, d: nat)
      returns (e: int)
    requires LogOk(wiki, root, maxDepth, done, now, cur, w.queue) && DoneCovered(wiki, maxDepth, done, done + now, w)
    requires d <= Limit(maxDepth) && At(wiki, root, c, d)
    requires forall x | x in now || x in w.queue :: d < x.1
    ensures e <= d && (c, e) in done
    decreases d
  {
    if d == 0 {
      e :| e <= 0 && ((c, e) in done + now || (c, e) in w.queue);
    } else {
      var b :| At(wiki, root, b, d - 1) && c in wiki.Members(b);
      var e' := NearIsDone(wiki, root, maxDepth, done, now, cur, w, b, d - 1);
      assert Covered(wiki, maxDepth, done + now, w, (b, e'));
      assert Handled(wiki, maxDepth, done + now, w, c, e');
      e :| e <= e' + 1 && ((c, e) in done + now || (c, e) in w.queue);
    }
  }

  // ------------------------------------------------------------------------------------------
  // One member
  // ------------------------------------------------------------------------------------------

  lemma {:induction false} HandledStays(wiki: Wiki, maxDepth: int, log: set<Entry>, w: Walker, w': Walker, t: string, k: int)
    requires Handled(wiki, maxDepth, log, w, t, k)
    requires w.visited <= w'.visited && w.queue <= w'.queue
    ensures Handled(wiki, maxDepth, log, w', t, k)
  {
    if wiki.ns(t) == CATEGORY && k < maxDepth {
      var d :| d <= k + 1 && ((t, d) in log || (t, d) in w.queue);
      assert (t, d) in log || (t, d) in w'.queue;
    }
  }

  lemma {:induction false} CoveredStays(wiki: Wiki, maxDepth: int, done: set<Entry>, log: set<Entry>, w: Walker, w': Walker)
    requires DoneCovered(wiki, maxDepth, done, log, w)
    requires w.visited <= w'.visited && w.queue <= w'.queue
    ensures DoneCovered(wiki, maxDepth, done, log, w')
  {
    forall e, t | e in done && t in wiki.Members(e.0) ensures Handled(wiki, maxDepth, log, w', t, e.1) {
      assert Covered(wiki, maxDepth, log, w, e);
      HandledStays(wiki, maxDepth, log, w, w', t, e.1);
    }
  }

  /** Pages of categories nearer than the one being expanded have been seen, so a page seen for the
      first time is in none of them. */
  lemma {:induction false} NearPageIsSeen(
      wiki: Wiki, root: string, maxDepth: int, done: set<Entry>, cat: string, cur: nat, w: Walker, title: string, d: nat)
    requires Inv(wiki, root, maxDepth, done, {(cat, cur)}, cur, w)
    requires FoundAt(wiki, root, title, d) && d < cur
    ensures title in w.visited
  {
    var c :| At(wiki, root, c, d) && title in wiki.Members(c);
    var e := NearIsDone(wiki, root, maxDepth, done, {(cat, cur)}, cur, w, c, d);
    assert Covered(wiki, maxDepth, done + {(cat, cur)}, w, (c, e));
    assert Handled(wiki, maxDepth, done + {(cat, cur)}, w, title, e);
  }

  lemma {:induction false} NewPageOk(
      wiki: Wiki, root: string, maxDepth: int, done: set<Entry>, cat: string, cur: nat, w: Walker, title: string)
    requires Inv(wiki, root, maxDepth, done, {(cat, cur)}, cur, w)
    requires title in wiki.Members(cat) && title !in w.visited && wiki.ns(title) == ARTICLE
    ensures PagesOk(wiki, root, maxDepth, cur, See(wiki, maxDepth, cur, title, w))
  {
    var w' := See(wiki, maxDepth, cur, title, w);
    assert EntryOk(wiki, root, maxDepth, (cat, cur));
    assert FoundAt(wiki, root, title, cur);
    forall i, j, d: nat | 0 <= i < j < |w'.pages| && FoundAt(wiki, root, w'.pages[j], d)
      ensures Within(wiki, root, w'.pages[i], d)
    {
      if j == |w.pages| {
        if d < cur { NearPageIsSeen(wiki, root, maxDepth, done, cat, cur, w, title, d); }
        assert Within(wiki, root, w.pages[i], cur);
      } else {
        assert FoundAt(wiki, root, w.pages[j], d);
      }
    }
  }

  lemma {:induction false} SeeKeepsLog(
      wiki: Wiki, root: string, maxDepth: int, done: set<Entry>, cat: string, cur: nat, w: Walker, title: string)
    requires LogOk(wiki, root, maxDepth, done, {(cat, cur)}, cur, w.queue)
    requires title in wiki.Members(cat)
    ensures LogOk(wiki, root, maxDepth, done, {(cat, cur)}, cur, See(wiki, maxDepth, cur, title, w).queue)
  {
    var w' := See(wiki, maxDepth, cur, title, w);
    assert EntryOk(wiki, root, maxDepth, (cat, cur));
    if w'.queue != w.queue {
      assert At(wiki, root, title, cur + 1);
      var k :| k <= 0 && ((root, k) in done + {(cat, cur)} || (root, k) in w.queue);
      assert (root, k) in done + {(cat, cur)} || (root, k) in w'.queue;
    }
  }

  lemma {:induction false} SeeMarks(wiki: Wiki, maxDepth: int, log: set<Entry>, cur: int, w: Walker, title: string)
    requires MarksOk(wiki, maxDepth, log, cur, w)
    ensures var w' := See(wiki, maxDepth, cur, title, w);
            MarksOk(wiki, maxDepth, log, cur, w') && Handled(wiki, maxDepth, log, w', title, cur)
  {
    var w' := See(wiki, maxDepth, cur, title, w);
    forall t | t in w'.visited
      ensures (wiki.ns(t) == ARTICLE ==> t in w'.pages) && Handled(wiki, maxDepth, log, w', t, cur)
    {
      if t in w.visited {
        HandledStays(wiki, maxDepth, log, w, w', t, cur);
      } else if wiki.ns(t) == CATEGORY && cur < maxDepth {
        assert (t, cur + 1) == w'.queue[|w.queue|];
      }
    }
  }

  lemma {:induction false} SeeKeeps(
      wiki: Wiki, root: string, maxDepth: int, done: set<Entry>, cat: string, cur: nat, w: Walker, title: string)
    requires Inv(wiki, root, maxDepth, done, {(cat, cur)}, cur, w) && title in wiki.Members(cat)
    ensures Inv(wiki, root, maxDepth, done, {(cat, cur)}, cur, See(wiki, maxDepth, cur, title, w))
  {
    var w' := See(wiki, maxDepth, cur, title, w);
    SeeKeepsLog(wiki, root, maxDepth, done, cat, cur, w, title);
    SeeMarks(wiki, maxDepth, done + {(cat, cur)}, cur, w, title);
    CoveredStays(wiki, maxDepth, done, done + {(cat, cur)}, w, w');
    if title !in w.visited && wiki.ns(title) == ARTICLE {
      NewPageOk(wiki, root, maxDepth, done, cat, cur, w, title);
    }
  }

  // ------------------------------------------------------------------------------------------
  // One category
  // ------------------------------------------------------------------------------------------

  lemma {:induction false} ScanKeeps(
      wiki: Wiki, root: string, maxDepth: int, done: set<Entry>, cat: string, cur: nat, todo: seq<string>, w: Walker)
    requires Inv(wiki, root, maxDepth, done, {(cat, cur)}, cur, w)
    requires forall t | t in todo :: t in wiki.Members(cat)
    requires forall t | t in wiki.Members(cat) && t !in todo :: Handled(wiki, maxDepth, done + {(cat, cur)}, w, t, cur)
    ensures var w' := Scan(wiki, maxDepth, cur, todo, w);
            Inv(wiki, root, maxDepth, done, {(cat, cur)}, cur, w') && Covered(wiki, maxDepth, done + {(cat, cur)}, w', (cat, cur))
    decreases |todo|
  {
    if todo != [] {
      hide Inv;
      var w' := See(wiki, maxDepth, cur, todo[0], w);
      SeeKeeps(wiki, root, maxDepth, done, cat, cur, w, todo[0]);
      forall t | t in wiki.Members(cat) && t !in todo[1..] ensures Handled(wiki, maxDepth, done + {(cat, cur)}, w', t, cur) {
        if t == todo[0] {
          TitleIsHandled(wiki, root, maxDepth, done, cat, cur, w, t);
        } else {
          HandledStays(wiki, maxDepth, done + {(cat, cur)}, w, w', t, cur);
        }
      }
      ScanKeeps(wiki, root, maxDepth, done, cat, cur, todo[1..], w');
    }
  }

  lemma {:induction false} TitleIsHandled(
      wiki: Wiki, root: string, maxDepth: int, done: set<Entry>, cat: string, cur: nat, w: Walker, title: string)
    requires Inv(wiki, root, maxDepth, done, {(cat, cur)}, cur, w)
    ensures Handled(wiki, maxDepth, done + {(cat, cur)}, See(wiki, maxDepth, cur, title, w), title, cur)
  {
    SeeMarks(wiki, maxDepth, done + {(cat, cur)}, cur, w, title);
  }

  /** Taking the next category from the queue. */
  lemma {:induction false} PopKeeps(wiki: Wiki, root: string, maxDepth: int, done: set<Entry>, cur: int, w: Walker)
    requires Inv(wiki, root, maxDepth, done, {}, cur, w) && w.queue != []
    ensures var e := w.queue[0];
            e.1 >= 0 && Inv(wiki, root, maxDepth, done, {e}, e.1, w.(queue := w.queue[1..]))
  {
    var e := w.queue[0];
    var w' := w.(queue := w.queue[1..]);
    assert w.queue == [e] + w'.queue;
    assert EntryOk(wiki, root, maxDepth, e);
    forall t, k, k' | k <= k' && Handled(wiki, maxDepth, done + {}, w, t, k) ensures Handled(wiki, maxDepth, done + {e}, w', t, k') {
      if wiki.ns(t) == CATEGORY && k' < maxDepth {
        var d :| d <= k + 1 && ((t, d) in done + {} || (t, d) in w.queue);
        assert (t, d) in done + {e} || (t, d) in w'.queue;
      }
    }
    var k :| k <= 0 && ((root, k) in done + {} || (root, k) in w.queue);
    assert (root, k) in done + {e} || (root, k) in w'.queue;
  }

  lemma {:induction false} ClosedKeeps(wiki: Wiki, root: string, maxDepth: int, done: set<Entry>, e: Entry, w: Walker)
    requires Inv(wiki, root, maxDepth, done, {e}, e.1, w) && Covered(wiki, maxDepth, done + {e}, w, e)
    ensures Inv(wiki, root, maxDepth, done + {e}, {}, e.1, w)
  {
    assert done + {e} + {} == done + {e};
  }

  lemma {:induction false} ExpandKeeps(wiki: Wiki, root: string, maxDepth: int, done: set<Entry>, cur: int, w: Walker)
    requires Inv(wiki, root, maxDepth, done, {}, cur, w) && w.queue != []
    ensures Inv(wiki, root, maxDepth, done + {w.queue[0]}, {}, w.queue[0].1, Expand(wiki, maxDepth, w))
  {
    hide Inv;
    var e := w.queue[0];
    PopKeeps(wiki, root, maxDepth, done, cur, w);
    ScanKeeps(wiki, root, maxDepth, done, e.0, e.1, wiki.Members(e.0), w.(queue := w.queue[1..]));
    ClosedKeeps(wiki, root, maxDepth, done, e, Expand(wiki, maxDepth, w));
  }

  // ------------------------------------------------------------------------------------------
  // The whole walk
  // ------------------------------------------------------------------------------------------

  /** What the pages of a walk of depth `limit` are to be. */
  ghost predicate Right(wiki: Wiki, root: string, limit: nat, pages: seq<string>) {
    && Distinct(pages) && NearestFirst(wiki, root, pages)
    && (forall t :: t in pages <==> Within(wiki, root, t, limit))
  }

  lemma {:induction false} EndIsRight(wiki: Wiki, root: string, maxDepth: int, done: set<Entry>, cur: int, w: Walker)
    requires Inv(wiki, root, maxDepth, done, {}, cur, w) && w.queue == []
    ensures Right(wiki, root, Limit(maxDepth), w.pages)
  {
    forall t | Within(wiki, root, t, Limit(maxDepth)) ensures t in w.pages {
      var d: nat :| d <= Limit(maxDepth) && FoundAt(wiki, root, t, d);
      var c :| At(wiki, root, c, d) && t in wiki.Members(c);
      var e := NearIsDone(wiki, root, maxDepth, done, {}, cur, w, c, d);
      assert Covered(wiki, maxDepth, done + {}, w, (c, e));
      assert Handled(wiki, maxDepth, done + {}, w, t, e);
    }
  }

  lemma {:induction false} WalkIsRight(wiki: Wiki, root: string, maxDepth: int, done: set<Entry>, cur: int, w: Walker)
    requires Inv(wiki, root, maxDepth, done, {}, cur, w)
    ensures Right(wiki, root, Limit(maxDepth), Walk(wiki, maxDepth, w))
    decreases |wiki.Titles() - w.visited|, |w.queue|
  {
    if w.queue == [] {
      EndIsRight(wiki, root, maxDepth, done, cur, w);
    } else {
      hide Inv;
      hide Right;
      ExpandKeeps(wiki, root, maxDepth, done, cur, w);
      ExpandShrinks(wiki, maxDepth, w);
      WalkIsRight(wiki, root, maxDepth, done + {w.queue[0]}, w.queue[0].1, Expand(wiki, maxDepth, w));
    }
  }

  /** The uncapped walk returns exactly the articles listed in a category at most `max_depth` steps
      down, each once, nearest first. */
  lemma {:induction false} AllPagesAreRight(wiki: Wiki, root: string, maxDepth: int)
    ensures Right(wiki, root, Limit(maxDepth), AllPages(wiki, root, maxDepth))
  {
    assert At(wiki, root, root, 0);
    assert [(root, 0)][0] == (root, 0);
    assert (root, 0) in [(root, 0)];
    assert Logged({} + {}, [(root, 0)], root, 0);
    WalkIsRight(wiki, root, maxDepth, {}, 0, Walker([], {}, [(root, 0)]));
  }

  /** What a caller gets from the capped walk: distinct articles within reach; all of them unless
      the cap was hit, and then none that is left out is nearer than one that is returned. */
  lemma {:induction false} CappedPagesAreRight(wiki: Wiki, root: string, maxDepth: int, pages: seq<string>, t: string, d: nat)
    requires pages <= AllPages(wiki, root, maxDepth)
    ensures Distinct(pages) && NearestFirst(wiki, root, pages)
    ensures t in pages ==> Within(wiki, root, t, Limit(maxDepth))
    ensures |pages| == |AllPages(wiki, root, maxDepth)| && Within(wiki, root, t, Limit(maxDepth)) ==> t in pages
    ensures d <= Limit(maxDepth) && FoundAt(wiki, root, t, d) && t !in pages ==>
              forall p | p in pages :: Within(wiki, root, p, d)
  {
    var all := AllPages(wiki, root, maxDepth);
    AllPagesAreRight(wiki, root, maxDepth);
    assert forall i | 0 <= i < |pages| :: pages[i] == all[i];
    if d <= Limit(maxDepth) && FoundAt(wiki, root, t, d) && t !in pages {
      assert t in all;
      var j :| 0 <= j < |all| && all[j] == t;
      forall p | p in pages ensures Within(wiki, root, p, d) {
        var i :| 0 <= i < |pages| && pages[i] == p;
        assert i < j && all[i] == p;
      }
    }
  }
}

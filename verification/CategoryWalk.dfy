/** The breadth-first walk of a category tree that marks titles when they are first seen
    (workers/py/narrowmind_workers/ingestion/wikipedia.py:119-153). */
module CategoryWalk {
  const ARTICLE := 0
  const CATEGORY := 14

  /** Who is a member of which category, in listing order, and the namespace of every title. */
  datatype Wiki = Wiki(members: map<string, seq<string>>, ns: string -> int) {
    function Members(title: string): seq<string> {
      if title in members then members[title] else []
    }

    ghost function Titles(): set<string> {
      set c, t | c in members && t in members[c] :: t
    }
  }

  /** The variables of the walk. */
  datatype Walker = Walker(pages: seq<string>, visited: set<string>, queue: seq<(string, int)>)

  /** One member is looked at while a category at `depth` is expanded. */
  function See(wiki: Wiki, maxDepth: int, depth: int, title: string, w: Walker): Walker {
    if title in w.visited then w
    else
      var w' := w.(visited := w.visited + {title});
      if wiki.ns(title) == ARTICLE then w'.(pages := w.pages + [title])
      else if wiki.ns(title) == CATEGORY && depth < maxDepth then w'.(queue := w.queue + [(title, depth + 1)])
      else w'
  }

  function Scan(wiki: Wiki, maxDepth: int, depth: int, todo: seq<string>, w: Walker): Walker
    decreases |todo|
  {
    if todo == [] then w else Scan(wiki, maxDepth, depth, todo[1..], See(wiki, maxDepth, depth, todo[0], w))
  }

  lemma {:induction false} ScanGrows(wiki: Wiki, maxDepth: int, depth: int, todo: seq<string>, w: Walker)
    ensures var w' := Scan(wiki, maxDepth, depth, todo, w);
            && w.visited <= w'.visited && w.pages <= w'.pages
            && (forall t | t in w'.visited :: t in w.visited || t in todo)
            && (w'.visited == w.visited ==> w'.queue == w.queue)
    decreases |todo|
  {
    if todo != [] { ScanGrows(wiki, maxDepth, depth, todo[1..], See(wiki, maxDepth, depth, todo[0], w)); }
  }

  /** The walk without a cap on the number of pages. */
  ghost function Walk(wiki: Wiki, maxDepth: int, w: Walker): seq<string>
    decreases |wiki.Titles() - w.visited|, |w.queue|
  {
    if w.queue == [] then w.pages
    else
      ExpandShrinks(wiki, maxDepth, w);
      Walk(wiki, maxDepth, Expand(wiki, maxDepth, w))
  }

  function Expand(wiki: Wiki, maxDepth: int, w: Walker): Walker
    requires w.queue != []
  {
    var (title, depth) := w.queue[0];
    Scan(wiki, maxDepth, depth, wiki.Members(title), w.(queue := w.queue[1..]))
  }

  lemma {:induction false} ExpandShrinks(wiki: Wiki, maxDepth: int, w: Walker)
    requires w.queue != []
    ensures var w' := Expand(wiki, maxDepth, w);
            && w.visited <= w'.visited && w.pages <= w'.pages
            && (|wiki.Titles() - w'.visited| < |wiki.Titles() - w.visited|
                || (w'.visited == w.visited && |w'.queue| < |w.queue|))
  {
    var (title, depth) := w.queue[0];
    ScanGrows(wiki, maxDepth, depth, wiki.Members(title), w.(queue := w.queue[1..]));
    var w' := Expand(wiki, maxDepth, w);
    if w'.visited != w.visited {
      var t :| t in w'.visited && t !in w.visited;
      assert t in wiki.Titles();
      Fewer(wiki.Titles() - w'.visited, wiki.Titles() - w.visited, t);
    }
  }

  lemma {:induction false} Fewer(a: set<string>, b: set<string>, t: string)
    requires a <= b && t in b && t !in a
    ensures |a| < |b|
  {
    assert |b| == |b - a| + |a| && |b - a| >= |{t}| by {
      assert b == a + (b - a);
      assert (b - a) == {t} + (b - a - {t});
    }
  }

  lemma {:induction false} WalkGrows(wiki: Wiki, maxDepth: int, w: Walker)
    ensures w.pages <= Walk(wiki, maxDepth, w)
    decreases |wiki.Titles() - w.visited|, |w.queue|
  {
    if w.queue != [] {
      ExpandShrinks(wiki, maxDepth, w);
      WalkGrows(wiki, maxDepth, Expand(wiki, maxDepth, w));
    }
  }

  ghost function AllPages(wiki: Wiki, root: string, maxDepth: int): seq<string> {
    Walk(wiki, maxDepth, Walker([], {}, [(root, 0)]))
  }

  /** The members of one category are looked at in turn, until there are enough pages. */
  method ScanMembers(wiki: Wiki, maxDepth: int, maxPages: int, depth: int, members: seq<string>, w: Walker)
      returns (pages: seq<string>, visited: set<string>, queue: seq<(string, int)>)
    requires |w.pages| < maxPages
    ensures |pages| <= maxPages && pages <= Scan(wiki, maxDepth, depth, members, w).pages
    ensures |pages| < maxPages ==> Walker(pages, visited, queue) == Scan(wiki, maxDepth, depth, members, w)
  {
    pages, visited, queue := w.pages, w.visited, w.queue;
    var i := 0;
    while i < |members|
      invariant i <= |members| && |pages| < maxPages
      invariant Scan(wiki, maxDepth, depth, members[i..], Walker(pages, visited, queue))
                == Scan(wiki, maxDepth, depth, members, w)
    {
      var title := members[i];
      assert members[i..][1..] == members[i + 1..];
      ScanGrows(wiki, maxDepth, depth, members[i..][1..], See(wiki, maxDepth, depth, title, Walker(pages, visited, queue)));
      i := i + 1;
      if title in visited { continue; }
      visited := visited + {title};
      if wiki.ns(title) == ARTICLE {
        pages := pages + [title];
        if |pages| >= maxPages { return; }
      } else if wiki.ns(title) == CATEGORY && depth < maxDepth {
        queue := queue + [(title, depth + 1)];
      }
    }
  }

  /** At most `maxPages` pages: exactly the first ones that the uncapped walk finds. */
  method CollectCategoryPages(wiki: Wiki, root: string, maxDepth: int, maxPages: int) returns (pages: seq<string>)
    ensures pages <= AllPages(wiki, root, maxDepth)
    ensures maxPages <= 0 ==> pages == []
    ensures 0 < maxPages ==>
              |pages| == if maxPages < |AllPages(wiki, root, maxDepth)| then maxPages else |AllPages(wiki, root, maxDepth)|
  {
    ghost var all := AllPages(wiki, root, maxDepth);
    var visited: set<string>, queue := {}, [(root, 0)];
    pages := [];
    while queue != [] && |pages| < maxPages
      invariant |pages| < maxPages ==> Walk(wiki, maxDepth, Walker(pages, visited, queue)) == all
      invariant pages <= all && (|pages| <= maxPages || pages == [])
      decreases |pages| < maxPages, |wiki.Titles() - visited|, |queue|
    {
      ghost var w := Walker(pages, visited, queue);
      var (cat, depth) := queue[0];
      ExpandShrinks(wiki, maxDepth, w);
      WalkGrows(wiki, maxDepth, Expand(wiki, maxDepth, w));
      pages, visited, queue :=
        ScanMembers(wiki, maxDepth, maxPages, depth, wiki.Members(cat), Walker(pages, visited, queue[1..]));
    }
    // A negative bound leaves the empty list as it is.
    if 0 <= maxPages <= |pages| { pages := pages[..maxPages]; }
  }
}

/** The file system under the corpus tools, and the recursive copy
    (crates/orchestrator/src/tools/corpora.rs:376-410).

    A disk holds files and directories by path.  Any write may be the one that fails, by an I/O error
    or because the program is stopped; a file that was being written then holds anything. */
module Disks {
  import opened Options

  type Path = seq<string>

  datatype Node = Dir | File(content: string)

  type Tree = map<Path, Node>

  predicate IsFile(t: Tree, p: Path) {
    p in t && t[p].File?
  }

  predicate IsDir(t: Tree, p: Path) {
    p in t && t[p].Dir?
  }

  /** `q` is an entry of directory `p`. */
  predicate IsEntry(p: Path, q: Path) {
    |q| == |p| + 1 && p <= q
  }

  /** A file is in the way of `p`. */
  ghost predicate Blocked(t: Tree, p: Path) {
    exists q :: q <= p && IsFile(t, q)
  }

  predicate HasEntries(t: Tree, p: Path) {
    IsDir(t, p) && exists q :: q in t && IsEntry(p, q)
  }

  /** Everything lies in a directory. */
  ghost predicate WellFormed(t: Tree) {
    forall p | p in t && p != [] :: IsDir(t, p[..|p| - 1])
  }

  /** What is found at `r` below `p`. */
  function At(t: Tree, p: Path, r: Path): Option<Node> {
    if p + r in t then Some(t[p + r]) else None
  }

  /** The same below `dst` as there was below `src`. */
  ghost predicate SameTree(t: Tree, src: Path, t': Tree, dst: Path) {
    forall r :: At(t, src, r) == At(t', dst, r)
  }

  ghost predicate SameNode(t: Tree, t': Tree, q: Path) {
    (q in t <==> q in t') && (q in t ==> t'[q] == t[q])
  }

  /** Only what is below `p` has changed. */
  ghost predicate OnlyBelow(t: Tree, t': Tree, p: Path) {
    forall q | !(p <= q) :: SameNode(t, t', q)
  }

  lemma {:induction false} Deeper(t: Tree, p: Path, n: string, r: Path)
    ensures At(t, p + [n], r) == At(t, p, [n] + r)
  {
    assert p + [n] + r == p + ([n] + r);
  }

  /** In a well-formed tree nothing lies below a path that is not there. */
  lemma {:induction false} NothingBelow(t: Tree, p: Path, q: Path)
    requires WellFormed(t) && !IsDir(t, p) && p < q
    ensures q !in t
    decreases |q|
  {
    assert p == q[..|p|];
    if q in t && |p| < |q| - 1 { NothingBelow(t, p, q[..|q| - 1]); }
  }

  /** Something new, or a new file in place of an old one, keeps the tree well formed. */
  lemma {:induction false} PutKeeps(t: Tree, p: Path, node: Node)
    requires WellFormed(t) && !IsDir(t, p) && (p == [] || IsDir(t, p[..|p| - 1]))
    ensures WellFormed(t[p := node]) && OnlyBelow(t, t[p := node], p)
  {
    forall q | q in t[p := node] && q != [] ensures IsDir(t[p := node], q[..|q| - 1]) {
      assert q in t ==> IsDir(t, q[..|q| - 1]);
    }
  }

  /** Nothing but directories on the way to `p` is new. */
  ghost predicate PathMade(t: Tree, t': Tree, p: Path) {
    forall q :: SameNode(t, t', q) || (q <= p && q !in t && IsDir(t', q))
  }

  lemma {:induction false} PathMadeMore(t: Tree, t': Tree, p: Path, i: nat)
    requires PathMade(t, t', p) && i <= |p|
    ensures p[..i] !in t' ==> PathMade(t, t'[p[..i] := Dir], p)
  {
    var r := p[..i];
    if r !in t' {
      assert SameNode(t, t', r) || r !in t;
      forall q ensures SameNode(t, t'[p[..i] := Dir], q) || (q <= p && q !in t && IsDir(t'[p[..i] := Dir], q)) {
        assert SameNode(t, t', q) || (q <= p && q !in t && IsDir(t', q));
      }
    }
  }

  lemma {:induction false} NothingChanged(t: Tree, p: Path)
    ensures OnlyBelow(t, t, p)
  {
  }

  // ------------------------------------------------------------------------------------------
  // Copying a tree
  // ------------------------------------------------------------------------------------------

  predicate Apart(p: Path, q: Path) {
    !(p <= q) && !(q <= p)
  }

  lemma {:induction false} OnOneWay(p: Path, q: Path, r: Path)
    requires p <= r && q <= r
    ensures p <= q || q <= p
  {
    assert p == r[..|p|] && q == r[..|q|];
    assert if |p| <= |q| then p == q[..|p|] else q == p[..|q|];
  }

  lemma {:induction false} ApartBelow(p: Path, q: Path, r: Path)
    requires Apart(p, q) && p <= r
    ensures !(q <= r)
  {
    if q <= r { OnOneWay(p, q, r); }
  }

  lemma {:induction false} ChildIsApart(p: Path, q: Path, n: string)
    requires Apart(p, q)
    ensures Apart(p + [n], q)
  {
    if q <= p + [n] { ApartBelow(p, q, p + [n]); }
    if p + [n] <= q { OnOneWay(p, p + [n], q); }
  }

  lemma {:induction false} ChildrenApart(p: Path, q: Path, n: string)
    requires Apart(p, q)
    ensures Apart(p + [n], q + [n]) && Apart(p + [n], q)
  {
    ChildIsApart(p, q, n);
    ChildIsApart(q, p + [n], n);
  }

  /** There is nothing below `p`. */
  ghost predicate Vacant(t: Tree, p: Path) {
    forall r | r != [] :: At(t, p, r).None?
  }

  function Below(t: Tree, p: Path): set<Path> {
    set q | q in t && p <= q
  }

  /** The names of the entries of `p`. */
  function Names(t: Tree, p: Path): set<string> {
    set q | q in t && IsEntry(p, q) :: q[|p|]
  }

  lemma {:induction false} NamesAreEntries(t: Tree, p: Path, n: string)
    ensures n in Names(t, p) <==> p + [n] in t
  {
    if p + [n] in t { assert IsEntry(p, p + [n]) && (p + [n])[|p|] == n; }
    if n in Names(t, p) {
      var q :| q in t && IsEntry(p, q) && q[|p|] == n;
      assert q == p + [n];
    }
  }

  /** The tree at `src` has been copied to `dst`, but for the entries `todo`. */
  ghost predicate Copied(t: Tree, src: Path, t': Tree, dst: Path, todo: set<string>) {
    IsDir(t', dst) && forall r | r != [] :: At(t', dst, r) == if r[0] in todo then None else At(t, src, r)
  }

  lemma {:induction false} CopyStarts(t: Tree, src: Path, t': Tree, dst: Path)
    requires WellFormed(t) && Vacant(t, dst) && IsDir(t', dst)
    requires t' == t || (dst !in t && t' == t[dst := Dir])
    ensures Copied(t, src, t', dst, Names(t, src))
  {
    forall r | r != [] ensures At(t', dst, r) == if r[0] in Names(t, src) then None else At(t, src, r) {
      assert At(t, dst, r).None?;
      if r[0] !in Names(t, src) {
        NamesAreEntries(t, src, r[0]);
        if |r| == 1 { assert r == [r[0]]; } else {
          assert src + [r[0]] < src + r;
          NothingBelow(t, src + [r[0]], src + r);
        }
      }
    }
  }

  lemma {:induction false} CopyEnds(t: Tree, src: Path, t': Tree, dst: Path)
    requires Copied(t, src, t', dst, {}) && IsDir(t, src)
    ensures SameTree(t, src, t', dst)
  {
    forall r ensures At(t, src, r) == At(t', dst, r) {
      if r == [] { assert src + r == src && dst + r == dst; }
    }
  }

  /** One more entry copied. */
  lemma {:induction false} CopyGoesOn(t: Tree, src: Path, t': Tree, t'': Tree, dst: Path, todo: set<string>, n: string)
    requires Copied(t, src, t', dst, todo) && n in todo
    requires OnlyBelow(t', t'', dst + [n]) && SameTree(t, src + [n], t'', dst + [n])
    ensures Copied(t, src, t'', dst, todo - {n})
  {
    assert SameNode(t', t'', dst);
    forall r | r != [] ensures At(t'', dst, r) == if r[0] in todo - {n} then None else At(t, src, r) {
      if r[0] == n {
        assert r == [n] + r[1..];
        Deeper(t, src, n, r[1..]);
        Deeper(t'', dst, n, r[1..]);
      } else {
        assert (dst + r)[|dst|] == r[0] && !(dst + [n] <= dst + r);
        assert SameNode(t', t'', dst + r);
      }
    }
  }

  lemma {:induction false} EntryIsVacant(t: Tree, src: Path, t': Tree, dst: Path, todo: set<string>, n: string)
    requires Copied(t, src, t', dst, todo) && n in todo
    ensures Vacant(t', dst + [n]) && dst + [n] !in t'
  {
    forall r ensures At(t', dst + [n], r).None? {
      Deeper(t', dst, n, r);
      assert ([n] + r)[0] == n;
    }
    assert At(t', dst + [n], []).None? && dst + [n] + [] == dst + [n];
  }

  /** A file without anything below it is a tree. */
  lemma {:induction false} FileIsTree(t: Tree, src: Path, t': Tree, dst: Path)
    requires WellFormed(t) && IsFile(t, src) && Vacant(t', dst)
    ensures SameTree(t, src, t'[dst := t[src]], dst)
  {
    forall r ensures At(t, src, r) == At(t'[dst := t[src]], dst, r) {
      if r == [] {
        assert src + r == src && dst + r == dst;
      } else {
        NothingBelow(t, src, src + r);
        assert At(t', dst, r).None?;
      }
    }
  }

  /** What lies apart from a change is still there. */
  lemma {:induction false} SourceStays(t: Tree, t': Tree, src: Path, dst: Path)
    requires OnlyBelow(t, t', dst) && Apart(src, dst)
    ensures forall r :: At(t, src, r) == At(t', src, r)
    ensures Below(t, src) == Below(t', src)
    ensures forall q | src <= q :: SameNode(t, t', q)
  {
    forall q | src <= q ensures SameNode(t, t', q) { ApartBelow(src, dst, q); }
    forall r ensures At(t, src, r) == At(t', src, r) { assert SameNode(t, t', src + r); }
    forall q ensures q in Below(t, src) <==> q in Below(t', src) { assert src <= q ==> SameNode(t, t', q); }
    assert Below(t, src) == Below(t', src);
  }

  lemma {:induction false} SameNames(t: Tree, t': Tree, src: Path)
    requires forall q | src <= q :: SameNode(t, t', q)
    ensures Names(t, src) == Names(t', src)
  {
    forall n ensures n in Names(t, src) <==> n in Names(t', src) {
      NamesAreEntries(t, src, n);
      NamesAreEntries(t', src, n);
      assert SameNode(t, t', src + [n]);
    }
  }

  lemma {:induction false} MadeBelow(t: Tree, t': Tree, p: Path)
    requires t' == t || (p !in t && t' == t[p := Dir])
    ensures OnlyBelow(t, t', p)
  {
  }

  lemma {:induction false} SameSource(t: Tree, t': Tree, t'': Tree, src: Path, dst: Path)
    requires SameTree(t', src, t'', dst) && forall r :: At(t, src, r) == At(t', src, r)
    ensures SameTree(t, src, t'', dst)
  {
  }

  lemma {:induction false} FewerBelow(t: Tree, src: Path, n: string)
    requires src in t
    ensures |Below(t, src + [n])| < |Below(t, src)|
  {
    assert Below(t, src + [n]) <= Below(t, src) - {src} by {
      forall q | q in Below(t, src + [n]) ensures q in Below(t, src) && q != src {
        assert src <= src + [n] <= q;
      }
    }
    SmallerSet(Below(t, src + [n]), Below(t, src), src);
  }

  lemma {:induction false} SmallerSet(a: set<Path>, b: set<Path>, p: Path)
    requires a <= b - {p} && p in b
    ensures |a| < |b|
  {
    assert |b| == |b - {p}| + 1;
    assert b - {p} == a + (b - {p} - a);
  }

  lemma {:induction false} ChangesAddUp(t: Tree, t': Tree, t'': Tree, p: Path, q: Path)
    requires OnlyBelow(t, t', p) && OnlyBelow(t', t'', q) && p <= q
    ensures OnlyBelow(t, t'', p)
  {
    forall r | !(p <= r) ensures SameNode(t, t'', r) {
      assert q <= r ==> p <= r;
      assert SameNode(t, t', r) && SameNode(t', t'', r);
    }
  }

  // ------------------------------------------------------------------------------------------
  // The disk
  // ------------------------------------------------------------------------------------------

  class Disk {
    var tree: Tree
    /** How many writes still succeed. */
    var luck: nat

    constructor (tree: Tree, luck: nat)
      ensures this.tree == tree && this.luck == luck
    {
      this.tree, this.luck := tree, luck;
    }

    method CreateDir(p: Path) returns (ok: bool)
      requires WellFormed(tree) && (p == [] || IsDir(tree, p[..|p| - 1]))
      modifies this
      ensures WellFormed(tree)
      ensures ok ==> IsDir(tree, p)
      ensures !ok ==> luck == 0 || IsFile(tree, p)
      ensures tree == old(tree) || (p !in old(tree) && tree == old(tree)[p := Dir])
    {
      if p in tree { return tree[p].Dir?; }
      if luck == 0 { return false; }
      PutKeeps(tree, p, Dir);
      tree, luck := tree[p := Dir], luck - 1;
      return true;
    }

    /** Create the missing directories on the way to `p`, and `p`. */
    method CreateDirAll(p: Path) returns (ok: bool)
      requires WellFormed(tree)
      modifies this
      ensures WellFormed(tree)
      ensures ok ==> IsDir(tree, p)
      ensures !ok ==> luck == 0 || Blocked(tree, p)
      ensures PathMade(old(tree), tree, p)
    {
      hide WellFormed;
      var i := 0;
      ok := true;
      while i <= |p|
        invariant i <= |p| + 1 && WellFormed(tree)
        invariant i > 0 ==> IsDir(tree, p[..i - 1])
        invariant PathMade(old(tree), tree, p)
      {
        assert i > 0 ==> p[..i][..i - 1] == p[..i - 1];
        PathMadeMore(old(tree), tree, p, i);
        ok := CreateDir(p[..i]);
        if !ok {
          assert p[..i] <= p;
          return;
        }
        i := i + 1;
      }
      assert p[..|p|] == p;
    }

    /** Put a file at `p`; if that fails there may be anything in it, or no file at all. */
    method Put(p: Path, content: string) returns (ok: bool)
      requires WellFormed(tree)
      modifies this
      ensures WellFormed(tree)
      ensures ok ==> tree == old(tree)[p := File(content)]
      ensures !ok ==> luck == 0 || p == [] || !IsDir(tree, p[..|p| - 1]) || IsDir(tree, p)
      ensures OnlyBelow(old(tree), tree, p)
      ensures tree == old(tree) || (IsFile(tree, p) && !IsDir(old(tree), p) && tree == old(tree)[p := tree[p]])
    {
      hide WellFormed;
      hide OnlyBelow;
      NothingChanged(tree, p);
      if p == [] || !IsDir(tree, p[..|p| - 1]) || IsDir(tree, p) { return false; }
      PutKeeps(tree, p, File(content));
      if luck == 0 {
        var begun: bool, written: string := *, *;
        PutKeeps(tree, p, File(written));
        if begun { tree := tree[p := File(written)]; }
        return false;
      }
      tree, luck := tree[p := File(content)], luck - 1;
      return true;
    }

    method Copy(src: Path, dst: Path) returns (ok: bool)
      requires WellFormed(tree)
      modifies this
      ensures WellFormed(tree)
      ensures ok ==> IsFile(old(tree), src) && tree == old(tree)[dst := old(tree)[src]]
      ensures !ok ==> luck == 0 || !IsFile(tree, src) || dst == [] || !IsDir(tree, dst[..|dst| - 1]) || IsDir(tree, dst)
      ensures OnlyBelow(old(tree), tree, dst)
      ensures tree == old(tree) || (IsFile(tree, dst) && !IsDir(old(tree), dst) && tree == old(tree)[dst := tree[dst]])
    {
      NothingChanged(tree, dst);
      if !IsFile(tree, src) { return false; }
      ok := Put(dst, tree[src].content);
    }

    /** One entry of `src`: a directory with all that is in it, or a file. */
    method CopyEntry(src: Path, dst: Path, n: string, ghost before: Tree, ghost todo: set<string>) returns (ok: bool)
      requires WellFormed(tree) && Apart(src, dst) && n in todo && n in Names(before, src)
      requires OnlyBelow(before, tree, dst) && Copied(before, src, tree, dst, todo)
      modifies this
      ensures WellFormed(tree) && OnlyBelow(before, tree, dst)
      ensures ok ==> Copied(before, src, tree, dst, todo - {n})
      ensures !ok ==> luck == 0
      decreases |Below(tree, src + [n])|, 1
    {
      hide WellFormed;
      hide OnlyBelow;
      hide Vacant;
      hide SameTree;
      hide Below;
      ghost var mid := tree;
      var from, to := src + [n], dst + [n];
      NamesAreEntries(before, src, n);
      SourceStays(before, mid, src, dst);
      assert src <= from && SameNode(before, mid, from);
      ChildrenApart(src, dst, n);
      EntryIsVacant(before, src, mid, dst, todo, n);
      assert to[..|to| - 1] == dst;
      if tree[from].Dir? {
        ok := CopyTree(from, to);
      } else {
        ok := Copy(from, to);
        FileIsTree(mid, from, mid, to);
      }
      ChangesAddUp(before, mid, tree, dst, to);
      if ok {
        SourceStays(before, mid, from, dst);
        SameSource(before, mid, tree, from, to);
        CopyGoesOn(before, src, mid, tree, dst, todo, n);
      }
    }

    /** The recursive copy; entries come in no particular order. */
    method CopyTree(src: Path, dst: Path) returns (ok: bool)
      requires WellFormed(tree) && IsDir(tree, src) && Apart(src, dst) && Vacant(tree, dst)
      requires dst != [] && IsDir(tree, dst[..|dst| - 1])
      modifies this
      ensures WellFormed(tree) && OnlyBelow(old(tree), tree, dst)
      ensures ok ==> SameTree(old(tree), src, tree, dst)
      ensures !ok ==> luck == 0 || IsFile(old(tree), dst)
      decreases |Below(tree, src)|, 0
    {
      hide WellFormed;
      hide OnlyBelow;
      hide Vacant;
      hide SameTree;
      hide Copied;
      hide Below;
      ghost var before := tree;
      ok := CreateDir(dst);
      MadeBelow(before, tree, dst);
      if !ok { return; }
      CopyStarts(before, src, tree, dst);
      SourceStays(before, tree, src, dst);
      SameNames(before, tree, src);
      var todo := Names(tree, src);
      while todo != {}
        invariant ok && WellFormed(tree) && OnlyBelow(before, tree, dst) && Copied(before, src, tree, dst, todo)
        invariant todo <= Names(before, src)
        decreases |todo|
      {
        var n :| n in todo;
        FewerBelow(before, src, n);
        ChildrenApart(src, dst, n);
        SourceStays(before, tree, src + [n], dst);
        ok := CopyEntry(src, dst, n, before, todo);
        if !ok { return; }
        todo := todo - {n};
      }
      CopyEnds(before, src, tree, dst);
    }
  }
}

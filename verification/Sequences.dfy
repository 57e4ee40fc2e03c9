/** Sequences built element by element. */
module Sequences {
  function FlatMap<A, B>(f: A -> seq<B>, s: seq<A>): seq<B>
    decreases |s|
  {
    if s == [] then [] else f(s[0]) + FlatMap(f, s[1..])
  }

  /** Texts with a blank between each two. */
  function JoinWithBlanks(parts: seq<string>): string
    decreases |parts|
  {
    if parts == [] then "" else if |parts| == 1 then parts[0] else parts[0] + " " + JoinWithBlanks(parts[1..])
  }

  lemma {:induction false} Regroup<T>(a: seq<T>, b: seq<T>, c: seq<T>)
    ensures a + (b + c) == (a + b) + c
  {
  }

  lemma {:induction false} SplitLast<T>(s: seq<T>)
    requires s != []
    ensures s == s[..|s| - 1] + [s[|s| - 1]]
  {
  }

  lemma {:induction false} FlatMapOne<A, B>(f: A -> seq<B>, x: A)
    ensures FlatMap(f, [x]) == f(x)
  {
    assert [x][1..] == [];
    assert f(x) + [] == f(x);
  }

  lemma {:induction false} FlatMapConcat<A, B>(f: A -> seq<B>, a: seq<A>, b: seq<A>)
    ensures FlatMap(f, a + b) == FlatMap(f, a) + FlatMap(f, b)
    decreases |a|
  {
    if a == [] {
      assert a + b == b;
      assert [] + FlatMap(f, b) == FlatMap(f, b);
    } else {
      FlatMapConcat(f, a[1..], b);
      assert (a + b)[1..] == a[1..] + b;
      Regroup(f(a[0]), FlatMap(f, a[1..]), FlatMap(f, b));
    }
  }

  lemma {:induction false} InFlatMap<A, B>(f: A -> seq<B>, s: seq<A>, y: B)
    ensures y in FlatMap(f, s) <==> exists i :: 0 <= i < |s| && y in f(s[i])
    decreases |s|
  {
    if s != [] {
      InFlatMap(f, s[1..], y);
      if i :| 0 <= i < |s[1..]| && y in f(s[1..][i]) {
        assert y in f(s[i + 1]);
      }
    }
  }

  /** One text joined is that text, and joined texts are joined by a blank. */
  lemma {:induction false} JoinOfOneAndMore(part: string, a: seq<string>, b: seq<string>)
    ensures JoinWithBlanks([part]) == part
    ensures a != [] && b != [] ==> JoinWithBlanks(a + b) == JoinWithBlanks(a) + " " + JoinWithBlanks(b)
    decreases |a|
  {
    if |a| == 1 && b != [] {
      assert (a + b)[1..] == b;
    } else if a != [] && b != [] {
      JoinOfOneAndMore(part, a[1..], b);
      assert (a + b)[1..] == a[1..] + b;
      assert a[0] + " " + (JoinWithBlanks(a[1..]) + " " + JoinWithBlanks(b))
          == (a[0] + " " + JoinWithBlanks(a[1..])) + " " + JoinWithBlanks(b);
    }
  }
}

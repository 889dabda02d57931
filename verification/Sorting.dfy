/** Sorting by a total preorder, and why the result does not depend on the order of the input. */
module Sorting {

  /** Any two elements compare, and comparisons chain. */
  ghost predicate Preorder<T(!new)>(le: (T, T) -> bool) {
    && (forall a, b :: le(a, b) || le(b, a))
    && (forall a, b, c :: le(a, b) && le(b, c) ==> le(a, c))
  }

  ghost predicate Sorted<T(!new)>(le: (T, T) -> bool, s: seq<T>) {
    forall i, j :: 0 <= i < j < |s| ==> le(s[i], s[j])
  }

  function Insert<T(!new)>(le: (T, T) -> bool, x: T, s: seq<T>): seq<T> {
    if s == [] then [x]
    else if le(x, s[0]) then [x] + s
    else [s[0]] + Insert(le, x, s[1..])
  }

  /** A stable sort. */
  function SortBy<T(!new)>(le: (T, T) -> bool, xs: seq<T>): seq<T> {
    if xs == [] then [] else Insert(le, xs[0], SortBy(le, xs[1..]))
  }

  lemma {:induction false} InsertMembers<T(!new)>(le: (T, T) -> bool, x: T, s: seq<T>)
    ensures |Insert(le, x, s)| == |s| + 1
    ensures forall y :: y in Insert(le, x, s) <==> y == x || y in s
    ensures multiset(Insert(le, x, s)) == multiset(s) + multiset{x}
  {
    if s != [] {
      assert s == [s[0]] + s[1..];
      if !le(x, s[0]) {
        InsertMembers(le, x, s[1..]);
      }
    }
  }

  lemma {:induction false} InsertKeepsSorted<T(!new)>(le: (T, T) -> bool, x: T, s: seq<T>)
    requires Preorder(le) && Sorted(le, s)
    ensures Sorted(le, Insert(le, x, s))
  {
    if s != [] {
      var rest := Insert(le, x, s[1..]);
      if le(x, s[0]) {
        forall i | 0 <= i < |s| ensures le(x, s[i]) {
          assert i == 0 || le(s[0], s[i]);
        }
      } else {
        InsertKeepsSorted(le, x, s[1..]);
        InsertMembers(le, x, s[1..]);
        forall i | 0 <= i < |rest| ensures le(s[0], rest[i]) {
          assert rest[i] in rest;
        }
      }
    }
  }

  lemma {:induction false} SortMembers<T(!new)>(le: (T, T) -> bool, xs: seq<T>)
    ensures |SortBy(le, xs)| == |xs|
    ensures forall y :: y in SortBy(le, xs) <==> y in xs
    ensures multiset(SortBy(le, xs)) == multiset(xs)
  {
    if xs != [] {
      assert xs == [xs[0]] + xs[1..];
      SortMembers(le, xs[1..]);
      InsertMembers(le, xs[0], SortBy(le, xs[1..]));
    }
  }

  lemma {:induction false} SortBySorts<T(!new)>(le: (T, T) -> bool, xs: seq<T>)
    requires Preorder(le)
    ensures Sorted(le, SortBy(le, xs))
  {
    if xs != [] {
      SortBySorts(le, xs[1..]);
      InsertKeepsSorted(le, xs[0], SortBy(le, xs[1..]));
    }
  }

  ghost predicate DistinctBy<T(!new)>(id: T -> string, xs: seq<T>) {
    forall i, j :: 0 <= i < j < |xs| ==> id(xs[i]) != id(xs[j])
  }

  lemma {:induction false} InsertKeepsDistinct<T(!new)>(le: (T, T) -> bool, id: T -> string, x: T, s: seq<T>)
    requires DistinctBy(id, s) && forall y :: y in s ==> id(y) != id(x)
    ensures DistinctBy(id, Insert(le, x, s))
  {
    if s != [] && !le(x, s[0]) {
      InsertKeepsDistinct(le, id, x, s[1..]);
      InsertMembers(le, x, s[1..]);
      var rest := Insert(le, x, s[1..]);
      forall i | 0 <= i < |rest| ensures id(s[0]) != id(rest[i]) {
        assert rest[i] in rest;
        assert rest[i] == x || rest[i] in s[1..];
        if rest[i] != x {
          var k :| 0 <= k < |s[1..]| && s[1..][k] == rest[i];
          assert id(s[0]) != id(s[k + 1]);
        }
      }
    }
  }

  /** Sorting keeps identifiers distinct. */
  lemma {:induction false} SortKeepsDistinct<T(!new)>(le: (T, T) -> bool, id: T -> string, xs: seq<T>)
    requires DistinctBy(id, xs)
    ensures DistinctBy(id, SortBy(le, xs))
  {
    if xs != [] {
      SortKeepsDistinct(le, id, xs[1..]);
      SortMembers(le, xs[1..]);
      forall y | y in xs[1..] ensures id(y) != id(xs[0]) {
        var k :| 0 <= k < |xs[1..]| && xs[1..][k] == y;
        assert id(xs[0]) != id(xs[k + 1]);
      }
      var sorted := SortBy(le, xs[1..]);
      forall y | y in sorted ensures id(y) != id(xs[0]) {
        assert y in xs[1..];
      }
      InsertKeepsDistinct(le, id, xs[0], SortBy(le, xs[1..]));
    }
  }

  lemma RemoveAt<T(!new)>(xs: seq<T>, i: nat)
    requires i < |xs|
    ensures multiset(xs) == multiset(xs[..i] + xs[i + 1..]) + multiset{xs[i]}
  {
    assert xs == xs[..i] + [xs[i]] + xs[i + 1..];
  }

  lemma HeadOff<T(!new)>(xs: seq<T>)
    requires xs != []
    ensures multiset(xs) == multiset(xs[1..]) + multiset{xs[0]}
  {
    assert xs == [xs[0]] + xs[1..];
  }

  /** Of two orders of the same elements, the second holds the head of the first. */
  lemma MatchHead<T(!new)>(xs: seq<T>, ys: seq<T>) returns (i: nat)
    requires xs != [] && multiset(xs) == multiset(ys)
    ensures i < |ys| && ys[i] == xs[0] && |ys| == |xs|
    ensures multiset(xs[1..]) == multiset(ys[..i] + ys[i + 1..])
  {
    assert |multiset(xs)| == |xs| && |multiset(ys)| == |ys|;
    assert xs[0] in multiset(ys);
    i :| 0 <= i < |ys| && ys[i] == xs[0];
    RemoveAt(ys, i);
    HeadOff(xs);
    CancelOne(multiset(xs[1..]), multiset(ys[..i] + ys[i + 1..]), xs[0]);
  }

  lemma CancelOne<T(!new)>(a: multiset<T>, b: multiset<T>, x: T)
    requires a + multiset{x} == b + multiset{x}
    ensures a == b
  {
    assert a == (a + multiset{x}) - multiset{x};
    assert b == (b + multiset{x}) - multiset{x};
  }

  /** Two elements of the list that compare both ways are the same. */
  ghost predicate Antisymmetric<T(!new)>(le: (T, T) -> bool, s: seq<T>) {
    forall a, b :: a in s && b in s && le(a, b) && le(b, a) ==> a == b
  }

  lemma HeadsAgree<T(!new)>(le: (T, T) -> bool, s: seq<T>, t: seq<T>)
    requires Preorder(le) && Sorted(le, s) && Sorted(le, t)
    requires s != [] && t != [] && multiset(s) == multiset(t) && Antisymmetric(le, s)
    ensures s[0] == t[0]
  {
    var i := MatchHead(s, t);
    var j := MatchHead(t, s);
    assert le(s[0], s[0]);
    assert i == 0 || le(t[0], t[i]);
    assert j == 0 || le(s[0], s[j]);
    assert s[0] in s && s[j] in s;
  }

  lemma TailsMatch<T(!new)>(s: seq<T>, t: seq<T>)
    requires s != [] && t != [] && multiset(s) == multiset(t) && s[0] == t[0]
    ensures multiset(s[1..]) == multiset(t[1..])
  {
    HeadOff(s);
    HeadOff(t);
    CancelOne(multiset(s[1..]), multiset(t[1..]), s[0]);
  }

  /** Two sorted lists with the same elements are the same list. */
  lemma {:induction false} SortedIsUnique<T(!new)>(le: (T, T) -> bool, s: seq<T>, t: seq<T>)
    requires Preorder(le) && Sorted(le, s) && Sorted(le, t)
    requires multiset(s) == multiset(t) && Antisymmetric(le, s)
    ensures s == t
    decreases |s|
  {
    assert |multiset(s)| == |s| && |multiset(t)| == |t|;
    if s != [] {
      HeadsAgree(le, s, t);
      TailsMatch(s, t);
      assert Antisymmetric(le, s[1..]);
      SortedIsUnique(le, s[1..], t[1..]);
      assert s == [s[0]] + s[1..] && t == [t[0]] + t[1..];
    }
  }

  /** Sorting forgets the order of its input. */
  lemma SortForgetsOrder<T(!new)>(le: (T, T) -> bool, xs: seq<T>, ys: seq<T>)
    requires Preorder(le) && multiset(xs) == multiset(ys) && Antisymmetric(le, xs)
    ensures SortBy(le, xs) == SortBy(le, ys)
  {
    hide SortBy, Sorted;
    SortBySorts(le, xs);
    SortBySorts(le, ys);
    SortMembers(le, xs);
    SortMembers(le, ys);
    SortedIsUnique(le, SortBy(le, xs), SortBy(le, ys));
  }

  function Map<S(!new), T(!new)>(f: S -> T, xs: seq<S>): (ys: seq<T>)
    ensures |ys| == |xs| && forall i :: 0 <= i < |xs| ==> ys[i] == f(xs[i])
  {
    seq(|xs|, i requires 0 <= i < |xs| => f(xs[i]))
  }

  lemma MapSplits<S(!new), T(!new)>(f: S -> T, xs: seq<S>, i: nat)
    requires i < |xs|
    ensures Map(f, xs) == Map(f, xs[..i]) + [f(xs[i])] + Map(f, xs[i + 1..])
    ensures Map(f, xs[..i] + xs[i + 1..]) == Map(f, xs[..i]) + Map(f, xs[i + 1..])
  {
  }

  /** Mapping over two orders of the same elements gives two orders of the same results. */
  lemma {:induction false} MapForgetsOrder<S(!new), T(!new)>(f: S -> T, xs: seq<S>, ys: seq<S>)
    requires multiset(xs) == multiset(ys)
    ensures multiset(Map(f, xs)) == multiset(Map(f, ys))
    decreases |xs|
  {
    if xs == [] {
      assert |multiset(ys)| == 0;
    } else {
      var i := MatchHead(xs, ys);
      MapSplits(f, ys, i);
      MapSplits(f, xs, 0);
      MapForgetsOrder(f, xs[1..], ys[..i] + ys[i + 1..]);
      assert xs[..0] == [] && xs[0 + 1..] == xs[1..];
    }
  }
}

/** Python's `sorted` and `list.sort` for a key order: a stable insertion
    sort, proved to produce an ordered permutation of its input whenever the
    order is a total preorder. */
module Sorting {

  /** `le(a, b)`: `a` may come before `b`. */
  predicate Le<T>(le: (T, T) -> bool, a: T, b: T) {
    le(a, b)
  }

  /** Stated through `Le`, so that the laws come into play only where a proof
      mentions `Le`. */
  ghost predicate TotalPreorder<T(!new)>(le: (T, T) -> bool) {
    && (forall a, b :: Le(le, a, b) || Le(le, b, a))
    && (forall a, b, c :: Le(le, a, b) && Le(le, b, c) ==> Le(le, a, c))
  }

  predicate SortedBy<T>(s: seq<T>, le: (T, T) -> bool) {
    forall i, j :: 0 <= i < j < |s| ==> le(s[i], s[j])
  }

  /** Put `x` after every element that may precede it, so that among equal
      elements the one inserted last stays last. */
  function Insert<T(!new)>(x: T, s: seq<T>, le: (T, T) -> bool): (r: seq<T>)
    requires TotalPreorder(le) && SortedBy(s, le)
    ensures |r| == |s| + 1
    ensures multiset(r) == multiset(s) + multiset{x}
    ensures SortedBy(r, le)
  {
    if s == [] then [x]
    else if le(s[0], x) then
      SortedTail(s, le);
      var rest := Insert(x, s[1..], le);
      assert s == [s[0]] + s[1..];
      HeadPrecedesInsert(x, s, rest, le);
      ConsSorted(s[0], rest, le);
      [s[0]] + rest
    else
      PrecedesHead(x, s, le);
      ConsSorted(x, s, le);
      [x] + s
  }

  lemma SortedTail<T>(s: seq<T>, le: (T, T) -> bool)
    requires s != [] && SortedBy(s, le)
    ensures SortedBy(s[1..], le)
  {
    var t := s[1..];
    assert forall i :: 0 <= i < |t| ==> t[i] == s[i + 1];
  }

  /** What may precede the head of a sorted list may precede all of it. */
  lemma PrecedesHead<T(!new)>(x: T, s: seq<T>, le: (T, T) -> bool)
    requires TotalPreorder(le) && SortedBy(s, le) && s != [] && !le(s[0], x)
    ensures forall k :: 0 <= k < |s| ==> le(x, s[k])
  {
    assert Le(le, s[0], x) || Le(le, x, s[0]);
    forall k | 0 <= k < |s|
      ensures le(x, s[k])
    {
      if k > 0 {
        assert Le(le, x, s[0]) && Le(le, s[0], s[k]);
      }
    }
  }

  /** A first element that may precede all the others keeps a sorted tail sorted. */
  lemma ConsSorted<T>(y: T, rest: seq<T>, le: (T, T) -> bool)
    requires SortedBy(rest, le) && forall k :: 0 <= k < |rest| ==> le(y, rest[k])
    ensures SortedBy([y] + rest, le)
  {
    var r := [y] + rest;
    forall i, j | 0 <= i < j < |r|
      ensures le(r[i], r[j])
    {
      assert r[j] == rest[j - 1];
      if i > 0 {
        assert r[i] == rest[i - 1];
      }
    }
  }

  /** The head of a sorted list that may precede `x` may precede every element
      of the tail with `x` inserted. */
  lemma HeadPrecedesInsert<T>(x: T, s: seq<T>, rest: seq<T>, le: (T, T) -> bool)
    requires s != [] && SortedBy(s, le) && le(s[0], x)
    requires multiset(rest) == multiset(s[1..]) + multiset{x}
    ensures forall k :: 0 <= k < |rest| ==> le(s[0], rest[k])
  {
    forall k | 0 <= k < |rest|
      ensures le(s[0], rest[k])
    {
      assert rest[k] in multiset(rest);
      if rest[k] != x {
        assert rest[k] in s[1..];
        var m :| 0 <= m < |s[1..]| && s[1..][m] == rest[k];
        assert s[m + 1] == rest[k];
      }
    }
  }

  function InsertionSort<T(!new)>(s: seq<T>, le: (T, T) -> bool): (r: seq<T>)
    requires TotalPreorder(le)
    ensures |r| == |s|
    ensures multiset(r) == multiset(s)
    ensures SortedBy(r, le)
  {
    if s == [] then []
    else
      assert s == s[..|s| - 1] + [s[|s| - 1]];
      Insert(s[|s| - 1], InsertionSort(s[..|s| - 1], le), le)
  }

  /** Python's string order: code points compared from the left, a proper
      prefix first. */
  predicate LexLe(a: string, b: string) {
    a == [] || (b != [] && (a[0] < b[0] || (a[0] == b[0] && LexLe(a[1..], b[1..]))))
  }

  lemma {:induction false} LexLeTotal(a: string, b: string)
    ensures LexLe(a, b) || LexLe(b, a)
  {
    if a != [] && b != [] && a[0] == b[0] {
      LexLeTotal(a[1..], b[1..]);
    }
  }

  lemma {:induction false} LexLeTransitive(a: string, b: string, c: string)
    requires LexLe(a, b) && LexLe(b, c)
    ensures LexLe(a, c)
  {
    if a != [] && a[0] == b[0] && b[0] == c[0] {
      LexLeTransitive(a[1..], b[1..], c[1..]);
    }
  }

  lemma {:induction false} LexLeAntisymmetric(a: string, b: string)
    requires LexLe(a, b) && LexLe(b, a)
    ensures a == b
  {
    if a != [] && b != [] {
      LexLeAntisymmetric(a[1..], b[1..]);
      assert a == [a[0]] + a[1..] && b == [b[0]] + b[1..];
    }
  }

  lemma LexOrderIsTotalPreorder()
    ensures TotalPreorder((a: string, b: string) => LexLe(a, b))
  {
    var le := (a: string, b: string) => LexLe(a, b);
    forall a: string, b: string
      ensures Le(le, a, b) || Le(le, b, a)
    {
      LexLeTotal(a, b);
    }
    forall a: string, b: string, c: string | Le(le, a, b) && Le(le, b, c)
      ensures Le(le, a, c)
    {
      LexLeTransitive(a, b, c);
    }
  }

  /** `sorted(names)`: ascending in Python's string order. */
  function SortedStrings(names: seq<string>): (r: seq<string>)
    ensures multiset(r) == multiset(names)
    ensures forall i, j :: 0 <= i < j < |r| ==> LexLe(r[i], r[j])
  {
    LexOrderIsTotalPreorder();
    InsertionSort(names, (a: string, b: string) => LexLe(a, b))
  }
}

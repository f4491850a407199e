/** Sorting by a strict order, once for every list that the program sorts. */
module Sorting {

  /** No two elements come before each other, and the order carries over. */
  ghost predicate Strict<T(!new)>(less: (T, T) -> bool) {
    && (forall a, b :: less(a, b) ==> !less(b, a))
    && forall a, b, c :: less(a, b) && less(b, c) ==> less(a, c)
  }

  function Insert<T>(less: (T, T) -> bool, x: T, s: seq<T>): (out: seq<T>)
    ensures multiset(out) == multiset(s) + multiset{x}
  {
    if s == [] then [x]
    else if less(x, s[0]) then [x] + s
    else
      assert s == [s[0]] + s[1..];
      [s[0]] + Insert(less, x, s[1..])
  }

  /** `sort.Slice`, `sort.SliceStable` and `sort.Strings`: elements that the order does not tell apart are equal. */
  function Sort<T>(less: (T, T) -> bool, s: seq<T>): (out: seq<T>)
    ensures multiset(out) == multiset(s)
  {
    if s == [] then []
    else
      assert s == [s[0]] + s[1..];
      Insert(less, s[0], Sort(less, s[1..]))
  }

  ghost predicate InOrder<T>(less: (T, T) -> bool, s: seq<T>) {
    forall i, j | 0 <= i < j < |s| :: !less(s[j], s[i])
  }

  /** A list property of pairs, taken apart at the head. */
  lemma InOrderCons<T(!new)>(less: (T, T) -> bool, head: T, rest: seq<T>)
    ensures InOrder(less, [head] + rest) <==> InOrder(less, rest) && forall q | q in rest :: !less(q, head)
  {
    var all := [head] + rest;
    if InOrder(less, all) {
      forall i, j | 0 <= i < j < |rest| ensures !less(rest[j], rest[i]) {
        assert !less(all[j + 1], all[i + 1]);
      }
      forall q | q in rest ensures !less(q, head) {
        var i :| 0 <= i < |rest| && rest[i] == q;
        assert !less(all[i + 1], all[0]);
      }
    }
  }

  lemma InsertMembers<T(!new)>(less: (T, T) -> bool, x: T, s: seq<T>)
    ensures forall q :: q in Insert(less, x, s) <==> q in s || q == x
  {
    assert forall q :: q in Insert(less, x, s) <==> q in multiset(Insert(less, x, s));
    assert forall q :: q in s <==> q in multiset(s);
  }

  lemma SortMembers<T(!new)>(less: (T, T) -> bool, s: seq<T>)
    ensures forall q :: q in Sort(less, s) <==> q in s
    ensures |Sort(less, s)| == |s|
  {
    assert forall q :: q in Sort(less, s) <==> q in multiset(Sort(less, s));
    assert forall q :: q in s <==> q in multiset(s);
    assert |multiset(Sort(less, s))| == |multiset(s)|;
  }

  lemma {:induction false} InsertKeepsOrder<T(!new)>(less: (T, T) -> bool, x: T, s: seq<T>)
    requires Strict(less) && InOrder(less, s)
    ensures InOrder(less, Insert(less, x, s))
  {
    hide InOrder;
    InsertMembers(less, x, s);
    if s == [] {
      InOrderCons(less, x, []);
      assert [x] + [] == [x];
    } else {
      var head, rest := s[0], s[1..];
      assert s == [head] + rest;
      InOrderCons(less, head, rest);
      if less(x, head) {
        InOrderCons(less, x, s);
      } else {
        InsertKeepsOrder(less, x, rest);
        InsertMembers(less, x, rest);
        InOrderCons(less, head, Insert(less, x, rest));
      }
    }
  }

  lemma {:induction false} SortOrders<T(!new)>(less: (T, T) -> bool, s: seq<T>)
    requires Strict(less)
    ensures InOrder(less, Sort(less, s))
  {
    hide Strict;
    if s != [] {
      SortOrders(less, s[1..]);
      InsertKeepsOrder(less, s[0], Sort(less, s[1..]));
    }
  }

  ghost predicate DistinctBy<T, K>(key: T -> K, s: seq<T>) {
    forall i, j | 0 <= i < j < |s| :: key(s[i]) != key(s[j])
  }

  lemma DistinctCons<T(!new), K>(key: T -> K, head: T, rest: seq<T>)
    ensures DistinctBy(key, [head] + rest) <==> DistinctBy(key, rest) && forall q | q in rest :: key(q) != key(head)
  {
    var all := [head] + rest;
    if DistinctBy(key, all) {
      forall i, j | 0 <= i < j < |rest| ensures key(rest[i]) != key(rest[j]) {
        assert key(all[i + 1]) != key(all[j + 1]);
      }
      forall q | q in rest ensures key(q) != key(head) {
        var i :| 0 <= i < |rest| && rest[i] == q;
        assert key(all[0]) != key(all[i + 1]);
      }
    }
  }

  lemma {:induction false} InsertKeepsDistinct<T(!new), K>(less: (T, T) -> bool, key: T -> K, x: T, s: seq<T>)
    requires DistinctBy(key, s) && forall q | q in s :: key(q) != key(x)
    ensures DistinctBy(key, Insert(less, x, s))
  {
    hide DistinctBy;
    DistinctCons(key, x, s);
    if s == [] {
      assert [x] + [] == [x];
    } else if !less(x, s[0]) {
      var head, rest := s[0], s[1..];
      assert s == [head] + rest;
      DistinctCons(key, head, rest);
      InsertKeepsDistinct(less, key, x, rest);
      InsertMembers(less, x, rest);
      assert head in s;
      forall q | q in Insert(less, x, rest) ensures key(q) != key(head) {
        assert q in rest || q == x;
      }
      DistinctCons(key, head, Insert(less, x, rest));
    }
  }

  lemma {:induction false} SortKeepsDistinct<T(!new), K>(less: (T, T) -> bool, key: T -> K, s: seq<T>)
    requires DistinctBy(key, s)
    ensures DistinctBy(key, Sort(less, s))
  {
    if s != [] {
      hide DistinctBy;
      var head, rest := s[0], s[1..];
      assert s == [head] + rest;
      DistinctCons(key, head, rest);
      SortKeepsDistinct(less, key, rest);
      SortMembers(less, rest);
      forall q | q in Sort(less, rest) ensures key(q) != key(head) {
        assert q in rest;
      }
      InsertKeepsDistinct(less, key, head, Sort(less, rest));
    }
  }

  /** Elements determine a list in order without repetitions, if the order tells any two of them apart. */
  lemma {:induction false} OrderDetermines<T(!new)>(less: (T, T) -> bool, a: seq<T>, b: seq<T>)
    requires InOrder(less, a) && InOrder(less, b) && DistinctBy((x: T) => x, a) && DistinctBy((x: T) => x, b)
    requires (forall x :: x in a <==> x in b) && forall x, y | x in a && y in a && x != y :: less(x, y) || less(y, x)
    ensures a == b
  {
    hide InOrder, DistinctBy;
    assert a != [] ==> a[0] in b;
    assert b != [] ==> b[0] in a;
    if a != [] && b != [] {
      var s, t := a[1..], b[1..];
      assert a == [a[0]] + s && b == [b[0]] + t;
      InOrderCons(less, a[0], s);
      InOrderCons(less, b[0], t);
      DistinctCons((x: T) => x, a[0], s);
      DistinctCons((x: T) => x, b[0], t);
      forall x ensures x in s <==> x in t {
        assert x in s ==> x in b;
        assert x in t ==> x in a;
      }
      OrderDetermines(less, s, t);
    }
  }
}

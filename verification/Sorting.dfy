/** What a stable sort is: an arrangement that is ordered and keeps, for every class of
    equivalent elements, their original order.  It is unique, and it commutes with
    filtering. */
module Sorting {

  ghost predicate TotalPreorder<T(!new)>(leq: (T, T) -> bool) {
    && (forall a, b :: leq(a, b) || leq(b, a))
    && (forall a, b, c :: leq(a, b) && leq(b, c) ==> leq(a, c))
  }

  predicate Sorted<T>(xs: seq<T>, leq: (T, T) -> bool) {
    forall i, j :: 0 <= i < j < |xs| ==> leq(xs[i], xs[j])
  }

  /** The elements that satisfy the predicate, in order. */
  function Select<T(!new)>(xs: seq<T>, p: T -> bool): (r: seq<T>)
    ensures forall x :: x in r <==> x in xs && p(x)
  {
    if xs == [] then []
    else (if p(xs[0]) then [xs[0]] else []) + Select(xs[1..], p)
  }

  function Insert<T>(x: T, xs: seq<T>, leq: (T, T) -> bool): (r: seq<T>)
    ensures multiset(r) == multiset(xs) + multiset{x}
  {
    if xs == [] || leq(x, xs[0]) then [x] + xs
    else assert xs == [xs[0]] + xs[1..]; [xs[0]] + Insert(x, xs[1..], leq)
  }

  function StableSort<T>(xs: seq<T>, leq: (T, T) -> bool): (r: seq<T>)
    ensures multiset(r) == multiset(xs)
  {
    if xs == [] then []
    else assert xs == [xs[0]] + xs[1..]; Insert(xs[0], StableSort(xs[1..], leq), leq)
  }

  /** The elements equivalent to `x`, in order. */
  function Class<T(!new)>(xs: seq<T>, x: T, leq: (T, T) -> bool): seq<T> {
    Select(xs, y => leq(x, y) && leq(y, x))
  }

  lemma {:induction false} InsertSorted<T(!new)>(x: T, xs: seq<T>, leq: (T, T) -> bool)
    requires TotalPreorder(leq) && Sorted(xs, leq)
    ensures Sorted(Insert(x, xs, leq), leq)
  {
    if xs != [] && !leq(x, xs[0]) {
      InsertSorted(x, xs[1..], leq);
      var r := Insert(x, xs[1..], leq);
      forall j | 0 <= j < |r| ensures leq(xs[0], r[j]) {
        assert r[j] in multiset(r);
        assert r[j] == x || r[j] in xs[1..];
      }
    }
  }

  lemma {:induction false} SortSorts<T(!new)>(xs: seq<T>, leq: (T, T) -> bool)
    requires TotalPreorder(leq)
    ensures Sorted(StableSort(xs, leq), leq)
  {
    if xs != [] {
      SortSorts(xs[1..], leq);
      InsertSorted(xs[0], StableSort(xs[1..], leq), leq);
    }
  }

  lemma SelectCons<T(!new)>(x: T, xs: seq<T>, p: T -> bool)
    ensures Select([x] + xs, p) == (if p(x) then [x] else []) + Select(xs, p)
  {
    assert ([x] + xs)[1..] == xs;
  }

  /** Inserting below everything is putting in front. */
  lemma InsertFront<T>(x: T, xs: seq<T>, leq: (T, T) -> bool)
    requires forall y :: y in xs ==> leq(x, y)
    ensures Insert(x, xs, leq) == [x] + xs
  {
    if xs != [] { assert xs[0] in xs; }
  }

  lemma InsertBehind<T>(x: T, y: T, xs: seq<T>, leq: (T, T) -> bool)
    requires !leq(x, y)
    ensures Insert(x, [y] + xs, leq) == [y] + Insert(x, xs, leq)
  {
    assert ([y] + xs)[1..] == xs;
  }

  lemma {:induction false} InsertSelect<T(!new)>(x: T, xs: seq<T>, leq: (T, T) -> bool, p: T -> bool)
    requires TotalPreorder(leq) && Sorted(xs, leq)
    ensures Select(Insert(x, xs, leq), p) == if p(x) then Insert(x, Select(xs, p), leq) else Select(xs, p)
  {
    hide Select, Insert;
    if xs == [] || leq(x, xs[0]) {
      assert forall y :: y in xs ==> leq(x, y);
      InsertFront(x, xs, leq);
      SelectCons(x, xs, p);
      InsertFront(x, Select(xs, p), leq);
      assert [] + Select(xs, p) == Select(xs, p);
    } else {
      var y, rest := xs[0], xs[1..];
      assert xs == [y] + rest;
      InsertSelect(x, rest, leq, p);
      InsertBehind(x, y, rest, leq);
      SelectCons(y, rest, p);
      SelectCons(y, Insert(x, rest, leq), p);
      InsertBehind(x, y, Select(rest, p), leq);
      assert [] + Select(rest, p) == Select(rest, p);
      assert [] + Select(Insert(x, rest, leq), p) == Select(Insert(x, rest, leq), p);
    }
  }

  /** Filtering and stable sorting commute. */
  lemma {:induction false} SortSelect<T(!new)>(xs: seq<T>, leq: (T, T) -> bool, p: T -> bool)
    requires TotalPreorder(leq)
    ensures Select(StableSort(xs, leq), p) == StableSort(Select(xs, p), leq)
  {
    if xs != [] {
      var x, rest := xs[0], xs[1..];
      assert xs == [x] + rest;
      SortSelect(rest, leq, p);
      SortSorts(rest, leq);
      InsertSelect(x, StableSort(rest, leq), leq, p);
      SelectCons(x, rest, p);
      SortCons(x, rest, leq);
      SortCons(x, Select(rest, p), leq);
      hide StableSort, Select, Insert;
      assert [] + Select(rest, p) == Select(rest, p);
    }
  }

  lemma SortCons<T>(x: T, xs: seq<T>, leq: (T, T) -> bool)
    ensures StableSort([x] + xs, leq) == Insert(x, StableSort(xs, leq), leq)
  {
    assert ([x] + xs)[1..] == xs;
  }

  lemma {:induction false} SortOfSorted<T>(xs: seq<T>, leq: (T, T) -> bool)
    requires Sorted(xs, leq)
    ensures StableSort(xs, leq) == xs
  {
    if xs != [] {
      SortOfSorted(xs[1..], leq);
      assert xs == [xs[0]] + xs[1..];
      if |xs| > 1 { assert leq(xs[0], xs[1]); }
    }
  }

  lemma {:induction false} SelectAll<T(!new)>(xs: seq<T>, p: T -> bool)
    requires forall x :: x in xs ==> p(x)
    ensures Select(xs, p) == xs
  {
    if xs != [] { SelectAll(xs[1..], p); }
  }

  lemma {:induction false} SelectSame<T(!new)>(xs: seq<T>, p: T -> bool, q: T -> bool)
    requires forall x :: x in xs ==> p(x) == q(x)
    ensures Select(xs, p) == Select(xs, q)
  {
    if xs != [] { SelectSame(xs[1..], p, q); }
  }

  /** Selecting keeps the multiplicity of what it keeps. */
  lemma {:induction false} SelectCount<T(!new)>(xs: seq<T>, p: T -> bool, x: T)
    ensures multiset(Select(xs, p))[x] == if p(x) then multiset(xs)[x] else 0
  {
    if xs != [] {
      SelectCount(xs[1..], p, x);
      assert xs == [xs[0]] + xs[1..];
    }
  }

  lemma {:induction false} SelectConcat<T(!new)>(a: seq<T>, b: seq<T>, p: T -> bool)
    ensures Select(a + b, p) == Select(a, p) + Select(b, p)
  {
    if a == [] {
      assert a + b == b;
    } else {
      assert (a + b)[1..] == a[1..] + b;
      SelectConcat(a[1..], b, p);
    }
  }

  lemma {:induction false} SelectTwice<T(!new)>(xs: seq<T>, p: T -> bool, q: T -> bool, both: T -> bool)
    requires forall x :: both(x) == (p(x) && q(x))
    ensures Select(Select(xs, p), q) == Select(xs, both)
  {
    if xs != [] {
      SelectTwice(xs[1..], p, q, both);
      SelectCons(xs[0], Select(xs[1..], p), q);
      assert [] + Select(xs[1..], p) == Select(xs[1..], p);
    }
  }

  /** Sorting keeps every class as it was. */
  lemma SortKeepsClass<T(!new)>(xs: seq<T>, x: T, leq: (T, T) -> bool)
    requires TotalPreorder(leq)
    ensures Class(StableSort(xs, leq), x, leq) == Class(xs, x, leq)
  {
    var p := y => leq(x, y) && leq(y, x);
    SortSelect(xs, leq, p);
    var c := Select(xs, p);
    assert Sorted(c, leq) by {
      forall i, j | 0 <= i < j < |c| ensures leq(c[i], c[j]) {
        assert c[i] in c && c[j] in c;
      }
    }
    SortOfSorted(c, leq);
  }

  /** An ordered arrangement is determined by its classes. */
  lemma {:induction false} SortedUnique<T(!new)>(a: seq<T>, b: seq<T>, leq: (T, T) -> bool)
    requires TotalPreorder(leq) && Sorted(a, leq) && Sorted(b, leq)
    requires forall x :: Class(a, x, leq) == Class(b, x, leq)
    ensures a == b
    decreases |a|
  {
    if a == [] {
      OwnClass(b, leq);
    } else {
      assert a[0] in Class(a, a[0], leq);
      assert a[0] in Class(b, a[0], leq);
      assert b != [];
      assert b[0] in Class(b, b[0], leq);
      assert b[0] in Class(a, b[0], leq);
      FirstLeast(a, b[0], leq);
      FirstLeast(b, a[0], leq);
      assert Class(a, a[0], leq)[0] == a[0] && Class(b, a[0], leq)[0] == b[0];
      forall x ensures Class(a[1..], x, leq) == Class(b[1..], x, leq) {
        assert Class(a, x, leq) == Class(b, x, leq);
        ClassTail(a, x, leq);
        ClassTail(b, x, leq);
      }
      SortedUnique(a[1..], b[1..], leq);
      assert a == [a[0]] + a[1..] && b == [b[0]] + b[1..];
    }
  }

  lemma OwnClass<T(!new)>(b: seq<T>, leq: (T, T) -> bool)
    requires TotalPreorder(leq)
    ensures b != [] ==> exists x :: Class(b, x, leq) != []
  {
    if b != [] { assert b[0] in Class(b, b[0], leq); }
  }

  lemma ClassTail<T(!new)>(a: seq<T>, x: T, leq: (T, T) -> bool)
    requires a != []
    ensures Class(a[1..], x, leq) == if leq(x, a[0]) && leq(a[0], x) then Class(a, x, leq)[1..] else Class(a, x, leq)
  {
  }

  lemma FirstLeast<T(!new)>(a: seq<T>, x: T, leq: (T, T) -> bool)
    requires TotalPreorder(leq) && Sorted(a, leq) && x in a
    ensures leq(a[0], x)
  {
    var i :| 0 <= i < |a| && a[i] == x;
  }

  // ------------------------------------------------------------------------ strings

  /** Go's order of strings: UTF-8 keeps the order of the characters. */
  predicate Leq(a: string, b: string) {
    a == "" || (b != "" && (a[0] < b[0] || (a[0] == b[0] && Leq(a[1..], b[1..]))))
  }

  lemma {:induction false} LeqTotal(a: string, b: string)
    ensures Leq(a, b) || Leq(b, a)
    ensures Leq(a, b) && Leq(b, a) ==> a == b
  {
    if a != "" && b != "" {
      LeqTotal(a[1..], b[1..]);
      assert a == [a[0]] + a[1..] && b == [b[0]] + b[1..];
    }
  }

  lemma {:induction false} LeqTransitive(a: string, b: string, c: string)
    requires Leq(a, b) && Leq(b, c)
    ensures Leq(a, c)
  {
    if a != "" && a[0] == b[0] && b[0] == c[0] { LeqTransitive(a[1..], b[1..], c[1..]); }
  }

  lemma StringOrder()
    ensures TotalPreorder(Leq)
  {
    hide Leq;
    forall a, b ensures Leq(a, b) || Leq(b, a) { LeqTotal(a, b); }
    forall a, b, c | Leq(a, b) && Leq(b, c) ensures Leq(a, c) { LeqTransitive(a, b, c); }
  }

  /** Sorting strings forgets the order they came in, and nothing else. */
  lemma {:induction false} SortedStringsUnique(a: seq<string>, b: seq<string>)
    requires Sorted(a, Leq) && Sorted(b, Leq) && multiset(a) == multiset(b)
    ensures a == b
  {
    hide Leq;
    if a != [] {
      SameLeast(a, b);
      SortedStringsUnique(a[1..], b[1..]);
      assert a == [a[0]] + a[1..] && b == [b[0]] + b[1..];
    } else {
      assert |a| == |multiset(a)| && |b| == |multiset(b)|;
    }
  }

  lemma SameLeast(a: seq<string>, b: seq<string>)
    requires Sorted(a, Leq) && Sorted(b, Leq) && multiset(a) == multiset(b) && a != []
    ensures b != [] && a[0] == b[0] && multiset(a[1..]) == multiset(b[1..])
  {
    hide Leq;
    assert a[0] in multiset(a) && a[0] in multiset(b);
    assert b != [] && b[0] in multiset(b) && b[0] in multiset(a);
    LeqTotal(a[0], a[0]);
    LeqTotal(b[0], b[0]);
    LeastFirst(a, b[0]);
    LeastFirst(b, a[0]);
    LeqTotal(a[0], b[0]);
    assert a == [a[0]] + a[1..] && b == [b[0]] + b[1..];
    assert multiset(a[1..]) == multiset(a) - multiset{a[0]};
    assert multiset(b[1..]) == multiset(b) - multiset{b[0]};
  }

  lemma LeastFirst(a: seq<string>, x: string)
    requires Sorted(a, Leq) && x in a && Leq(x, x)
    ensures Leq(a[0], x)
  {
    hide Leq;
    var i :| 0 <= i < |a| && a[i] == x;
  }
}

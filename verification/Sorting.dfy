/** A stable sort, and why its result is a function of the elements when the order tells them apart. */
module Sorting {

  ghost predicate StrictOrder<T(!new)>(less: (T, T) -> bool) {
    && (forall x :: !less(x, x))
    && (forall x, y, z :: less(x, y) && less(y, z) ==> less(x, z))
  }

  /** Transitivity of "not after", which sorting relies on. */
  ghost predicate WeakOrder<T(!new)>(less: (T, T) -> bool) {
    && StrictOrder(less)
    && (forall x, y, z :: !less(y, x) && !less(z, y) ==> !less(z, x))
  }

  ghost predicate Sorted<T>(less: (T, T) -> bool, s: seq<T>) {
    forall i, j | 0 <= i < j < |s| :: !less(s[j], s[i])
  }

  /** The order tells any two different elements apart. */
  ghost predicate Separates<T>(less: (T, T) -> bool, s: seq<T>) {
    forall i, j | 0 <= i < |s| && 0 <= j < |s| :: s[i] == s[j] || less(s[i], s[j]) || less(s[j], s[i])
  }

  /** Before the first element that is not smaller: equal elements keep their order. */
  function Insert<T>(less: (T, T) -> bool, x: T, s: seq<T>): seq<T> {
    if s == [] || !less(s[0], x) then [x] + s else [s[0]] + Insert(less, x, s[1..])
  }

  function Sort<T>(less: (T, T) -> bool, s: seq<T>): seq<T> {
    if s == [] then [] else Insert(less, s[0], Sort(less, s[1..]))
  }

  lemma {:induction false} InsertElements<T>(less: (T, T) -> bool, x: T, s: seq<T>)
    ensures multiset(Insert(less, x, s)) == multiset{x} + multiset(s)
  {
    if s != [] && less(s[0], x) {
      InsertElements(less, x, s[1..]);
      assert s == [s[0]] + s[1..];
    }
  }

  lemma {:induction false} InsertSorted<T(!new)>(less: (T, T) -> bool, x: T, s: seq<T>)
    requires WeakOrder(less) && Sorted(less, s)
    ensures Sorted(less, Insert(less, x, s))
  {
    if s != [] && less(s[0], x) {
      InsertSorted(less, x, s[1..]);
      InsertElements(less, x, s[1..]);
      var rest := Insert(less, x, s[1..]);
      forall j | 0 <= j < |rest| ensures !less(rest[j], s[0]) {
        assert rest[j] in multiset(rest);
        assert rest[j] == x || rest[j] in s[1..];
      }
    }
  }

  lemma {:induction false} SortSorts<T(!new)>(less: (T, T) -> bool, s: seq<T>)
    requires WeakOrder(less)
    ensures Sorted(less, Sort(less, s)) && multiset(Sort(less, s)) == multiset(s)
  {
    if s != [] {
      SortSorts(less, s[1..]);
      InsertSorted(less, s[0], Sort(less, s[1..]));
      InsertElements(less, s[0], Sort(less, s[1..]));
      assert s == [s[0]] + s[1..];
    }
  }

  /** Removing one element removes it once. */
  lemma RemoveOne<T>(s: seq<T>, i: nat)
    requires i < |s|
    ensures multiset(s[..i] + s[i + 1..]) == multiset(s) - multiset{s[i]}
  {
    assert s == s[..i] + [s[i]] + s[i + 1..];
  }

  lemma TailElements<T>(s: seq<T>)
    requires s != []
    ensures multiset(s[1..]) == multiset(s) - multiset{s[0]}
  {
    RemoveOne(s, 0);
    assert s[..0] + s[1..] == s[1..];
  }

  /** Taking the same element out of both sides changes nothing about their agreement. */
  lemma CancelOne<T>(p: seq<T>, q: seq<T>, j: nat)
    requires p != [] && j < |q| && q[j] == p[0]
    ensures multiset(p[1..]) == multiset(q[..j] + q[j + 1..]) <==> multiset(p) == multiset(q)
  {
    TailElements(p);
    RemoveOne(q, j);
    Restore(multiset(p), multiset(q), p[0]);
  }

  lemma Restore<T>(a: multiset<T>, b: multiset<T>, x: T)
    requires x in a && x in b
    ensures a - multiset{x} == b - multiset{x} <==> a == b
  {
    assert (a - multiset{x}) + multiset{x} == a && (b - multiset{x}) + multiset{x} == b;
  }

  lemma HeadsEqual<T(!new)>(less: (T, T) -> bool, a: seq<T>, b: seq<T>)
    requires StrictOrder(less) && Separates(less, a) && multiset(a) == multiset(b) && a != []
    requires Sorted(less, a) && Sorted(less, b)
    ensures b != [] && a[0] == b[0]
  {
    assert a[0] in multiset(b) by { assert a[0] in multiset(a); }
    var i :| 0 <= i < |b| && b[i] == a[0];
    assert b[0] in multiset(a) by { assert b[0] in multiset(b); }
    var j :| 0 <= j < |a| && a[j] == b[0];
    assert !less(b[i], b[0]) && !less(a[j], a[0]);
  }

  lemma TailSorted<T>(less: (T, T) -> bool, s: seq<T>)
    requires s != [] && Sorted(less, s)
    ensures Sorted(less, s[1..])
  {
  }

  lemma TailSeparates<T>(less: (T, T) -> bool, s: seq<T>)
    requires s != [] && Separates(less, s)
    ensures Separates(less, s[1..])
  {
  }

  /** Two sorted arrangements of elements the order tells apart are the same. */
  lemma {:induction false} SortedUnique<T(!new)>(less: (T, T) -> bool, a: seq<T>, b: seq<T>)
    requires StrictOrder(less) && Separates(less, a) && multiset(a) == multiset(b)
    requires Sorted(less, a) && Sorted(less, b)
    ensures a == b
  {
    if a == [] {
      assert |b| == |multiset(b)| == 0;
    } else {
      HeadsEqual(less, a, b);
      TailElements(a);
      TailElements(b);
      TailSorted(less, a);
      TailSorted(less, b);
      TailSeparates(less, a);
      hide Sorted, Separates, StrictOrder;
      SortedUnique(less, a[1..], b[1..]);
      assert a == [a[0]] + a[1..] && b == [b[0]] + b[1..];
    }
  }
}

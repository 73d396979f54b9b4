/**
 * The library's stable sort, as a function with the contract its callers rely on: a
 * permutation, ordered by the comparison, with equivalent elements in their old order.
 */
module StableSort {

  ghost predicate StrictWeakOrder<T(!new)>(less: (T, T) -> bool) {
    && (forall x :: !less(x, x))
    && (forall x, y, z :: less(x, y) && less(y, z) ==> less(x, z))
    && (forall x, y, z :: !less(x, y) && !less(y, z) ==> !less(x, z))
  }

  ghost predicate Ordered<T>(s: seq<T>, less: (T, T) -> bool) {
    forall i, j :: 0 <= i < j < |s| ==> !less(s[j], s[i])
  }

  /** The elements of `s` that the comparison cannot tell from `x`, in order. */
  ghost function Peers<T>(s: seq<T>, less: (T, T) -> bool, x: T): seq<T> {
    if s == [] then []
    else (if less(s[0], x) || less(x, s[0]) then [] else [s[0]]) + Peers(s[1..], less, x)
  }

  function Insert<T>(x: T, s: seq<T>, less: (T, T) -> bool): seq<T> {
    if s == [] || !less(s[0], x) then [x] + s else [s[0]] + Insert(x, s[1..], less)
  }

  function Sort<T>(s: seq<T>, less: (T, T) -> bool): seq<T> {
    if s == [] then [] else Insert(s[0], Sort(s[1..], less), less)
  }

  lemma {:induction false} InsertPermutes<T>(x: T, s: seq<T>, less: (T, T) -> bool)
    ensures multiset(Insert(x, s, less)) == multiset{x} + multiset(s)
    ensures |Insert(x, s, less)| == |s| + 1
  {
    if !(s == [] || !less(s[0], x)) {
      InsertPermutes(x, s[1..], less);
      assert s == [s[0]] + s[1..];
    }
  }

  lemma {:induction false} SortPermutes<T>(s: seq<T>, less: (T, T) -> bool)
    ensures multiset(Sort(s, less)) == multiset(s)
    ensures |Sort(s, less)| == |s|
  {
    if s != [] {
      SortPermutes(s[1..], less);
      InsertPermutes(s[0], Sort(s[1..], less), less);
      assert s == [s[0]] + s[1..];
    }
  }

  lemma {:induction false} InsertOrders<T(!new)>(x: T, s: seq<T>, less: (T, T) -> bool)
    requires StrictWeakOrder(less) && Ordered(s, less)
    ensures Ordered(Insert(x, s, less), less)
  {
    if s == [] {
    } else if !less(s[0], x) {
      forall j | 0 <= j < |s| ensures !less(s[j], x) {
        assert j > 0 ==> !less(s[j], s[0]);
      }
    } else {
      var t := Insert(x, s[1..], less);
      InsertOrders(x, s[1..], less);
      InsertPermutes(x, s[1..], less);
      forall j | 0 <= j < |t| ensures !less(t[j], s[0]) {
        assert t[j] in multiset(t);
        assert t[j] == x || t[j] in s[1..];
      }
    }
  }

  lemma {:induction false} SortOrders<T(!new)>(s: seq<T>, less: (T, T) -> bool)
    requires StrictWeakOrder(less)
    ensures Ordered(Sort(s, less), less)
  {
    if s != [] {
      SortOrders(s[1..], less);
      InsertOrders(s[0], Sort(s[1..], less), less);
    }
  }

  lemma {:induction false} InsertKeepsPeers<T(!new)>(x: T, s: seq<T>, less: (T, T) -> bool, p: T)
    requires StrictWeakOrder(less)
    ensures Peers(Insert(x, s, less), less, p) == Peers([x] + s, less, p)
  {
    assert ([x] + s)[1..] == s;
    if !(s == [] || !less(s[0], x)) {
      var t := Insert(x, s[1..], less);
      InsertKeepsPeers(x, s[1..], less, p);
      assert ([s[0]] + t)[1..] == t;
      assert ([x] + s[1..])[1..] == s[1..];
    }
  }

  /** Stability: elements that compare equal keep their order. */
  lemma {:induction false} SortKeepsPeers<T(!new)>(s: seq<T>, less: (T, T) -> bool, p: T)
    requires StrictWeakOrder(less)
    ensures Peers(Sort(s, less), less, p) == Peers(s, less, p)
  {
    if s != [] {
      var t := Sort(s[1..], less);
      SortKeepsPeers(s[1..], less, p);
      InsertKeepsPeers(s[0], t, less, p);
      assert ([s[0]] + t)[1..] == t;
    }
  }

  ghost predicate StrictlyOrdered<T>(s: seq<T>, less: (T, T) -> bool) {
    forall i, j :: 0 <= i < j < |s| ==> less(s[i], s[j]) && !less(s[j], s[i])
  }

  ghost predicate Distinct<T>(s: seq<T>) {
    forall i, j :: 0 <= i < j < |s| ==> s[i] != s[j]
  }

  lemma {:induction false} DistinctOnce<T>(s: seq<T>, x: T)
    requires Distinct(s)
    ensures multiset(s)[x] <= 1
  {
    if s != [] {
      DistinctOnce(s[..|s| - 1], x);
      assert s == s[..|s| - 1] + [s[|s| - 1]];
    }
  }

  lemma DistinctPermuted<T>(s: seq<T>, t: seq<T>)
    requires Distinct(s) && multiset(s) == multiset(t)
    ensures Distinct(t)
  {
    forall i, j | 0 <= i < j < |t| ensures t[i] != t[j] {
      assert t == t[..i] + [t[i]] + t[i + 1..j] + [t[j]] + t[j + 1..];
      DistinctOnce(s, t[i]);
    }
  }

  /** Two orderings without ties of the same set of elements are the same sequence. */
  lemma {:induction false} StrictOrderDetermined<T>(s: seq<T>, t: seq<T>, less: (T, T) -> bool)
    requires StrictlyOrdered(s, less) && StrictlyOrdered(t, less)
    requires forall x :: x in s <==> x in t
    ensures s == t
  {
    assert |s| > 0 ==> s[0] in s && s[0] in t;
    assert |t| > 0 ==> t[0] in t && t[0] in s;
    if s != [] {
      assert s[0] == t[0];
      assert forall x :: x in s[1..] <==> x in s && x != s[0];
      assert forall x :: x in t[1..] <==> x in t && x != t[0];
      StrictOrderDetermined(s[1..], t[1..], less);
    }
  }

  /** Sorting distinct elements that the comparison tells apart yields the one ordering there is. */
  lemma SortDetermined<T(!new)>(s: seq<T>, t: seq<T>, less: (T, T) -> bool)
    requires StrictWeakOrder(less) && Distinct(s) && StrictlyOrdered(t, less)
    requires forall x :: x in s <==> x in t
    requires forall x, y :: x in s && y in s && x != y ==> less(x, y) || less(y, x)
    ensures Sort(s, less) == t
  {
    var u := Sort(s, less);
    SortPermutes(s, less);
    SortOrders(s, less);
    DistinctPermuted(s, u);
    assert forall x :: x in u <==> x in multiset(u);
    assert forall x :: x in s <==> x in multiset(s);
    StrictOrderDetermined(u, t, less);
  }
}

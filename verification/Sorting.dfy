/** Stable sorting by any order. */
module Sorting {

  /** `x` goes after everything it does not have to precede. */
  function Insert<T>(le: (T, T) -> bool, sorted: seq<T>, x: T): seq<T> {
    if sorted == [] || le(sorted[|sorted| - 1], x) then sorted + [x]
    else Insert(le, sorted[..|sorted| - 1], x) + [sorted[|sorted| - 1]]
  }

  function Sort<T>(le: (T, T) -> bool, items: seq<T>): seq<T> {
    if items == [] then [] else Insert(le, Sort(le, items[..|items| - 1]), items[|items| - 1])
  }

  /** Any two can be compared, and comparing is transitive. */
  ghost predicate Orders<T(!new)>(le: (T, T) -> bool) {
    && (forall a, b :: le(a, b) || le(b, a))
    && forall a, b, c :: le(a, b) && le(b, c) ==> le(a, c)
  }

  ghost predicate Ascending<T>(le: (T, T) -> bool, s: seq<T>) {
    forall i, j :: 0 <= i < j < |s| ==> le(s[i], s[j])
  }

  lemma {:induction false} InsertPermutes<T>(le: (T, T) -> bool, sorted: seq<T>, x: T)
    ensures multiset(Insert(le, sorted, x)) == multiset(sorted) + multiset{x}
  {
    if sorted != [] && !le(sorted[|sorted| - 1], x) {
      var front, last := sorted[..|sorted| - 1], sorted[|sorted| - 1];
      InsertPermutes(le, front, x);
      assert sorted == front + [last];
    }
  }

  /** Sorting loses and invents nothing. */
  lemma {:induction false} SortPermutes<T>(le: (T, T) -> bool, items: seq<T>)
    ensures multiset(Sort(le, items)) == multiset(items)
  {
    hide Insert;
    if items != [] {
      var front, last := items[..|items| - 1], items[|items| - 1];
      SortPermutes(le, front);
      InsertPermutes(le, Sort(le, front), last);
      assert items == front + [last];
    }
  }

  lemma SortMembers<T>(le: (T, T) -> bool, items: seq<T>)
    ensures |Sort(le, items)| == |items| && forall x :: x in Sort(le, items) <==> x in items
  {
    hide Sort;
    SortPermutes(le, items);
    var sorted := Sort(le, items);
    assert |multiset(sorted)| == |sorted| && |multiset(items)| == |items|;
    assert forall x :: x in sorted <==> x in multiset(sorted);
    assert forall x :: x in items <==> x in multiset(items);
  }

  lemma {:induction false} InsertAscends<T(!new)>(le: (T, T) -> bool, sorted: seq<T>, x: T)
    requires Orders(le) && Ascending(le, sorted)
    ensures Ascending(le, Insert(le, sorted, x))
  {
    if sorted == [] {
    } else if le(sorted[|sorted| - 1], x) {
      forall i | 0 <= i < |sorted| ensures le(sorted[i], x) {
        assert i < |sorted| - 1 ==> le(sorted[i], sorted[|sorted| - 1]);
      }
    } else {
      var front, last := sorted[..|sorted| - 1], sorted[|sorted| - 1];
      InsertAscends(le, front, x);
      InsertPermutes(le, front, x);
      var placed := Insert(le, front, x);
      forall i | 0 <= i < |placed| ensures le(placed[i], last) {
        assert placed[i] in multiset(placed);
        assert placed[i] == x || placed[i] in front;
      }
    }
  }

  /** Sorting puts in order. */
  lemma {:induction false} SortAscends<T(!new)>(le: (T, T) -> bool, items: seq<T>)
    requires Orders(le)
    ensures Ascending(le, Sort(le, items))
  {
    hide Insert, Orders;
    if items != [] {
      SortAscends(le, items[..|items| - 1]);
      InsertAscends(le, Sort(le, items[..|items| - 1]), items[|items| - 1]);
    }
  }

  /** What is in order stays as it is. */
  lemma {:induction false} SortOfAscending<T>(le: (T, T) -> bool, items: seq<T>)
    requires Ascending(le, items)
    ensures Sort(le, items) == items
  {
    if items != [] {
      var front, last := items[..|items| - 1], items[|items| - 1];
      SortOfAscending(le, front);
      assert Insert(le, front, last) == front + [last];
      assert items == front + [last];
    }
  }

  lemma {:induction false} InsertAgrees<T>(le: (T, T) -> bool, other: (T, T) -> bool, sorted: seq<T>, x: T)
    requires forall a :: a in sorted ==> le(a, x) == other(a, x)
    ensures Insert(le, sorted, x) == Insert(other, sorted, x)
  {
    if sorted != [] {
      InsertAgrees(le, other, sorted[..|sorted| - 1], x);
    }
  }

  /** Two orders that agree on the items sort them alike, ties included. */
  lemma {:induction false} SortAgrees<T>(le: (T, T) -> bool, other: (T, T) -> bool, items: seq<T>)
    requires forall a, b :: a in items && b in items ==> le(a, b) == other(a, b)
    ensures Sort(le, items) == Sort(other, items)
  {
    hide Insert;
    if items != [] {
      var front, last := items[..|items| - 1], items[|items| - 1];
      SortAgrees(le, other, front);
      var sorted := Sort(le, front);
      SortPermutes(le, front);
      forall a | a in sorted ensures le(a, last) == other(a, last) {
        assert a in multiset(sorted);
        assert a in front;
      }
      InsertAgrees(le, other, sorted, last);
    }
  }

  // ------------------------------------------------------------ counting

  /** How many items satisfy `p`. */
  function Count<T>(p: T -> bool, items: seq<T>): (n: nat)
    ensures n <= |items|
  {
    if items == [] then 0
    else Count(p, items[..|items| - 1]) + if p(items[|items| - 1]) then 1 else 0
  }

  lemma {:induction false} CountOfConcat<T>(p: T -> bool, a: seq<T>, b: seq<T>)
    ensures Count(p, a + b) == Count(p, a) + Count(p, b)
  {
    if b == [] {
      assert a + b == a;
    } else {
      CountOfConcat(p, a, b[..|b| - 1]);
      assert (a + b)[..|a + b| - 1] == a + b[..|b| - 1];
    }
  }

  lemma {:induction false} CountOfInsert<T>(p: T -> bool, le: (T, T) -> bool, sorted: seq<T>, x: T)
    ensures Count(p, Insert(le, sorted, x)) == Count(p, sorted) + if p(x) then 1 else 0
  {
    if sorted == [] || le(sorted[|sorted| - 1], x) {
      assert (sorted + [x])[..|sorted|] == sorted;
    } else {
      var front, last := sorted[..|sorted| - 1], sorted[|sorted| - 1];
      CountOfInsert(p, le, front, x);
      var r := Insert(le, front, x) + [last];
      assert r[..|r| - 1] == Insert(le, front, x);
    }
  }

  lemma {:induction false} CountOfSort<T>(p: T -> bool, le: (T, T) -> bool, items: seq<T>)
    ensures Count(p, Sort(le, items)) == Count(p, items)
  {
    hide Insert;
    if items != [] {
      CountOfSort(p, le, items[..|items| - 1]);
      CountOfInsert(p, le, Sort(le, items[..|items| - 1]), items[|items| - 1]);
    }
  }

  /** Counting by position. */
  ghost function Where<T>(p: T -> bool, items: seq<T>): set<nat> {
    set i | 0 <= i < |items| && p(items[i])
  }

  lemma WhereGrows<T>(p: T -> bool, items: seq<T>, x: T)
    ensures Where(p, items + [x]) == Where(p, items) + if p(x) then {|items|} else {}
    ensures |items| !in Where(p, items)
  {
    forall i | 0 <= i < |items| ensures (items + [x])[i] == items[i] {
    }
  }

  lemma {:induction false} CountIsWhere<T>(p: T -> bool, items: seq<T>)
    ensures Count(p, items) == |Where(p, items)|
  {
    if items == [] {
      assert Where(p, items) == {};
    } else {
      var front, last := items[..|items| - 1], items[|items| - 1];
      CountIsWhere(p, front);
      assert items == front + [last];
      hide Where;
      WhereGrows(p, front, last);
    }
  }
}

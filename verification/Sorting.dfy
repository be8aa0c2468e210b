/** Array.prototype.sort with a comparison: `le(a, b)` says that `a` compares less than or equal to `b`. */
module Sorting {

  // A comparison that puts any two items in order, consistently.
  ghost predicate Ordering<T(!new)>(le: (T, T) -> bool) {
    && (forall a, b :: le(a, b) || le(b, a))
    && (forall a, b, c :: le(a, b) && le(b, c) ==> le(a, c))
  }

  predicate Sorted<T>(items: seq<T>, le: (T, T) -> bool) {
    forall i, j | 0 <= i < j < |items| :: le(items[i], items[j])
  }

  // An item goes after the items it compares equal to.
  function Insert<T>(items: seq<T>, item: T, le: (T, T) -> bool): seq<T> {
    if items == [] || le(items[|items| - 1], item) then items + [item]
    else Insert(items[..|items| - 1], item, le) + [items[|items| - 1]]
  }

  function Sort<T>(items: seq<T>, le: (T, T) -> bool): seq<T> {
    if items == [] then [] else Insert(Sort(items[..|items| - 1], le), items[|items| - 1], le)
  }

  // The items that compare equal to a given one, in order.
  function Ties<T>(items: seq<T>, to: T, le: (T, T) -> bool): seq<T> {
    if items == [] then []
    else
      var ties, last := Ties(items[..|items| - 1], to, le), items[|items| - 1];
      if le(last, to) && le(to, last) then ties + [last] else ties
  }

  lemma {:induction false} InsertPermutes<T(!new)>(items: seq<T>, item: T, le: (T, T) -> bool)
    ensures multiset(Insert(items, item, le)) == multiset(items) + multiset{item}
  {
    if items != [] && !le(items[|items| - 1], item) {
      InsertPermutes(items[..|items| - 1], item, le);
      assert items == items[..|items| - 1] + [items[|items| - 1]];
    }
  }

  lemma InsertHas<T(!new)>(items: seq<T>, item: T, le: (T, T) -> bool, i: nat)
    requires i < |Insert(items, item, le)|
    ensures Insert(items, item, le)[i] in items || Insert(items, item, le)[i] == item
  {
    InsertPermutes(items, item, le);
    assert Insert(items, item, le)[i] in multiset(Insert(items, item, le));
  }

  lemma SortedAppend<T(!new)>(items: seq<T>, item: T, le: (T, T) -> bool)
    requires Sorted(items, le) && forall i | 0 <= i < |items| :: le(items[i], item)
    ensures Sorted(items + [item], le)
  {
  }

  lemma {:induction false} InsertSorts<T(!new)>(items: seq<T>, item: T, le: (T, T) -> bool)
    requires Ordering(le) && Sorted(items, le)
    ensures Sorted(Insert(items, item, le), le)
  {
    if items == [] || le(items[|items| - 1], item) {
      forall i | 0 <= i < |items| ensures le(items[i], item) {
        assert i < |items| - 1 ==> le(items[i], items[|items| - 1]);
      }
      SortedAppend(items, item, le);
    } else {
      var init, last := items[..|items| - 1], items[|items| - 1];
      InsertSorts(init, item, le);
      forall i | 0 <= i < |Insert(init, item, le)| ensures le(Insert(init, item, le)[i], last) {
        InsertHas(init, item, le, i);
      }
      SortedAppend(Insert(init, item, le), last, le);
    }
  }

  lemma TiesOfOneMore<T(!new)>(items: seq<T>, item: T, to: T, le: (T, T) -> bool)
    ensures Ties(items + [item], to, le) ==
            Ties(items, to, le) + if le(item, to) && le(to, item) then [item] else []
  {
    assert (items + [item])[..|items|] == items;
  }

  lemma {:induction false} InsertIsStable<T(!new)>(items: seq<T>, item: T, to: T, le: (T, T) -> bool)
    requires Ordering(le)
    ensures Ties(Insert(items, item, le), to, le) == Ties(items + [item], to, le)
  {
    if items != [] && !le(items[|items| - 1], item) {
      var init, last := items[..|items| - 1], items[|items| - 1];
      assert items == init + [last];
      InsertIsStable(init, item, to, le);
      TiesOfOneMore(Insert(init, item, le), last, to, le);
      TiesOfOneMore(init, item, to, le);
      TiesOfOneMore(init, last, to, le);
      TiesOfOneMore(items, item, to, le);
    }
  }

  lemma {:induction false} SortPermutes<T(!new)>(items: seq<T>, le: (T, T) -> bool)
    ensures multiset(Sort(items, le)) == multiset(items)
  {
    if items != [] {
      SortPermutes(items[..|items| - 1], le);
      InsertPermutes(Sort(items[..|items| - 1], le), items[|items| - 1], le);
      assert items == items[..|items| - 1] + [items[|items| - 1]];
    }
  }

  lemma {:induction false} SortIsSorted<T(!new)>(items: seq<T>, le: (T, T) -> bool)
    requires Ordering(le)
    ensures Sorted(Sort(items, le), le)
  {
    if items != [] {
      SortIsSorted(items[..|items| - 1], le);
      InsertSorts(Sort(items[..|items| - 1], le), items[|items| - 1], le);
    }
  }

  lemma {:induction false} SortIsStable<T(!new)>(items: seq<T>, to: T, le: (T, T) -> bool)
    requires Ordering(le)
    ensures Ties(Sort(items, le), to, le) == Ties(items, to, le)
  {
    if items != [] {
      var init, last := items[..|items| - 1], items[|items| - 1];
      SortIsStable(init, to, le);
      InsertIsStable(Sort(init, le), last, to, le);
      TiesOfOneMore(Sort(init, le), last, to, le);
    }
  }

  /** Sorting sorts, keeps every item as often as it was there, and never changes the order of items that
      compare equal. */
  lemma SortSorts<T(!new)>(items: seq<T>, to: T, le: (T, T) -> bool)
    requires Ordering(le)
    ensures Sorted(Sort(items, le), le) && multiset(Sort(items, le)) == multiset(items)
    ensures Ties(Sort(items, le), to, le) == Ties(items, to, le)
  {
    SortIsSorted(items, le);
    SortPermutes(items, le);
    SortIsStable(items, to, le);
  }

  lemma SortHas<T(!new)>(items: seq<T>, le: (T, T) -> bool, i: nat)
    requires i < |Sort(items, le)|
    ensures |Sort(items, le)| == |items| && Sort(items, le)[i] in items
  {
    SortPermutes(items, le);
    assert |multiset(Sort(items, le))| == |multiset(items)|;
    assert Sort(items, le)[i] in multiset(Sort(items, le));
  }

  ghost predicate Strict<T(!new)>(le: (T, T) -> bool) {
    Ordering(le) && forall a, b :: le(a, b) && le(b, a) ==> a == b
  }

  lemma SameHead<T(!new)>(a: seq<T>, b: seq<T>, le: (T, T) -> bool)
    requires Strict(le) && Sorted(a, le) && Sorted(b, le) && multiset(a) == multiset(b) && a != [] && b != []
    ensures a[0] == b[0]
  {
    assert a[0] in multiset(b) && b[0] in multiset(a);
    var i :| 0 <= i < |b| && b[i] == a[0];
    var j :| 0 <= j < |a| && a[j] == b[0];
    assert i > 0 ==> le(b[0], b[i]);
    assert j > 0 ==> le(a[0], a[j]);
  }

  lemma DropHead<T(!new)>(a: seq<T>)
    requires a != []
    ensures multiset(a[1..]) == multiset(a) - multiset{a[0]}
  {
    assert a == [a[0]] + a[1..];
  }

  /** There is only one sorted order of the same items when different items never compare equal. */
  lemma {:induction false} SortedIsUnique<T(!new)>(a: seq<T>, b: seq<T>, le: (T, T) -> bool)
    requires Strict(le) && Sorted(a, le) && Sorted(b, le) && multiset(a) == multiset(b)
    ensures a == b
  {
    assert |a| == |multiset(a)| == |multiset(b)| == |b|;
    if a != [] {
      SameHead(a, b, le);
      DropHead(a);
      DropHead(b);
      SortedIsUnique(a[1..], b[1..], le);
      assert a == [a[0]] + a[1..] && b == [b[0]] + b[1..];
    }
  }
}

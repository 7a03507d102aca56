/** The array of pipes whose items know their own positions. */
module PipeArray {
  import opened Basics

  type Id = nat

  /** The position of an item. */
  function IndexOf(items: seq<Id>, p: Id): (i: nat)
    requires p in items
    ensures i < |items| && items[i] == p && p !in items[..i]
  {
    if items[0] == p then 0 else 1 + IndexOf(items[1..], p)
  }

  lemma {:induction false} IndexIs(items: seq<Id>, p: Id, i: nat)
    requires Distinct(items) && i < |items| && items[i] == p
    ensures p in items && IndexOf(items, p) == i
  {
  }

  function Swap(items: seq<Id>, i: nat, j: nat): seq<Id>
    requires i < |items| && j < |items|
  {
    items[i := items[j]][j := items[i]]
  }

  lemma SwapTrivia(items: seq<Id>, i: nat, j: nat)
    requires i < |items| && j < |items|
    ensures Swap(items, i, j) == Swap(items, j, i)
    ensures i == j ==> Swap(items, i, j) == items
  {
  }

  /** The items in the first `k` places. */
  function First(items: seq<Id>, k: nat): set<Id>
    requires k <= |items|
  {
    set i | 0 <= i < k :: items[i]
  }

  lemma SwapKeeps(items: seq<Id>, i: nat, j: nat)
    requires Distinct(items) && i < |items| && j < |items|
    ensures Distinct(Swap(items, i, j)) && |Swap(items, i, j)| == |items|
    ensures First(Swap(items, i, j), |items|) == First(items, |items|)
    ensures multiset(Swap(items, i, j)) == multiset(items)
  {
    var s := Swap(items, i, j);
    forall p ensures p in First(s, |items|) <==> p in First(items, |items|) {
      if p in First(items, |items|) {
        var k :| 0 <= k < |items| && items[k] == p;
        assert s[if k == i then j else if k == j then i else k] == p;
      }
    }
  }

  /** A swap on one side of a boundary moves nothing across it. */
  lemma SwapOneSide(items: seq<Id>, i: nat, j: nat, k: nat)
    requires i < |items| && j < |items| && k <= |items| && ((i < k && j < k) || (i >= k && j >= k))
    ensures First(Swap(items, i, j), k) == First(items, k)
  {
    var s := Swap(items, i, j);
    forall p ensures p in First(s, k) <==> p in First(items, k) {
      if p in First(items, k) {
        var l :| 0 <= l < k && items[l] == p;
        assert s[if l == i then j else if l == j then i else l] == p;
      }
    }
  }

  /** Moving a boundary over one item. */
  lemma FirstStep(items: seq<Id>, k: nat)
    requires Distinct(items) && k < |items|
    ensures First(items, k + 1) == First(items, k) + {items[k]} && items[k] !in First(items, k)
  {
  }

  /** The first places depend on nothing behind them. */
  lemma FirstOfPrefix(items: seq<Id>, other: seq<Id>, k: nat)
    requires k <= |items| && k <= |other| && items[..k] == other[..k]
    ensures First(items, k) == First(other, k)
  {
    assert forall i | 0 <= i < k :: items[i] == items[..k][i] && other[i] == other[..k][i];
  }

  lemma SwapPuts(items: seq<Id>, i: nat, j: nat)
    requires i < |items| && j < |items|
    ensures |Swap(items, i, j)| == |items| && Swap(items, i, j)[j] == items[i]
  {
  }

  /** An item gone: the last one takes its place. */
  function Erased(items: seq<Id>, i: nat): seq<Id>
    requires i < |items|
  {
    items[i := items[|items| - 1]][..|items| - 1]
  }

  lemma ErasedKeeps(items: seq<Id>, i: nat)
    requires Distinct(items) && i < |items|
    ensures var s := Erased(items, i);
      && Distinct(s) && |s| == |items| - 1 && s[..i] == items[..i]
      && multiset(s) == multiset(items) - multiset{items[i]} && items[i] !in s
  {
    var last := |items| - 1;
    SwapKeeps(items, i, last);
    var s := Erased(items, i);
    assert s + [items[i]] == Swap(items, i, last);
    assert multiset(s + [items[i]]) == multiset(s) + multiset{items[i]};
    assert forall k | 0 <= k < last :: s[k] == Swap(items, i, last)[k];
  }

  class Pipes {
    var items: seq<Id>
    /** The position stored in each item. */
    var index: map<Id, nat>

    ghost predicate Valid()
      reads this
    {
      && Distinct(items)
      && (forall i | 0 <= i < |items| :: items[i] in index && index[items[i]] == i)
    }

    constructor ()
      ensures Valid() && items == []
    {
      items, index := [], map[];
    }

    method Index(p: Id) returns (i: nat)
      requires Valid() && p in items
      ensures i < |items| && items[i] == p
    {
      i := index[p];
    }

    method PushBack(p: Id)
      requires Valid() && p !in items
      modifies this
      ensures Valid() && items == old(items) + [p]
    {
      index := index[p := |items|];
      items := items + [p];
    }

    method Exchange(i: nat, j: nat)
      requires Valid() && i < |items| && j < |items|
      modifies this
      ensures Valid() && items == Swap(old(items), i, j)
    {
      SwapKeeps(items, i, j);
      index := index[items[i] := j];
      index := index[items[j] := i];
      items := items[i := items[j]][j := items[i]];
    }

    /** Erase an item; the last one takes its place. */
    method Erase(p: Id)
      requires Valid() && p in items
      modifies this
      ensures Valid() && items == Erased(old(items), IndexOf(old(items), p))
    {
      var i, last := index[p], |items| - 1;
      IndexIs(items, p, i);
      ErasedKeeps(items, i);
      index := index[items[last] := i];
      items := items[i := items[last]][..last];
    }
  }
}

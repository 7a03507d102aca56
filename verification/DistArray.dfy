/** The multicast array as a value: one array cut into regions by three counters. */
module DistArray {
  import opened Basics
  import opened PipeArray
  import D = DistSpec

  datatype Regions = Regions(items: seq<Id>, matching: nat, active: nat, eligible: nat, more: bool)

  predicate Sound(a: Regions) {
    && Distinct(a.items)
    && a.matching <= a.active <= a.eligible <= |a.items|
    && (!a.more ==> a.active == a.eligible)
  }

  const EMPTY := Regions([], 0, 0, 0, false)

  /** The pipes in each region. */
  ghost function GroupOf(a: Regions): (g: D.Group)
    requires Sound(a)
    ensures D.Ordered(g)
  {
    D.Group(First(a.items, |a.items|), First(a.items, a.eligible), First(a.items, a.active), First(a.items, a.matching), a.more)
  }

  // The calls.

  function Attach(a: Regions, p: Id): Regions
    requires Sound(a)
  {
    var items, last := a.items + [p], |a.items|;
    if a.more then a.(items := Swap(items, a.eligible, last), eligible := a.eligible + 1)
    else a.(items := Swap(items, a.active, last), active := a.active + 1, eligible := a.eligible + 1)
  }

  function Match(a: Regions, p: Id): Regions
    requires Sound(a) && p in a.items
  {
    var i := IndexOf(a.items, p);
    if i < a.matching || i >= a.eligible then a
    else a.(items := Swap(a.items, i, a.matching), matching := a.matching + 1)
  }

  function Unmatch(a: Regions): Regions { a.(matching := 0) }

  function Activated(a: Regions, p: Id): Regions
    requires Sound(a) && p in a.items && a.eligible < |a.items|
  {
    var items := Swap(a.items, IndexOf(a.items, p), a.eligible);
    if a.more then a.(items := items, eligible := a.eligible + 1)
    else a.(items := Swap(items, a.eligible, a.active), active := a.active + 1, eligible := a.eligible + 1)
  }

  /** A failed write to the pipe at place `i`. */
  function Refused(a: Regions, i: nat): Regions
    requires Sound(a) && i < a.matching
  {
    Regions(PushedOut(a.items, i, a.matching, a.active, a.eligible), a.matching - 1, a.active - 1, a.eligible - 1, a.more)
  }

  /** The retry loop from place `i` on, and the pipes written to. */
  function Distribute(a: Regions, i: nat, full: set<Id>): (Regions, seq<Id>)
    requires Sound(a)
    decreases a.matching - i
  {
    if i >= a.matching then (a, [])
    else if a.items[i] in full then
      RefusedActs(a, i);
      Distribute(Refused(a, i), i, full)
    else
      var (b, written) := Distribute(a, i + 1, full);
      (b, [a.items[i]] + written)
  }

  function Send(a: Regions, toAll: bool, last: bool, full: set<Id>): (Regions, seq<Id>)
    requires Sound(a)
  {
    var (b, written) := Distribute(if toAll then a.(matching := a.active) else a, 0, full);
    (b.(active := if last then b.eligible else b.active, more := !last), written)
  }

  /** A pipe is gone: the last pipe takes the free place, whatever region that is in. */
  function Terminated(a: Regions, p: Id): Regions
    requires Sound(a) && p in a.items
  {
    var i := IndexOf(a.items, p);
    Regions(Erased(a.items, i), Without(a.matching, i), Without(a.active, i), Without(a.eligible, i), a.more)
  }

  // Items across boundaries.

  /** Swapping an item to the far side of a boundary moved down by one. */
  lemma SwapOut(items: seq<Id>, i: nat, k: nat)
    requires Distinct(items) && i < k <= |items|
    ensures var s := Swap(items, i, k - 1);
      && Distinct(s) && |s| == |items| && s[k - 1] == items[i]
      && First(s, k - 1) == First(items, k) - {items[i]}
  {
    var s := Swap(items, i, k - 1);
    SwapKeeps(items, i, k - 1);
    SwapOneSide(items, i, k - 1, k);
    FirstStep(s, k - 1);
  }

  /** Swapping an item to the near side of a boundary moved up by one. */
  lemma SwapIn(items: seq<Id>, i: nat, k: nat)
    requires Distinct(items) && k <= i < |items|
    ensures var s := Swap(items, i, k);
      && Distinct(s) && |s| == |items|
      && First(s, k + 1) == First(items, k) + {items[i]} && items[i] !in First(items, k)
  {
    var s := Swap(items, i, k);
    SwapKeeps(items, i, k);
    SwapOneSide(items, i, k, k);
    FirstStep(s, k);
  }

  lemma InFirst(items: seq<Id>, k: nat, i: nat)
    requires i < k <= |items|
    ensures items[i] in First(items, k)
  {
  }

  lemma SwapBehind(items: seq<Id>, i: nat, j: nat, k: nat)
    requires k <= i < |items| && k <= j < |items|
    ensures Swap(items, i, j)[..k] == items[..k]
  {
  }

  function PushedOut(items: seq<Id>, i: nat, matching: nat, active: nat, eligible: nat): seq<Id>
    requires i < matching <= active <= eligible <= |items|
  {
    Swap(Swap(Swap(items, i, matching - 1), matching - 1, active - 1), active - 1, eligible - 1)
  }

  /** The three swaps of a failed write take one pipe out of the three regions and leave the scanned part alone. */
  lemma PushedOutGroups(items: seq<Id>, i: nat, matching: nat, active: nat, eligible: nat)
    requires Distinct(items) && i < matching <= active <= eligible <= |items|
    ensures var s := PushedOut(items, i, matching, active, eligible);
      && Distinct(s) && |s| == |items| && s[..i] == items[..i]
      && First(s, |s|) == First(items, |items|)
      && First(s, matching - 1) == First(items, matching) - {items[i]}
      && First(s, active - 1) == First(items, active) - {items[i]}
      && First(s, eligible - 1) == First(items, eligible) - {items[i]}
  {
    hide First, Distinct, Swap;
    SwapKeeps(items, i, matching - 1);
    var s1 := Swap(items, i, matching - 1);
    SwapKeeps(s1, matching - 1, active - 1);
    var s2 := Swap(s1, matching - 1, active - 1);
    SwapKeeps(s2, active - 1, eligible - 1);
    SwapBehind(items, i, matching - 1, i);
    SwapBehind(s1, matching - 1, active - 1, i);
    SwapBehind(s2, active - 1, eligible - 1, i);
    SwapOut(items, i, matching);
    SwapOut(s1, matching - 1, active);
    SwapOut(s2, active - 1, eligible);
    SwapOneSide(items, i, matching - 1, active);
    SwapOneSide(items, i, matching - 1, eligible);
    SwapOneSide(s1, matching - 1, active - 1, matching - 1);
    SwapOneSide(s1, matching - 1, active - 1, eligible);
    SwapOneSide(s2, active - 1, eligible - 1, matching - 1);
    SwapOneSide(s2, active - 1, eligible - 1, active - 1);
  }

  lemma FirstHas(items: seq<Id>, k: nat, i: nat)
    requires Distinct(items) && i < |items| && k <= |items|
    ensures items[i] in First(items, k) <==> i < k
  {
  }

  /** A boundary after the item at place `i` is gone. */
  function Without(k: nat, i: nat): nat { if i < k then k - 1 else k }

  /** Erasing place `i` leaves a boundary alone, or takes the item just below it, or the boundary is the end. */
  predicate Keeps(i: nat, k: nat, n: nat) { i + 1 >= k || k == n }

  /** Erasing an item takes exactly that item out of a region, if and only if the boundary is kept. */
  lemma EraseKeepsRegionIff(items: seq<Id>, i: nat, k: nat)
    requires Distinct(items) && i < |items| && k <= |items|
    ensures |Erased(items, i)| == |items| - 1 && Without(k, i) <= |items| - 1
    ensures First(Erased(items, i), Without(k, i)) == First(items, k) - {items[i]} <==> Keeps(i, k, |items|)
  {
    var s, j, last := Erased(items, i), Without(k, i), |items| - 1;
    assert forall l | 0 <= l < last :: s[l] == if l == i then items[last] else items[l];
    if Keeps(i, k, |items|) {
      forall q ensures q in First(s, j) <==> q in First(items, k) - {items[i]} {
        if q in First(items, k) - {items[i]} {
          var l :| 0 <= l < k && items[l] == q;
          assert s[if l == last then i else l] == q;
        }
      }
    } else {
      assert s[i] == items[last] && items[last] in First(s, j);
      FirstHas(items, k, last);
    }
  }

  // What the calls do to the groups.

  lemma AttachActs(a: Regions, p: Id)
    requires Sound(a) && p !in a.items
    ensures Sound(Attach(a, p)) && GroupOf(Attach(a, p)) == D.Attach(GroupOf(a), p)
  {
    hide First, Swap;
    var grown, last := a.items + [p], |a.items|;
    FirstOfPrefix(grown, a.items, last);
    FirstOfPrefix(grown, a.items, a.matching);
    FirstOfPrefix(grown, a.items, a.active);
    FirstOfPrefix(grown, a.items, a.eligible);
    FirstStep(grown, last);
    SwapKeeps(grown, a.eligible, last);
    SwapIn(grown, last, a.eligible);
    SwapOneSide(grown, a.eligible, last, a.active);
    SwapOneSide(grown, a.eligible, last, a.matching);
    SwapTrivia(grown, last, a.eligible);
  }

  /** The pipe is in the regions its place says. */
  lemma {:induction false} PlaceOf(a: Regions, p: Id)
    requires Sound(a) && p in a.items
    ensures var g, i := GroupOf(a), IndexOf(a.items, p);
      && p in g.all && (p in g.matching <==> i < a.matching)
      && (p in g.active <==> i < a.active) && (p in g.eligible <==> i < a.eligible)
  {
    var i := IndexOf(a.items, p);
    FirstHas(a.items, a.matching, i);
    FirstHas(a.items, a.active, i);
    FirstHas(a.items, a.eligible, i);
  }

  lemma MatchActs(a: Regions, p: Id)
    requires Sound(a) && p in a.items && p !in GroupOf(a).eligible - GroupOf(a).active
    ensures Sound(Match(a, p)) && GroupOf(Match(a, p)) == D.Match(GroupOf(a), p)
  {
    hide First, Swap, IndexOf;
    PlaceOf(a, p);
    var i := IndexOf(a.items, p);
    if i < a.matching {
      assert First(a.items, a.matching) + {p} == First(a.items, a.matching);
    } else if i < a.eligible {
      SwapIn(a.items, i, a.matching);
      SwapKeeps(a.items, i, a.matching);
      SwapOneSide(a.items, i, a.matching, a.active);
      SwapOneSide(a.items, i, a.matching, a.eligible);
    }
  }

  /**
   * Marking the pipe at place `i` as matching keeps the boundaries in order and the active
   * pipes the same, if and only if that pipe is an active one.
   */
  lemma MatchKeepsRegionsIffActive(items: seq<Id>, i: nat, matching: nat, active: nat, eligible: nat)
    requires Distinct(items) && matching <= active <= eligible <= |items| && matching <= i < eligible
    ensures (matching + 1 <= active && First(Swap(items, i, matching), active) == First(items, active)) <==> i < active
  {
    if i < active {
      SwapOneSide(items, i, matching, active);
    } else if matching < active {
      InFirst(Swap(items, i, matching), active, matching);
      assert items[i] !in First(items, active);
    }
  }

  lemma ActivatedActs(a: Regions, p: Id)
    requires Sound(a) && p in a.items && p !in GroupOf(a).eligible
    ensures a.eligible < |a.items| && Sound(Activated(a, p)) && GroupOf(Activated(a, p)) == D.Activated(GroupOf(a), p)
  {
    hide First, Swap, IndexOf;
    PlaceOf(a, p);
    var i := IndexOf(a.items, p);
    SwapIn(a.items, i, a.eligible);
    SwapKeeps(a.items, i, a.eligible);
    SwapOneSide(a.items, i, a.eligible, a.active);
    SwapOneSide(a.items, i, a.eligible, a.matching);
    SwapTrivia(Swap(a.items, i, a.eligible), a.eligible, a.eligible);
  }

  lemma RefusedActs(a: Regions, i: nat)
    requires Sound(a) && i < a.matching
    ensures Sound(Refused(a, i)) && GroupOf(Refused(a, i)) == D.Distribute(GroupOf(a), {a.items[i]})
    ensures |Refused(a, i).items| == |a.items| && Refused(a, i).items[..i] == a.items[..i]
  {
    hide First, PushedOut;
    PushedOutGroups(a.items, i, a.matching, a.active, a.eligible);
    InFirst(a.items, a.matching, i);
    assert First(a.items, a.matching) * {a.items[i]} == {a.items[i]};
  }

  lemma DistributeOnce(g: D.Group, p: Id, full: set<Id>)
    requires p in g.matching && p in full
    ensures D.Distribute(D.Distribute(g, {p}), full) == D.Distribute(g, full)
  {
    assert g.matching * {p} == {p};
    assert (g.matching - {p}) * full + {p} == g.matching * full;
  }

  lemma NobodyRefuses(a: Regions, full: set<Id>)
    requires Sound(a) && forall k | 0 <= k < a.matching :: a.items[k] !in full
    ensures D.Distribute(GroupOf(a), full) == GroupOf(a)
  {
    assert First(a.items, a.matching) * full == {};
  }

  /** The retry loop tries every matching pipe once: those with room, and only those, are written to, and stay. */
  lemma {:induction false} DistributeActs(a: Regions, i: nat, full: set<Id>)
    requires Sound(a) && i <= a.matching && forall k | 0 <= k < i :: a.items[k] !in full
    ensures var (b, written) := Distribute(a, i, full);
      && Sound(b) && b.more == a.more && GroupOf(b) == D.Distribute(GroupOf(a), full)
      && b.items[..b.matching] == a.items[..i] + written
    decreases a.matching - i
  {
    hide First, PushedOut, Distinct;
    if i == a.matching {
      NobodyRefuses(a, full);
    } else if a.items[i] in full {
      RefusedActs(a, i);
      InFirst(a.items, a.matching, i);
      assert forall k | 0 <= k < i :: Refused(a, i).items[k] == Refused(a, i).items[..i][k];
      assert forall k | 0 <= k < i :: a.items[k] == a.items[..i][k];
      DistributeActs(Refused(a, i), i, full);
      DistributeOnce(GroupOf(a), a.items[i], full);
    } else {
      DistributeActs(a, i + 1, full);
      assert a.items[..i + 1] == a.items[..i] + [a.items[i]];
    }
  }

  lemma SendActs(a: Regions, toAll: bool, last: bool, full: set<Id>)
    requires Sound(a)
    ensures var (b, written) := Send(a, toAll, last, full);
      && Sound(b) && Distinct(written) && First(written, |written|) == D.Takers(GroupOf(a), toAll, full)
      && GroupOf(b) == if toAll then D.SendToAll(GroupOf(a), last, full) else D.SendToMatching(GroupOf(a), last, full)
  {
    var from := if toAll then a.(matching := a.active) else a;
    DistributeActs(from, 0, full);
    var (b, written) := Distribute(from, 0, full);
    assert from.items[..0] + written == written;
    FirstOfPrefix(b.items, written, b.matching);
    assert from.items[..0] == [];
    assert GroupOf(from) == GroupOf(a).(matching := if toAll then GroupOf(a).active else GroupOf(a).matching);
    var g := GroupOf(from);
    assert g.matching - g.matching * full == g.matching - full;
  }

  /** The termination of a pipe leaves all three boundaries right. */
  predicate KeepsAll(a: Regions, p: Id)
    requires p in a.items
  {
    var i, n := IndexOf(a.items, p), |a.items|;
    Keeps(i, a.matching, n) && Keeps(i, a.active, n) && Keeps(i, a.eligible, n)
  }

  /** The regions lose exactly that pipe, if and only if all three boundaries are kept. */
  lemma TerminatedActsIff(a: Regions, p: Id)
    requires Sound(a) && p in a.items
    ensures Sound(Terminated(a, p)) && GroupOf(Terminated(a, p)).all == GroupOf(a).all - {p}
    ensures GroupOf(Terminated(a, p)) == D.Detach(GroupOf(a), p) <==> KeepsAll(a, p)
  {
    hide First, Erased, IndexOf, Distinct;
    var i := IndexOf(a.items, p);
    ErasedKeeps(a.items, i);
    EraseKeepsRegionIff(a.items, i, a.matching);
    EraseKeepsRegionIff(a.items, i, a.active);
    EraseKeepsRegionIff(a.items, i, a.eligible);
    EraseKeepsRegionIff(a.items, i, |a.items|);
  }

  /** What a region holds after a termination: it has lost that pipe, or, if its boundary is
      not kept, its last pipe as well, for which it has got the last pipe of all. */
  lemma RegionAfter(items: seq<Id>, i: nat, k: nat)
    requires Distinct(items) && i < |items| && k <= |items|
    ensures |Erased(items, i)| == |items| - 1 && Without(k, i) <= |items| - 1
    ensures First(Erased(items, i), Without(k, i)) ==
      if Keeps(i, k, |items|) then First(items, k) - {items[i]}
      else First(items, k) - {items[i], items[k - 1]} + {items[|items| - 1]}
  {
    EraseKeepsRegionIff(items, i, k);
    if !Keeps(i, k, |items|) {
      var s, last := Erased(items, i), |items| - 1;
      assert forall l | 0 <= l < last :: s[l] == if l == i then items[last] else items[l];
      var after, expected := First(s, k - 1), First(items, k) - {items[i], items[k - 1]} + {items[last]};
      forall q ensures q in after <==> q in expected {
        if q in First(s, k - 1) {
          var l :| 0 <= l < k - 1 && s[l] == q;
          assert l != i ==> items[l] == q;
        }
        if q in First(items, k) - {items[i], items[k - 1]} {
          var l :| 0 <= l < k && items[l] == q;
          assert s[l] == q;
        }
        if q == items[last] {
          assert s[i] == q;
        }
      }
    }
  }
}

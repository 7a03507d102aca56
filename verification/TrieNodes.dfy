/** The nodes of both tries as the source builds them: linked objects updated in place, with
    a child table that is resized and compacted. `shape` is the value of `TrieSpec` that a
    node and everything below it represent. */
module TrieNodes {
  import opened QueueSpec
  import opened Wire
  import opened TrieSpec
  import opened TrieTheorems

  class TrieNode<P(==)> {
    /** The load of a node that stores nothing. */
    const none: P
    var load: P
    var min: Byte
    var live: nat
    /** The child table; with one entry it is the single child. */
    var next: seq<TrieNode?<P>>

    ghost var shape: Node<P>
    ghost var repr: set<TrieNode<P>>

    ghost predicate Valid()
      reads this, repr
      ensures Valid() ==> this in repr
      decreases repr
    {
      && this in repr
      && FieldsMatch()
      && (forall i | 0 <= i < |next| && next[i] != null :: ChildValid(next[i], shape.table[i]))
      && (forall i, j | 0 <= i < j < |next| && next[i] != null && next[j] != null :: next[i].repr !! next[j].repr)
    }

    ghost predicate FieldsMatch()
      reads this
    {
      && load == shape.load && min == shape.min && live == shape.live && |next| == |shape.table|
      && (forall i | 0 <= i < |next| :: next[i] == null <==> shape.table[i] == None)
    }

    ghost predicate ChildValid(k: TrieNode<P>, s: Option<Node<P>>)
      reads this, repr
      decreases repr, 0
    {
      && this in repr && k in repr && k.repr <= repr && this !in k.repr
      && s == Some(k.shape) && k.none == none && k.Valid()
    }

    lemma {:induction false} Fields()
      requires Valid()
      ensures load == shape.load && min == shape.min && |next| == |shape.table|
      ensures forall i | 0 <= i < |next| :: next[i] == null <==> shape.table[i] == None
    {
    }

    lemma {:induction false} Below(i: nat)
      requires Valid() && i < |next| && next[i] != null
      ensures i < |shape.table| && shape.table[i] == Some(next[i].shape) && next[i].Valid() && next[i].none == none
      ensures next[i].repr < repr && next[i] in repr
    {
      assert ChildValid(next[i], shape.table[i]);
    }

    constructor (none: P)
      ensures Valid() && fresh(repr) && shape == NewNode(none) && this.none == none
    {
      this.none, load := none, none;
      min, live, next := 0, 0, [];
      shape := NewNode(none);
      repr := {this};
    }

    /** Empty slots. */
    static method Slots(k: nat) returns (s: seq<TrieNode?<P>>)
      ensures |s| == k && forall i | 0 <= i < k :: s[i] == null
    {
      s := [];
      for i := 0 to k
        invariant |s| == i && forall j | 0 <= j < i :: s[j] == null
      {
        s := s + [null];
      }
    }

    /** The table gets a first slot. */
    method FirstSlot(c: Byte)
      requires Valid() && next == []
      modifies this
      ensures Valid() && repr == old(repr)
      ensures next == [null] && shape == old(shape).(min := c, table := [None])
    {
      min, next := c, [null];
      shape := shape.(min := c, table := [None]);
    }

    /** The table grows by `k` slots at its right end. */
    method GrowRight(k: nat)
      requires Valid()
      modifies this
      ensures Valid() && repr == old(repr)
      ensures shape == old(shape).(table := old(shape.table) + Nones(k))
      ensures |next| == |old(next)| + k && forall i | |old(next)| <= i < |next| :: next[i] == null
    {
      var more := Slots(k);
      ghost var n := |next|;
      next := next + more;
      shape := shape.(table := shape.table + Nones(k));
      forall i | 0 <= i < |next| && next[i] != null ensures ChildValid(next[i], shape.table[i]) {
        assert i < n && next[i] == old(next)[i];
        assert old(ChildValid(next[i], shape.table[i]));
      }
    }

    /** The table grows by `k` slots at its left end. */
    method GrowLeft(k: nat)
      requires Valid() && k <= min
      modifies this
      ensures Valid() && repr == old(repr)
      ensures shape == old(shape).(min := old(min) - k, table := Nones(k) + old(shape.table))
      ensures |next| == |old(next)| + k && forall i | 0 <= i < k :: next[i] == null
    {
      var more := Slots(k);
      next := more + next;
      min := min - k;
      shape := shape.(min := min, table := Nones(k) + shape.table);
      forall i | 0 <= i < |next| && next[i] != null ensures ChildValid(next[i], shape.table[i]) {
        assert i >= k && next[i] == old(next)[i - k];
        assert old(ChildValid(next[i - k], shape.table[i - k]));
      }
    }

    /** Resize the table so that `c` has a slot. */
    method ExtendTable(c: Byte)
      requires Valid() && min + |next| <= 256 && !(min <= c < min + |next|)
      modifies this
      ensures Valid() && repr == old(repr)
      ensures shape == Extend(old(shape), c) && InRange(shape, c)
      ensures |next| == |shape.table| && next[c - min] == null
    {
      if next == [] {
        FirstSlot(c);
      } else if min < c {
        GrowRight(c - min + 1 - |next|);
      } else {
        GrowLeft(min - c);
      }
    }

    /** Create the child in an empty slot. */
    method NewChild(i: nat)
      requires Valid() && i < |next| && next[i] == null
      modifies this
      ensures Valid() && fresh(repr - old(repr))
      ensures shape == old(shape).(table := old(shape.table)[i := Some(NewNode(none))], live := old(live) + 1)
      ensures |next| == |old(next)| && next[i] != null && next[i].shape == NewNode(none)
    {
      var k := new TrieNode<P>(none);
      next := next[i := k];
      live := live + 1;
      repr := repr + k.repr;
      shape := shape.(table := shape.table[i := Some(NewNode(none))], live := live);
      forall j | 0 <= j < |next| && next[j] != null ensures ChildValid(next[j], shape.table[j]) {
        if j != i { assert old(ChildValid(next[j], shape.table[j])); }
      }
    }

    /** An operation inside the child of slot `i` leaves this node and the other children alone. */
    twostate lemma {:induction false} SiblingsKept(i: nat)
      requires old(Valid()) && i < |old(next)| && old(next[i]) != null
      requires unchanged(this) && unchanged(old(repr) - old(next[i].repr))
      ensures this in repr && FieldsMatch()
      ensures forall j | 0 <= j < |next| && next[j] != null && j != i :: ChildValid(next[j], shape.table[j])
      ensures forall j, l | 0 <= j < l < |next| && next[j] != null && next[l] != null && j != i && l != i :: next[j].repr !! next[l].repr
      ensures forall j | 0 <= j < |next| && next[j] != null && j != i :: old(next[i].repr) !! next[j].repr
    {
      forall j | 0 <= j < |next| && next[j] != null && j != i
        ensures ChildValid(next[j], shape.table[j]) && old(next[i].repr) !! next[j].repr
      {
        assert old(ChildValid(next[j], shape.table[j]));
        assert old(ChildValid(next[i], shape.table[i]));
      }
    }

    /** After the child in slot `i` has changed its shape and its nodes: bring this node's
        ghost state up to date. */
    ghost method ChildChanged(i: nat, before: set<TrieNode<P>>)
      requires this in repr && FieldsMatch() && i < |next| && next[i] != null && this !in next[i].repr
      requires next[i].Valid() && next[i].none == none
      requires forall k | k in next[i].repr - before :: k !in repr
      requires forall j | 0 <= j < |next| && next[j] != null && j != i :: ChildValid(next[j], shape.table[j])
      requires forall j, l | 0 <= j < l < |next| && next[j] != null && next[l] != null && j != i && l != i :: next[j].repr !! next[l].repr
      requires forall j | 0 <= j < |next| && next[j] != null && j != i :: before !! next[j].repr
      modifies this`repr, this`shape
      ensures Valid() && repr == old(repr) + next[i].repr
      ensures shape == old(shape).(table := old(shape.table)[i := Some(next[i].shape)])
    {
      shape := shape.(table := shape.table[i := Some(next[i].shape)]);
      repr := repr + next[i].repr;
      forall j | 0 <= j < |next| && next[j] != null ensures ChildValid(next[j], shape.table[j]) {
        if j != i { assert old(ChildValid(next[j], shape.table[j])); }
      }
    }

    /** Find the child for `c`, making room for it and creating it if need be. */
    method PrepareChild(c: Byte) returns (i: nat)
      requires Valid() && Compact(shape, none)
      modifies this
      ensures Valid() && fresh(repr - old(repr))
      ensures shape == Prepared(old(shape), c, none)
      ensures c == min + i && i < |next| && next[i] != null
    {
      hide Compact, Extend;
      ExtendFits(shape, c, none);
      if !(min <= c < min + |next|) { ExtendTable(c); }
      i := c - min;
      if next[i] == null { NewChild(i); }
    }

    method SetLoad(p: P)
      requires Valid()
      modifies this`load, this`shape
      ensures Valid() && load == p && shape == old(shape).(load := p)
    {
      load := p;
      shape := shape.(load := p);
      forall j | 0 <= j < |next| && next[j] != null ensures ChildValid(next[j], shape.table[j]) {
        assert old(ChildValid(next[j], shape.table[j]));
      }
    }

    /** Forget the child in slot `i`. */
    method DropSlot(i: nat)
      requires Valid() && i < |next| && next[i] != null && live > 0
      modifies this`next, this`live, this`shape
      ensures Valid() && next == old(next)[i := null]
      ensures shape == old(shape).(table := old(shape.table)[i := None], live := old(live) - 1)
    {
      next := next[i := null];
      live := live - 1;
      shape := shape.(table := shape.table[i := None], live := live);
      forall j | 0 <= j < |next| && next[j] != null ensures ChildValid(next[j], shape.table[j]) {
        assert old(ChildValid(next[j], shape.table[j]));
      }
    }

    /** Keep only the slots from `a` up to `b`. */
    method KeepSlots(a: nat, b: nat)
      requires Valid() && a <= b <= |next| && min + a < 256
      modifies this`next, this`min, this`shape
      ensures Valid() && shape == old(shape).(min := old(min) + a, table := old(shape.table)[a..b])
    {
      next := next[a..b];
      min := min + a;
      shape := shape.(min := min, table := shape.table[a..b]);
      forall j | 0 <= j < |next| && next[j] != null ensures ChildValid(next[j], shape.table[j]) {
        assert old(ChildValid(next[j + a], shape.table[j + a]));
      }
      forall i, j | 0 <= i < j < |next| && next[i] != null && next[j] != null ensures next[i].repr !! next[j].repr {
        assert next[i] == old(next)[i + a] && next[j] == old(next)[j + a];
      }
    }

    /** The first child at or after slot `i`. */
    method ScanRight(i: nat) returns (a: nat)
      requires FieldsMatch() && i <= |next| && exists j | i <= j < |next| :: shape.table[j].Some?
      ensures i <= a < |next| && next[a] != null && forall j | i <= j < a :: next[j] == null
    {
      a := i;
      while next[a] == null
        invariant i <= a < |next| && forall j | i <= j < a :: next[j] == null
        invariant exists j | a <= j < |next| :: shape.table[j].Some?
        decreases |next| - a
      {
        a := a + 1;
      }
    }

    /** The last child at or before slot `i`. */
    method ScanLeft(i: nat) returns (b: nat)
      requires FieldsMatch() && i < |next| && exists j | 0 <= j <= i :: shape.table[j].Some?
      ensures b <= i && next[b] != null && forall j | b < j <= i :: next[j] == null
    {
      b := i;
      while next[b] == null
        invariant b <= i && forall j | b < j <= i :: next[j] == null
        invariant exists j | 0 <= j <= b :: shape.table[j].Some?
        decreases b
      {
        b := b - 1;
      }
    }

    /** This node is `n` with the child in slot `i` of its table dropped. */
    ghost predicate Dropped(n: Node<P>, i: nat)
      reads this, repr
    {
      && Valid() && TableOk(n) && i < |n.table| && n.table[i].Some? && n.live >= 2
      && shape == n.(table := n.table[i := None], live := n.live - 1)
    }

    /** One child is left: it becomes the single child. `byScan` tells how it is found: by
        scanning for it, or by taking the other end. */
    method KeepLast(ghost n: Node<P>, i: nat, byScan: bool)
      requires Dropped(n, i) && live == 1
      modifies this`next, this`min, this`shape
      ensures Valid() && shape == WithoutChild(n, n.min + i)
    {
      hide WithoutChild, NumLive, TableOk;
      SlotsFit(n);
      LastOneIsOtherEnd(n, i);
      var a: nat;
      if byScan {
        assert shape.table[if i == 0 then |next| - 1 else 0].Some?;
        a := ScanRight(0);
      } else {
        a := if i == 0 then |next| - 1 else 0;
      }
      GoneIsSlice(n, i, a, a);
      KeepSlots(a, a + 1);
    }

    /** The left end is gone: the table shrinks to its new left end. */
    method CompactLeft(ghost n: Node<P>)
      requires Dropped(n, 0)
      modifies this`next, this`min, this`shape
      ensures Valid() && shape == WithoutChild(n, n.min)
    {
      hide WithoutChild, NumLive, TableOk;
      SlotsFit(n);
      assert shape.table[|next| - 1].Some?;
      var a := ScanRight(1);
      assert forall j | 1 <= j < a :: next[j] == null && shape.table[j] == None && n.table[j] == None;
      GoneIsSlice(n, 0, a, |next| - 1);
      KeepSlots(a, |next|);
    }

    /** The right end is gone. */
    method CompactRight(ghost n: Node<P>)
      requires n.table != [] && Dropped(n, |n.table| - 1)
      modifies this`next, this`min, this`shape
      ensures Valid() && shape == WithoutChild(n, n.min + |n.table| - 1)
    {
      hide WithoutChild, NumLive, TableOk;
      SlotsFit(n);
      assert shape.table[0].Some?;
      var b := ScanLeft(|next| - 2);
      assert forall j | b < j <= |next| - 2 :: next[j] == null && shape.table[j] == None && n.table[j] == None;
      GoneIsSlice(n, |n.table| - 1, 0, b);
      KeepSlots(0, b + 1);
    }

    /** Remove the child for `c` and compact a table that lost an end. */
    method Prune(c: Byte, byScan: bool)
      requires Valid() && TableOk(shape) && InRange(shape, c) && next[c - min] != null
      modifies this`next, this`live, this`min, this`shape
      ensures Valid() && shape == WithoutChild(old(shape), c)
    {
      hide WithoutChild, NumLive;
      var i, count := c - min, |next|;
      ghost var n := shape;
      if count == 1 {
        OnlyChildGone(n, c);
        DropSlot(i);
        KeepSlots(0, 0);
        return;
      }
      TwoEnds(n);
      DropSlot(i);
      if live == 1 {
        KeepLast(n, i, byScan);
      } else if i == 0 {
        CompactLeft(n);
      } else if i == count - 1 {
        CompactRight(n);
      } else {
        GoneIsSlice(n, i, 0, count - 1);
      }
    }
  }
}

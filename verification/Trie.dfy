/** The subscriber's trie: topics with reference counts. */
module Trie {
  import opened Basics
  import opened QueueSpec
  import opened Wire
  import opened TrieSpec
  import opened TrieTheorems
  import opened TrieNodes
  import opened P = PathBuffer

  /** Add a topic; true if it was not there. */
  method Add(node: TrieNode<nat>, prefix: Topic) returns (isNew: bool)
    requires node.Valid() && node.none == 0 && Compact(node.shape, 0)
    modifies node.repr
    ensures node.Valid() && fresh(node.repr - old(node.repr))
    ensures node.shape == Put(old(node.shape), prefix, Get(old(node.shape), prefix, 0) + 1, 0)
    ensures isNew <==> Get(old(node.shape), prefix, 0) == 0
    decreases |prefix|
  {
    hide Compact, Prepared, Put, Get;
    if prefix == [] {
      AtRoot(node.shape, node.shape.load + 1, 0);
      node.SetLoad(node.load + 1);
      return node.load == 1;
    }
    PutIsPrepared(node.shape, prefix, Get(node.shape, prefix, 0) + 1, 0);
    var i := node.PrepareChild(prefix[0]);
    var child := node.next[i];
    ghost var before := child.repr;
    assert node.ChildValid(child, node.shape.table[i]);
    label Called:
    isNew := Add(child, prefix[1..]);
    node.SiblingsKept@Called(i);
    node.ChildChanged(i, before);
  }

  function OneLess(n: nat): nat { if n == 0 then 0 else n - 1 }

  /** Remove one reference to a topic; true if it was the last one. */
  method Rm(node: TrieNode<nat>, prefix: Topic) returns (removed: bool)
    requires node.Valid() && node.none == 0 && Compact(node.shape, 0)
    modifies node.repr
    ensures node.Valid() && node.repr == old(node.repr)
    ensures node.shape == Replace(old(node.shape), prefix, OneLess(Get(old(node.shape), prefix, 0)), 0)
    ensures removed <==> Get(old(node.shape), prefix, 0) == 1
    decreases |prefix|
  {
    hide Compact, Replace, Get, WithoutChild, TableOk;
    ghost var goal := OneLess(Get(node.shape, prefix, 0));
    if prefix == [] {
      ReplaceHere(node.shape, goal, 0);
      if node.load == 0 { return false; }
      node.SetLoad(node.load - 1);
      return node.load == 0;
    }
    ReplaceUnfolds(node.shape, prefix, goal, 0);
    var c := prefix[0];
    if node.next == [] || c < node.min || c >= node.min + |node.next| { return false; }
    var i := c - node.min;
    var child := node.next[i];
    if child == null { return false; }
    ghost var before := child.repr;
    assert node.ChildValid(child, node.shape.table[i]);
    label Called:
    removed := Rm(child, prefix[1..]);
    node.SiblingsKept@Called(i);
    node.ChildChanged(i, before);
    if child.load == 0 && child.live == 0 {
      node.Prune(c, false);
    }
  }

  /** Some node met along the data stores a topic. */
  predicate Holds(n: Node<nat>, data: Topic)
    decreases |data|
  {
    n.load != 0 || (data != [] && Child(n, data[0]).Some? && Holds(Child(n, data[0]).value, data[1..]))
  }

  /** That is, some prefix of the data is a stored topic. */
  lemma {:induction false} HoldsPrefix(n: Node<nat>, data: Topic)
    ensures Holds(n, data) <==> exists i | 0 <= i <= |data| :: Get(n, data[..i], 0) != 0
    decreases |data|
  {
    if n.load != 0 {
      assert data[..0] == [] && Get(n, data[..0], 0) != 0;
    } else if data != [] && Child(n, data[0]).Some? {
      var k := Child(n, data[0]).value;
      HoldsPrefix(k, data[1..]);
      if j :| 0 <= j <= |data[1..]| && Get(k, data[1..][..j], 0) != 0 {
        assert data[..j + 1][1..] == data[1..][..j];
        assert Get(n, data[..j + 1], 0) != 0;
      }
      if i :| 0 <= i <= |data| && Get(n, data[..i], 0) != 0 {
        assert i > 0 && data[..i][1..] == data[1..][..i - 1];
      }
    }
  }

  /** Is some prefix of the data a stored topic? */
  method Check(node: TrieNode<nat>, data: Topic) returns (found: bool)
    requires node.Valid()
    ensures found <==> Holds(node.shape, data)
  {
    var current: TrieNode<nat>, rest := node, data;
    while true
      invariant current.Valid() && (Holds(current.shape, rest) <==> Holds(node.shape, data))
      decreases |rest|
    {
      if current.load != 0 { return true; }
      if rest == [] { return false; }
      var c := rest[0];
      if c < current.min || c >= current.min + |current.next| { return false; }
      var child := current.next[c - current.min];
      if child == null { return false; }
      assert current.ChildValid(child, current.shape.table[c - current.min]);
      current, rest := child, rest[1..];
    }
  }

  predicate IsStored(count: nat) { count != 0 }

  /**
   * The topics handed to the callback, in order. The path to the node stands in the first
   * `size` bytes of the buffer shared by the whole walk, of which at least `max` are there.
   */
  method Apply(node: TrieNode<nat>, buff: PathBuffer, size: nat, max: nat) returns (visited: seq<Topic>)
    requires node.Valid() && node.none == 0 && Compact(node.shape, 0)
    requires size <= max <= |buff.bytes|
    modifies buff
    ensures visited == Visit(node.shape, old(buff.bytes)[..size], IsStored)
    ensures max <= |buff.bytes| && buff.bytes[..size] == old(buff.bytes)[..size]
    decreases node.repr
  {
    hide Compact, Visit, VisitFrom, TrieNode.Valid;
    ghost var n, prefix := node.shape, buff.bytes[..size];
    CompactFits(n, 0);
    node.Fields();
    VisitUnfolds(n, 0, prefix, IsStored);
    visited := if node.load != 0 then [buff.bytes[..size]] else [];
    var room := buff.Adjust(size, max);
    var i := 0;
    while i < |node.next|
      invariant i <= |node.next|
      invariant size < room <= |buff.bytes| && max <= room && buff.bytes[..size] == prefix
      invariant visited + VisitFrom(n, i, prefix, IsStored) == Visit(n, prefix, IsStored)
    {
      VisitUnfolds(n, i, prefix, IsStored);
      var c := node.min + i;
      buff.Put(size, c);
      var child := node.next[i];
      var below := [];
      if child != null {
        node.Below(i);
        assert Child(n, c) == n.table[i];
        CompactChild(n, c, 0);
        assert buff.bytes[..size + 1] == prefix + [c];
        below := Apply(child, buff, size + 1, room);
        PrefixOfPrefix(buff.bytes, prefix, c);
      }
      Regroup(visited, below, VisitFrom(n, i + 1, prefix, IsStored));
      visited := visited + below;
      i := i + 1;
    }
    VisitUnfolds(n, i, prefix, IsStored);
    assert visited + [] == visited;
  }

  /** The walk over the whole trie, with a buffer of its own. */
  method ApplyAll(node: TrieNode<nat>) returns (visited: seq<Topic>)
    requires node.Valid() && node.none == 0 && Compact(node.shape, 0)
    ensures visited == Visit(node.shape, [], IsStored)
  {
    var buff := new PathBuffer();
    visited := Apply(node, buff, 0, 0);
  }

  // ------------------------------------------------------------ what the operations mean

  /** Adding raises the count of one topic, and keeps the trie compact. */
  lemma AddCounts(n: Node<nat>, t: Topic, q: Topic)
    requires Compact(n, 0)
    ensures var n' := Put(n, t, Get(n, t, 0) + 1, 0);
            Compact(n', 0) && Get(n', q, 0) == Get(n, q, 0) + if q == t then 1 else 0
  {
    hide Compact, Put;
    PutCompact(n, t, Get(n, t, 0) + 1, 0);
    PutGets(n, t, Get(n, t, 0) + 1, q, 0);
  }

  /** Removing lowers the count of one topic unless it is zero, and keeps the trie compact. */
  lemma {:induction false} RmCounts(n: Node<nat>, t: Topic, q: Topic)
    requires Compact(n, 0)
    ensures var n' := Replace(n, t, OneLess(Get(n, t, 0)), 0);
            Compact(n', 0) && Get(n', q, 0) == if q == t then OneLess(Get(n, q, 0)) else Get(n, q, 0)
  {
    hide Compact, Replace;
    ReplaceCompact(n, t, OneLess(Get(n, t, 0)), 0);
    ReplaceGets(n, t, OneLess(Get(n, t, 0)), q, 0);
  }

  /** A removal undoes an addition: the trie has its former shape again. */
  lemma RmUndoesAdd(n: Node<nat>, t: Topic)
    requires Compact(n, 0)
    ensures var added := Put(n, t, Get(n, t, 0) + 1, 0);
            SameShape(Replace(added, t, OneLess(Get(added, t, 0)), 0), n)
  {
    hide Compact, Put, Replace;
    var added := Put(n, t, Get(n, t, 0) + 1, 0);
    var back := Replace(added, t, OneLess(Get(added, t, 0)), 0);
    AddCounts(n, t, t);
    RmCounts(added, t, t);
    forall q: Topic ensures Get(back, q, 0) == Get(n, q, 0) {
      AddCounts(n, t, q);
      RmCounts(added, t, q);
    }
    ShapeIsDetermined(back, n, 0);
  }
}

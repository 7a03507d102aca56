/** The publisher's trie on linked nodes, proved against the operations of `MtrieSpec`. */
module Mtrie {
  import opened Basics
  import opened QueueSpec
  import opened Wire
  import opened TrieSpec
  import opened TrieTheorems
  import opened TrieNodes
  import opened P = PathBuffer
  import opened MtrieSpec

  /** A valid trie of pipe sets. */
  ghost predicate Good(node: TrieNode<Pipes>)
    reads node, node.repr
  {
    node.Valid() && node.none == NOBODY && Compact(node.shape, NOBODY)
  }

  /** Add a subscription; true if the topic had no subscriber. */
  method Add(node: TrieNode<Pipes>, prefix: Topic, pipe: Pipe) returns (isNew: bool)
    requires Good(node)
    modifies node.repr
    ensures node.Valid() && node.none == NOBODY && fresh(node.repr - old(node.repr))
    ensures node.shape == Put(old(node.shape), prefix, Subscribers(old(node.shape), prefix) + {pipe}, NOBODY)
    ensures isNew <==> Subscribers(old(node.shape), prefix) == NOBODY
    decreases |prefix|
  {
    hide Compact, Prepared, Put, Get;
    if prefix == [] {
      AtRoot(node.shape, node.shape.load + {pipe}, NOBODY);
      isNew := node.load == NOBODY;
      node.SetLoad(node.load + {pipe});
      return;
    }
    PutIsPrepared(node.shape, prefix, Subscribers(node.shape, prefix) + {pipe}, NOBODY);
    var i := node.PrepareChild(prefix[0]);
    var child := node.next[i];
    ghost var before := child.repr;
    assert node.ChildValid(child, node.shape.table[i]);
    label Called:
    isNew := Add(child, prefix[1..], pipe);
    node.SiblingsKept@Called(i);
    node.ChildChanged(i, before);
  }

  /** Whether a removal is allowed, and what it tells, is decided where the topic leads. */
  lemma DecidedBelow(n: Node<Pipes>, t: Topic, p: Pipe)
    requires t != []
    ensures match Child(n, t[0])
            case None => Unsubscribe(n, t, p).Removed? && !Unsubscribe(n, t, p).last && Subscribers(n, t) == NOBODY
            case Some(k) =>
              && Subscribers(n, t) == Subscribers(k, t[1..])
              && (Unsubscribe(n, t, p).Removed? <==> Unsubscribe(k, t[1..], p).Removed?)
              && (Unsubscribe(n, t, p).Removed? ==> Unsubscribe(n, t, p).last == Unsubscribe(k, t[1..], p).last)
  {
    hide Replace;
  }

  /** At the node itself: somebody to remove, or nobody there. */
  lemma DecidedHere(n: Node<Pipes>, p: Pipe)
    ensures Subscribers(n, []) == n.load
    ensures Unsubscribe(n, [], p).Removed? <==> n.load == NOBODY || p in n.load
    ensures Unsubscribe(n, [], p).Removed? ==> (Unsubscribe(n, [], p).last <==> n.load - {p} == NOBODY)
  {
  }

  lemma {:induction false} UnsubscribeReplaces(n: Node<Pipes>, t: Topic, p: Pipe)
    requires Compact(n, NOBODY) && Unsubscribe(n, t, p).Removed?
    ensures Unsubscribe(n, t, p).n == Replace(n, t, Subscribers(n, t) - {p}, NOBODY)
  {
    hide Compact, Replace;
    if Subscribers(n, t) == NOBODY {
      assert NOBODY - {p} == NOBODY;
      ReplaceNothing(n, t, NOBODY);
    }
  }

  /** Remove one subscription that is not held by others alone; `last` is what the caller is
      told, which for a topic without subscribers is whether there is a node for it. */
  method Rm(node: TrieNode<Pipes>, prefix: Topic, pipe: Pipe) returns (last: bool)
    requires Good(node) && Unsubscribe(node.shape, prefix, pipe).Removed?
    modifies node.repr
    ensures node.Valid() && node.none == NOBODY && node.repr == old(node.repr)
    ensures Unsubscribe(old(node.shape), prefix, pipe) == Removed(node.shape, last)
    decreases |prefix|
  {
    hide Compact, Replace, WithoutChild, TableOk, Unsubscribe, Subscribers, Get;
    ghost var n, goal := node.shape, Subscribers(node.shape, prefix) - {pipe};
    UnsubscribeReplaces(n, prefix, pipe);
    if prefix == [] {
      DecidedHere(n, pipe);
      ReplaceHere(n, goal, NOBODY);
      if node.load != NOBODY {
        assert pipe in node.load;
        node.SetLoad(node.load - {pipe});
      } else {
        assert NOBODY - {pipe} == NOBODY;
      }
      return node.load == NOBODY;
    }
    DecidedBelow(n, prefix, pipe);
    ReplaceUnfolds(n, prefix, goal, NOBODY);
    var c := prefix[0];
    if node.next == [] || c < node.min || c >= node.min + |node.next| { return false; }
    var i := c - node.min;
    var child := node.next[i];
    if child == null { return false; }
    ghost var before := child.repr;
    assert node.ChildValid(child, node.shape.table[i]);
    UnsubscribeReplaces(child.shape, prefix[1..], pipe);
    label Called:
    last := Rm(child, prefix[1..], pipe);
    node.SiblingsKept@Called(i);
    node.ChildChanged(i, before);
    if child.load == NOBODY && child.live == 0 {
      node.Prune(c, true);
    }
  }

  /** Signal the pipes along the data: the sets signalled, node by node. */
  method Match(node: TrieNode<Pipes>, data: Topic) returns (signalled: seq<Pipes>)
    requires node.Valid()
    ensures signalled == Along(node.shape, data)
  {
    hide Along;
    var current: TrieNode<Pipes>, rest := node, data;
    signalled := [];
    assert [] + Along(node.shape, data) == Along(node.shape, data);
    while true
      invariant current.Valid() && signalled + Along(current.shape, rest) == Along(node.shape, data)
      decreases |rest|
    {
      AlongUnfolds(current.shape, rest);
      ghost var n := current.shape;
      ghost var before := signalled;
      signalled := signalled + [current.load];
      if rest == [] { return; }
      var c := rest[0];
      if |current.next| == 1 {
        if c != current.min { return; }
      } else if c < current.min || c >= current.min + |current.next| {
        return;
      }
      var child := current.next[c - current.min];
      if child == null { return; }
      assert current.ChildValid(child, n.table[c - current.min]);
      assert before + ([n.load] + Along(child.shape, rest[1..])) == signalled + Along(child.shape, rest[1..]);
      current, rest := child, rest[1..];
    }
  }

  // ------------------------------------------------------------ removing a pipe everywhere

  /** The node when the slots below `i` have been rid of the pipe. */
  function Partly(n: Node<Pipes>, i: nat, p: Pipe): Node<Pipes>
    requires i <= |n.table|
  {
    var table := PrunedFrom(n, 0, p)[..i] + n.table[i..];
    Node(n.load - {p}, n.min, table, NumLive(table))
  }

  lemma PartlyStarts(n: Node<Pipes>, p: Pipe)
    requires n.live == NumLive(n.table)
    ensures Partly(n, 0, p) == n.(load := n.load - {p})
    ensures Partly(n, |n.table|, p) == Pruned(n, p)
  {
    hide PrunedFrom, NumLive;
    assert PrunedFrom(n, 0, p)[..0] + n.table[0..] == n.table;
    assert PrunedFrom(n, 0, p)[..|n.table|] + n.table[|n.table|..] == PrunedFrom(n, 0, p);
  }

  /** What the slot looks like before its turn, and what the next stage is after it. */
  lemma {:induction false} PartlyStep(n: Node<Pipes>, i: nat, p: Pipe)
    requires i < |n.table|
    ensures |Partly(n, i, p).table| == |n.table| && Partly(n, i, p).table[i] == n.table[i]
    ensures n.table[i].None? ==> Partly(n, i + 1, p) == Partly(n, i, p)
    ensures n.table[i].Some? ==>
              var k', m := WithoutPipe(n.table[i].value, p), Partly(n, i, p);
              && m.live > 0
              && Partly(n, i + 1, p) ==
                   if IsRedundant(k') then m.(table := m.table[i := None], live := m.live - 1)
                   else m.(table := m.table[i := Some(k')])
  {
    hide PrunedFrom, WithoutPipe, NumLive;
    PrunedSlot(n, 0, i, p);
    var table := Partly(n, i, p).table;
    var slot := PrunedFrom(n, 0, p)[i];
    assert PrunedFrom(n, 0, p)[..i + 1] + n.table[i + 1..] == table[i := slot];
    NumLiveUpdate(table, i, slot);
    if n.table[i].None? { assert table[i := slot] == table; }
    NoneLive(table);
  }

  /** Rid one child of the pipe, and remove it if nothing is left of it. */
  method RmAllSlot(node: TrieNode<Pipes>, ghost n: Node<Pipes>, i: nat, pipe: Pipe, buff: PathBuffer, size: nat, room: nat)
    returns (below: seq<Topic>)
    requires size < room <= |buff.bytes|
    requires node.Valid() && node.none == NOBODY && Compact(n, NOBODY) && i < |n.table|
    requires node.shape == Partly(n, i, pipe) && |node.next| == |n.table| && node.min == n.min
    modifies node.repr, buff
    ensures room <= |buff.bytes| && buff.bytes[..size] == old(buff.bytes)[..size]
    ensures node.Valid() && node.repr == old(node.repr)
    ensures node.shape == Partly(n, i + 1, pipe)
    ensures |node.next| == |old(node.next)| && node.min == old(node.min)
    ensures forall j | 0 <= j < |node.next| && j != i :: node.next[j] == old(node.next)[j]
    ensures below ==
      if n.table[i].Some? then Visit(n.table[i].value, old(buff.bytes)[..size] + [n.min + i], HeldOnlyBy(pipe)) else []
    decreases node.repr, 0
  {
    hide Compact, Partly, WithoutPipe, Visit, NumLive;
    CompactFits(n, NOBODY);
    PartlyStep(n, i, pipe);
    ghost var prefix := buff.bytes[..size];
    buff.Put(size, node.min + i);
    var child := node.next[i];
    if child == null { return []; }
    assert node.ChildValid(child, node.shape.table[i]);
    assert Child(n, n.min + i) == n.table[i];
    CompactChild(n, n.min + i, NOBODY);
    ghost var before := child.repr;
    label Called:
    assert buff.bytes[..size + 1] == prefix + [n.min + i];
    below := RmAll(child, pipe, buff, size + 1, room);
    PrefixOfPrefix(buff.bytes, prefix, n.min + i);
    node.SiblingsKept@Called(i);
    node.ChildChanged(i, before);
    if child.load == NOBODY && child.live == 0 {
      node.DropSlot(i);
    }
  }

  /** Drop the empty slots outside the first and the last child that were found. */
  method CompactPruned(node: TrieNode<Pipes>, newMin: nat, newMax: nat)
    requires node.Valid() && node.min + |node.next| <= 256 && node.shape.live == NumLive(node.shape.table)
    requires newMin < |node.next| && newMax < |node.next|
    requires forall j | 0 <= j < |node.next| && node.next[j] != null :: newMin <= j <= newMax
    requires newMin == |node.next| - 1 || node.next[newMin] != null
    requires newMax == 0 || node.next[newMax] != null
    modifies node`next, node`min, node`shape
    ensures node.Valid() && node.shape == Strip(old(node.shape))
  {
    hide NumLive;
    NoneLive(node.shape.table);
    if node.live == 0 {
      node.KeepSlots(0, 0);
    } else {
      ghost var j :| 0 <= j < |node.shape.table| && node.shape.table[j].Some?;
      assert node.next[j] != null;
      StripIs(node.shape, newMin, newMax);
      node.KeepSlots(newMin, newMax + 1);
    }
  }

  /** The slots of the children that are left lie between the two marks. */
  ghost predicate Marked(node: TrieNode<Pipes>, i: nat, newMin: nat, newMax: nat)
    reads node
  {
    var count := |node.next|;
    && i <= count && newMin < count && newMax < count
    && (forall j | 0 <= j < i && node.next[j] != null :: newMin <= j <= newMax)
    && (newMin == count - 1 || (newMin < i && node.next[newMin] != null))
    && (newMax == 0 || (newMax < i && node.next[newMax] != null))
  }

  /** Go through all children from left to right. */
  method RmAllChildren(node: TrieNode<Pipes>, ghost n: Node<Pipes>, pipe: Pipe, buff: PathBuffer, size: nat, room: nat)
    returns (emptied: seq<Topic>, newMin: nat, newMax: nat)
    requires size < room <= |buff.bytes|
    requires node.Valid() && node.none == NOBODY && Compact(n, NOBODY) && node.next != []
    requires node.shape == Partly(n, 0, pipe) && |node.next| == |n.table| && node.min == n.min
    modifies node.repr, buff
    ensures room <= |buff.bytes| && buff.bytes[..size] == old(buff.bytes)[..size]
    ensures node.Valid() && node.repr == old(node.repr)
    ensures |node.next| == |n.table| && node.shape == Partly(n, |n.table|, pipe) && node.min == n.min
    ensures Marked(node, |node.next|, newMin, newMax)
    ensures emptied == VisitFrom(n, 0, old(buff.bytes)[..size], HeldOnlyBy(pipe))
    decreases node.repr, 1
  {
    hide Compact, Partly, Visit, VisitFrom;
    CompactFits(n, NOBODY);
    var count := |node.next|;
    emptied, newMin, newMax := [], count - 1, 0;
    ghost var prefix := buff.bytes[..size];
    ghost var goal := VisitFrom(n, 0, prefix, HeldOnlyBy(pipe));
    assert emptied + goal == goal;
    var i := 0;
    while i < count
      invariant i <= count == |n.table| == |node.next| && node.min == n.min
      invariant node.Valid() && node.repr == old(node.repr) && node.shape == Partly(n, i, pipe)
      invariant room <= |buff.bytes| && buff.bytes[..size] == prefix
      invariant emptied + VisitFrom(n, i, prefix, HeldOnlyBy(pipe)) == goal
      invariant Marked(node, i, newMin, newMax)
    {
      VisitUnfolds(n, i, prefix, HeldOnlyBy(pipe));
      var below := RmAllSlot(node, n, i, pipe, buff, size, room);
      Regroup(emptied, below, VisitFrom(n, i + 1, prefix, HeldOnlyBy(pipe)));
      emptied := emptied + below;
      if node.next[i] != null {
        if i < newMin { newMin := i; }
        if i > newMax { newMax := i; }
      }
      i := i + 1;
    }
    VisitUnfolds(n, i, prefix, HeldOnlyBy(pipe));
    assert emptied + [] == emptied;
  }

  /**
   * Remove a pipe from every topic; the result lists the topics it was the last subscriber
   * of, in the order they are reported. The path to the node stands in the first `size`
   * bytes of the buffer shared by the whole walk, of which at least `max` are there.
   */
  method RmAll(node: TrieNode<Pipes>, pipe: Pipe, buff: PathBuffer, size: nat, max: nat) returns (emptied: seq<Topic>)
    requires Good(node) && size <= max <= |buff.bytes|
    modifies node.repr, buff
    ensures node.Valid() && node.none == NOBODY && node.repr == old(node.repr)
    ensures node.shape == WithoutPipe(old(node.shape), pipe)
    ensures emptied == Visit(old(node.shape), old(buff.bytes)[..size], HeldOnlyBy(pipe))
    ensures max <= |buff.bytes| && buff.bytes[..size] == old(buff.bytes)[..size]
    decreases node.repr, 2
  {
    hide Compact, Partly, WithoutPipe, Visit, VisitFrom, Strip, Pruned;
    ghost var n, prefix := node.shape, buff.bytes[..size];
    CompactFits(n, NOBODY);
    WithoutPipeStrips(n, pipe);
    PartlyStarts(n, pipe);
    VisitUnfolds(n, 0, prefix, HeldOnlyBy(pipe));
    emptied := if node.load == {pipe} then [buff.bytes[..size]] else [];
    node.SetLoad(node.load - {pipe});
    var room := buff.Adjust(size, max);
    if node.next == [] {
      NothingToStrip(node.shape);
      assert emptied + [] == emptied;
      return;
    }
    var below, newMin, newMax := RmAllChildren(node, n, pipe, buff, size, room);
    emptied := emptied + below;
    CompactPruned(node, newMin, newMax);
  }

  /** The removal on the whole trie, with a buffer of its own. */
  method RmEverywhere(node: TrieNode<Pipes>, pipe: Pipe) returns (emptied: seq<Topic>)
    requires Good(node)
    modifies node.repr
    ensures Good(node) && node.repr == old(node.repr)
    ensures node.shape == WithoutPipe(old(node.shape), pipe)
    ensures emptied == Emptied(old(node.shape), pipe)
  {
    hide Compact, WithoutPipe, Visit, TrieNode.Valid;
    WithoutPipeCompact(node.shape, pipe);
    var buff := new PathBuffer();
    emptied := RmAll(node, pipe, buff, 0, 0);
  }

  lemma {:induction false} WithoutPipeStrips(n: Node<Pipes>, p: Pipe)
    requires Compact(n, NOBODY)
    ensures WithoutPipe(n, p) == Strip(Pruned(n, p)) && n.live == NumLive(n.table)
    ensures Pruned(n, p).live == NumLive(Pruned(n, p).table) && |Pruned(n, p).table| == |n.table| && Pruned(n, p).min == n.min
  {
  }

  lemma NothingToStrip(n: Node<Pipes>)
    requires n.table == []
    ensures Strip(n) == n
  {
  }
}

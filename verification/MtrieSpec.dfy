/** The publisher's trie: every topic holds the set of pipes subscribed to it. */
module MtrieSpec {
  import opened Basics
  import opened QueueSpec
  import opened Wire
  import opened TrieSpec
  import opened TrieTheorems

  type Pipe = nat
  type Pipes = set<Pipe>

  const NOBODY: Pipes := {}

  function Subscribers(n: Node<Pipes>, t: Topic): Pipes { Get(n, t, NOBODY) }

  // ------------------------------------------------------------ removing a pipe everywhere

  predicate IsRedundant(n: Node<Pipes>) { n.load == NOBODY && n.live == 0 }

  /** The trie without any subscription of `p`, pruned and compacted bottom up. */
  function WithoutPipe(n: Node<Pipes>, p: Pipe): Node<Pipes>
    decreases n, 256 + |n.table|
  {
    var table := PrunedFrom(n, 0, p);
    Strip(Node(n.load - {p}, n.min, table, NumLive(table)))
  }

  /** The slots from `i` on, each child rid of `p` or removed if nothing is left of it. */
  function PrunedFrom(n: Node<Pipes>, i: nat, p: Pipe): (r: seq<Option<Node<Pipes>>>)
    requires i <= |n.table|
    ensures |r| == |n.table| - i
    decreases n, |n.table| - i
  {
    if i == |n.table| then []
    else
      [match n.table[i]
       case None => None
       case Some(k) => var k' := WithoutPipe(k, p); if IsRedundant(k') then None else Some(k')]
      + PrunedFrom(n, i + 1, p)
  }

  lemma {:induction false} PrunedSlot(n: Node<Pipes>, i: nat, j: nat, p: Pipe)
    requires i <= j < |n.table|
    ensures PrunedFrom(n, i, p)[j - i] ==
              if n.table[j].None? then None
              else if IsRedundant(WithoutPipe(n.table[j].value, p)) then None
              else Some(WithoutPipe(n.table[j].value, p))
    decreases j - i
  {
    if i < j { PrunedSlot(n, i + 1, j, p); }
  }

  lemma {:induction false} WithoutPipeCompact(n: Node<Pipes>, p: Pipe)
    requires Compact(n, NOBODY)
    ensures Compact(WithoutPipe(n, p), NOBODY)
    decreases n
  {
    hide Strip, NumLive, PrunedFrom, Redundant;
    var table := PrunedFrom(n, 0, p);
    var m := Node(n.load - {p}, n.min, table, NumLive(table));
    forall i | 0 <= i < |table| && table[i].Some?
      ensures Compact(table[i].value, NOBODY) && !Redundant(table[i].value, NOBODY)
    {
      PrunedSlot(n, 0, i, p);
      RedundantMeans(WithoutPipe(n.table[i].value, p));
      WithoutPipeCompact(n.table[i].value, p);
    }
    StripCompact(m, NOBODY);
  }

  lemma RedundantMeans(n: Node<Pipes>)
    ensures IsRedundant(n) <==> Redundant(n, NOBODY)
  {
  }

  /** The node before its table is stripped. */
  function Pruned(n: Node<Pipes>, p: Pipe): Node<Pipes> {
    var table := PrunedFrom(n, 0, p);
    Node(n.load - {p}, n.min, table, NumLive(table))
  }

  lemma {:induction false} WithoutPipeIsStripped(n: Node<Pipes>, p: Pipe)
    requires Compact(n, NOBODY)
    ensures var r := WithoutPipe(n, p);
            r.load == n.load - {p} && forall c: Byte :: Child(r, c) == Child(Pruned(n, p), c)
  {
    hide Strip, NumLive, PrunedFrom;
    CompactFits(n, NOBODY);
    StripKeeps(Pruned(n, p));
  }

  lemma {:induction false} WithoutPipeChild(n: Node<Pipes>, p: Pipe, c: Byte)
    requires Compact(n, NOBODY)
    ensures var r := WithoutPipe(n, p);
            Child(r, c) == if Child(n, c).None? || IsRedundant(WithoutPipe(Child(n, c).value, p)) then None
                           else Some(WithoutPipe(Child(n, c).value, p))
  {
    hide Compact, WithoutPipe, NumLive, PrunedFrom;
    WithoutPipeIsStripped(n, p);
    if InRange(n, c) { PrunedSlot(n, 0, c - n.min, p); }
  }

  /** Removing a pipe removes it from the subscribers of every topic and does nothing else. */
  lemma {:induction false} WithoutPipeGets(n: Node<Pipes>, p: Pipe, q: Topic)
    requires Compact(n, NOBODY)
    ensures Subscribers(WithoutPipe(n, p), q) == Subscribers(n, q) - {p}
    decreases |q|
  {
    hide Compact, WithoutPipe;
    WithoutPipeIsStripped(n, p);
    if q != [] {
      WithoutPipeChild(n, p, q[0]);
      if Child(n, q[0]).Some? {
        var k := Child(n, q[0]).value;
        CompactChild(n, q[0], NOBODY);
        WithoutPipeGets(k, p, q[1..]);
        WithoutPipeCompact(k, p);
        if IsRedundant(WithoutPipe(k, p)) { RedundantIsEmpty(WithoutPipe(k, p), q[1..], NOBODY); }
      }
    }
  }

  predicate OnlyBy(p: Pipe, pipes: Pipes) { pipes == {p} }

  function HeldOnlyBy(p: Pipe): Pipes -> bool { (pipes: Pipes) => OnlyBy(p, pipes) }

  /** The topics that lose their last subscriber, in the order they are reported. */
  function Emptied(n: Node<Pipes>, p: Pipe): seq<Topic> {
    Visit(n, [], HeldOnlyBy(p))
  }

  /** Each topic that only `p` subscribed to is reported exactly once, and no other. */
  lemma {:induction false} EmptiedOnce(n: Node<Pipes>, p: Pipe)
    requires Compact(n, NOBODY)
    ensures Distinct(Emptied(n, p))
    ensures forall q: Topic :: q in Emptied(n, p) <==> Subscribers(n, q) == {p}
  {
    VisitsEveryTopicOnce(n, HeldOnlyBy(p), NOBODY);
  }

  // ------------------------------------------------------------ single subscriptions

  function Subscribe(n: Node<Pipes>, t: Topic, p: Pipe): Node<Pipes> {
    Put(n, t, Subscribers(n, t) + {p}, NOBODY)
  }

  /** There is a node for the topic, with subscribers or on the way to some. */
  predicate HasNode(n: Node<Pipes>, t: Topic)
    decreases |t|
  {
    t == [] || (Child(n, t[0]).Some? && HasNode(Child(n, t[0]).value, t[1..]))
  }

  /** Removing one subscription: the new trie and whether the caller is told that the topic
      has lost its last subscriber; a failed assertion if somebody else holds the topic and
      `p` does not. */
  datatype Removal = Failed | Removed(n: Node<Pipes>, last: bool)

  function Unsubscribe(n: Node<Pipes>, t: Topic, p: Pipe): Removal {
    var pipes := Subscribers(n, t);
    if pipes == NOBODY then Removed(n, HasNode(n, t))
    else if p !in pipes then Failed
    else Removed(Replace(n, t, pipes - {p}, NOBODY), pipes == {p})
  }

  /** Adding a subscription acts on the map from topics to subscribers, and the topic is new
      exactly if it had none. */
  lemma {:induction false} SubscribeActsOnTheMap(n: Node<Pipes>, t: Topic, p: Pipe, q: Topic)
    requires Compact(n, NOBODY)
    ensures Compact(Subscribe(n, t, p), NOBODY)
    ensures Subscribers(Subscribe(n, t, p), q) == if q == t then Subscribers(n, t) + {p} else Subscribers(n, q)
  {
    hide Compact, Put;
    assert p in Subscribers(n, t) + {p};
    PutCompact(n, t, Subscribers(n, t) + {p}, NOBODY);
    PutGets(n, t, Subscribers(n, t) + {p}, q, NOBODY);
  }

  /** Removing a held subscription acts on the map, and reports exactly the last one. */
  lemma {:induction false} UnsubscribeActsOnTheMap(n: Node<Pipes>, t: Topic, p: Pipe, q: Topic)
    requires Compact(n, NOBODY)
    ensures Unsubscribe(n, t, p).Failed? <==> Subscribers(n, t) != NOBODY && p !in Subscribers(n, t)
    ensures var r := Unsubscribe(n, t, p);
            r.Removed? ==>
              && Compact(r.n, NOBODY)
              && Subscribers(r.n, q) == (if q == t then Subscribers(n, t) - {p} else Subscribers(n, q))
              && (p in Subscribers(n, t) ==> (r.last <==> Subscribers(r.n, t) == NOBODY))
  {
    hide Compact, Replace;
    if p in Subscribers(n, t) {
      ReplaceCompact(n, t, Subscribers(n, t) - {p}, NOBODY);
      ReplaceGets(n, t, Subscribers(n, t) - {p}, q, NOBODY);
      ReplaceGets(n, t, Subscribers(n, t) - {p}, t, NOBODY);
    }
  }

  /** In a compact trie there is a node for a topic exactly if it is empty or some topic that
      starts with it has subscribers; so removing a topic nobody holds is reported as the
      removal of its last subscriber in exactly those cases. */
  lemma {:induction false} NodesLeadToSubscribers(n: Node<Pipes>, t: Topic)
    requires Compact(n, NOBODY)
    ensures HasNode(n, t) <==> t == [] || exists q: Topic :: t <= q && Subscribers(n, q) != NOBODY
    decreases |t|
  {
    hide Compact;
    if t != [] {
      if HasNode(n, t) {
        var s := TopicBelow(n, t);
        assert t <= t + s && Subscribers(n, t + s) != NOBODY;
      }
      if q: Topic :| t <= q && Subscribers(n, q) != NOBODY {
        assert q[0] == t[0] && t[1..] <= q[1..];
        CompactChild(n, t[0], NOBODY);
        assert Subscribers(Child(n, t[0]).value, q[1..]) != NOBODY;
        NodesLeadToSubscribers(Child(n, t[0]).value, t[1..]);
      }
    }
  }

  lemma {:induction false} TopicBelow(n: Node<Pipes>, t: Topic) returns (s: Topic)
    requires Compact(n, NOBODY) && HasNode(n, t) && (t == [] ==> !Redundant(n, NOBODY))
    ensures Subscribers(n, t + s) != NOBODY
    decreases |t|
  {
    hide Compact;
    if t == [] {
      s := StoresSomething(n, NOBODY);
      assert [] + s == s;
    } else {
      CompactChild(n, t[0], NOBODY);
      s := TopicBelow(Child(n, t[0]).value, t[1..]);
      assert (t + s)[0] == t[0] && (t + s)[1..] == t[1..] + s;
    }
  }
}

/** Facts about the contents of a compact trie: its shape is determined by what it stores,
    walking it along some data meets exactly the prefixes of the data, and visiting it meets
    every stored topic once. */
module TrieTheorems {
  import opened Basics
  import opened QueueSpec
  import opened Wire
  import opened TrieSpec

  // ------------------------------------------------------------ one shape per contents

  /** Equal nodes, except that a node without children may remember any character. */
  ghost predicate SameShape<P>(a: Node<P>, b: Node<P>) {
    && a.load == b.load && a.live == b.live && |a.table| == |b.table| && (a.table != [] ==> a.min == b.min)
    && (forall i | 0 <= i < |a.table| :: (a.table[i].Some? <==> b.table[i].Some?))
    && (forall i | 0 <= i < |a.table| && a.table[i].Some? && b.table[i].Some? :: SameShape(a.table[i].value, b.table[i].value))
  }

  ghost predicate SameContents<P>(a: Node<P>, b: Node<P>, none: P) {
    forall t: Topic :: Get(a, t, none) == Get(b, t, none)
  }

  /** A child that is not redundant stores something. */
  lemma {:induction false} StoresSomething<P>(n: Node<P>, none: P) returns (t: Topic)
    requires Compact(n, none) && !Redundant(n, none)
    ensures Get(n, t, none) != none
    decreases n
  {
    if n.load != none { return []; }
    NoneLive(n.table);
    var i :| 0 <= i < |n.table| && n.table[i].Some?;
    var s := StoresSomething(n.table[i].value, none);
    t := [n.min + i] + s;
    assert t[1..] == s;
  }

  lemma {:induction false} SameChild<P>(a: Node<P>, b: Node<P>, c: Byte, none: P)
    requires Compact(a, none) && Compact(b, none) && SameContents(a, b, none) && Child(a, c).Some?
    ensures Child(b, c).Some? && SameContents(Child(a, c).value, Child(b, c).value, none)
  {
    hide Compact;
    CompactChild(a, c, none);
    var t := StoresSomething(Child(a, c).value, none);
    assert ([c] + t)[1..] == t;
    assert Get(a, [c] + t, none) == Get(b, [c] + t, none);
    assert Child(b, c).Some?;
    forall s: Topic ensures Get(Child(a, c).value, s, none) == Get(Child(b, c).value, s, none) {
      assert ([c] + s)[1..] == s;
      assert Get(a, [c] + s, none) == Get(b, [c] + s, none);
    }
  }

  lemma {:induction false} SameChildren<P>(a: Node<P>, b: Node<P>, none: P)
    requires Compact(a, none) && Compact(b, none) && SameContents(a, b, none)
    ensures forall c: Byte :: Child(a, c).Some? <==> Child(b, c).Some?
  {
    forall c: Byte ensures Child(a, c).Some? <==> Child(b, c).Some? {
      if Child(a, c).Some? { SameChild(a, b, c, none); }
      if Child(b, c).Some? { SameChild(b, a, c, none); }
    }
  }

  /** Tables with children at both ends and children for the same characters line up. */
  lemma TablesLineUp<P>(a: Node<P>, b: Node<P>)
    requires a.min + |a.table| <= 256 && b.min + |b.table| <= 256 && EndsLive(a.table) && EndsLive(b.table)
    requires forall c: Byte :: Child(a, c).Some? <==> Child(b, c).Some?
    ensures |a.table| == |b.table| && (a.table != [] ==> a.min == b.min)
    ensures forall i | 0 <= i < |a.table| :: a.table[i].Some? <==> b.table[i].Some?
  {
    if a.table != [] {
      assert Child(a, a.min).Some? && Child(a, a.min + |a.table| - 1).Some?;
    }
    if b.table != [] {
      assert Child(b, b.min).Some? && Child(b, b.min + |b.table| - 1).Some?;
    }
    forall i | 0 <= i < |a.table| ensures |a.table| == |b.table| && (a.table[i].Some? <==> b.table[i].Some?) {
      assert Child(a, a.min + i) == a.table[i] && Child(b, b.min + i) == b.table[i];
    }
  }

  lemma {:induction false} SamePatternSameCount<P>(s: seq<Option<Node<P>>>, t: seq<Option<Node<P>>>)
    requires |s| == |t| && forall i | 0 <= i < |s| :: s[i].Some? <==> t[i].Some?
    ensures NumLive(s) == NumLive(t)
  {
    if s != [] { SamePatternSameCount(s[1..], t[1..]); }
  }

  /** Two compact tries with the same contents have the same shape, whatever their history. */
  lemma {:induction false} ShapeIsDetermined<P>(a: Node<P>, b: Node<P>, none: P)
    requires Compact(a, none) && Compact(b, none) && SameContents(a, b, none)
    ensures SameShape(a, b)
    decreases a
  {
    assert Get(a, [], none) == Get(b, [], none);
    SameChildren(a, b, none);
    TablesLineUp(a, b);
    SamePatternSameCount(a.table, b.table);
    forall i | 0 <= i < |a.table| && a.table[i].Some? && b.table[i].Some?
      ensures SameShape(a.table[i].value, b.table[i].value)
    {
      assert Child(a, a.min + i) == a.table[i] && Child(b, b.min + i) == b.table[i];
      SameChild(a, b, a.min + i, none);
      CompactChild(a, a.min + i, none);
      CompactChild(b, b.min + i, none);
      ShapeIsDetermined(a.table[i].value, b.table[i].value, none);
    }
  }

  // ------------------------------------------------------------ walking along data

  /** The loads of the nodes met when following the data. */
  function Along<P>(n: Node<P>, data: Topic): (r: seq<P>)
    ensures 0 < |r| <= |data| + 1
    decreases |data|
  {
    [n.load] + if data == [] || Child(n, data[0]).None? then [] else Along(Child(n, data[0]).value, data[1..])
  }

  lemma {:induction false} AlongUnfolds<P>(n: Node<P>, data: Topic)
    ensures data == [] || Child(n, data[0]).None? ==> Along(n, data) == [n.load]
    ensures data != [] && Child(n, data[0]).Some? ==> Along(n, data) == [n.load] + Along(Child(n, data[0]).value, data[1..])
  {
  }

  /** They are what is stored for the prefixes of the data; nothing is stored for the rest. */
  lemma {:induction false} AlongMeetsThePrefixes<P>(n: Node<P>, data: Topic, i: nat, none: P)
    requires i <= |data|
    ensures Get(n, data[..i], none) == if i < |Along(n, data)| then Along(n, data)[i] else none
    decreases |data|
  {
    if i > 0 {
      assert data[..i][1..] == data[1..][..i - 1] && data[..i][0] == data[0];
      if Child(n, data[0]).Some? { AlongMeetsThePrefixes(Child(n, data[0]).value, data[1..], i - 1, none); }
    }
  }

  // ------------------------------------------------------------ visiting all topics

  /** The topics below a node whose loads are hits, in the order the nodes are visited. */
  function Visit<P>(n: Node<P>, prefix: Topic, hit: P -> bool): seq<Topic>
    decreases n, 256 + |n.table|
  {
    (if hit(n.load) then [prefix] else []) + VisitFrom(n, 0, prefix, hit)
  }

  function VisitFrom<P>(n: Node<P>, i: nat, prefix: Topic, hit: P -> bool): seq<Topic>
    requires i <= |n.table|
    decreases n, |n.table| - i
  {
    if i == |n.table| || n.min + i >= 256 then []
    else
      (match n.table[i]
       case None => []
       case Some(k) => Visit(k, prefix + [n.min + i], hit))
      + VisitFrom(n, i + 1, prefix, hit)
  }

  /** The definitions of the two functions, one step at a time. */
  lemma VisitUnfolds<P>(n: Node<P>, i: nat, prefix: Topic, hit: P -> bool)
    requires i <= |n.table| && n.min + |n.table| <= 256
    ensures Visit(n, prefix, hit) == (if hit(n.load) then [prefix] else []) + VisitFrom(n, 0, prefix, hit)
    ensures i == |n.table| ==> VisitFrom(n, i, prefix, hit) == []
    ensures i < |n.table| ==>
              VisitFrom(n, i, prefix, hit) ==
                (if n.table[i].Some? then Visit(n.table[i].value, prefix + [n.min + i], hit) else []) + VisitFrom(n, i + 1, prefix, hit)
  {
  }

  ghost predicate Stored<P>(n: Node<P>, prefix: Topic, q: Topic, hit: P -> bool, none: P) {
    prefix <= q && hit(Get(n, q[|prefix|..], none))
  }

  /** Stored below one of the children from slot `i` on. */
  ghost predicate StoredFrom<P>(n: Node<P>, i: nat, prefix: Topic, q: Topic, hit: P -> bool, none: P) {
    Stored(n, prefix, q, hit, none) && |q| > |prefix| && q[|prefix|] >= n.min + i
  }

  lemma DistinctAppend(a: seq<Topic>, b: seq<Topic>)
    requires Distinct(a) && Distinct(b) && forall q | q in a :: q !in b
    ensures Distinct(a + b)
  {
    forall i, j | 0 <= i < j < |a + b| ensures (a + b)[i] != (a + b)[j] {
      if i < |a| && j >= |a| { assert a[i] in a && b[j - |a|] in b; }
    }
  }

  lemma StoredInChild<P>(n: Node<P>, i: nat, prefix: Topic, q: Topic, hit: P -> bool, none: P)
    requires n.min + |n.table| <= 256 && i < |n.table| && !hit(none)
    ensures StoredFrom(n, i, prefix, q, hit, none) <==>
              || StoredFrom(n, i + 1, prefix, q, hit, none)
              || (n.table[i].Some? && Stored(n.table[i].value, prefix + [n.min + i], q, hit, none))
    ensures n.table[i].Some? && Stored(n.table[i].value, prefix + [n.min + i], q, hit, none) ==> !StoredFrom(n, i + 1, prefix, q, hit, none)
  {
    var longer := prefix + [n.min + i];
    if prefix <= q && |q| > |prefix| {
      var rest := q[|prefix|..];
      assert rest[0] == q[|prefix|] && rest[1..] == q[|prefix| + 1..];
      assert longer <= q <==> q[|prefix|] == n.min + i;
    }
    if longer <= q { assert prefix <= q && q[|prefix|] == n.min + i; }
  }

  lemma {:induction false} VisitMeets<P>(n: Node<P>, prefix: Topic, hit: P -> bool, none: P)
    requires Compact(n, none) && !hit(none)
    ensures Distinct(Visit(n, prefix, hit))
    ensures forall q: Topic :: q in Visit(n, prefix, hit) <==> Stored(n, prefix, q, hit, none)
    decreases n, 256 + |n.table|
  {
    VisitFromMeets(n, 0, prefix, hit, none);
    var own: seq<Topic> := if hit(n.load) then [prefix] else [];
    var below := VisitFrom(n, 0, prefix, hit);
    forall q: Topic ensures q in own + below <==> Stored(n, prefix, q, hit, none) {
      if prefix <= q {
        if |q| == |prefix| { assert q == prefix && q[|prefix|..] == []; }
        else { assert q[|prefix|..][0] == q[|prefix|]; }
      }
    }
    assert prefix !in below;
    DistinctAppend(own, below);
  }

  lemma {:induction false} VisitFromMeets<P>(n: Node<P>, i: nat, prefix: Topic, hit: P -> bool, none: P)
    requires Compact(n, none) && !hit(none) && i <= |n.table|
    ensures Distinct(VisitFrom(n, i, prefix, hit))
    ensures forall q: Topic :: q in VisitFrom(n, i, prefix, hit) <==> StoredFrom(n, i, prefix, q, hit, none)
    decreases n, |n.table| - i
  {
    hide Stored, StoredFrom, Get;
    if i < |n.table| {
      VisitFromMeets(n, i + 1, prefix, hit, none);
      var longer := prefix + [n.min + i];
      var here: seq<Topic> := if n.table[i].Some? then Visit(n.table[i].value, longer, hit) else [];
      if n.table[i].Some? {
        VisitMeets(n.table[i].value, longer, hit, none);
      }
      forall q: Topic
        ensures q in VisitFrom(n, i, prefix, hit) <==> StoredFrom(n, i, prefix, q, hit, none)
        ensures q in here ==> q !in VisitFrom(n, i + 1, prefix, hit)
      {
        StoredInChild(n, i, prefix, q, hit, none);
      }
      DistinctAppend(here, VisitFrom(n, i + 1, prefix, hit));
    } else {
      NothingBehind(n, prefix, hit, none);
    }
  }

  lemma NothingBehind<P>(n: Node<P>, prefix: Topic, hit: P -> bool, none: P)
    requires !hit(none)
    ensures forall q: Topic :: !StoredFrom(n, |n.table|, prefix, q, hit, none)
  {
    forall q: Topic ensures !StoredFrom(n, |n.table|, prefix, q, hit, none) {
      if prefix <= q && |q| > |prefix| { assert q[|prefix|..][0] == q[|prefix|]; }
    }
  }

  /** Visiting the whole trie meets every topic whose load is a hit exactly once, and nothing
      else. */
  lemma {:induction false} VisitsEveryTopicOnce<P>(n: Node<P>, hit: P -> bool, none: P)
    requires Compact(n, none) && !hit(none)
    ensures Distinct(Visit(n, [], hit))
    ensures forall q: Topic :: q in Visit(n, [], hit) <==> hit(Get(n, q, none))
  {
    VisitMeets(n, [], hit, none);
    forall q: Topic ensures q in Visit(n, [], hit) <==> hit(Get(n, q, none)) {
      assert q[0..] == q;
      assert Stored(n, [], q, hit, none) <==> hit(Get(n, q, none));
    }
  }

  lemma PrefixOfPrefix(bytes: seq<Byte>, prefix: Topic, c: Byte)
    requires |prefix| < |bytes| && bytes[..|prefix| + 1] == prefix + [c]
    ensures bytes[..|prefix|] == prefix
  {
    assert bytes[..|prefix|] == bytes[..|prefix| + 1][..|prefix|];
  }
}

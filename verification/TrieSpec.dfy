/** The subscription tries as values: compact tables of children with three representations
    (no child, one child, a table), holding a load at every node. For the trie of a
    subscriber the load is a reference count, for the one of a publisher a set of pipes;
    `none` is the load of a node that stores nothing. */
module TrieSpec {
  import opened QueueSpec
  import opened Wire

  type Topic = seq<Byte>

  /** `table[i]` is the child for character `min + i`; `live` counts the children. */
  datatype Node<P> = Node(load: P, min: Byte, table: seq<Option<Node<P>>>, live: nat)

  function NewNode<P>(none: P): Node<P> { Node(none, 0, [], 0) }

  predicate InRange<P>(n: Node<P>, c: Byte) { n.min <= c < n.min + |n.table| }

  function Child<P>(n: Node<P>, c: Byte): Option<Node<P>> {
    if InRange(n, c) then n.table[c - n.min] else None
  }

  /** The load stored for a topic. */
  function Get<P>(n: Node<P>, t: Topic, none: P): P {
    if t == [] then n.load
    else
      match Child(n, t[0])
      case None => none
      case Some(k) => Get(k, t[1..], none)
  }

  function NumLive<P>(table: seq<Option<Node<P>>>): nat {
    if table == [] then 0 else (if table[0].Some? then 1 else 0) + NumLive(table[1..])
  }

  predicate EndsLive<P>(table: seq<Option<Node<P>>>) {
    table != [] ==> table[0].Some? && table[|table| - 1].Some?
  }

  ghost predicate Redundant<P>(n: Node<P>, none: P) { n.load == none && n.live == 0 }

  /** Nothing wasted: live children are counted, the ends of a table are children, and every
      child stores something somewhere. */
  ghost predicate Compact<P>(n: Node<P>, none: P) {
    && n.min + |n.table| <= 256
    && n.live == NumLive(n.table)
    && EndsLive(n.table)
    && (forall i | 0 <= i < |n.table| && n.table[i].Some? ::
          Compact(n.table[i].value, none) && !Redundant(n.table[i].value, none))
  }

  // ------------------------------------------------------------ counting children

  lemma {:induction false} NumLiveAppend<P>(a: seq<Option<Node<P>>>, b: seq<Option<Node<P>>>)
    ensures NumLive(a + b) == NumLive(a) + NumLive(b)
  {
    if a == [] {
      assert a + b == b;
    } else {
      assert (a + b)[1..] == a[1..] + b;
      NumLiveAppend(a[1..], b);
    }
  }

  lemma NumLiveUpdate<P>(table: seq<Option<Node<P>>>, i: nat, k: Option<Node<P>>)
    requires i < |table|
    ensures NumLive(table[i := k]) == NumLive(table) - (if table[i].Some? then 1 else 0) + (if k.Some? then 1 else 0)
  {
    var a, b := table[..i], table[i + 1..];
    assert table == a + [table[i]] + b && table[i := k] == a + [k] + b;
    NumLiveAppend(a + [table[i]], b);
    NumLiveAppend(a, [table[i]]);
    NumLiveAppend(a + [k], b);
    NumLiveAppend(a, [k]);
  }

  function Nones<P>(k: nat): (r: seq<Option<Node<P>>>)
    ensures |r| == k && forall i | 0 <= i < k :: r[i] == None
  {
    if k == 0 then [] else [None] + Nones(k - 1)
  }

  lemma {:induction false} NumLiveNones<P>(k: nat)
    ensures NumLive(Nones<P>(k)) == 0
  {
    if k > 0 {
      assert Nones<P>(k)[1..] == Nones<P>(k - 1);
      NumLiveNones<P>(k - 1);
    }
  }

  lemma {:induction false} NoneLive<P>(table: seq<Option<Node<P>>>)
    ensures NumLive(table) == 0 <==> forall i | 0 <= i < |table| :: table[i] == None
  {
    if table != [] {
      NoneLive(table[1..]);
      if NumLive(table) == 0 {
        forall i | 0 <= i < |table| ensures table[i] == None { if i > 0 { assert table[1..][i - 1] == table[i]; } }
      } else if table[0] == None {
        var i :| 0 <= i < |table[1..]| && table[1..][i].Some?;
        assert table[i + 1].Some?;
      }
    }
  }

  // ------------------------------------------------------------ growing the table

  /** The table extended so that `c` is in range. */
  function Extend<P>(n: Node<P>, c: Byte): Node<P> {
    if InRange(n, c) then n
    else if n.table == [] then n.(min := c, table := [None])
    else if n.min < c then n.(table := n.table + Nones(c - n.min + 1 - |n.table|))
    else n.(min := c, table := Nones(n.min - c) + n.table)
  }

  lemma ExtendKeeps<P>(n: Node<P>, c: Byte)
    requires n.min + |n.table| <= 256
    ensures var e := Extend(n, c);
            && InRange(e, c) && e.min + |e.table| <= 256 && e.load == n.load && e.live == n.live
            && NumLive(e.table) == NumLive(n.table)
            && (forall b: Byte :: Child(e, b) == Child(n, b))
            && (InRange(n, c) || Child(e, c) == None)
  {
    if !InRange(n, c) {
      if n.table == [] {
        var slot: seq<Option<Node<P>>> := [None];
        assert NumLive(slot) == 0;
      } else if n.min < c {
        var k := c - n.min + 1 - |n.table|;
        NumLiveNones<P>(k);
        NumLiveAppend(n.table, Nones(k));
      } else {
        NumLiveNones<P>(n.min - c);
        NumLiveAppend(Nones(n.min - c), n.table);
      }
    }
  }

  /** Store a load for a topic, creating the nodes on the way. */
  function Put<P>(n: Node<P>, t: Topic, p: P, none: P): Node<P>
    decreases |t|
  {
    if t == [] then n.(load := p)
    else
      var e := Extend(n, t[0]);
      if !InRange(e, t[0]) then n
      else
        var i := t[0] - e.min;
        var k := if e.table[i].Some? then e.table[i].value else NewNode(none);
        e.(table := e.table[i := Some(Put(k, t[1..], p, none))], live := if e.table[i].Some? then e.live else e.live + 1)
  }

  /** The node with a child for `c`, a new one if there was none. */
  function Prepared<P>(n: Node<P>, c: Byte, none: P): Node<P> {
    var e := Extend(n, c);
    if !InRange(e, c) || e.table[c - e.min].Some? then e
    else e.(table := e.table[c - e.min := Some(NewNode(none))], live := e.live + 1)
  }

  /** Storing below a node is preparing the child and storing in it. */
  lemma PutIsPrepared<P>(n: Node<P>, t: Topic, p: P, none: P)
    requires Compact(n, none) && t != []
    ensures var e, i := Prepared(n, t[0], none), t[0] - Prepared(n, t[0], none).min;
            && 0 <= i < |e.table| && e.table[i].Some? && Compact(e.table[i].value, none)
            && Get(n, t, none) == Get(e.table[i].value, t[1..], none)
            && Put(n, t, p, none) == e.(table := e.table[i := Some(Put(e.table[i].value, t[1..], p, none))])
  {
    ExtendKeeps(n, t[0]);
    if Child(n, t[0]).Some? { CompactChild(n, t[0], none); } else { NewNodeCompact(none); }
  }

  lemma {:induction false} AtRoot<P>(n: Node<P>, p: P, none: P)
    ensures Get(n, [], none) == n.load && Put(n, [], p, none) == n.(load := p)
  {
  }

  lemma {:induction false} ExtendFits<P>(n: Node<P>, c: Byte, none: P)
    requires Compact(n, none)
    ensures n.min + |n.table| <= 256 && InRange(Extend(n, c), c) && (InRange(n, c) ==> Extend(n, c) == n)
  {
    ExtendKeeps(n, c);
  }

  /** One child is replaced or added; nothing else changes. */
  lemma SetChild<P>(e: Node<P>, c: Byte, k: Node<P>, live: nat)
    requires InRange(e, c)
    ensures var r := e.(table := e.table[c - e.min := Some(k)], live := live);
            && Child(r, c) == Some(k) && forall b: Byte | b != c :: Child(r, b) == Child(e, b)
  {
  }

  lemma {:induction false} CompactChild<P>(n: Node<P>, c: Byte, none: P)
    requires Compact(n, none) && Child(n, c).Some?
    ensures Compact(Child(n, c).value, none) && !Redundant(Child(n, c).value, none)
  {
  }

  lemma {:induction false} CompactFits<P>(n: Node<P>, none: P)
    requires Compact(n, none)
    ensures n.min + |n.table| <= 256
  {
  }

  lemma NewNodeCompact<P>(none: P)
    ensures Compact(NewNode(none), none)
  {
  }

  lemma {:induction false} PutGets<P>(n: Node<P>, t: Topic, p: P, q: Topic, none: P)
    requires Compact(n, none)
    ensures Get(Put(n, t, p, none), q, none) == if q == t then p else Get(n, q, none)
    decreases |t|
  {
    hide Compact, Extend;
    if t != [] {
      CompactFits(n, none);
      ExtendKeeps(n, t[0]);
      var e := Extend(n, t[0]);
      var k := if Child(e, t[0]).Some? then Child(e, t[0]).value else NewNode(none);
      var k' := Put(k, t[1..], p, none);
      SetChild(e, t[0], k', if Child(e, t[0]).Some? then e.live else e.live + 1);
      if q != [] && q[0] == t[0] {
        if Child(n, t[0]).Some? { CompactChild(n, t[0], none); } else { NewNodeCompact(none); }
        PutGets(k, t[1..], p, q[1..], none);
        assert q == [q[0]] + q[1..] && t == [t[0]] + t[1..];
      }
    }
  }

  lemma {:induction false} PutStores<P>(n: Node<P>, t: Topic, p: P, none: P)
    requires p != none && Compact(n, none)
    ensures !Redundant(Put(n, t, p, none), none)
  {
    if t != [] {
      ExtendKeeps(n, t[0]);
      var e := Extend(n, t[0]);
      if Child(e, t[0]).Some? {
        NoneLive(e.table);
      }
    }
  }

  lemma SetChildCompact<P>(n: Node<P>, c: Byte, k: Node<P>, none: P)
    requires Compact(n, none) && Compact(k, none) && !Redundant(k, none)
    ensures var e := Extend(n, c);
            && InRange(e, c)
            && Compact(e.(table := e.table[c - e.min := Some(k)],
                          live := if e.table[c - e.min].Some? then e.live else e.live + 1), none)
  {
    ExtendKeeps(n, c);
    var e := Extend(n, c);
    var i := c - e.min;
    var table := e.table[i := Some(k)];
    NumLiveUpdate(e.table, i, Some(k));
    PutEndsLive(n, c, Some(k));
    forall j | 0 <= j < |table| && table[j].Some?
      ensures Compact(table[j].value, none) && !Redundant(table[j].value, none)
    {
      if j != i {
        assert Child(n, e.min + j) == Child(e, e.min + j) == e.table[j];
        CompactChild(n, e.min + j, none);
      }
    }
  }

  lemma {:induction false} PutCompact<P>(n: Node<P>, t: Topic, p: P, none: P)
    requires Compact(n, none) && p != none
    ensures Compact(Put(n, t, p, none), none)
    decreases |t|
  {
    hide Extend, Compact, Redundant;
    if t != [] {
      CompactFits(n, none);
      ExtendKeeps(n, t[0]);
      if Child(n, t[0]).Some? { CompactChild(n, t[0], none); } else { NewNodeCompact(none); }
      var e := Extend(n, t[0]);
      var k := if Child(e, t[0]).Some? then Child(e, t[0]).value else NewNode(none);
      PutCompact(k, t[1..], p, none);
      PutStores(k, t[1..], p, none);
      SetChildCompact(n, t[0], Put(k, t[1..], p, none), none);
    } else {
      LoadCompact(n, p, none);
    }
  }

  lemma {:induction false} LoadCompact<P>(n: Node<P>, p: P, none: P)
    requires Compact(n, none)
    ensures Compact(n.(load := p), none)
  {
  }

  lemma PutEndsLive<P>(n: Node<P>, c: Byte, k: Option<Node<P>>)
    requires n.min + |n.table| <= 256 && EndsLive(n.table) && k.Some?
    ensures InRange(Extend(n, c), c) && EndsLive(Extend(n, c).table[c - Extend(n, c).min := k])
  {
  }

  // ------------------------------------------------------------ shrinking the table

  function FirstLive<P>(table: seq<Option<Node<P>>>): (i: nat)
    requires NumLive(table) > 0
    ensures i < |table| && table[i].Some? && forall j | 0 <= j < i :: table[j] == None
  {
    if table[0].Some? then 0 else 1 + FirstLive(table[1..])
  }

  function LastLive<P>(table: seq<Option<Node<P>>>): (i: nat)
    requires NumLive(table) > 0
    ensures i < |table| && table[i].Some? && forall j | i < j < |table| :: table[j] == None
  {
    if table[|table| - 1].Some? then |table| - 1
    else
      assert NumLive(table[..|table| - 1]) > 0 by {
        NumLiveAppend(table[..|table| - 1], [table[|table| - 1]]);
        assert table == table[..|table| - 1] + [table[|table| - 1]];
      }
      LastLive(table[..|table| - 1])
  }

  /** The table without empty slots at either end. */
  function Strip<P>(n: Node<P>): Node<P> {
    if NumLive(n.table) == 0 then n.(table := [])
    else
      var a, b := FirstLive(n.table), LastLive(n.table);
      if a > b || n.min + a >= 256 then n else n.(min := n.min + a, table := n.table[a..b + 1])
  }

  lemma {:induction false} SliceCounts<P>(table: seq<Option<Node<P>>>, a: nat, b: nat)
    requires a <= b < |table| && forall j | 0 <= j < a || b < j < |table| :: table[j] == None
    ensures NumLive(table[a..b + 1]) == NumLive(table)
  {
    var left, mid, right := table[..a], table[a..b + 1], table[b + 1..];
    assert table == left + mid + right;
    NumLiveAppend(left + mid, right);
    NumLiveAppend(left, mid);
    NoneLive(left);
    NoneLive(right);
  }

  lemma StripKeeps<P>(n: Node<P>)
    requires n.min + |n.table| <= 256
    ensures var r := Strip(n);
            && r.load == n.load && r.live == n.live && r.min + |r.table| <= 256
            && NumLive(r.table) == NumLive(n.table) && EndsLive(r.table)
            && (forall c: Byte :: Child(r, c) == Child(n, c))
            && (forall i | 0 <= i < |r.table| :: 0 <= i + r.min - n.min < |n.table| && r.table[i] == n.table[i + r.min - n.min])
  {
    hide NumLive;
    NoneLive(n.table);
    if NumLive(n.table) > 0 {
      var a, b := FirstLive(n.table), LastLive(n.table);
      SliceCounts(n.table, a, b);
      StripChildren(n, a, b);
    } else {
      EmptyCounts<P>();
    }
  }

  lemma EmptyCounts<P>()
    ensures NumLive<P>([]) == 0
  {
  }

  lemma StripChildren<P>(n: Node<P>, a: nat, b: nat)
    requires n.min + |n.table| <= 256 && a <= b < |n.table|
    requires forall j | 0 <= j < a || b < j < |n.table| :: n.table[j] == None
    ensures forall c: Byte :: Child(n.(min := n.min + a, table := n.table[a..b + 1]), c) == Child(n, c)
  {
  }

  /** Change the load of an existing topic; nodes that store nothing any more are removed. */
  function Replace<P(==)>(n: Node<P>, t: Topic, p: P, none: P): Node<P>
    decreases |t|
  {
    if t == [] then n.(load := p)
    else
      match Child(n, t[0])
      case None => n
      case Some(k) =>
        var k' := Replace(k, t[1..], p, none);
        var i := t[0] - n.min;
        if k'.load == none && k'.live == 0 then WithoutChild(n, t[0])
        else n.(table := n.table[i := Some(k')])
  }

  lemma ChildrenAre<P>(n: Node<P>, c: Byte, k: Option<Node<P>>)
    requires InRange(n, c)
    ensures var r := n.(table := n.table[c - n.min := k]);
            Child(r, c) == k && forall b: Byte | b != c :: Child(r, b) == Child(n, b)
  {
  }

  /** A redundant compact node stores nothing at all. */
  lemma {:induction false} RedundantIsEmpty<P>(n: Node<P>, t: Topic, none: P)
    requires Compact(n, none) && Redundant(n, none)
    ensures Get(n, t, none) == none
  {
    NoneLive(n.table);
  }

  function WithoutChild<P>(n: Node<P>, c: Byte): Node<P>
    requires InRange(n, c)
  {
    Strip(n.(table := n.table[c - n.min := None], live := if n.live > 0 then n.live - 1 else 0))
  }

  /** Stripping a table of compact children gives a compact node. */
  lemma StripCompact<P>(n: Node<P>, none: P)
    requires n.min + |n.table| <= 256 && n.live == NumLive(n.table)
    requires forall i | 0 <= i < |n.table| && n.table[i].Some? ::
      Compact(n.table[i].value, none) && !Redundant(n.table[i].value, none)
    ensures Compact(Strip(n), none)
  {
    hide Strip, NumLive;
    StripKeeps(n);
    var r := Strip(n);
    forall i | 0 <= i < |r.table| && r.table[i].Some?
      ensures Compact(r.table[i].value, none) && !Redundant(r.table[i].value, none)
    {
      assert r.table[i] == n.table[i + r.min - n.min];
    }
  }

  lemma {:induction false} ChildGone<P>(n: Node<P>, c: Byte, none: P)
    requires Compact(n, none) && Child(n, c).Some?
    ensures var gone := WithoutChild(n, c);
            Compact(gone, none) && Child(gone, c) == None && gone.load == n.load && gone.live == n.live - 1
            && forall b: Byte | b != c :: Child(gone, b) == Child(n, b)
  {
    hide Strip, NumLive;
    ChildrenAre(n, c, None);
    NumLiveUpdate(n.table, c - n.min, None);
    NoneLive(n.table);
    var m := n.(table := n.table[c - n.min := None], live := n.live - 1);
    StripKeeps(m);
    StripCompact(m, none);
  }

  lemma ChildKept<P>(n: Node<P>, c: Byte, k: Node<P>, none: P)
    requires Compact(n, none) && Child(n, c).Some? && Compact(k, none) && !Redundant(k, none)
    ensures var kept := n.(table := n.table[c - n.min := Some(k)]);
            Compact(kept, none) && Child(kept, c) == Some(k)
            && forall b: Byte | b != c :: Child(kept, b) == Child(n, b)
  {
    ChildrenAre(n, c, Some(k));
    NumLiveUpdate(n.table, c - n.min, Some(k));
  }

  lemma {:induction false} ReplaceCompact<P>(n: Node<P>, t: Topic, p: P, none: P)
    requires Compact(n, none)
    ensures Compact(Replace(n, t, p, none), none)
    decreases |t|
  {
    hide Compact, WithoutChild;
    if t == [] {
      LoadCompact(n, p, none);
    } else if Child(n, t[0]).Some? {
      CompactChild(n, t[0], none);
      var k := Child(n, t[0]).value;
      ReplaceCompact(k, t[1..], p, none);
      ChildGone(n, t[0], none);
      var k' := Replace(k, t[1..], p, none);
      if !Redundant(k', none) { ChildKept(n, t[0], k', none); }
    }
  }

  lemma {:induction false} ReplaceGets<P>(n: Node<P>, t: Topic, p: P, q: Topic, none: P)
    requires Compact(n, none) && (p != none ==> Get(n, t, none) != none)
    ensures Get(Replace(n, t, p, none), q, none) == if q == t then p else Get(n, q, none)
    decreases |t|
  {
    hide Compact, WithoutChild;
    if t != [] && Child(n, t[0]).Some? {
      CompactChild(n, t[0], none);
      var k := Child(n, t[0]).value;
      var k' := Replace(k, t[1..], p, none);
      ReplaceCompact(k, t[1..], p, none);
      ChildGone(n, t[0], none);
      if !Redundant(k', none) { ChildKept(n, t[0], k', none); }
      if q != [] {
        ReplaceGets(k, t[1..], p, q[1..], none);
        assert q == [q[0]] + q[1..] && t == [t[0]] + t[1..];
        if Redundant(k', none) { RedundantIsEmpty(k', q[1..], none); }
      }
    }
  }

  // ------------------------------------------------------------ how the source compacts

  /** The table itself is in order, whatever its children are. */
  predicate TableOk<P>(n: Node<P>) {
    n.min + |n.table| <= 256 && n.live == NumLive(n.table) && EndsLive(n.table)
  }

  /** The slots `a` to `b` hold all children and children at both ends: they are what
      stripping leaves. */
  lemma StripIs<P>(n: Node<P>, a: nat, b: nat)
    requires n.min + |n.table| <= 256 && a <= b < |n.table| && n.table[a].Some? && n.table[b].Some?
    requires forall j | 0 <= j < a || b < j < |n.table| :: n.table[j] == None
    ensures Strip(n) == n.(min := n.min + a, table := n.table[a..b + 1])
  {
    NoneLive(n.table);
    assert FirstLive(n.table) == a && LastLive(n.table) == b;
  }

  /** A single child removed leaves no table. */
  lemma OnlyChildGone<P>(n: Node<P>, c: Byte)
    requires TableOk(n) && Child(n, c).Some? && |n.table| == 1
    ensures n.live == 1 && WithoutChild(n, c) == n.(table := [], live := 0)
  {
    assert NumLive(n.table[1..]) == 0;
    assert n.table[0 := None][1..] == n.table[1..];
  }

  /** A table of more than one slot has more than one child. */
  lemma TwoEnds<P>(n: Node<P>)
    requires TableOk(n) && |n.table| > 1
    ensures n.live >= 2
  {
    var rest := n.table[1..];
    NoneLive(rest);
    assert rest[|rest| - 1].Some?;
  }

  lemma {:induction false} CountPair<P>(table: seq<Option<Node<P>>>, i: nat, j: nat)
    requires i < j < |table| && table[i].Some? && table[j].Some?
    ensures NumLive(table) >= 2
  {
    if i > 0 {
      CountPair(table[1..], i - 1, j - 1);
    } else {
      var rest := table[1..];
      NoneLive(rest);
      assert rest[j - 1].Some?;
    }
  }

  /** The child in slot `i` removed, and the children that remain are in slots `a` to `b`. */
  lemma GoneIsSlice<P>(n: Node<P>, i: nat, a: nat, b: nat)
    requires TableOk(n) && i < |n.table| && n.table[i].Some? && n.live > 0
    requires a <= b < |n.table| && i != a && i != b && n.table[a].Some? && n.table[b].Some?
    requires forall j | (0 <= j < a || b < j < |n.table|) && j != i :: n.table[j] == None
    ensures var table := n.table[i := None];
            WithoutChild(n, n.min + i) == n.(min := n.min + a, table := table[a..b + 1], live := n.live - 1)
  {
    StripIs(n.(table := n.table[i := None], live := n.live - 1), a, b);
  }

  /** With one child left next to a removed end, it is the other end. */
  lemma LastOneIsOtherEnd<P>(n: Node<P>, i: nat)
    requires TableOk(n) && |n.table| > 1 && i < |n.table| && n.table[i].Some? && n.live == 2
    ensures i == 0 || i == |n.table| - 1
    ensures forall j | 0 < j < |n.table| - 1 :: n.table[j] == None
  {
    var last := |n.table| - 1;
    forall j | 0 < j < last ensures n.table[j] == None {
      if n.table[j].Some? {
        var rest := n.table[1..];
        assert rest[j - 1].Some? && rest[last - 1].Some?;
        CountPair(rest, j - 1, last - 1);
      }
    }
  }

  lemma {:induction false} CountAtMost<P>(table: seq<Option<Node<P>>>)
    ensures NumLive(table) <= |table|
  {
    if table != [] { CountAtMost(table[1..]); }
  }

  lemma SlotsFit<P>(n: Node<P>)
    requires TableOk(n) && n.live >= 2
    ensures n.min + |n.table| <= 256 && |n.table| >= 2 && n.table[0].Some? && n.table[|n.table| - 1].Some?
  {
    CountAtMost(n.table);
  }

  lemma WithoutReplacedChild<P>(n: Node<P>, c: Byte, k: Option<Node<P>>)
    requires InRange(n, c)
    ensures WithoutChild(n.(table := n.table[c - n.min := k]), c) == WithoutChild(n, c)
  {
    hide Strip;
    assert n.table[c - n.min := k][c - n.min := None] == n.table[c - n.min := None];
  }

  lemma {:induction false} ReplacedTableOk<P>(n: Node<P>, c: Byte, k: Node<P>, none: P)
    requires Compact(n, none) && Child(n, c).Some?
    ensures TableOk(n.(table := n.table[c - n.min := Some(k)]))
  {
    NumLiveUpdate(n.table, c - n.min, Some(k));
  }

  /** The first step of a replacement: where the topic leads and what becomes of the node. */
  lemma {:induction false} ReplaceUnfolds<P>(n: Node<P>, t: Topic, p: P, none: P)
    requires Compact(n, none) && t != []
    ensures Child(n, t[0]).None? ==> Replace(n, t, p, none) == n && Get(n, t, none) == none
    ensures Child(n, t[0]).Some? ==>
              var k, i := Child(n, t[0]).value, t[0] - n.min;
              var k' := Replace(k, t[1..], p, none);
              && Compact(k, none) && Get(n, t, none) == Get(k, t[1..], none)
              && var m := n.(table := n.table[i := Some(k')]);
              && TableOk(m) && InRange(m, t[0])
              && Replace(n, t, p, none) == if k'.load == none && k'.live == 0 then WithoutChild(m, t[0]) else m
  {
    hide Compact, WithoutChild, TableOk;
    if Child(n, t[0]).Some? {
      CompactChild(n, t[0], none);
      var k' := Replace(Child(n, t[0]).value, t[1..], p, none);
      ReplacedTableOk(n, t[0], k', none);
      WithoutReplacedChild(n, t[0], Some(k'));
    }
  }

  lemma {:induction false} ReplaceHere<P>(n: Node<P>, p: P, none: P)
    ensures Get(n, [], none) == n.load && Replace(n, [], p, none) == n.(load := p)
  {
  }

  /** Removing what is not stored changes nothing. */
  lemma {:induction false} ReplaceNothing<P>(n: Node<P>, t: Topic, none: P)
    requires Compact(n, none) && Get(n, t, none) == none
    ensures Replace(n, t, none, none) == n
    decreases |t|
  {
    hide Compact, WithoutChild, TableOk;
    if t != [] {
      ReplaceUnfolds(n, t, none, none);
      if Child(n, t[0]).Some? {
        CompactChild(n, t[0], none);
        ReplaceNothing(Child(n, t[0]).value, t[1..], none);
      }
    }
  }
}

/** Every interleaving of the pipe on its chunked queue, access by access. */
module YPipeMemoryTheorems {
  import opened Basics
  import opened QueueSpec
  import opened Cells
  import opened Cursors
  import opened YPipeMemory
  import Y = YPipeModel

  // ------------------------------------------------------------ the trail of cells

  lemma ApartDiffers(cells: seq<Addr>)
    requires Apart(cells)
    ensures Distinct(cells)
  {
  }

  lemma TrailGrows(cells: seq<Addr>, x: Addr, next: Links, prev: Links, n: nat)
    requires Trail(cells, next, prev, n) && cells != [] && x.pos < n
    requires Adjacent(cells[|cells| - 1], x, next, prev, n) && (x.pos > 0 || Elsewhere(cells, x.chunk))
    ensures Trail(cells + [x], next, prev, n) && Distinct(cells + [x])
  {
    ApartAtBack(cells, x);
    ApartDiffers(cells + [x]);
    var all := cells + [x];
    forall i | 0 <= i < |all| - 1 ensures Adjacent(all[i], all[i + 1], next, prev, n) {
      assert i < |cells| - 1 ==> all[i] == cells[i] && all[i + 1] == cells[i + 1];
    }
  }

  lemma TrailWithin(cells: seq<Addr>, lo: nat, hi: nat, next: Links, prev: Links, n: nat)
    requires Trail(cells, next, prev, n) && lo <= hi <= |cells|
    ensures Trail(cells[lo..hi], next, prev, n) && Distinct(cells[lo..hi])
  {
    var part := cells[lo..hi];
    ApartDiffers(part);
    forall i | 0 <= i < |part| - 1 ensures Adjacent(part[i], part[i + 1], next, prev, n) {
      assert Adjacent(cells[lo + i], cells[lo + i + 1], next, prev, n);
    }
  }

  /** What the link of the last chunk is does not matter. */
  lemma LastLinkFree(cells: seq<Addr>, next: Links, prev: Links, n: nat, to: Option<Chunk>)
    requires Trail(cells, next, prev, n) && cells != []
    ensures Trail(cells, next[cells[|cells| - 1].chunk := to], prev, n)
  {
    var next' := next[cells[|cells| - 1].chunk := to];
    forall i | 0 <= i < |cells| - 1 ensures Adjacent(cells[i], cells[i + 1], next', prev, n) {
      assert Adjacent(cells[i], cells[i + 1], next, prev, n);
    }
  }

  /** Nor what the link back of the first chunk is, or of a chunk not in the queue. */
  lemma FirstLinkFree(cells: seq<Addr>, next: Links, prev: Links, n: nat, c: Chunk, to: Option<Chunk>)
    requires Trail(cells, next, prev, n) && cells != [] && (c == cells[0].chunk || Elsewhere(cells, c))
    ensures Trail(cells, next, prev[c := to], n)
  {
    forall i | 0 <= i < |cells| - 1 ensures Adjacent(cells[i], cells[i + 1], next, prev[c := to], n) {
      assert Adjacent(cells[i], cells[i + 1], next, prev, n);
    }
  }

  /** The address before that of place `i`. */
  lemma BeforeIs<T>(s: State<T>, i: nat, n: nat)
    requires Trail(s.cells, s.mem.next, s.mem.prev, n) && n > 0 && 0 < i < |s.cells| && Accounted(s)
    ensures Before(s.mem, s.cells[i], n) == Some(s.cells[i - 1])
  {
    hide Accounted;
    Allocated(s, i);
    assert Adjacent(s.cells[i - 1], s.cells[i], s.mem.next, s.mem.prev, n);
  }

  // ------------------------------------------------------------ where the chunks are

  lemma Allocated<T>(s: State<T>, i: nat)
    requires Accounted(s) && i < |s.cells|
    ensures s.cells[i].chunk in s.mem.heap && Outside(s, s.cells[i].chunk) == 0
  {
    assert InCells(s.cells, s.cells[i].chunk);
  }

  lemma OutsideIsElsewhere<T>(s: State<T>, c: Chunk)
    requires Accounted(s) && Outside(s, c) > 0
    ensures Elsewhere(s.cells, c) && c in s.mem.heap && Outside(s, c) == 1
  {
    hide Outside;
    assert B(InCells(s.cells, c)) + Outside(s, c) == B(c in s.mem.heap);
  }

  lemma InLonger(cells: seq<Addr>, x: Addr, c: Chunk)
    ensures InCells(cells + [x], c) <==> InCells(cells, c) || x.chunk == c
  {
    assert (cells + [x])[|cells|] == x;
    if i :| 0 <= i < |cells| && cells[i].chunk == c {
      assert (cells + [x])[i] == cells[i];
    }
  }

  /** The chunk of the first cell stays in the queue, unless that was its last place. */
  lemma InRest(cells: seq<Addr>, next: Links, prev: Links, n: nat, c: Chunk)
    requires Trail(cells, next, prev, n) && |cells| > 1
    ensures InCells(cells[1..], c) <==> InCells(cells, c) && !(c == cells[0].chunk && cells[0].pos + 1 == n)
  {
    var rest := cells[1..];
    if i :| 0 <= i < |rest| && rest[i].chunk == c {
      assert cells[i + 1].chunk == c;
    }
    if i :| 0 <= i < |cells| && cells[i].chunk == c {
      assert Adjacent(cells[0], cells[1], next, prev, n);
      if i > 0 {
        assert rest[i - 1].chunk == c;
      } else if cells[0].pos + 1 < n {
        assert rest[0].chunk == c;
      }
    }
  }

  /** The chunk of the last cell stays in the queue, unless that was its first place. */
  lemma InMost(cells: seq<Addr>, next: Links, prev: Links, n: nat, c: Chunk)
    requires Trail(cells, next, prev, n) && |cells| > 1
    ensures var k := |cells| - 1; InCells(cells[..k], c) <==> InCells(cells, c) && !(c == cells[k].chunk && cells[k].pos == 0)
  {
    var k := |cells| - 1;
    var most := cells[..k];
    if i :| 0 <= i < |most| && most[i].chunk == c {
      assert cells[i].chunk == c;
    }
    if i :| 0 <= i < |cells| && cells[i].chunk == c {
      assert Adjacent(cells[k - 1], cells[k], next, prev, n);
      if i < k {
        assert most[i].chunk == c;
      } else if cells[k].pos > 0 {
        assert most[k - 1].chunk == c;
      }
    }
  }

  /** The same chunks in the same places. */
  lemma SameAccounts<T>(s: State<T>, t: State<T>)
    requires Accounted(s) && t.cells == s.cells && t.mem.heap == s.mem.heap && t.mem.spare == s.mem.spare
    requires forall c: Chunk :: WriterHolds(t.wr.pc, c) == WriterHolds(s.wr.pc, c) && ReaderHolds(t.rd, c) == ReaderHolds(s.rd, c)
    ensures Accounted(t)
  {
    forall c: Chunk ensures B(InCells(t.cells, c)) + Outside(t, c) == B(c in t.mem.heap) {
      assert B(InCells(s.cells, c)) + Outside(s, c) == B(c in s.mem.heap);
    }
  }

  // ------------------------------------------------------------ values

  lemma StoreAtBack<T>(cells: seq<Addr>, values: map<Addr, T>, items: seq<T>, v: T)
    requires Holding(cells, values, items) && Distinct(cells)
    ensures Holding(cells, values[cells[|items|] := v], items)
  {
  }

  lemma OneMoreItem<T>(cells: seq<Addr>, x: Addr, values: map<Addr, T>, items: seq<T>, v: T)
    requires Holding(cells, values, items) && cells[|items|] in values && values[cells[|items|]] == v
    ensures Holding(cells + [x], values, items + [v])
  {
  }

  lemma LastItem<T>(cells: seq<Addr>, values: map<Addr, T>, items: seq<T>)
    requires Holding(cells, values, items) && items != []
    ensures var k := |items| - 1;
      k < |cells| && cells[k] in values && values[cells[k]] == items[k] && Holding(cells, values, items[..k])
  {
  }

  // ------------------------------------------------------------ steps

  /** The outcome of a step next to that of the pipe whose cursors are positions: the call that
      takes effect, if any, is answered as there. */
  ghost predicate Follows<T>(o: Outcome<T>, y: Y.State<T>, n: nat) {
    && o.Ok?
    && match o.event
       case None => Inv(o.s, y, n)
       case Some(e) => Y.Step(y, e.call).Ok? && Y.Step(y, e.call).reply == e.reply && Inv(o.s, Y.Step(y, e.call).s, n)
  }

  /** The place of the terminator. */
  ghost function Rest<T>(y: Y.State<T>): nat
    requires Y.Inv(y)
  {
    |y.cells| - y.front
  }

  lemma PushedFollows<T>(s: State<T>, y: Y.State<T>, back: Addr, end: Addr, call: Written<T>, n: nat)
    requires Aimed(y, s.cells, CursorsOf(s)) && y.pc == Y.Idle && |s.cells| == Rest(y) + 2
    requires Trail(s.cells, s.mem.next, s.mem.prev, n) && Holding(s.cells, s.mem.values, y.cells[y.front..])
    requires s.cells[Rest(y)] in s.mem.values && s.mem.values[s.cells[Rest(y)]] == call.v
    requires back == s.cells[Rest(y) + 1] && end.pos < n && Adjacent(back, end, s.mem.next, s.mem.prev, n)
    requires end.pos > 0 || Elsewhere(s.cells, end.chunk)
    requires Head(s.rd, s.mem.next, s.cells, y) && Accounted(Pushed(s, back, end, call).s)
    ensures Follows(Pushed(s, back, end, call), y, n)
  {
    hide Accounted, Trail, Holding, Aimed, Adjacent;
    var t, cells := Pushed(s, back, end, call).s, s.cells + [end];
    TrailGrows(s.cells, end, s.mem.next, s.mem.prev, n);
    YInv(y, s.cells, CursorsOf(s));
    AimedBehind(y, s.cells, CursorsOf(s), cells);
    AimedWrite(y, cells, CursorsOf(s), call.v, call.incomplete);
    OneMoreItem(s.cells, end, s.mem.values, y.cells[y.front..], call.v);
    assert (y.cells + [call.v])[y.front..] == y.cells[y.front..] + [call.v];
  }

  lemma YInv<T>(y: Y.State<T>, cells: seq<Addr>, k: Quad<Addr>)
    requires Aimed(y, cells, k)
    ensures Y.Inv(y) && Distinct(cells)
  {
  }

  lemma WriteFollows<T>(s: State<T>, y: Y.State<T>, call: Written<T>, n: nat)
    requires Inv(s, y, n) && s.wr.pc.Ready? && n > 0
    ensures Follows(StartWrite(s, call, n), y, n)
  {
    hide Accounted, Trail, Holding, Aimed, Adjacent;
    YInv(y, s.cells, CursorsOf(s));
    var k, end := Rest(y), s.wr.end;
    Allocated(s, k);
    StoreAtBack(s.cells, s.mem.values, y.cells[y.front..], call.v);
    var t := s.(mem := s.mem.(values := s.mem.values[s.wr.back := call.v]));
    LastPlace(s.cells, s.mem.next, s.mem.prev, n);
    if end.pos + 1 != n {
      SameChunk(s.cells, s.mem.next, s.mem.prev, n);
      GrowsInChunk(s, Pushed(t, end, Cell(end.chunk, end.pos + 1), call).s);
      PushedFollows(t, y, end, Cell(end.chunk, end.pos + 1), call, n);
    } else {
      SameAccounts(s, StartWrite(s, call, n).s);
    }
  }

  lemma LastPlace(cells: seq<Addr>, next: Links, prev: Links, n: nat)
    requires Trail(cells, next, prev, n)
    ensures forall i | 0 <= i < |cells| :: cells[i].pos < n
  {
  }

  lemma SameChunk(cells: seq<Addr>, next: Links, prev: Links, n: nat)
    requires Trail(cells, next, prev, n) && cells != []
    ensures var a := cells[|cells| - 1]; a.pos + 1 < n ==> Adjacent(a, Cell(a.chunk, a.pos + 1), next, prev, n)
  {
  }

  lemma GrowsInChunk<T>(s: State<T>, t: State<T>)
    requires Accounted(s) && s.cells != [] && t.cells == s.cells + [Cell(s.cells[|s.cells| - 1].chunk, s.cells[|s.cells| - 1].pos + 1)]
    requires t.mem.heap == s.mem.heap && t.mem.spare == s.mem.spare && t.wr.pc == s.wr.pc && t.rd == s.rd
    ensures Accounted(t)
  {
    forall c: Chunk ensures B(InCells(t.cells, c)) + Outside(t, c) == B(c in t.mem.heap) {
      assert B(InCells(s.cells, c)) + Outside(s, c) == B(c in s.mem.heap);
      InLonger(s.cells, t.cells[|s.cells|], c);
      assert InCells(s.cells, s.cells[|s.cells| - 1].chunk);
    }
  }

  /** Taking the spare or a new chunk. */
  lemma TakeChunkFollows<T>(s: State<T>, y: Y.State<T>, malloc: Chunk, n: nat)
    requires Inv(s, y, n) && (s.wr.pc.NeedsChunk? || s.wr.pc.Allocating?)
    ensures Inv(if s.wr.pc.NeedsChunk? then TakeSpare(s) else Allocate(s, malloc), y, n)
  {
    hide Trail, Holding, Aimed, Accounted;
    var t := if s.wr.pc.NeedsChunk? then TakeSpare(s) else Allocate(s, malloc);
    TakeChunkAccounts(s, t, malloc);
  }

  lemma TakeChunkAccounts<T>(s: State<T>, t: State<T>, malloc: Chunk)
    requires Accounted(s) && (s.wr.pc.NeedsChunk? || s.wr.pc.Allocating?)
    requires t == if s.wr.pc.NeedsChunk? then TakeSpare(s) else Allocate(s, malloc)
    ensures Accounted(t)
  {
    hide InCells;
    forall c: Chunk ensures B(InCells(t.cells, c)) + Outside(t, c) == B(c in t.mem.heap) {
      assert B(InCells(s.cells, c)) + Outside(s, c) == B(c in s.mem.heap);
    }
  }

  lemma LinkNextFollows<T>(s: State<T>, y: Y.State<T>, n: nat)
    requires Inv(s, y, n) && s.wr.pc.HasChunk?
    ensures Follows(LinkNext(s), y, n)
  {
    hide Trail, Holding, Aimed, Accounted;
    var k := |s.cells| - 1;
    Allocated(s, k);
    LastLinkFree(s.cells, s.mem.next, s.mem.prev, n, Some(s.wr.pc.sc));
    SameAccounts(s, LinkNext(s).s);
  }

  lemma LinkPrevFollows<T>(s: State<T>, y: Y.State<T>, n: nat)
    requires Inv(s, y, n) && s.wr.pc.Linking?
    ensures Follows(LinkPrev(s), y, n)
  {
    hide Trail, Holding, Aimed, Accounted;
    OutsideIsElsewhere(s, s.wr.pc.sc);
    FirstLinkFree(s.cells, s.mem.next, s.mem.prev, n, s.wr.pc.sc, Some(s.wr.end.chunk));
    SameAccounts(s, LinkPrev(s).s);
  }

  lemma MoveEndFollows<T>(s: State<T>, y: Y.State<T>, n: nat)
    requires Inv(s, y, n) && n > 0 && s.wr.pc.Following?
    ensures Follows(MoveEnd(s), y, n)
  {
    hide Trail, Holding, Aimed, Accounted;
    YInv(y, s.cells, CursorsOf(s));
    Allocated(s, |s.cells| - 1);
    OutsideIsElsewhere(s, s.wr.pc.sc);
    var end := Cell(s.wr.pc.sc, 0);
    GrowsByHeld(s, Pushed(s, s.wr.back, end, s.wr.pc.call).s);
    PushedFollows(s, y, s.wr.back, end, s.wr.pc.call, n);
  }

  lemma GrowsByHeld<T>(s: State<T>, t: State<T>)
    requires Accounted(s) && s.wr.pc.Following? && t.cells == s.cells + [Cell(s.wr.pc.sc, 0)]
    requires t.mem == s.mem && t.wr.pc.Ready? && t.rd == s.rd
    ensures Accounted(t)
  {
    forall c: Chunk ensures B(InCells(t.cells, c)) + Outside(t, c) == B(c in t.mem.heap) {
      assert B(InCells(s.cells, c)) + Outside(s, c) == B(c in s.mem.heap);
      InLonger(s.cells, Cell(s.wr.pc.sc, 0), c);
    }
  }

  lemma UnwriteFollows<T>(s: State<T>, y: Y.State<T>, n: nat)
    requires Inv(s, y, n) && n > 0 && s.wr.pc.Ready?
    ensures Follows(StartUnwrite(s, n), y, n)
  {
    hide Trail, Holding, Aimed, Accounted, Before;
    YInv(y, s.cells, CursorsOf(s));
    AimedUnwrite(y, s.cells, CursorsOf(s));
    if s.wr.f != s.wr.back {
      BeforeIs(s, Rest(y), n);
      SameAccounts(s, StartUnwrite(s, n).s);
    }
  }

  lemma EndBackFollows<T>(s: State<T>, y: Y.State<T>, n: nat)
    requires Inv(s, y, n) && n > 0 && s.wr.pc.BackMoved?
    ensures Follows(EndBack(s, n), y, n)
  {
    hide Trail, Holding, Aimed, Accounted, Before;
    YInv(y, s.cells, CursorsOf(s));
    var k := Rest(y);
    BeforeIs(s, k + 1, n);
    if s.wr.end.pos > 0 {
      ShorterBack(s, y, n);
      EndLeavesCell(s, EndBack(s, n).s, n);
    } else {
      SameAccounts(s, EndBack(s, n).s);
    }
  }

  /** Without the cell behind the terminator. */
  lemma ShorterBack<T>(s: State<T>, y: Y.State<T>, n: nat)
    requires Aimed(y, s.cells, CursorsOf(s)) && |s.cells| == Rest(y) + 2
    requires Trail(s.cells, s.mem.next, s.mem.prev, n) && Holding(s.cells, s.mem.values, y.cells[y.front..])
    ensures var cells := DropLast(s.cells);
      && Aimed(y, cells, CursorsOf(s)) && Trail(cells, s.mem.next, s.mem.prev, n)
      && Holding(cells, s.mem.values, y.cells[y.front..])
  {
    hide Trail, Aimed;
    YInv(y, s.cells, CursorsOf(s));
    TrailWithin(s.cells, 0, |s.cells| - 1, s.mem.next, s.mem.prev, n);
    assert s.cells[0..|s.cells| - 1] == DropLast(s.cells);
    AimedBehind(y, s.cells, CursorsOf(s), DropLast(s.cells));
  }

  lemma EndLeavesCell<T>(s: State<T>, t: State<T>, n: nat)
    requires Accounted(s) && Trail(s.cells, s.mem.next, s.mem.prev, n) && |s.cells| > 1 && t.cells == DropLast(s.cells)
    requires t.mem == s.mem && t.rd == s.rd && s.wr.pc.BackMoved? && t.wr.pc.TakingValue?
    requires s.cells[|s.cells| - 1].pos > 0
    ensures Accounted(t)
  {
    hide Trail, InCells;
    forall c: Chunk ensures B(InCells(t.cells, c)) + Outside(t, c) == B(c in t.mem.heap) {
      assert B(InCells(s.cells, c)) + Outside(s, c) == B(c in s.mem.heap);
      InMost(s.cells, s.mem.next, s.mem.prev, n, c);
    }
  }

  lemma FreeEndFollows<T>(s: State<T>, y: Y.State<T>, n: nat)
    requires Inv(s, y, n) && n > 0 && s.wr.pc.FreeingEnd?
    ensures Follows(FreeEnd(s), y, n)
  {
    hide Trail, Holding, Aimed, Accounted;
    YInv(y, s.cells, CursorsOf(s));
    var k := Rest(y);
    Allocated(s, k);
    Allocated(s, k + 1);
    LinkToNext(s.cells, k, s.mem.next, s.mem.prev, n);
    ShorterBack(s, y, n);
    EndFreed(s, FreeEnd(s).s, n);
  }

  lemma LinkToNext(cells: seq<Addr>, i: nat, next: Links, prev: Links, n: nat)
    requires Trail(cells, next, prev, n) && i + 1 < |cells| && cells[i + 1].pos == 0
    ensures Follow(next, cells[i].chunk) == Some(cells[i + 1].chunk)
  {
    assert Adjacent(cells[i], cells[i + 1], next, prev, n);
  }

  lemma EndFreed<T>(s: State<T>, t: State<T>, n: nat)
    requires Accounted(s) && Trail(s.cells, s.mem.next, s.mem.prev, n) && |s.cells| > 1 && t.cells == DropLast(s.cells)
    requires t.mem.spare == s.mem.spare && t.rd == s.rd && s.wr.pc.FreeingEnd? && t.wr.pc.CuttingEnd?
    requires s.cells[|s.cells| - 1].pos == 0 && t.mem.heap == s.mem.heap - {s.cells[|s.cells| - 1].chunk}
    ensures Accounted(t)
  {
    hide Trail;
    forall c: Chunk ensures B(InCells(t.cells, c)) + Outside(t, c) == B(c in t.mem.heap) {
      assert B(InCells(s.cells, c)) + Outside(s, c) == B(c in s.mem.heap);
      InMost(s.cells, s.mem.next, s.mem.prev, n, c);
      assert InCells(s.cells, s.cells[|s.cells| - 1].chunk);
    }
  }

  lemma CutEndFollows<T>(s: State<T>, y: Y.State<T>, n: nat)
    requires Inv(s, y, n) && n > 0 && s.wr.pc.CuttingEnd?
    ensures Follows(CutEnd(s), y, n)
  {
    hide Trail, Holding, Aimed, Accounted;
    Allocated(s, |s.cells| - 1);
    LastLinkFree(s.cells, s.mem.next, s.mem.prev, n, None);
    SameAccounts(s, CutEnd(s).s);
  }

  lemma TakeValueFollows<T>(s: State<T>, y: Y.State<T>, n: nat)
    requires Inv(s, y, n) && n > 0 && s.wr.pc.TakingValue?
    ensures Follows(TakeValue(s), y, n)
  {
    hide Trail, Aimed, Accounted, Holding;
    YInv(y, s.cells, CursorsOf(s));
    var k := Rest(y);
    Allocated(s, k - 1);
    AimedUnwrite(y, s.cells, CursorsOf(s));
    LastItem(s.cells, s.mem.values, y.cells[y.front..]);
    assert y.cells[y.front..][k - 1] == y.cells[|y.cells| - 1];
    assert y.cells[..|y.cells| - 1][y.front..] == y.cells[y.front..][..k - 1];
    SameAccounts(s, TakeValue(s).s);
  }

  lemma FlushFollows<T>(s: State<T>, y: Y.State<T>, n: nat)
    requires Inv(s, y, n)
    ensures s.wr.pc.Ready? ==> Follows(StartFlush(s), y, n)
    ensures s.wr.pc.CasFailed? ==> Follows(Publish(s), y, n)
  {
    hide Trail, Holding, Aimed, Accounted;
    YInv(y, s.cells, CursorsOf(s));
    if s.wr.pc.Ready? {
      AimedFlush(y, s.cells, CursorsOf(s));
      SameAccounts(s, StartFlush(s).s);
    } else if s.wr.pc.CasFailed? {
      AimedPublish(y, s.cells, CursorsOf(s));
      SameAccounts(s, Publish(s).s);
    }
  }

  // The reader.

  lemma ReadFollows<T>(s: State<T>, y: Y.State<T>, n: nat)
    requires Inv(s, y, n) && s.rd.pc.Idle?
    ensures Follows(Check(s), y, n) && Follows(StartRead(s), y, n)
  {
    hide Trail, Holding, Aimed, Accounted;
    YInv(y, s.cells, CursorsOf(s));
    AimedPrefetch(y, s.cells, CursorsOf(s));
    SameAccounts(s, Check(s).s);
    SameAccounts(s, StartRead(s).s);
  }

  lemma TakeFrontFollows<T>(s: State<T>, y: Y.State<T>, n: nat)
    requires Inv(s, y, n) && n > 0 && s.rd.pc.Taking?
    ensures Follows(TakeFront(s, n), y, n)
  {
    hide Trail, Holding, Aimed, Accounted, Adjacent, Rear, Y.Inv, Y.Step, Outside;
    YInv(y, s.cells, CursorsOf(s));
    Behind(s, y, n);
    Allocated(s, 0);
    AimedPop(y, s.cells, CursorsOf(s));
    FirstItem(s.cells, s.mem.values, y.cells[y.front..]);
    assert y.cells[y.front..][1..] == y.cells[y.front + 1..];
    TrailWithin(s.cells, 1, |s.cells|, s.mem.next, s.mem.prev, n);
    assert s.cells[1..|s.cells|] == s.cells[1..];
    SecondCell(s.cells, s.mem.next, s.mem.prev, n);
    FrontLeavesCell(s, TakeFront(s, n).s, n);
    RearOfRest(s, n, Rest(y));
  }

  /** There are at least as many cells as items, and the terminator. */
  lemma Behind<T>(s: State<T>, y: Y.State<T>, n: nat)
    requires Inv(s, y, n)
    ensures Y.Inv(y) && Rest(y) >= 0 && |s.cells| > Rest(y)
    ensures Y.Prefetched(y) ==> Rest(y) > 0 && (TakingBack(s.wr.pc) ==> Rest(y) > 1)
  {
    hide Trail, Holding, Accounted, Rear, Head;
  }

  lemma RearOfRest<T>(s: State<T>, n: nat, k: nat)
    requires Rear(s.wr, s.mem, s.cells, k, n) && k > 0 && (TakingBack(s.wr.pc) ==> k > 1)
    ensures Rear(s.wr, s.mem, s.cells[1..], k - 1, n)
  {
  }

  lemma FirstItem<T>(cells: seq<Addr>, values: map<Addr, T>, items: seq<T>)
    requires Holding(cells, values, items) && items != []
    ensures cells[0] in values && values[cells[0]] == items[0] && Holding(cells[1..], values, items[1..])
  {
  }

  lemma SecondCell(cells: seq<Addr>, next: Links, prev: Links, n: nat)
    requires Trail(cells, next, prev, n) && |cells| > 1
    ensures if cells[0].pos + 1 < n then cells[1] == Cell(cells[0].chunk, cells[0].pos + 1)
            else cells[0].pos + 1 == n && cells[1].pos == 0 && Follow(next, cells[0].chunk) == Some(cells[1].chunk)
  {
    assert Adjacent(cells[0], cells[1], next, prev, n);
  }

  lemma FrontLeavesCell<T>(s: State<T>, t: State<T>, n: nat)
    requires Accounted(s) && Trail(s.cells, s.mem.next, s.mem.prev, n) && |s.cells| > 1 && t.cells == s.cells[1..]
    requires t.mem == s.mem && t.wr == s.wr && s.rd.pc.Taking? && t.rd.begin.chunk == s.cells[0].chunk
    requires t.rd.pc == if s.cells[0].pos + 1 == n then Leaving else Idle
    ensures Accounted(t)
  {
    hide Trail;
    forall c: Chunk ensures B(InCells(t.cells, c)) + Outside(t, c) == B(c in t.mem.heap) {
      assert B(InCells(s.cells, c)) + Outside(s, c) == B(c in s.mem.heap);
      InRest(s.cells, s.mem.next, s.mem.prev, n, c);
      assert InCells(s.cells, s.cells[0].chunk);
    }
  }

  lemma LeaveFollows<T>(s: State<T>, y: Y.State<T>, n: nat)
    requires Inv(s, y, n) && s.rd.pc.Leaving?
    ensures Follows(Leave(s), y, n)
  {
    hide Trail, Holding, Aimed, Accounted, Rear;
    OutsideIsElsewhere(s, s.rd.begin.chunk);
    SameAccounts(s, Leave(s).s);
  }

  lemma CutBeginFollows<T>(s: State<T>, y: Y.State<T>, n: nat)
    requires Inv(s, y, n) && s.rd.pc.Cutting?
    ensures Follows(CutBegin(s), y, n)
  {
    hide Trail, Holding, Aimed, Accounted;
    Allocated(s, 0);
    FirstLinkFree(s.cells, s.mem.next, s.mem.prev, n, s.rd.begin.chunk, None);
    SameAccounts(s, CutBegin(s).s);
  }

  /** The used-up chunk becomes the spare, and the spare it replaces is freed. */
  lemma SwapFollows<T>(s: State<T>, y: Y.State<T>, n: nat)
    requires Inv(s, y, n) && (s.rd.pc.Swapping? || s.rd.pc.Freeing?)
    ensures Follows(ReaderNext(s, n), y, n)
  {
    hide Trail, Holding, Aimed, Accounted;
    if s.rd.pc.Freeing? && s.rd.pc.cs.Some? {
      OutsideIsElsewhere(s, s.rd.pc.cs.value);
    }
    SwapAccounts(s, n);
  }

  lemma SwapAccounts<T>(s: State<T>, n: nat)
    requires Accounted(s) && (s.rd.pc.Swapping? || s.rd.pc.Freeing?)
    ensures ReaderNext(s, n).Ok? ==> Accounted(ReaderNext(s, n).s)
  {
    hide InCells;
    if ReaderNext(s, n).Ok? {
      var t := ReaderNext(s, n).s;
      forall c: Chunk ensures B(InCells(t.cells, c)) + Outside(t, c) == B(c in t.mem.heap) {
        assert B(InCells(s.cells, c)) + Outside(s, c) == B(c in s.mem.heap);
      }
    }
  }

  // ------------------------------------------------------------ runs

  lemma WriterNextFollows<T>(s: State<T>, y: Y.State<T>, malloc: Chunk, n: nat)
    requires Inv(s, y, n) && n > 0
    ensures Follows(WriterNext(s, malloc, n), y, n)
  {
    hide Inv, TakeSpare, Allocate, LinkNext, LinkPrev, MoveEnd, EndBack, FreeEnd, CutEnd, TakeValue, Publish, Y.Step;
    match s.wr.pc {
      case Ready =>
      case NeedsChunk(_) => TakeChunkFollows(s, y, malloc, n);
      case Allocating(_) => TakeChunkFollows(s, y, malloc, n);
      case HasChunk(_, _) => LinkNextFollows(s, y, n);
      case Linking(_, _) => LinkPrevFollows(s, y, n);
      case Following(_, _) => MoveEndFollows(s, y, n);
      case BackMoved => EndBackFollows(s, y, n);
      case FreeingEnd => FreeEndFollows(s, y, n);
      case CuttingEnd => CutEndFollows(s, y, n);
      case TakingValue => TakeValueFollows(s, y, n);
      case CasFailed => FlushFollows(s, y, n);
    }
  }

  lemma ReaderNextFollows<T>(s: State<T>, y: Y.State<T>, n: nat)
    requires Inv(s, y, n) && n > 0
    ensures Follows(ReaderNext(s, n), y, n)
  {
    hide Inv, TakeFront, Leave, CutBegin, Y.Step;
    match s.rd.pc {
      case Idle =>
      case Taking => TakeFrontFollows(s, y, n);
      case Leaving => LeaveFollows(s, y, n);
      case Cutting(_) => CutBeginFollows(s, y, n);
      case Swapping(_) => SwapFollows(s, y, n);
      case Freeing(_) => SwapFollows(s, y, n);
    }
  }

  /** One access from a good state: no fault, and a call that takes effect is answered as by the
      pipe whose cursors are positions. */
  lemma StepFollows<T>(s: State<T>, y: Y.State<T>, a: Action<T>, n: nat)
    requires Inv(s, y, n) && n > 0
    ensures Follows(Step(s, a, n), y, n)
  {
    hide Inv, StartWrite, StartUnwrite, StartFlush, WriterNext, Check, StartRead, ReaderNext, Y.Step;
    match a {
      case Write(v, incomplete) => if s.wr.pc.Ready? { WriteFollows(s, y, Written(v, incomplete), n); }
      case Unwrite => if s.wr.pc.Ready? { UnwriteFollows(s, y, n); }
      case Flush => if s.wr.pc.Ready? { FlushFollows(s, y, n); }
      case WriterStep(malloc) => WriterNextFollows(s, y, malloc, n);
      case CheckRead => if s.rd.pc.Idle? { ReadFollows(s, y, n); }
      case Read => if s.rd.pc.Idle? { ReadFollows(s, y, n); }
      case ReaderStep => ReaderNextFollows(s, y, n);
    }
  }

  /** `calls` are the calls in the order in which they took effect. */
  datatype Run<T> = Faulted | Ran(s: State<T>, calls: seq<Y.Action<T>>, replies: seq<Y.Reply<T>>)

  function Exec<T>(acts: seq<Action<T>>, n: nat): Run<T>
    requires n > 0
  {
    if acts == [] then Ran(Init(n), [], [])
    else
      match Exec(acts[..|acts| - 1], n)
      case Faulted => Faulted
      case Ran(s, calls, replies) =>
        match Step(s, acts[|acts| - 1], n)
        case Fault => Faulted
        case Ok(t, None) => Ran(t, calls, replies)
        case Ok(t, Some(e)) => Ran(t, calls + [e.call], replies + [e.reply])
  }

  lemma InitGood<T>(n: nat)
    requires n > 0
    ensures Inv(Init<T>(n), Y.Init<T>(), n)
  {
    hide Accounted;
    InitAccounts<T>(n);
  }

  lemma InitAccounts<T>(n: nat)
    requires n > 0
    ensures Accounted(Init<T>(n))
  {
    var s := Init<T>(n);
    assert s.cells[0].chunk == 0 && (n == 1 ==> s.cells[1].chunk == 1);
    assert InCells(s.cells, 0) && (n == 1 ==> InCells(s.cells, 1));
  }

  lemma {:induction false} EveryRunFollows<T>(acts: seq<Action<T>>, n: nat)
    requires n > 0
    ensures var run := Exec(acts, n);
      && run.Ran? && Y.Exec(run.calls).Ran? && Inv(run.s, Y.Exec(run.calls).s, n)
      && run.replies == Y.Exec(run.calls).replies
  {
    hide Inv, Step, Y.Step, Init, Y.Init;
    if acts == [] {
      InitGood<T>(n);
    } else {
      var before := acts[..|acts| - 1];
      EveryRunFollows(before, n);
      var run := Exec(before, n);
      StepFollows(run.s, Y.Exec(run.calls).s, acts[|acts| - 1], n);
      match Step(run.s, acts[|acts| - 1], n)
      case Ok(_, None) =>
      case Ok(_, Some(e)) => assert (run.calls + [e.call])[..|run.calls|] == run.calls;
    }
  }

  /**
   * However the accesses of reader and writer interleave, and whatever the allocator returns, no
   * access meets a chunk that is not allocated, a null link or a cell never written, and every
   * call is answered exactly as the abstract queue answers the calls in the order in which they
   * took effect: each value read is the value written there.
   */
  lemma {:induction false} EveryInterleavingOfAccessesRefinesTheQueue<T>(acts: seq<Action<T>>, n: nat)
    requires n > 0
    ensures Exec(acts, n).Ran?
    ensures Exec(acts, n).replies == Y.SpecExec(Exec(acts, n).calls).1
    ensures Y.Exec(Exec(acts, n).calls).Ran? && Y.Exec(Exec(acts, n).calls).s.got == Y.QueueAfter(Exec(acts, n).calls).taken
  {
    hide Inv, Step, Y.Step;
    EveryRunFollows(acts, n);
    Y.EveryInterleavingRefinesTheQueue(Exec(acts, n).calls);
  }

  /**
   * And every allocated chunk is in exactly one place: in the queue, spare, or in the hands of
   * writer or reader. So no chunk is freed twice, lost, or reused while it holds a cell of the queue.
   */
  lemma {:induction false} EveryChunkIsInOnePlace<T>(acts: seq<Action<T>>, n: nat, c: Chunk)
    requires n > 0
    ensures Exec(acts, n).Ran?
    ensures var s := Exec(acts, n).s; B(InCells(s.cells, c)) + Outside(s, c) == B(c in s.mem.heap)
  {
    hide Step, Y.Step, InCells, Outside;
    EveryRunFollows(acts, n);
  }

  // ------------------------------------------------------------ every call takes effect

  /** How many more steps the call of the writer may take. */
  function WriterWork<T>(pc: WriterPc<T>): nat {
    match pc
    case Ready => 0
    case NeedsChunk(_) => 5
    case Allocating(_) => 4
    case HasChunk(_, _) => 3
    case Linking(_, _) => 2
    case Following(_, _) => 1
    case BackMoved => 4
    case FreeingEnd => 3
    case CuttingEnd => 2
    case TakingValue => 1
    case CasFailed => 1
  }

  /** The call that has yet to take effect. */
  function Due<T>(pc: WriterPc<T>): Option<Y.Action<T>> {
    match pc
    case Ready => None
    case NeedsChunk(call) => Some(Y.Write(call.v, call.incomplete))
    case Allocating(call) => Some(Y.Write(call.v, call.incomplete))
    case HasChunk(call, _) => Some(Y.Write(call.v, call.incomplete))
    case Linking(call, _) => Some(Y.Write(call.v, call.incomplete))
    case Following(call, _) => Some(Y.Write(call.v, call.incomplete))
    case CasFailed => Some(Y.Publish)
    case _ => Some(Y.Unwrite)
  }

  function ReaderWork(pc: ReaderPc): nat {
    match pc
    case Idle => 0
    case Taking => 5
    case Leaving => 4
    case Cutting(_) => 3
    case Swapping(_) => 2
    case Freeing(_) => 1
  }

  /** The calls a step makes take effect. */
  function Took<T>(o: Outcome<T>): Option<Y.Action<T>>
    requires o.Ok?
  {
    match o.event case None => None case Some(e) => Some(e.call)
  }

  /** A call of the writer takes effect at once or is due; a read with a value to take goes on to take it. */
  lemma CallsAreDue<T>(s: State<T>, y: Y.State<T>, v: T, incomplete: bool, n: nat)
    requires Inv(s, y, n) && n > 0
    ensures s.wr.pc.Ready? ==>
      var o := Step(s, Write(v, incomplete), n);
      o.Ok? && (if o.s.wr.pc.Ready? then Took(o) else Due(o.s.wr.pc)) == Some(Y.Write(v, incomplete))
    ensures s.wr.pc.Ready? ==>
      var o := Step(s, Unwrite, n);
      o.Ok? && (if o.s.wr.pc.Ready? then Took(o) else Due(o.s.wr.pc)) == Some(Y.Unwrite)
    ensures s.wr.pc.Ready? ==> var o := Step(s, Flush, n); o.Ok? && Took(o) == Some(Y.Flush)
    ensures s.rd.pc.Idle? ==>
      var o := Step(s, Read, n);
      o.Ok? && if o.s.rd.pc.Taking? then Took(o) == Some(Y.CheckRead) else o.s.rd.pc.Idle? && Took(o) == Some(Y.Read)
  {
    hide Inv, Follows;
    StepFollows(s, y, Write(v, incomplete), n);
    StepFollows(s, y, Unwrite, n);
    FollowsOk(Step(s, Write(v, incomplete), n), y, n);
    FollowsOk(Step(s, Unwrite, n), y, n);
  }

  lemma FollowsOk<T>(o: Outcome<T>, y: Y.State<T>, n: nat)
    requires Follows(o, y, n)
    ensures o.Ok?
  {
  }

  /** Each further step of a call brings it nearer to its end, where the writer's call takes effect; the
      reader's takes effect when the value is taken. */
  lemma StepsAdvance<T>(s: State<T>, y: Y.State<T>, malloc: Chunk, n: nat)
    requires Inv(s, y, n) && n > 0
    ensures !s.wr.pc.Ready? && malloc !in s.mem.heap ==>
      var o := Step(s, WriterStep(malloc), n);
      && o.Ok? && WriterWork(o.s.wr.pc) < WriterWork(s.wr.pc)
      && if o.s.wr.pc.Ready? then Took(o) == Due(s.wr.pc) else Took(o) == None && Due(o.s.wr.pc) == Due(s.wr.pc)
    ensures !s.rd.pc.Idle? ==>
      var o := Step(s, ReaderStep, n);
      && o.Ok? && ReaderWork(o.s.rd.pc) < ReaderWork(s.rd.pc)
      && Took(o) == if s.rd.pc.Taking? then Some(Y.Read) else None
  {
    hide Inv, Follows;
    StepFollows(s, y, WriterStep(malloc), n);
    StepFollows(s, y, ReaderStep, n);
    FollowsOk(Step(s, WriterStep(malloc), n), y, n);
    FollowsOk(Step(s, ReaderStep, n), y, n);
  }

  lemma {:induction false} Above(heap: set<Chunk>) returns (c: Chunk)
    ensures forall x | x in heap :: x < c
    decreases |heap|
  {
    if heap == {} {
      c := 0;
    } else {
      var x :| x in heap;
      var rest := heap - {x};
      var above := Above(rest);
      c := if above <= x then x + 1 else above;
      forall y | y in heap ensures y < c {
        assert y == x || y in rest;
      }
    }
  }

  lemma {:induction false} ExecSnoc<T>(acts: seq<Action<T>>, a: Action<T>, n: nat)
    requires n > 0 && Exec(acts, n).Ran?
    ensures Exec(acts + [a], n) ==
      match Step(Exec(acts, n).s, a, n)
      case Fault => Faulted
      case Ok(t, None) => Ran(t, Exec(acts, n).calls, Exec(acts, n).replies)
      case Ok(t, Some(e)) => Ran(t, Exec(acts, n).calls + [e.call], Exec(acts, n).replies + [e.reply])
  {
    assert (acts + [a])[..|acts|] == acts;
  }

  /** From any state a run leads to, at most five steps of the writer finish its call, which then takes effect, once. */
  lemma {:induction false} EveryCallOfTheWriterFinishes<T>(acts: seq<Action<T>>, n: nat) returns (more: seq<Action<T>>)
    requires n > 0
    ensures Exec(acts, n).Ran? && Exec(acts + more, n).Ran? && Exec(acts + more, n).s.wr.pc.Ready?
    ensures |more| <= WriterWork(Exec(acts, n).s.wr.pc) <= 5 && forall a | a in more :: a.WriterStep?
    ensures Exec(acts + more, n).calls ==
      Exec(acts, n).calls + match Due(Exec(acts, n).s.wr.pc) case None => [] case Some(call) => [call]
    decreases if Exec(acts, n).Ran? then WriterWork(Exec(acts, n).s.wr.pc) else 0
  {
    hide Step, Inv, Exec;
    EveryRunFollows(acts, n);
    var run := Exec(acts, n);
    if run.s.wr.pc.Ready? {
      more := [];
      assert acts + more == acts && run.calls + [] == run.calls;
    } else {
      var malloc := Above(run.s.mem.heap);
      StepsAdvance(run.s, Y.Exec(run.calls).s, malloc, n);
      ExecSnoc(acts, WriterStep(malloc), n);
      var rest := EveryCallOfTheWriterFinishes(acts + [WriterStep(malloc)], n);
      more := [WriterStep(malloc)] + rest;
      assert acts + more == acts + [WriterStep(malloc)] + rest;
    }
  }
}

/** The queue underneath the pipe: elements in linked chunks of `n`, with one spare chunk. */
module YQueue {
  import opened Cells

  /** A chunk of memory for a fixed number of elements. */
  class Chunk<T(0)> {
    var values: seq<T>
    var prev: Chunk?<T>
    var next: Chunk?<T>

    constructor (n: nat)
      ensures |values| == n
    {
      var garbage: T := *;
      values := seq(n, _ => garbage);
      prev, next := null, null;
    }
  }

  ghost predicate Placed<T(0)>(cells: seq<Cell<Chunk<T>>>, n: nat, repr: set<Chunk<T>>) {
    && n > 0 && |cells| > 0
    && forall i | 0 <= i < |cells| :: cells[i].chunk in repr && cells[i].pos < n
  }

  /** The cell behind `a` is `b`: in the same chunk, or first in the chunk linked behind it. */
  ghost predicate Adjacent<T(0)>(a: Cell<Chunk<T>>, b: Cell<Chunk<T>>, n: nat)
    reads a.chunk, b.chunk
  {
    if a.pos + 1 < n then b == Cell(a.chunk, a.pos + 1)
    else b.pos == 0 && a.chunk.next == b.chunk && b.chunk.prev == a.chunk
  }

  ghost predicate Linked<T(0)>(cells: seq<Cell<Chunk<T>>>, n: nat, repr: set<Chunk<T>>)
    requires Placed(cells, n, repr)
    reads repr
  {
    forall i | 0 <= i < |cells| - 1 :: Adjacent(cells[i], cells[i + 1], n)
  }

  /** Each element is in its cell. */
  ghost predicate Stored<T(0)>(cells: seq<Cell<Chunk<T>>>, elements: seq<T>, n: nat, repr: set<Chunk<T>>)
    requires Placed(cells, n, repr)
    reads repr
  {
    && (forall c | c in repr :: |c.values| == n)
    && |elements| == |cells| - 1
    && forall i | 0 <= i < |elements| :: elements[i] == cells[i].chunk.values[cells[i].pos]
  }

  // What the operations do to the links and to the addresses.

  /** A chunk meets its first position only once, and its last position only at the end of its cells. */
  lemma ApartEnds<T(0)>(cells: seq<Cell<Chunk<T>>>, n: nat, repr: set<Chunk<T>>)
    requires Placed(cells, n, repr) && Apart(cells)
    ensures forall i | 0 < i < |cells| && cells[i].pos == 0 :: cells[i].chunk != cells[0].chunk
    ensures forall i | 0 <= i < |cells| - 1 && cells[i].pos + 1 == n :: cells[i].chunk != cells[|cells| - 1].chunk
    ensures cells[0].pos + 1 == n ==> Elsewhere(cells[1..|cells|], cells[0].chunk)
  {
  }

  lemma ChunkSize<T(0)>(cells: seq<Cell<Chunk<T>>>, elements: seq<T>, n: nat, repr: set<Chunk<T>>, c: Chunk<T>)
    requires Placed(cells, n, repr) && Stored(cells, elements, n, repr) && c in repr
    ensures |c.values| == n
  {
  }

  lemma StoredCount<T(0)>(cells: seq<Cell<Chunk<T>>>, elements: seq<T>, n: nat, repr: set<Chunk<T>>)
    requires Placed(cells, n, repr) && Stored(cells, elements, n, repr)
    ensures |elements| == |cells| - 1
  {
  }

  /** From a cell to the one before it and to the one behind it. */
  lemma Walk<T(0)>(cells: seq<Cell<Chunk<T>>>, n: nat, repr: set<Chunk<T>>, i: nat)
    requires Placed(cells, n, repr) && Linked(cells, n, repr) && i + 1 < |cells|
    ensures var a, b := cells[i], cells[i + 1];
      && a.chunk in repr && b.chunk in repr
      && (if b.pos > 0 then a == Cell(b.chunk, b.pos - 1) else b.chunk.prev == a.chunk && a.pos == n - 1)
      && (if a.pos + 1 < n then b == Cell(a.chunk, a.pos + 1) else a.chunk.next == b.chunk && b.pos == 0)
  {
    assert Adjacent(cells[i], cells[i + 1], n);
  }

  lemma LinkedAtBack<T(0)>(cells: seq<Cell<Chunk<T>>>, x: Cell<Chunk<T>>, n: nat, repr: set<Chunk<T>>)
    requires Placed(cells, n, repr) && Linked(cells, n, repr) && x.chunk in repr && x.pos < n
    requires Adjacent(cells[|cells| - 1], x, n)
    ensures Placed(cells + [x], n, repr) && Linked(cells + [x], n, repr)
  {
    var all := cells + [x];
    forall i | 0 <= i < |all| - 1 ensures Adjacent(all[i], all[i + 1], n) {
      assert i < |cells| - 1 ==> all[i] == cells[i] && all[i + 1] == cells[i + 1];
    }
  }

  lemma StoredAtBack<T(0)>(cells: seq<Cell<Chunk<T>>>, x: Cell<Chunk<T>>, elements: seq<T>, v: T, n: nat, repr: set<Chunk<T>>)
    requires Placed(cells, n, repr) && Stored(cells, elements, n, repr) && x.chunk in repr && x.pos < n
    requires v == cells[|cells| - 1].chunk.values[cells[|cells| - 1].pos]
    ensures Placed(cells + [x], n, repr) && Stored(cells + [x], elements + [v], n, repr)
  {
  }

  /** Dropping cells at either end. */
  lemma Shorter<T(0)>(cells: seq<Cell<Chunk<T>>>, lo: nat, hi: nat, elements: seq<T>, n: nat, repr: set<Chunk<T>>)
    requires Placed(cells, n, repr) && Linked(cells, n, repr) && Apart(cells) && lo < hi <= |cells|
    requires Stored(cells, elements, n, repr)
    ensures Placed(cells[lo..hi], n, repr) && Apart(cells[lo..hi])
    ensures Linked(cells[lo..hi], n, repr) && Stored(cells[lo..hi], elements[lo..hi - 1], n, repr)
  {
    var part := cells[lo..hi];
    forall i | 0 <= i < |part| - 1 ensures Adjacent(part[i], part[i + 1], n) {
      assert Adjacent(cells[lo + i], cells[lo + i + 1], n);
    }
  }

  class Queue<T(0)> {
    const n: nat
    var beginChunk: Chunk<T>
    var beginPos: nat
    var backChunk: Chunk?<T>
    var backPos: nat
    var endChunk: Chunk<T>
    var endPos: nat
    var spare: Chunk?<T>
    /** All cells from the first element to the place of the next push. */
    ghost var cells: seq<Cell<Chunk<T>>>
    /** The elements, first to last. */
    ghost var elements: seq<T>
    ghost var repr: set<Chunk<T>>

    ghost predicate Valid()
      reads this, repr
    {
      && Placed(cells, n, repr) && Apart(cells) && Linked(cells, n, repr) && Stored(cells, elements, n, repr)
      && (spare != null ==> spare in repr && Elsewhere<Chunk<T>>(cells, spare))
      && cells[0] == Cell(beginChunk, beginPos)
      && RearAt(cells)
    }

    /** Back and end are at the last two of these cells. */
    ghost predicate RearAt(cells: seq<Cell<Chunk<T>>>)
      reads this
    {
      && |cells| > 0 && cells[|cells| - 1] == Cell(endChunk, endPos)
      && (|cells| > 1 ==> backChunk != null && cells[|cells| - 2] == Cell(backChunk, backPos))
    }

    lemma RearOfRest(cells: seq<Cell<Chunk<T>>>)
      requires RearAt(cells) && |cells| > 1
      ensures RearAt(cells[1..|cells|])
    {
    }

    lemma ElementsCount()
      requires Valid()
      ensures |elements| == |cells| - 1
    {
    }

    twostate lemma LinksStay()
      requires cells == old(cells) && repr == old(repr) && Placed(cells, n, repr) && old(Linked(cells, n, repr))
      requires forall i | 0 <= i < |cells| - 1 && cells[i].pos + 1 == n :: cells[i].chunk.next == old(cells[i].chunk.next)
      requires forall i | 0 < i < |cells| && cells[i].pos == 0 :: cells[i].chunk.prev == old(cells[i].chunk.prev)
      ensures Linked(cells, n, repr)
    {
      forall i | 0 <= i < |cells| - 1 ensures Adjacent(cells[i], cells[i + 1], n) {
        assert old(Adjacent(cells[i], cells[i + 1], n));
      }
    }

    twostate lemma ElementsStay()
      requires cells == old(cells) && elements == old(elements) && repr == old(repr) && Placed(cells, n, repr)
      requires old(Stored(cells, elements, n, repr))
      requires forall c | c in repr :: c.values == old(c.values)
      ensures Stored(cells, elements, n, repr)
    {
    }

    constructor (n: nat)
      requires n > 0
      ensures Valid() && fresh(repr) && this.n == n && elements == []
    {
      this.n := n;
      var c := new Chunk<T>(n);
      beginChunk, beginPos := c, 0;
      backChunk, backPos := null, 0;
      endChunk, endPos := c, 0;
      spare := null;
      cells, elements, repr := [Cell(c, 0)], [], {c};
    }

    /** The address of the first element. */
    method FrontCell() returns (a: Cell<Chunk<T>>)
      requires Valid()
      ensures a == cells[0]
    {
      a := Cell(beginChunk, beginPos);
    }

    method BackCell() returns (a: Cell<Chunk<T>>)
      requires Valid() && |cells| > 1
      ensures a == cells[|cells| - 2]
    {
      a := Cell(backChunk, backPos);
    }

    method Front() returns (v: T)
      requires Valid() && |cells| > 1
      ensures v == elements[0]
    {
      v := beginChunk.values[beginPos];
    }

    method Back() returns (v: T)
      requires Valid() && |cells| > 1
      ensures v == elements[|elements| - 1]
    {
      v := backChunk.values[backPos];
    }

    method SetBack(v: T)
      requires Valid() && |cells| > 1
      modifies this, repr
      ensures Valid() && cells == old(cells) && repr == old(repr)
      ensures elements == old(elements[..|elements| - 1]) + [v]
    {
      backChunk.values := backChunk.values[backPos := v];
      elements := elements[..|elements| - 1] + [v];
      LinksStay();
    }

    /** The place of the next push moves into a new chunk. */
    method NextChunk()
      requires n > 0 && Placed(cells, n, repr) && Apart(cells) && Linked(cells, n, repr) && Stored(cells, elements, n, repr)
      requires (spare != null ==> spare in repr && Elsewhere<Chunk<T>>(cells, spare))
      requires cells[|cells| - 1] == Cell(endChunk, n - 1)
      modifies this`endChunk, this`endPos, this`spare, this`repr, repr
      ensures fresh(repr - old(repr)) && old(repr) <= repr && endPos == 0 && endChunk in repr && spare == null
      ensures old(spare) != null ==> endChunk == old(spare)
      ensures Elsewhere(cells, endChunk) && Placed(cells, n, repr)
      ensures Linked(cells, n, repr) && Stored(cells, elements, n, repr)
      ensures Adjacent(cells[|cells| - 1], Cell(endChunk, 0), n)
    {
      hide Apart, Linked, Stored;
      var sc := spare;
      spare := null;
      if sc != null {
        ChunkSize(cells, elements, n, repr, sc);
      } else {
        sc := new Chunk<T>(n);
      }
      endChunk.next := sc;
      sc.prev := endChunk;
      BackLinksStay(sc);
      repr := repr + {sc};
      endChunk := sc;
      endPos := 0;
    }

    twostate lemma BackLinksStay(new sc: Chunk<T>)
      requires old(n > 0 && Placed(cells, n, repr) && Apart(cells) && Linked(cells, n, repr) && Stored(cells, elements, n, repr))
      requires cells == old(cells) && elements == old(elements) && repr == old(repr)
      requires cells[|cells| - 1].pos == n - 1 && Elsewhere(cells, sc)
      requires forall c | c in repr :: c.values == old(c.values)
      requires forall c | c in repr && c != cells[|cells| - 1].chunk :: c.next == old(c.next)
      requires forall c | c in repr && c != sc :: c.prev == old(c.prev)
      requires |sc.values| == n
      ensures Placed(cells, n, repr + {sc}) && Linked(cells, n, repr + {sc}) && Stored(cells, elements, n, repr + {sc})
    {
      LinksStay();
      ElementsStay();
    }

    /** One more element at the back, in a cell not in use; the others keep their addresses. */
    method Push()
      requires Valid()
      modifies this, repr
      ensures Valid() && fresh(repr - old(repr)) && old(repr) <= repr
      ensures |cells| == old(|cells|) + 1 && cells[..|cells| - 1] == old(cells)
      ensures |elements| == old(|elements|) + 1 && elements[..|elements| - 1] == old(elements)
      ensures if old(endPos) + 1 == n then spare == null && (old(spare) != null ==> endChunk == old(spare)) else spare == old(spare)
    {
      hide Apart, Linked, Stored;
      backChunk, backPos := endChunk, endPos;
      endPos := endPos + 1;
      if endPos == n {
        NextChunk();
      }
      Extend();
    }

    ghost method Extend()
      requires Placed(cells, n, repr) && Apart(cells) && Linked(cells, n, repr) && Stored(cells, elements, n, repr)
      requires endChunk in repr && endPos < n && Adjacent(cells[|cells| - 1], Cell(endChunk, endPos), n)
      requires endPos > 0 || Elsewhere(cells, endChunk)
      modifies this`cells, this`elements
      ensures Placed(cells, n, repr) && Apart(cells) && Linked(cells, n, repr) && Stored(cells, elements, n, repr)
      ensures cells == old(cells) + [Cell(endChunk, endPos)]
      ensures |elements| == old(|elements|) + 1 && elements[..|elements| - 1] == old(elements)
    {
      var x, last := Cell(endChunk, endPos), cells[|cells| - 1];
      ApartAtBack(cells, x);
      LinkedAtBack(cells, x, n, repr);
      StoredAtBack(cells, x, elements, last.chunk.values[last.pos], n, repr);
      cells, elements := cells + [x], elements + [last.chunk.values[last.pos]];
    }

    ghost method Keep(lo: nat, hi: nat)
      requires Placed(cells, n, repr) && Apart(cells) && Linked(cells, n, repr) && Stored(cells, elements, n, repr)
      requires lo < hi <= |cells|
      modifies this`cells, this`elements
      ensures Placed(cells, n, repr) && Apart(cells) && Linked(cells, n, repr) && Stored(cells, elements, n, repr)
      ensures cells == old(cells)[lo..hi] && elements == old(elements)[lo..hi - 1] && |elements| == hi - 1 - lo
      ensures forall i | 0 < i < |cells| && cells[i].pos == 0 :: cells[i].chunk != cells[0].chunk
      ensures forall i | 0 <= i < |cells| - 1 && cells[i].pos + 1 == n :: cells[i].chunk != cells[|cells| - 1].chunk
    {
      Shorter(cells, lo, hi, elements, n, repr);
      cells, elements := cells[lo..hi], elements[lo..hi - 1];
      ApartEnds(cells, n, repr);
    }

    /** The place of the next push moves back to the end of the chunk before. */
    method PreviousChunk()
      requires Placed(cells, n, repr) && Linked(cells, n, repr) && Stored(cells, elements, n, repr)
      requires endChunk.prev != null && cells[|cells| - 1] == Cell(endChunk.prev, n - 1)
      requires forall i | 0 <= i < |cells| - 1 && cells[i].pos + 1 == n :: cells[i].chunk != cells[|cells| - 1].chunk
      modifies this`endChunk, this`endPos, repr
      ensures cells[|cells| - 1] == Cell(endChunk, endPos)
      ensures Linked(cells, n, repr) && Stored(cells, elements, n, repr)
    {
      hide Apart, Linked, Stored;
      endPos := n - 1;
      endChunk := endChunk.prev;
      endChunk.next := null;
      LinksStay();
      ElementsStay();
    }

    /** The front moves into the next chunk; the chunk used up becomes the spare. */
    method NextBegin()
      requires Placed(cells, n, repr) && Linked(cells, n, repr) && Stored(cells, elements, n, repr)
      requires beginChunk.next != null && cells[0] == Cell(beginChunk.next, 0) && beginChunk in repr
      requires forall i | 0 < i < |cells| && cells[i].pos == 0 :: cells[i].chunk != cells[0].chunk
      modifies this`beginChunk, this`beginPos, this`spare, repr
      ensures cells[0] == Cell(beginChunk, beginPos) && spare == old(beginChunk)
      ensures Linked(cells, n, repr) && Stored(cells, elements, n, repr)
    {
      hide Apart, Linked, Stored;
      spare := beginChunk;
      beginChunk := beginChunk.next;
      beginChunk.prev := null;
      beginPos := 0;
      LinksStay();
      ElementsStay();
    }

    /** The back moves to the element before. */
    method BackUp()
      requires Valid() && |cells| > 1
      modifies this`backChunk, this`backPos
      ensures |cells| > 2 ==> backChunk != null && cells[|cells| - 3] == Cell(backChunk, backPos)
    {
      hide Apart, Linked, Stored, Elsewhere;
      if |cells| > 2 {
        Walk(cells, n, repr, |cells| - 3);
      }
      if backPos > 0 {
        backPos := backPos - 1;
      } else {
        backPos := n - 1;
        backChunk := backChunk.prev;
      }
    }

    /** The end lets go of its cell; the one before is in the same chunk, or last in the chunk before. */
    ghost method DropEnd()
      requires Placed(cells, n, repr) && Apart(cells) && Linked(cells, n, repr) && Stored(cells, elements, n, repr)
      requires |cells| > 1 && cells[|cells| - 1] == Cell(endChunk, endPos) && cells[0] == Cell(beginChunk, beginPos)
      requires spare != null ==> spare in repr && Elsewhere<Chunk<T>>(cells, spare)
      modifies this`cells, this`elements
      ensures cells == old(cells)[..|old(cells)| - 1] && |elements| == |cells| - 1 && elements <= old(elements)
      ensures Placed(cells, n, repr) && Apart(cells) && Linked(cells, n, repr) && Stored(cells, elements, n, repr)
      ensures cells[0] == Cell(beginChunk, beginPos) && (spare != null ==> spare in repr && Elsewhere<Chunk<T>>(cells, spare))
      ensures forall i | 0 <= i < |cells| - 1 && cells[i].pos + 1 == n :: cells[i].chunk != cells[|cells| - 1].chunk
      ensures if endPos > 0 then cells[|cells| - 1] == Cell(endChunk, endPos - 1)
              else endChunk.prev != null && cells[|cells| - 1] == Cell(endChunk.prev, n - 1)
    {
      hide Apart, Linked, Stored, Elsewhere;
      var k := |cells| - 1;
      Walk(cells, n, repr, k - 1);
      if spare != null {
        ElsewhereWithin<Chunk<T>>(cells, 0, k, spare);
      }
      StoredCount(cells, elements, n, repr);
      Keep(0, k);
    }

    /** Takes back the last push. */
    method Unpush()
      requires Valid() && |cells| > 1
      modifies this, repr
      ensures Valid() && repr == old(repr)
      ensures cells == old(cells[..|cells| - 1])
      ensures elements == old(elements[..|elements| - 1])
    {
      hide Apart, Linked, Stored, Elsewhere;
      ElementsCount();
      BackUp();
      DropEnd();
      if endPos > 0 {
        endPos := endPos - 1;
      } else {
        PreviousChunk();
      }
    }

    /** The front lets go of its cell; the next one is behind it in the chunk, or first in the next chunk. */
    ghost method DropFront()
      requires Valid() && |cells| > 1
      modifies this`cells, this`elements
      ensures cells == old(cells)[1..] && elements == old(elements)[1..]
      ensures Placed(cells, n, repr) && Apart(cells) && Linked(cells, n, repr) && Stored(cells, elements, n, repr)
      ensures RearAt(cells) && beginChunk in repr && (spare != null ==> spare in repr && Elsewhere<Chunk<T>>(cells, spare))
      ensures forall i | 0 < i < |cells| && cells[i].pos == 0 :: cells[i].chunk != cells[0].chunk
      ensures if beginPos + 1 < n then cells[0] == Cell(beginChunk, beginPos + 1)
              else beginPos + 1 == n && beginChunk.next != null && cells[0] == Cell(beginChunk.next, 0) && Elsewhere(cells, beginChunk)
    {
      hide Apart, Linked, Stored, Elsewhere;
      Walk(cells, n, repr, 0);
      ApartEnds(cells, n, repr);
      RearOfRest(cells);
      if spare != null {
        ElsewhereWithin<Chunk<T>>(cells, 1, |cells|, spare);
      }
      ElementsCount();
      Keep(1, |cells|);
    }

    /** Removes the first element; a used-up chunk becomes the spare. */
    method Pop()
      requires Valid() && |cells| > 1
      modifies this, repr
      ensures Valid() && repr == old(repr)
      ensures cells == old(cells[1..])
      ensures elements == old(elements[1..])
      ensures spare == if old(beginPos) + 1 == n then old(beginChunk) else old(spare)
    {
      hide Apart, Linked, Stored, Elsewhere, Placed, Queue.RearAt;
      DropFront();
      beginPos := beginPos + 1;
      if beginPos == n {
        NextBegin();
      }
      FrontMoved();
    }

    /** The rear does not depend on the front. */
    twostate lemma FrontMoved()
      requires |old(cells)| > 1 && cells == old(cells)[1..] && old(RearAt(cells))
      requires endChunk == old(endChunk) && endPos == old(endPos) && backChunk == old(backChunk) && backPos == old(backPos)
      ensures RearAt(cells)
    {
    }

    /** No address is in use twice. */
    lemma AddressesDiffer()
      requires Valid()
      ensures forall i, j | 0 <= i < j < |cells| :: cells[i] != cells[j]
      ensures |elements| == |cells| - 1
    {
    }
  }
}

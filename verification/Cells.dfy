/** Addresses of queue cells: a chunk and a position in it. */
module Cells {

  datatype Cell<+C> = Cell(chunk: C, pos: nat)

  /** Cells of one chunk are as far apart in the queue as in the chunk, so no address occurs twice. */
  ghost predicate Apart<C>(cells: seq<Cell<C>>) {
    forall i, j | 0 <= i < j < |cells| && cells[i].chunk == cells[j].chunk :: cells[j].pos - cells[i].pos == j - i
  }

  ghost predicate Elsewhere<C>(cells: seq<Cell<C>>, c: C) {
    forall i | 0 <= i < |cells| :: cells[i].chunk != c
  }

  lemma ApartAtBack<C>(cells: seq<Cell<C>>, x: Cell<C>)
    requires Apart(cells) && |cells| > 0
    requires var last := cells[|cells| - 1]; x == Cell(last.chunk, last.pos + 1) || Elsewhere(cells, x.chunk)
    ensures Apart(cells + [x])
  {
    var all, k := cells + [x], |cells|;
    forall i, j | 0 <= i < j < |all| && all[i].chunk == all[j].chunk ensures all[j].pos - all[i].pos == j - i {
      if j == k && i < k - 1 {
        assert all[i] == cells[i] && all[k] == x;
        assert x.chunk == cells[k - 1].chunk;
      }
    }
  }

  lemma ElsewhereWithin<C>(cells: seq<Cell<C>>, lo: nat, hi: nat, c: C)
    requires lo <= hi <= |cells| && Elsewhere(cells, c)
    ensures Elsewhere(cells[lo..hi], c)
  {
  }
}

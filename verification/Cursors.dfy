/** Cursors as addresses of queue cells, against cursors as positions in the stream. */
module Cursors {
  import opened Basics
  import opened QueueSpec
  import Y = YPipeModel

  datatype Quad<A> = Quad(w: A, r: Option<A>, f: A, c: Option<A>)

  /** The address of a position; `addresses` starts with that of the front. */
  ghost predicate Points<A>(p: Option<A>, i: Option<nat>, front: nat, addresses: seq<A>) {
    match i
    case None => p == None
    case Some(k) => front <= k < front + |addresses| && p == Some(addresses[k - front])
  }

  /** Each cursor is the address of its position, and every cell from the front to the terminator has an address of its own. */
  ghost predicate Aimed<T, A>(m: Y.State<T>, addresses: seq<A>, k: Quad<A>) {
    && Y.Inv(m) && Distinct(addresses) && |addresses| > |m.cells| - m.front
    && k.w == addresses[m.w - m.front] && k.f == addresses[m.f - m.front]
    && Points(k.r, m.r, m.front, addresses) && Points(k.c, m.c, m.front, addresses)
  }

  /** Other addresses behind the terminator. */
  lemma AimedBehind<T, A>(m: Y.State<T>, addresses: seq<A>, k: Quad<A>, addresses': seq<A>)
    requires Aimed(m, addresses, k) && Distinct(addresses')
    requires addresses <= addresses' || (addresses' <= addresses && |addresses'| > |m.cells| - m.front)
    ensures Aimed(m, addresses', k)
  {
  }

  lemma AimedWrite<T, A>(m: Y.State<T>, addresses: seq<A>, k: Quad<A>, v: T, incomplete: bool)
    requires Aimed(m, addresses, k) && m.pc == Y.Idle && |addresses| > |m.cells| - m.front + 1
    ensures var o, back := Y.Step(m, Y.Write(v, incomplete)), addresses[|m.cells| - m.front + 1];
      o.Ok? && o.reply == Y.Silent && Aimed(o.s, addresses, k.(f := if incomplete then k.f else back))
  {
    Y.WriteRefines(m, v, incomplete);
  }

  lemma AimedUnwrite<T, A>(m: Y.State<T>, addresses: seq<A>, k: Quad<A>)
    requires Aimed(m, addresses, k) && m.pc == Y.Idle
    ensures k.f == addresses[|m.cells| - m.front] <==> m.f == |m.cells|
    ensures var o := Y.Step(m, Y.Unwrite);
      && o.Ok? && Aimed(o.s, addresses, k)
      && (m.f == |m.cells| ==> o == Y.Ok(m, Y.Value(None)))
      && (m.f < |m.cells| ==> o.reply == Y.Value(Some(m.cells[|m.cells| - 1])) && m.front < |m.cells|)
  {
    Y.UnwriteRefines(m);
  }

  lemma AimedFlush<T, A>(m: Y.State<T>, addresses: seq<A>, k: Quad<A>)
    requires Aimed(m, addresses, k) && m.pc == Y.Idle
    ensures var o := Y.Step(m, Y.Flush);
      && o.Ok?
      && (k.w == k.f ==> o == Y.Ok(m, Y.Told(true)))
      && (k.w != k.f && k.c == Some(k.w) ==>
            o.s.pc == Y.Idle && o.reply == Y.Told(true) && Aimed(o.s, addresses, k.(c := Some(k.f), w := k.f)))
      && (k.w != k.f && k.c != Some(k.w) ==> o == Y.Ok(m.(pc := Y.CasFailed), Y.Silent) && Aimed(o.s, addresses, k))
  {
    Y.FlushRefines(m);
  }

  lemma AimedPublish<T, A>(m: Y.State<T>, addresses: seq<A>, k: Quad<A>)
    requires Aimed(m, addresses, k) && m.pc == Y.CasFailed
    ensures k.c == None
    ensures var o := Y.Step(m, Y.Publish);
      o.Ok? && o.s.pc == Y.Idle && o.reply == Y.Told(false) && Aimed(o.s, addresses, k.(c := Some(k.f), w := k.f))
  {
    Y.FlushRefines(m);
  }

  /** The cursors after a prefetch by a reader whose front has the address `front`. */
  function Prefetch<A(==)>(k: Quad<A>, front: A): Quad<A> {
    if k.r != None && k.r != Some(front) then k
    else k.(r := k.c, c := if k.c == Some(front) then None else k.c)
  }

  lemma AimedPrefetch<T, A>(m: Y.State<T>, addresses: seq<A>, k: Quad<A>)
    requires Aimed(m, addresses, k)
    ensures var k', s := Prefetch(k, addresses[0]), Y.Prefetch(m);
      && s.pc == m.pc && Aimed(s, addresses, k')
      && (Y.Prefetched(s) <==> k'.r != None && k'.r != Some(addresses[0]))
      && (Y.Prefetched(s) ==> m.front < |m.cells|)
  {
  }

  lemma AimedPop<T, A>(m: Y.State<T>, addresses: seq<A>, k: Quad<A>)
    requires Aimed(m, addresses, k) && Y.Prefetched(m)
    ensures m.front < |m.cells|
    ensures var o := Y.Step(m, Y.Read);
      && o == Y.Ok(m.(front := m.front + 1, got := m.got + [m.cells[m.front]]), Y.Value(Some(m.cells[m.front])))
      && Aimed(o.s, addresses[1..], k)
  {
    Y.ReadRefines(m);
  }

  /** The queue holds the values not yet popped and the terminator, between calls. */
  ghost predicate Tied<T, A>(m: Y.State<T>, elements: seq<T>, addresses: seq<A>, k: Quad<A>) {
    && Aimed(m, addresses, k) && m.pc == Y.Idle
    && |elements| == |m.cells| - m.front + 1 && |addresses| == |elements| + 1
    && elements[..|elements| - 1] == m.cells[m.front..]
  }

  lemma TiedWrite<T, A>(m: Y.State<T>, elements: seq<T>, addresses: seq<A>, k: Quad<A>,
                        v: T, incomplete: bool, elements': seq<T>, addresses': seq<A>)
    requires Tied(m, elements, addresses, k) && Distinct(addresses')
    requires |elements'| == |elements| + 1 && elements'[..|elements|] == elements[..|elements| - 1] + [v]
    requires |addresses'| == |addresses| + 1 && addresses'[..|addresses|] == addresses
    ensures Y.Step(m, Y.Write(v, incomplete)).Ok?
    ensures Tied(Y.Step(m, Y.Write(v, incomplete)).s, elements', addresses',
                 k.(f := if incomplete then k.f else addresses'[|elements'| - 1]))
  {
    AimedBehind(m, addresses, k, addresses');
    AimedWrite(m, addresses', k, v, incomplete);
    assert elements'[..|elements'| - 1] == (m.cells + [v])[m.front..];
  }

  lemma TiedUnwrite<T, A>(m: Y.State<T>, elements: seq<T>, addresses: seq<A>, k: Quad<A>)
    requires Tied(m, elements, addresses, k)
    ensures Y.Step(m, Y.Unwrite).Ok?
    ensures k.f == addresses[|elements| - 1] ==> Y.Step(m, Y.Unwrite) == Y.Ok(m, Y.Value(None))
    ensures k.f != addresses[|elements| - 1] ==>
      && |elements| > 1 && Y.Step(m, Y.Unwrite).reply == Y.Value(Some(elements[|elements| - 2]))
      && Tied(Y.Step(m, Y.Unwrite).s, elements[..|elements| - 1], addresses[..|addresses| - 1], k)
  {
    AimedUnwrite(m, addresses, k);
    if k.f != addresses[|elements| - 1] {
      var s := Y.Step(m, Y.Unwrite).s;
      AimedBehind(s, addresses, k, addresses[..|addresses| - 1]);
      assert elements[|elements| - 2] == elements[..|elements| - 1][|elements| - 2] == m.cells[|m.cells| - 1];
      assert elements[..|elements| - 1][..|elements| - 2] == s.cells[s.front..];
    }
  }

  lemma TiedFlush<T, A>(m: Y.State<T>, elements: seq<T>, addresses: seq<A>, k: Quad<A>)
    requires Tied(m, elements, addresses, k)
    ensures k.w == k.f ==> Y.Step(m, Y.Flush) == Y.Ok(m, Y.Told(true))
    ensures k.w != k.f && k.c == Some(k.w) ==>
      var o := Y.Step(m, Y.Flush);
      o.Ok? && o.reply == Y.Told(true) && Tied(o.s, elements, addresses, k.(c := Some(k.f), w := k.f))
    ensures k.w != k.f && k.c != Some(k.w) ==>
      var o := Y.Step(m, Y.Flush);
      && o.Ok? && o.s.pc == Y.CasFailed
      && Y.Step(o.s, Y.Publish).Ok? && Y.Step(o.s, Y.Publish).reply == Y.Told(false)
      && Tied(Y.Step(o.s, Y.Publish).s, elements, addresses, k.(c := Some(k.f), w := k.f))
  {
    AimedFlush(m, addresses, k);
    if k.w != k.f && k.c != Some(k.w) {
      AimedPublish(Y.Step(m, Y.Flush).s, addresses, k);
    }
  }

  lemma TiedCheckRead<T, A>(m: Y.State<T>, elements: seq<T>, addresses: seq<A>, k: Quad<A>)
    requires Tied(m, elements, addresses, k)
    ensures var front, s := Some(addresses[0]), Y.Prefetch(m);
      if k.r != front && k.r != None then s == m && Y.Prefetched(m)
      else
        && (Y.Prefetched(s) <==> k.c != front && k.c != None)
        && Tied(s, elements, addresses, k.(r := k.c, c := if k.c == front then None else k.c))
  {
    AimedPrefetch(m, addresses, k);
  }

  lemma TiedPop<T, A>(m: Y.State<T>, elements: seq<T>, addresses: seq<A>, k: Quad<A>)
    requires Tied(m, elements, addresses, k) && Y.Prefetched(m)
    ensures |elements| > 1 && m.front < |m.cells| && elements[0] == m.cells[m.front]
    ensures Tied(m.(front := m.front + 1, got := m.got + [elements[0]]), elements[1..], addresses[1..], k)
  {
    AimedPop(m, addresses, k);
    assert elements[0] == elements[..|elements| - 1][0];
    assert elements[1..][..|elements| - 2] == m.cells[m.front + 1..];
  }
}

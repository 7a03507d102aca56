/** The lock-free pipe as an object. */
module YPipe {
  import opened QueueSpec
  import opened Cells
  import opened Cursors
  import Y = YPipeModel
  import YQ = YQueue

  /** What flushing and reading look like to the users of the pipe. */
  lemma FlushSeen<T>(m: Y.State<T>)
    requires Y.Inv(m) && m.pc == Y.Idle
    ensures var o, q := Y.Step(m, Y.Flush), Y.Abs(m).q;
      && o.Ok? && Y.Inv(o.s)
      && (o.reply == Y.Told(true) ==> q.FlushFindsReaderAwake() && Y.Abs(o.s).q == q.Flush())
      && (o.s.pc == Y.CasFailed ==>
            var p := Y.Step(o.s, Y.Publish);
            !q.FlushFindsReaderAwake() && p.Ok? && Y.Inv(p.s) && Y.Abs(p.s).q == q.Flush())
  {
    Y.FlushRefines(m);
    Y.FlushRefines(Y.Step(m, Y.Flush).s);
  }

  lemma ReadSeen<T>(m: Y.State<T>)
    requires Y.Inv(m) && m.pc == Y.Idle
    ensures var p, q := Y.Prefetch(m), Y.Abs(m).q;
      && Y.Inv(p) && Y.Abs(p).q == q.CheckRead() && (Y.Prefetched(p) <==> q.flushed != [])
    ensures var o, q := Y.Step(m, Y.Read), Y.Abs(m).q;
      && o.Ok? && Y.Inv(o.s) && Y.Abs(o.s).q == q.Read()
      && o.reply == Y.Value(if q.flushed == [] then None else Some(q.flushed[0]))
  {
    Y.ReadRefines(m);
  }

  class Pipe<T(0)> {
    const queue: YQ.Queue<T>
    /** First cell not flushed, first cell not prefetched, end of the complete items. */
    var w: Cell<YQ.Chunk<T>>
    var r: Option<Cell<YQ.Chunk<T>>>
    var f: Cell<YQ.Chunk<T>>
    /** The shared cursor; None marks a sleeping reader. */
    var c: Option<Cell<YQ.Chunk<T>>>
    /** The pipe with positions in the stream instead of addresses. */
    ghost var model: Y.State<T>

    ghost predicate Valid()
      reads this, queue, queue.repr
      ensures Valid() ==> Y.Inv(model) && model.pc == Y.Idle
    {
      queue.Valid() && Tied(model, queue.elements, queue.cells, Quad(w, r, f, c))
    }

    /** Everything the pipe consists of. */
    ghost function Footprint(): set<object>
      reads this, queue
    {
      {this, queue} + queue.repr
    }

    /** The pipe as its users see it. */
    ghost function Items(): Queue<T>
      reads this
      requires Y.Inv(model)
    {
      Y.Abs(model).q
    }

    constructor (n: nat)
      requires n > 0
      ensures Valid() && fresh(queue) && fresh(queue.repr) && model == Y.Init() && Items() == EmptyQueue()
    {
      var q := new YQ.Queue<T>(n);
      q.Push();
      var back := q.BackCell();
      queue := q;
      w, f, r, c := back, back, Some(back), Some(back);
      model := Y.Init();
      new;
      queue.AddressesDiffer();
    }

    method Write(v: T, incomplete: bool)
      requires Valid()
      modifies Footprint()
      ensures Valid() && fresh(Footprint() - old(Footprint())) && old(Footprint()) <= Footprint()
      ensures model == Y.Step(old(model), Y.Write(v, incomplete)).s
      ensures Items() == old(Items()).Write(v, incomplete)
    {
      hide YQ.Queue.Valid, Tied, Y.Step, Y.Inv;
      Y.WriteRefines(model, v, incomplete);
      queue.AddressesDiffer();
      TiedLengths();
      ghost var elements, cells := queue.elements, queue.cells;
      queue.SetBack(v);
      queue.Push();
      queue.AddressesDiffer();
      TiedWrite(model, elements, cells, Quad(w, r, f, c), v, incomplete, queue.elements, queue.cells);
      if !incomplete {
        f := queue.BackCell();
      }
      model := Y.Step(model, Y.Write(v, incomplete)).s;
    }

    lemma TiedLengths()
      requires Valid()
      ensures |queue.cells| == |queue.elements| + 1 && |queue.elements| >= 1
    {
    }

    method Unwrite() returns (v: Option<T>)
      requires Valid()
      modifies Footprint()
      ensures Valid() && Footprint() == old(Footprint())
      ensures Y.Step(old(model), Y.Unwrite) == Y.Ok(model, Y.Value(v))
      ensures Items() == old(Items()).Unwrite()
      ensures v == if old(Items()).partial == [] then None else Some(old(Items()).partial[|old(Items()).partial| - 1])
    {
      hide YQ.Queue.Valid, Tied, Y.Step, Y.Inv;
      Y.UnwriteRefines(model);
      TiedLengths();
      TiedUnwrite(model, queue.elements, queue.cells, Quad(w, r, f, c));
      var back := queue.BackCell();
      if f == back {
        return None;
      }
      queue.Unpush();
      var last := queue.Back();
      v := Some(last);
      model := Y.Step(model, Y.Unwrite).s;
    }

    /** False if the reader sleeps: then the cursor is stored plainly, in a second step. */
    method Flush() returns (awake: bool)
      requires Valid()
      modifies this
      ensures Valid() && Footprint() == old(Footprint())
      ensures var o := Y.Step(old(model), Y.Flush);
        if awake then o == Y.Ok(model, Y.Told(true))
        else o.Ok? && o.s.pc == Y.CasFailed && Y.Step(o.s, Y.Publish) == Y.Ok(model, Y.Told(false))
      ensures Items() == old(Items()).Flush() && awake == old(Items()).FlushFindsReaderAwake()
    {
      hide YQ.Queue.Valid, Tied, Y.Step, Y.Inv, Y.Abs;
      FlushSeen(model);
      TiedFlush(model, queue.elements, queue.cells, Quad(w, r, f, c));
      if w == f {
        return true;
      }
      ghost var o := Y.Step(model, Y.Flush);
      if c != Some(w) {
        c := Some(f);
        w := f;
        model := Y.Step(o.s, Y.Publish).s;
        return false;
      }
      c := Some(f);
      w := f;
      model := o.s;
      return true;
    }

    method CheckRead() returns (ok: bool)
      requires Valid()
      modifies this
      ensures Valid() && Footprint() == old(Footprint())
      ensures model == Y.Prefetch(old(model)) && ok == Y.Prefetched(model)
      ensures Items() == old(Items()).CheckRead() && ok == (old(Items()).flushed != [])
    {
      hide YQ.Queue.Valid, Tied, Y.Step, Y.Prefetch, Y.Prefetched, Y.Inv, Y.Abs;
      ReadSeen(model);
      TiedLengths();
      TiedCheckRead(model, queue.elements, queue.cells, Quad(w, r, f, c));
      var front := queue.FrontCell();
      if r != Some(front) && r != None {
        return true;
      }
      r := c;
      if c == Some(front) {
        c := None;
      }
      ok := !(r == Some(front) || r == None);
      model := Y.Prefetch(model);
    }

    method Read() returns (v: Option<T>)
      requires Valid()
      modifies Footprint()
      ensures Valid() && Footprint() == old(Footprint())
      ensures Y.Step(old(model), Y.Read) == Y.Ok(model, Y.Value(v))
      ensures Items() == old(Items()).Read()
      ensures v == if old(Items()).flushed == [] then None else Some(old(Items()).flushed[0])
    {
      hide YQ.Queue.Valid, Tied, Y.Prefetch, Y.Prefetched, Y.Inv, Y.Abs;
      ReadSeen(model);
      var ok := CheckRead();
      if !ok {
        return None;
      }
      TiedPop(model, queue.elements, queue.cells, Quad(w, r, f, c));
      TiedLengths();
      var first := queue.Front();
      queue.Pop();
      v := Some(first);
      model := model.(front := model.front + 1, got := model.got + [first]);
    }

    /** The first item of a pipe that has one. */
    method Probe() returns (v: T)
      requires Valid() && Items().flushed != []
      modifies this
      ensures Valid() && Footprint() == old(Footprint())
      ensures Items() == old(Items()) && v == Items().flushed[0]
    {
      hide YQ.Queue.Valid, Tied;
      var ok := CheckRead();
      assert ok;
      TiedPop(model, queue.elements, queue.cells, Quad(w, r, f, c));
      TiedLengths();
      v := queue.Front();
    }
  }
}

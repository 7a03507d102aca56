/** The lock-free pipe with its reader and its writer interleaved at every access to the
    shared cursor `c`. Cursors are positions in the stream of pushed values; `YPipeMemoryTheorems`
    proves that the pipe with addresses, chunks and links answers as this one does. */
module YPipeModel {
  import opened QueueSpec

  /** The writer is between calls, or its compare-and-swap has just failed and its plain
      store into `c` is still to come. */
  datatype WriterPc = Idle | CasFailed

  /** `cells` are the pushed values (the terminator is the cell after the last), `front` the
      next cell to pop, `w`, `f` and `r` the private cursors, `c` the shared one (None is
      the NULL that marks a sleeping reader) and `got` what the reader was handed. */
  datatype State<T> = State(cells: seq<T>, front: nat, w: nat, f: nat, r: Option<nat>, c: Option<nat>,
                            pc: WriterPc, got: seq<T>)

  datatype Action<T> = Write(v: T, incomplete: bool) | Unwrite | Flush | Publish | CheckRead | Read

  /** What the caller of an action is told. */
  datatype Reply<T> = Silent | Told(ok: bool) | Value(v: Option<T>)

  /** Fault stands for a read of a cell the writer has not pushed, or for a plain store
      into `c` that would overwrite something the reader put there. */
  datatype Outcome<T> = Fault | Ok(s: State<T>, reply: Reply<T>)

  function Init<T>(): State<T> {
    State([], 0, 0, 0, Some(0), Some(0), Idle, [])
  }

  function Prefetch<T>(s: State<T>): State<T> {
    if s.r.Some? && s.r.value != s.front then s
    else s.(r := s.c, c := if s.c == Some(s.front) then None else s.c)
  }

  predicate Prefetched<T>(s: State<T>) {
    s.r.Some? && s.r.value != s.front
  }

  function Step<T>(s: State<T>, a: Action<T>): Outcome<T> {
    match a
    case Write(v, incomplete) =>
      if s.pc != Idle then Ok(s, Silent)
      else
        var cells := s.cells + [v];
        Ok(s.(cells := cells, f := if incomplete then s.f else |cells|), Silent)
    case Unwrite =>
      if s.pc != Idle then Ok(s, Silent)
      else if s.f == |s.cells| then Ok(s, Value(None))
      else if s.cells == [] then Fault
      else Ok(s.(cells := s.cells[..|s.cells| - 1]), Value(Some(s.cells[|s.cells| - 1])))
    case Flush =>
      if s.pc != Idle then Ok(s, Silent)
      else if s.w == s.f then Ok(s, Told(true))
      else if s.c == Some(s.w) then Ok(s.(c := Some(s.f), w := s.f), Told(true))
      else Ok(s.(pc := CasFailed), Silent)
    case Publish =>
      if s.pc != CasFailed then Ok(s, Silent)
      else if s.c.Some? then Fault
      else Ok(s.(c := Some(s.f), w := s.f, pc := Idle), Told(false))
    case CheckRead =>
      var p := Prefetch(s);
      Ok(p, Told(Prefetched(p)))
    case Read =>
      var p := Prefetch(s);
      if !Prefetched(p) then Ok(p, Value(None))
      else if p.front >= |p.cells| then Fault
      else Ok(p.(front := p.front + 1, got := p.got + [p.cells[p.front]]), Value(Some(p.cells[p.front])))
  }

  /** The same actions on the abstract queue; `publishing` remembers a flush that found
      the reader asleep and takes effect at the store. */
  datatype SpecState<T> = SpecState(q: Queue<T>, publishing: bool)

  function SpecStep<T>(s: SpecState<T>, a: Action<T>): (SpecState<T>, Reply<T>) {
    match a
    case Write(v, incomplete) =>
      if s.publishing then (s, Silent) else (s.(q := s.q.Write(v, incomplete)), Silent)
    case Unwrite =>
      if s.publishing then (s, Silent)
      else (s.(q := s.q.Unwrite()), Value(if s.q.partial == [] then None else Some(s.q.partial[|s.q.partial| - 1])))
    case Flush =>
      if s.publishing then (s, Silent)
      else if s.q.FlushFindsReaderAwake() then (s.(q := s.q.Flush()), Told(true))
      else (s.(publishing := true), Silent)
    case Publish =>
      if s.publishing then (SpecState(s.q.Flush(), false), Told(false)) else (s, Silent)
    case CheckRead => (s.(q := s.q.CheckRead()), Told(s.q.flushed != []))
    case Read => (s.(q := s.q.Read()), Value(if s.q.flushed == [] then None else Some(s.q.flushed[0])))
  }

  ghost predicate Inv<T>(s: State<T>) {
    && s.front <= s.w <= s.f <= |s.cells|
    && (s.c == Some(s.w) || s.c == None)
    && (s.c == None ==> s.front == s.w)
    && (s.r.Some? ==> s.front <= s.r.value <= s.w)
    && (s.pc == CasFailed ==> s.c == None && s.w < s.f)
    && s.got == s.cells[..s.front]
  }

  ghost function Abs<T>(s: State<T>): SpecState<T>
    requires Inv(s)
  {
    SpecState(Queue(s.got, s.cells[s.front..s.w], s.cells[s.w..s.f], s.cells[s.f..], s.c == None),
              s.pc == CasFailed)
  }

  ghost predicate Refines<T>(s: State<T>, a: Action<T>)
    requires Inv(s)
  {
    && Step(s, a).Ok? && Inv(Step(s, a).s)
    && (Abs(Step(s, a).s), Step(s, a).reply) == SpecStep(Abs(s), a)
  }

  lemma WriteRefines<T>(s: State<T>, v: T, incomplete: bool)
    requires Inv(s) && s.pc == Idle
    ensures Refines(s, Write(v, incomplete))
  {
    var t := s.cells + [v];
    assert t[..s.front] == s.cells[..s.front];
    assert t[s.front..s.w] == s.cells[s.front..s.w];
    if incomplete {
      assert t[s.w..s.f] == s.cells[s.w..s.f];
      assert t[s.f..] == s.cells[s.f..] + [v];
    } else {
      assert t[s.w..|t|] == s.cells[s.w..s.f] + s.cells[s.f..] + [v];
      assert t[|t|..] == [];
    }
  }

  lemma UnwriteRefines<T>(s: State<T>)
    requires Inv(s) && s.pc == Idle
    ensures Refines(s, Unwrite)
  {
    if s.f < |s.cells| {
      var t := s.cells[..|s.cells| - 1];
      assert t[..s.front] == s.cells[..s.front];
      assert t[s.front..s.w] == s.cells[s.front..s.w];
      assert t[s.w..s.f] == s.cells[s.w..s.f];
      assert t[s.f..] == s.cells[s.f..][..|s.cells| - s.f - 1];
    }
  }

  lemma FlushRefines<T>(s: State<T>)
    requires Inv(s)
    ensures Refines(s, Flush) && Refines(s, Publish)
  {
    assert s.cells[s.w..s.f] == [] <==> s.w == s.f;
    assert s.cells[s.front..s.w] + s.cells[s.w..s.f] == s.cells[s.front..s.f];
    assert s.cells[s.f..s.f] == [];
  }

  lemma ReadRefines<T>(s: State<T>)
    requires Inv(s)
    ensures Refines(s, CheckRead) && Refines(s, Read)
  {
    assert s.cells[s.front..s.w] == [] <==> s.front == s.w;
    if s.front < s.w {
      assert s.cells[s.front..s.w][1..] == s.cells[s.front + 1..s.w];
      assert s.cells[..s.front + 1] == s.cells[..s.front] + [s.cells[s.front]];
    }
  }

  /** One step from a good state: no fault, the cursors stay ordered with `c` equal to `w`
      or NULL, and caller and abstract state see exactly what the queue prescribes. */
  lemma StepRefines<T>(s: State<T>, a: Action<T>)
    requires Inv(s)
    ensures Refines(s, a)
  {
    match a
    case Write(v, incomplete) => if s.pc == Idle { WriteRefines(s, v, incomplete); }
    case Unwrite => if s.pc == Idle { UnwriteRefines(s); }
    case Flush => FlushRefines(s);
    case Publish => FlushRefines(s);
    case CheckRead => ReadRefines(s);
    case Read => ReadRefines(s);
  }

  datatype Run<T> = Faulted | Ran(s: State<T>, replies: seq<Reply<T>>)

  function Exec<T>(acts: seq<Action<T>>): Run<T> {
    if acts == [] then Ran(Init(), [])
    else
      match Exec(acts[..|acts| - 1])
      case Faulted => Faulted
      case Ran(s, replies) =>
        match Step(s, acts[|acts| - 1])
        case Fault => Faulted
        case Ok(s', reply) => Ran(s', replies + [reply])
  }

  function SpecExec<T>(acts: seq<Action<T>>): (SpecState<T>, seq<Reply<T>>) {
    if acts == [] then (SpecState(EmptyQueue(), false), [])
    else
      var (s, replies) := SpecExec(acts[..|acts| - 1]);
      var (s', reply) := SpecStep(s, acts[|acts| - 1]);
      (s', replies + [reply])
  }

  /** In every interleaving the pipe never faults, keeps its cursor order, and answers
      every call exactly as the abstract queue does. */
  lemma {:induction false} EveryInterleavingRefinesTheQueue<T>(acts: seq<Action<T>>)
    ensures Exec(acts).Ran? && Inv(Exec(acts).s)
    ensures (Abs(Exec(acts).s), Exec(acts).replies) == SpecExec(acts)
  {
    if acts != [] {
      EveryInterleavingRefinesTheQueue(acts[..|acts| - 1]);
      StepRefines(Exec(acts[..|acts| - 1]).s, acts[|acts| - 1]);
    }
  }

  /** What a run has read, flushed and completed so far, as the abstract queue tells it. */
  function QueueAfter<T>(acts: seq<Action<T>>): Queue<T> {
    SpecExec(acts).0.q
  }

  lemma SpecStepOnlyExtends<T>(s: SpecState<T>, a: Action<T>)
    ensures Extends(s.q, SpecStep(s, a).0.q)
  {
  }

  ghost predicate Extends<T>(q: Queue<T>, q': Queue<T>) {
    && q.taken <= q'.taken
    && q.taken + q.flushed <= q'.taken + q'.flushed
    && q.Completed() <= q'.Completed()
  }

  /** However a run continues, what has been read, what has been flushed and what has been
      completed are only ever extended. */
  lemma {:induction false} NothingIsTakenBack<T>(acts: seq<Action<T>>, more: seq<Action<T>>)
    ensures Exec(acts).Ran? && Exec(acts + more).Ran?
    ensures Exec(acts).s.got == QueueAfter(acts).taken
    ensures Extends(QueueAfter(acts), QueueAfter(acts + more))
  {
    EveryInterleavingRefinesTheQueue(acts);
    EveryInterleavingRefinesTheQueue(acts + more);
    OnlyExtends(acts, more);
  }

  lemma {:induction false} OnlyExtends<T>(acts: seq<Action<T>>, more: seq<Action<T>>)
    ensures Extends(QueueAfter(acts), QueueAfter(acts + more))
  {
    if more == [] {
      assert acts + more == acts;
    } else {
      var init := more[..|more| - 1];
      OnlyExtends(acts, init);
      assert (acts + more)[..|acts + more| - 1] == acts + init;
      SpecStepOnlyExtends(SpecExec(acts + init).0, more[|more| - 1]);
    }
  }

  /** Between a failed compare-and-swap and the store that follows it, the reader finds
      nothing and changes nothing shared, so the flush acts as if done at the store. */
  lemma {:induction false} ReaderCannotMoveBeforePublish<T>(acts: seq<Action<T>>, a: Action<T>)
    requires Exec(acts).Ran? && Exec(acts).s.pc == CasFailed
    requires a.CheckRead? || a.Read?
    ensures Step(Exec(acts).s, a).Ok?
    ensures var s, o := Exec(acts).s, Step(Exec(acts).s, a);
            && o.s == s.(r := o.s.r) && (o.reply == Told(false) || o.reply == Value(None))
  {
    EveryInterleavingRefinesTheQueue(acts);
  }
}

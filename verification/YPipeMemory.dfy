/** The lock-free pipe on its chunked queue, down to single accesses to the memory that reader
    and writer share: values, links, the spare chunk and the cursor `c`. Cursors are addresses,
    and chunks are reused: by way of the spare, and by an allocator that may hand out again
    whatever was freed. */
module YPipeMemory {
  import opened Basics
  import opened QueueSpec
  import opened Cells
  import opened Cursors
  import Y = YPipeModel

  type Chunk = nat

  type Addr = Cell<Chunk>

  type Links = map<Chunk, Option<Chunk>>

  /** The arguments of a write under way. */
  datatype Written<T> = Written(v: T, incomplete: bool)

  /**
   * The writer is between calls; or pushing: about to take the spare chunk, to allocate one, to
   * link chunk `sc` in, to link it back, to move the end into it; or taking back: the back has
   * moved and the end is about to, then its chunk is freed, the link to it cut and the value
   * taken; or its compare-and-swap on `c` failed and its plain store is still to come.
   */
  datatype WriterPc<T> = Ready
    | NeedsChunk(call: Written<T>) | Allocating(call: Written<T>) | HasChunk(call: Written<T>, sc: Chunk)
    | Linking(call: Written<T>, sc: Chunk) | Following(call: Written<T>, sc: Chunk)
    | BackMoved | FreeingEnd | CuttingEnd | TakingValue
    | CasFailed

  /** The reader is between calls, or about to take the front value, to leave a used-up chunk,
      to cut the link back to chunk `o`, to make it the spare, or to free the spare it replaced. */
  datatype ReaderPc = Idle | Taking | Leaving | Cutting(o: Chunk) | Swapping(o: Chunk) | Freeing(cs: Option<Chunk>)

  datatype Memory<T> = Memory(heap: set<Chunk>, values: map<Addr, T>, next: Links, prev: Links,
                              spare: Option<Chunk>, c: Option<Addr>)

  datatype Writer<T> = Writer(back: Addr, end: Addr, w: Addr, f: Addr, pc: WriterPc<T>)

  datatype Reader = Reader(begin: Addr, r: Option<Addr>, pc: ReaderPc)

  /** `cells` records the addresses from the front to the place of the next push; no step looks at it. */
  datatype State<T> = State(mem: Memory<T>, wr: Writer<T>, rd: Reader, cells: seq<Addr>)

  /** Calls of the two sides and the further steps of a call; `malloc` is what the allocator would return. */
  datatype Action<T> = Write(v: T, incomplete: bool) | Unwrite | Flush | WriterStep(malloc: Chunk)
    | CheckRead | Read | ReaderStep

  /** A call that takes effect, and what its caller is told. */
  datatype Event<T> = Event(call: Y.Action<T>, reply: Y.Reply<T>)

  /** Fault stands for an access to a chunk that is not allocated, for following a null link, for
      reading a cell never written, for freeing what is not allocated, and for a plain store
      into `c` that would overwrite something the reader put there. */
  datatype Outcome<T> = Fault | Ok(s: State<T>, event: Option<Event<T>>)

  /** The first push puts the terminator into the first place of the first chunk. */
  function Init<T>(n: nat): State<T> {
    var first, second := Cell(0, 0), if n == 1 then Cell(1, 0) else Cell(0, 1);
    var mem := if n == 1 then Memory({0, 1}, map[], map[0 := Some(1)], map[1 := Some(0)], None, Some(first))
               else Memory({0}, map[], map[], map[], None, Some(first));
    State(mem, Writer(first, second, first, first, Ready), Reader(first, Some(first), Idle), [first, second])
  }

  function Follow(links: Links, c: Chunk): Option<Chunk> { if c in links then links[c] else None }

  function Step<T>(s: State<T>, a: Action<T>, n: nat): Outcome<T>
    requires n > 0
  {
    match a
    case Write(v, incomplete) => if s.wr.pc.Ready? then StartWrite(s, Written(v, incomplete), n) else Ok(s, None)
    case Unwrite => if s.wr.pc.Ready? then StartUnwrite(s, n) else Ok(s, None)
    case Flush => if s.wr.pc.Ready? then StartFlush(s) else Ok(s, None)
    case WriterStep(malloc) => WriterNext(s, malloc, n)
    case CheckRead => if s.rd.pc.Idle? then Check(s) else Ok(s, None)
    case Read => if s.rd.pc.Idle? then StartRead(s) else Ok(s, None)
    case ReaderStep => ReaderNext(s, n)
  }

  // ------------------------------------------------------------ the writer

  function StartWrite<T>(s: State<T>, call: Written<T>, n: nat): Outcome<T> {
    if s.wr.back.chunk !in s.mem.heap then Fault
    else
      var t := s.(mem := s.mem.(values := s.mem.values[s.wr.back := call.v]));
      var end := s.wr.end;
      if end.pos + 1 != n then Pushed(t, end, Cell(end.chunk, end.pos + 1), call)
      else Ok(t.(wr := t.wr.(back := end, end := Cell(end.chunk, n), pc := NeedsChunk(call))), None)
  }

  /** The push is done; a complete item moves `f` to the new terminator. */
  function Pushed<T>(s: State<T>, back: Addr, end: Addr, call: Written<T>): Outcome<T> {
    Ok(s.(wr := s.wr.(back := back, end := end, f := if call.incomplete then s.wr.f else back, pc := Ready),
          cells := s.cells + [end]),
       Some(Event(Y.Write(call.v, call.incomplete), Y.Silent)))
  }

  /** The address before `a`; None if that takes a link that is null, or a chunk that is gone. */
  function Before<T>(mem: Memory<T>, a: Addr, n: nat): Option<Addr>
    requires n > 0
  {
    if a.pos > 0 then Some(Cell(a.chunk, a.pos - 1))
    else if a.chunk !in mem.heap then None
    else match Follow(mem.prev, a.chunk) case None => None case Some(p) => Some(Cell(p, n - 1))
  }

  function StartUnwrite<T>(s: State<T>, n: nat): Outcome<T>
    requires n > 0
  {
    if s.wr.f == s.wr.back then Ok(s, Some(Event(Y.Unwrite, Y.Value(None))))
    else
      match Before(s.mem, s.wr.back, n)
      case None => Fault
      case Some(b) => Ok(s.(wr := s.wr.(back := b, pc := BackMoved)), None)
  }

  function StartFlush<T>(s: State<T>): Outcome<T> {
    if s.wr.w == s.wr.f then Ok(s, Some(Event(Y.Flush, Y.Told(true))))
    else if s.mem.c == Some(s.wr.w) then
      Ok(s.(mem := s.mem.(c := Some(s.wr.f)), wr := s.wr.(w := s.wr.f)), Some(Event(Y.Flush, Y.Told(true))))
    else Ok(s.(wr := s.wr.(pc := CasFailed)), Some(Event(Y.Flush, Y.Silent)))
  }

  function WriterNext<T>(s: State<T>, malloc: Chunk, n: nat): Outcome<T>
    requires n > 0
  {
    match s.wr.pc
    case Ready => Ok(s, None)
    case NeedsChunk(_) => Ok(TakeSpare(s), None)
    case Allocating(_) => Ok(Allocate(s, malloc), None)
    case HasChunk(_, _) => LinkNext(s)
    case Linking(_, _) => LinkPrev(s)
    case Following(_, _) => MoveEnd(s)
    case BackMoved => EndBack(s, n)
    case FreeingEnd => FreeEnd(s)
    case CuttingEnd => CutEnd(s)
    case TakingValue => TakeValue(s)
    case CasFailed => Publish(s)
  }

  function TakeSpare<T>(s: State<T>): State<T>
    requires s.wr.pc.NeedsChunk?
  {
    s.(mem := s.mem.(spare := None),
       wr := s.wr.(pc := match s.mem.spare case Some(sc) => HasChunk(s.wr.pc.call, sc) case None => Allocating(s.wr.pc.call)))
  }

  function Allocate<T>(s: State<T>, malloc: Chunk): State<T>
    requires s.wr.pc.Allocating?
  {
    if malloc in s.mem.heap then s
    else s.(mem := s.mem.(heap := s.mem.heap + {malloc}), wr := s.wr.(pc := HasChunk(s.wr.pc.call, malloc)))
  }

  function LinkNext<T>(s: State<T>): Outcome<T>
    requires s.wr.pc.HasChunk?
  {
    if s.wr.end.chunk !in s.mem.heap then Fault
    else
      Ok(s.(mem := s.mem.(next := s.mem.next[s.wr.end.chunk := Some(s.wr.pc.sc)]),
            wr := s.wr.(pc := Linking(s.wr.pc.call, s.wr.pc.sc))), None)
  }

  function LinkPrev<T>(s: State<T>): Outcome<T>
    requires s.wr.pc.Linking?
  {
    if s.wr.pc.sc !in s.mem.heap then Fault
    else
      Ok(s.(mem := s.mem.(prev := s.mem.prev[s.wr.pc.sc := Some(s.wr.end.chunk)]),
            wr := s.wr.(pc := Following(s.wr.pc.call, s.wr.pc.sc))), None)
  }

  function MoveEnd<T>(s: State<T>): Outcome<T>
    requires s.wr.pc.Following?
  {
    if s.wr.end.chunk !in s.mem.heap then Fault
    else
      match Follow(s.mem.next, s.wr.end.chunk)
      case None => Fault
      case Some(e) => Pushed(s, s.wr.back, Cell(e, 0), s.wr.pc.call)
  }

  function DropLast(cells: seq<Addr>): seq<Addr> { if cells == [] then [] else cells[..|cells| - 1] }

  function EndBack<T>(s: State<T>, n: nat): Outcome<T>
    requires n > 0
  {
    match Before(s.mem, s.wr.end, n)
    case None => Fault
    case Some(e) =>
      if s.wr.end.pos > 0 then Ok(s.(wr := s.wr.(end := e, pc := TakingValue), cells := DropLast(s.cells)), None)
      else Ok(s.(wr := s.wr.(end := e, pc := FreeingEnd)), None)
  }

  function FreeEnd<T>(s: State<T>): Outcome<T> {
    if s.wr.end.chunk !in s.mem.heap then Fault
    else
      match Follow(s.mem.next, s.wr.end.chunk)
      case None => Fault
      case Some(gone) =>
        if gone !in s.mem.heap then Fault
        else Ok(s.(mem := s.mem.(heap := s.mem.heap - {gone}), wr := s.wr.(pc := CuttingEnd), cells := DropLast(s.cells)), None)
  }

  function CutEnd<T>(s: State<T>): Outcome<T> {
    if s.wr.end.chunk !in s.mem.heap then Fault
    else Ok(s.(mem := s.mem.(next := s.mem.next[s.wr.end.chunk := None]), wr := s.wr.(pc := TakingValue)), None)
  }

  function TakeValue<T>(s: State<T>): Outcome<T> {
    if s.wr.back.chunk !in s.mem.heap || s.wr.back !in s.mem.values then Fault
    else Ok(s.(wr := s.wr.(pc := Ready)), Some(Event(Y.Unwrite, Y.Value(Some(s.mem.values[s.wr.back])))))
  }

  function Publish<T>(s: State<T>): Outcome<T> {
    if s.mem.c.Some? then Fault
    else
      Ok(s.(mem := s.mem.(c := Some(s.wr.f)), wr := s.wr.(w := s.wr.f, pc := Ready)), Some(Event(Y.Publish, Y.Told(false))))
  }

  // ------------------------------------------------------------ the reader

  function CursorsOf<T>(s: State<T>): Quad<Addr> { Quad(s.wr.w, s.rd.r, s.wr.f, s.mem.c) }

  function Fetched<T>(s: State<T>): State<T> {
    var k := Prefetch(CursorsOf(s), s.rd.begin);
    s.(rd := s.rd.(r := k.r), mem := s.mem.(c := k.c))
  }

  predicate HasValue(rd: Reader) { rd.r != None && rd.r != Some(rd.begin) }

  function Check<T>(s: State<T>): Outcome<T> {
    var t := Fetched(s);
    Ok(t, Some(Event(Y.CheckRead, Y.Told(HasValue(t.rd)))))
  }

  function StartRead<T>(s: State<T>): Outcome<T> {
    var t := Fetched(s);
    if HasValue(t.rd) then Ok(t.(rd := t.rd.(pc := Taking)), Some(Event(Y.CheckRead, Y.Told(true))))
    else Ok(t, Some(Event(Y.Read, Y.Value(None))))
  }

  function ReaderNext<T>(s: State<T>, n: nat): Outcome<T> {
    match s.rd.pc
    case Idle => Ok(s, None)
    case Taking => TakeFront(s, n)
    case Leaving => Leave(s)
    case Cutting(_) => CutBegin(s)
    case Swapping(o) => Ok(s.(mem := s.mem.(spare := Some(o)), rd := s.rd.(pc := Freeing(s.mem.spare))), None)
    case Freeing(_) => FreeSpare(s)
  }

  function DropFirst(cells: seq<Addr>): seq<Addr> { if cells == [] then [] else cells[1..] }

  function TakeFront<T>(s: State<T>, n: nat): Outcome<T> {
    var front := s.rd.begin;
    if front.chunk !in s.mem.heap || front !in s.mem.values then Fault
    else
      Ok(s.(rd := s.rd.(begin := Cell(front.chunk, front.pos + 1), pc := if front.pos + 1 == n then Leaving else Idle),
            cells := DropFirst(s.cells)),
         Some(Event(Y.Read, Y.Value(Some(s.mem.values[front])))))
  }

  function Leave<T>(s: State<T>): Outcome<T> {
    var o := s.rd.begin.chunk;
    if o !in s.mem.heap then Fault
    else
      match Follow(s.mem.next, o)
      case None => Fault
      case Some(b) => Ok(s.(rd := s.rd.(begin := Cell(b, 0), pc := Cutting(o))), None)
  }

  function CutBegin<T>(s: State<T>): Outcome<T>
    requires s.rd.pc.Cutting?
  {
    if s.rd.begin.chunk !in s.mem.heap then Fault
    else Ok(s.(mem := s.mem.(prev := s.mem.prev[s.rd.begin.chunk := None]), rd := s.rd.(pc := Swapping(s.rd.pc.o))), None)
  }

  function FreeSpare<T>(s: State<T>): Outcome<T>
    requires s.rd.pc.Freeing?
  {
    match s.rd.pc.cs
    case None => Ok(s.(rd := s.rd.(pc := Idle)), None)
    case Some(c) =>
      if c !in s.mem.heap then Fault
      else Ok(s.(mem := s.mem.(heap := s.mem.heap - {c}), rd := s.rd.(pc := Idle)), None)
  }

  // ------------------------------------------------------------ the invariant

  /** The cell behind `a` is `b`: in the same chunk, or first in the chunk linked behind it. */
  predicate Adjacent(a: Addr, b: Addr, next: Links, prev: Links, n: nat) {
    if a.pos + 1 < n then b == Cell(a.chunk, a.pos + 1)
    else b.pos == 0 && Follow(next, a.chunk) == Some(b.chunk) && Follow(prev, b.chunk) == Some(a.chunk)
  }

  ghost predicate Trail(cells: seq<Addr>, next: Links, prev: Links, n: nat) {
    && Apart(cells)
    && (forall i | 0 <= i < |cells| :: cells[i].pos < n)
    && (forall i | 0 <= i < |cells| - 1 :: Adjacent(cells[i], cells[i + 1], next, prev, n))
  }

  /** Each value is in its cell. */
  ghost predicate Holding<T>(cells: seq<Addr>, values: map<Addr, T>, items: seq<T>) {
    && |items| < |cells|
    && forall i | 0 <= i < |items| :: cells[i] in values && values[cells[i]] == items[i]
  }

  ghost predicate InCells(cells: seq<Addr>, c: Chunk) { exists i | 0 <= i < |cells| :: cells[i].chunk == c }

  predicate WriterHolds<T>(pc: WriterPc<T>, c: Chunk) { (pc.HasChunk? || pc.Linking? || pc.Following?) && pc.sc == c }

  predicate ReaderHolds(rd: Reader, c: Chunk) {
    match rd.pc
    case Idle => false
    case Taking => false
    case Leaving => rd.begin.chunk == c
    case Cutting(o) => o == c
    case Swapping(o) => o == c
    case Freeing(cs) => cs == Some(c)
  }

  /** In how many places outside the queue a chunk is: spare, or held by writer or reader. */
  function Outside<T>(s: State<T>, c: Chunk): nat {
    B(s.mem.spare == Some(c)) + B(WriterHolds(s.wr.pc, c)) + B(ReaderHolds(s.rd, c))
  }

  /** Every allocated chunk is in one place, and no other chunk is anywhere. */
  ghost predicate Accounted<T>(s: State<T>) { forall c: Chunk :: B(InCells(s.cells, c)) + Outside(s, c) == B(c in s.mem.heap) }

  /** Back and end; `k` is the place of the terminator in `cells`. */
  ghost predicate Rear<T>(wr: Writer<T>, mem: Memory<T>, cells: seq<Addr>, k: nat, n: nat) {
    match wr.pc
    case Ready => |cells| == k + 2 && wr.back == cells[k] && wr.end == cells[k + 1]
    case CasFailed => |cells| == k + 2 && wr.back == cells[k] && wr.end == cells[k + 1]
    case NeedsChunk(call) => Pushing(wr, mem, cells, k, call, n)
    case Allocating(call) => Pushing(wr, mem, cells, k, call, n)
    case HasChunk(call, _) => Pushing(wr, mem, cells, k, call, n)
    case Linking(call, sc) => Pushing(wr, mem, cells, k, call, n) && Follow(mem.next, wr.end.chunk) == Some(sc)
    case Following(call, sc) =>
      && Pushing(wr, mem, cells, k, call, n)
      && Follow(mem.next, wr.end.chunk) == Some(sc) && Follow(mem.prev, sc) == Some(wr.end.chunk)
    case BackMoved => |cells| == k + 2 && k > 0 && wr.back == cells[k - 1] && wr.end == cells[k + 1]
    case FreeingEnd => |cells| == k + 2 && k > 0 && wr.back == cells[k - 1] && wr.end == cells[k] && cells[k + 1].pos == 0
    case CuttingEnd => |cells| == k + 1 && k > 0 && wr.back == cells[k - 1] && wr.end == cells[k]
    case TakingValue => |cells| == k + 1 && k > 0 && wr.back == cells[k - 1] && wr.end == cells[k]
  }

  /** The value is stored, the back is at the last place of its chunk and the end is behind it. */
  ghost predicate Pushing<T>(wr: Writer<T>, mem: Memory<T>, cells: seq<Addr>, k: nat, call: Written<T>, n: nat) {
    && |cells| == k + 2 && wr.back == cells[k + 1] && wr.back.pos + 1 == n && wr.end == Cell(wr.back.chunk, n)
    && cells[k] in mem.values && mem.values[cells[k]] == call.v
  }

  ghost predicate Head<T>(rd: Reader, next: Links, cells: seq<Addr>, y: Y.State<T>) {
    && cells != []
    && (rd.pc.Taking? ==> Y.Prefetched(y))
    && if rd.pc.Leaving? then cells[0].pos == 0 && Follow(next, rd.begin.chunk) == Some(cells[0].chunk)
       else rd.begin == cells[0]
  }

  predicate TakingBack<T>(pc: WriterPc<T>) { pc.BackMoved? || pc.FreeingEnd? || pc.CuttingEnd? || pc.TakingValue? }

  /** The memory, next to the pipe `y` whose cursors are positions. */
  ghost predicate Inv<T>(s: State<T>, y: Y.State<T>, n: nat) {
    && Aimed(y, s.cells, CursorsOf(s)) && y.pc == (if s.wr.pc.CasFailed? then Y.CasFailed else Y.Idle)
    && Trail(s.cells, s.mem.next, s.mem.prev, n)
    && Holding(s.cells, s.mem.values, y.cells[y.front..])
    && Rear(s.wr, s.mem, s.cells, |y.cells| - y.front, n) && (TakingBack(s.wr.pc) ==> y.f < |y.cells|)
    && Head(s.rd, s.mem.next, s.cells, y)
    && Accounted(s)
  }
}

/** The two-ended message pipe: two data queues, two FIFO command channels and six states
    at either end, with the ends interleaved between any two effects the other can see. */
module PipeModel {
  import opened QueueSpec
  import opened Wire

  datatype Item = Part(body: seq<Byte>, more: bool) | Delimiter

  /** The states of an endpoint, plus one for an endpoint that has deleted itself. */
  datatype PipeState = Active | Delimited | Pending | Terminating | Terminated | DoubleTerminated | Destroyed

  /** `terminate` sends its command, then writes and flushes the delimiter, then wakes the
      peer; `flush` publishes, then wakes. An endpoint in the middle of either is not Idle. */
  datatype Pc = Idle | Finishing | OwesWake

  datatype Command = ActivateRead | ActivateWrite(count: nat) | PipeTerm | PipeTermAck

  /** The inbound half of an endpoint; `delivered` records the parts handed to the reader. */
  datatype Reader = Reader(inActive: bool, lwm: int, msgsRead: nat, delivered: seq<Item>)

  /** The outbound half; `open` records the parts of the unfinished message and `accepted`
      the parts of all finished ones. */
  datatype Writer = Writer(outActive: bool, hwm: int, msgsWritten: nat, peersRead: nat, open: seq<Item>, accepted: seq<Item>)

  /** A record of termination commands sent and seen, and of deletions of the inbound queue. */
  datatype Signals = Signals(termsSent: nat, acksSent: nat, gotTerm: bool, gotAck: bool, inFreed: nat)

  /** One endpoint; `hasOut` is false once the outbound queue has been let go, and `asked`
      records whether `terminate` was ever called. */
  datatype End = End(rd: Reader, wr: Writer, state: PipeState, delay: bool, hasOut: bool, pc: Pc, asked: bool, sig: Signals)

  /** What one endpoint works on: itself, its two queues and the commands on the way to its peer. */
  datatype View = View(e: End, inq: Queue<Item>, outq: Queue<Item>, sent: seq<Command>)

  datatype Reply = Silent | Told(ok: bool) | Got(item: Option<Item>)

  /** Fault stands for a failed assertion, or for a command delivered to a deleted endpoint. */
  datatype Outcome = Fault | Ok(v: View, reply: Reply)

  const MAX_WM_DELTA := 1024

  /** Integer division as the source language does it. */
  function TruncatedHalf(n: int): int {
    if n >= 0 then n / 2 else -((-n) / 2)
  }

  function ComputeLwm(hwm: int): int {
    if hwm > MAX_WM_DELTA * 2 then hwm - MAX_WM_DELTA else TruncatedHalf(hwm + 1)
  }

  // ------------------------------------------------------------------ handlers

  predicate CanRead(e: End) {
    e.rd.inActive && (e.state == Active || e.state == Pending)
  }

  function SendAck(v: View): View {
    v.(e := v.e.(hasOut := false, sig := v.e.sig.(acksSent := v.e.sig.acksSent + 1)), sent := v.sent + [PipeTermAck])
  }

  function SetState(v: View, st: PipeState): View {
    v.(e := v.e.(state := st))
  }

  function Delimit(v: View, reply: Reply): Outcome {
    match v.e.state
    case Active => Ok(SetState(v, Delimited), reply)
    case Pending => Ok(SetState(SendAck(v), Terminating), reply)
    case _ => Fault
  }

  function CheckRead(v: View): Outcome {
    if !CanRead(v.e) then Ok(v, Told(false))
    else if v.inq.flushed == [] then
      Ok(v.(inq := v.inq.CheckRead(), e := v.e.(rd := v.e.rd.(inActive := false))), Told(false))
    else if v.inq.flushed[0].Delimiter? then Delimit(v.(inq := v.inq.Read()), Told(false))
    else Ok(v, Told(true))
  }

  function Read(v: View): Outcome {
    if !CanRead(v.e) then Ok(v, Got(None))
    else if v.inq.flushed == [] then
      Ok(v.(inq := v.inq.Read(), e := v.e.(rd := v.e.rd.(inActive := false))), Got(None))
    else
      var item := v.inq.flushed[0];
      var v1 := v.(inq := v.inq.Read());
      if item.Delimiter? then Delimit(v1, Got(None))
      else
        var n := if item.more then v.e.rd.msgsRead else v.e.rd.msgsRead + 1;
        var e := v.e.(rd := v.e.rd.(msgsRead := n, delivered := v.e.rd.delivered + [item]));
        var credit := if e.rd.lwm > 0 && n % e.rd.lwm == 0 then [ActivateWrite(n)] else [];
        Ok(v1.(e := e, sent := v.sent + credit), Got(Some(item)))
  }

  predicate Full(e: End) {
    e.wr.hwm > 0 && e.wr.msgsWritten - e.wr.peersRead == e.wr.hwm
  }

  function CheckWrite(v: View): Outcome {
    if !v.e.wr.outActive || v.e.state != Active then Ok(v, Told(false))
    else if Full(v.e) then Ok(v.(e := v.e.(wr := v.e.wr.(outActive := false))), Told(false))
    else Ok(v, Told(true))
  }

  function Write(v: View, body: seq<Byte>, more: bool): Outcome {
    var check := CheckWrite(v);
    if check.Fault? || check.reply != Told(true) then check
    else
      var wr, part := v.e.wr, Part(body, more);
      var wr' := if more then wr.(open := wr.open + [part])
                 else wr.(open := [], accepted := wr.accepted + wr.open + [part], msgsWritten := wr.msgsWritten + 1);
      Ok(v.(outq := v.outq.Write(part, more), e := v.e.(wr := wr')), Told(true))
  }

  /** Fails if a part to be removed ends a message. */
  function Rollback(v: View): Outcome {
    if !v.e.hasOut then Ok(v, Silent)
    else if exists i | 0 <= i < |v.outq.partial| :: !(v.outq.partial[i].Part? && v.outq.partial[i].more) then Fault
    else Ok(v.(outq := v.outq.(partial := []), e := v.e.(wr := v.e.wr.(open := []))), Silent)
  }

  function Flush(v: View): Outcome {
    if v.e.state == Terminating || !v.e.hasOut then Ok(v.(e := v.e.(pc := Idle)), Silent)
    else
      var pc := if v.outq.FlushFindsReaderAwake() then Idle else OwesWake;
      Ok(v.(outq := v.outq.Flush(), e := v.e.(pc := pc)), Silent)
  }

  function Wake(v: View): Outcome {
    Ok(v.(e := v.e.(pc := Idle), sent := v.sent + [ActivateRead]), Silent)
  }

  function SendTerm(v: View): View {
    v.(e := v.e.(sig := v.e.sig.(termsSent := v.e.sig.termsSent + 1), state := Terminated), sent := v.sent + [PipeTerm])
  }

  function StopOutbound(v: View): Outcome {
    Ok(v.(e := v.e.(wr := v.e.wr.(outActive := false), pc := Finishing)), Silent)
  }

  function Terminate(v: View, delay: bool): Outcome {
    var v0 := v.(e := v.e.(delay := delay, asked := true));
    match v.e.state
    case Terminated => Ok(v0, Silent)
    case DoubleTerminated => Ok(v0, Silent)
    case Terminating => Ok(v0, Silent)
    case Active => StopOutbound(SendTerm(v0))
    case Pending => if !delay then StopOutbound(SetState(SendAck(v0), Terminating)) else StopOutbound(v0)
    case Delimited => StopOutbound(SendTerm(v0))
    case Destroyed => Fault
  }

  /** The second part of `terminate`: drop the unfinished message, write the delimiter, flush. */
  function FinishTerminate(v: View): Outcome {
    if !v.e.hasOut then Ok(v.(e := v.e.(pc := Idle)), Silent)
    else
      match Rollback(v)
      case Fault => Fault
      case Ok(v1, _) => Flush(v1.(outq := v1.outq.Write(Delimiter, false)))
  }

  function ProcessPipeTerm(v: View): Outcome {
    var v0 := v.(e := v.e.(sig := v.e.sig.(gotTerm := true)));
    match v.e.state
    case Active => if !v.e.delay then Ok(SetState(SendAck(v0), Terminating), Silent) else Ok(SetState(v0, Pending), Silent)
    case Delimited => Ok(SetState(SendAck(v0), Terminating), Silent)
    case Terminated => Ok(SetState(SendAck(v0), DoubleTerminated), Silent)
    case _ => Fault
  }

  function Free(v: View): Outcome {
    Ok(v.(inq := v.inq.Drain(), e := v.e.(sig := v.e.sig.(inFreed := v.e.sig.inFreed + 1), state := Destroyed)), Silent)
  }

  function ProcessPipeTermAck(v: View): Outcome {
    var v0 := v.(e := v.e.(sig := v.e.sig.(gotAck := true)));
    match v.e.state
    case Terminated => Free(SendAck(v0))
    case Terminating => Free(v0)
    case DoubleTerminated => Free(v0)
    case _ => Fault
  }

  function Process(v: View, cmd: Command): Outcome {
    match cmd
    case ActivateRead =>
      if !v.e.rd.inActive && (v.e.state == Active || v.e.state == Pending) then Ok(v.(e := v.e.(rd := v.e.rd.(inActive := true))), Silent)
      else Ok(v, Silent)
    case ActivateWrite(n) =>
      Ok(v.(e := v.e.(wr := v.e.wr.(peersRead := n, outActive := v.e.wr.outActive || v.e.state == Active))), Silent)
    case PipeTerm => ProcessPipeTerm(v)
    case PipeTermAck => ProcessPipeTermAck(v)
  }

  // ------------------------------------------------------------------ the pair

  datatype System = System(a: End, b: End, ab: Queue<Item>, ba: Queue<Item>, toA: seq<Command>, toB: seq<Command>) {
    function Flip(): System { System(b, a, ba, ab, toB, toA) }
    function ViewOfA(): View { View(a, ba, ab, toB) }
  }

  datatype Call =
    | DoCheckRead | DoRead | DoCheckWrite | DoWrite(body: seq<Byte>, more: bool) | DoRollback | DoFlush
    | DoTerminate(delay: bool) | Continue | Receive

  datatype Result = Failed | Done(s: System, reply: Reply)

  /** A call at the first endpoint. A deleted endpoint makes no calls; an endpoint in the
      middle of a call only continues it. */
  function CallA(v: View, call: Call): Outcome {
    if v.e.state == Destroyed then Ok(v, Silent)
    else if v.e.pc == Finishing then if call == Continue then FinishTerminate(v) else Ok(v, Silent)
    else if v.e.pc == OwesWake then if call == Continue then Wake(v) else Ok(v, Silent)
    else
      match call
      case DoCheckRead => CheckRead(v)
      case DoRead => Read(v)
      case DoCheckWrite => CheckWrite(v)
      case DoWrite(body, more) => Write(v, body, more)
      case DoRollback => Rollback(v)
      case DoFlush => Flush(v)
      case DoTerminate(delay) => Terminate(v, delay)
      case Continue => Ok(v, Silent)
      case Receive => Ok(v, Silent)
  }

  function WithViewOfA(s: System, toA: seq<Command>, o: Outcome): Result {
    match o
    case Fault => Failed
    case Ok(v, reply) => Done(System(v.e, s.b, v.outq, v.inq, toA, v.sent), reply)
  }

  function StepA(s: System, call: Call): Result {
    if call == Receive then
      if s.toA == [] || s.a.pc != Idle then Done(s, Silent)
      else if s.a.state == Destroyed then Failed
      else WithViewOfA(s, s.toA[1..], Process(s.ViewOfA(), s.toA[0]))
    else WithViewOfA(s, s.toA, CallA(s.ViewOfA(), call))
  }

  /** Which endpoint moves, and how. */
  datatype Action = Action(second: bool, call: Call)

  function Step(s: System, act: Action): Result {
    if !act.second then StepA(s, act.call)
    else
      match StepA(s.Flip(), act.call)
      case Failed => Failed
      case Done(t, reply) => Done(t.Flip(), reply)
  }

  function NewEnd(inHwm: int, outHwm: int, delay: bool): End {
    End(Reader(true, ComputeLwm(inHwm), 0, []), Writer(true, outHwm, 0, 0, [], []),
        Active, delay, true, Idle, false, Signals(0, 0, false, false, 0))
  }

  /** `hwm0` limits the messages from the first endpoint to the second, `hwm1` the others. */
  function PipePair(hwm0: int, hwm1: int, delay0: bool, delay1: bool): System {
    System(NewEnd(hwm1, hwm0, delay0), NewEnd(hwm0, hwm1, delay1), EmptyQueue(), EmptyQueue(), [], [])
  }

  datatype Config = Config(hwm0: int, hwm1: int, delay0: bool, delay1: bool)

  function Exec(c: Config, acts: seq<Action>): Result {
    if acts == [] then Done(PipePair(c.hwm0, c.hwm1, c.delay0, c.delay1), Silent)
    else
      match Exec(c, acts[..|acts| - 1])
      case Failed => Failed
      case Done(s, _) => Step(s, acts[|acts| - 1])
  }
}

/** One endpoint of the message pipe as an object on two lock-free pipes. */
module Pipe {
  import opened QueueSpec
  import opened Wire
  import M = PipeModel
  import YP = YPipe

  type Data = YP.Pipe<M.Item>

  /** A call carried through without the other endpoint in between. */
  function Completed(o: M.Outcome): M.Outcome {
    if o.Ok? && o.v.e.pc == M.Finishing then Woken(M.FinishTerminate(o.v)) else Woken(o)
  }

  function Woken(o: M.Outcome): M.Outcome {
    if o.Ok? && o.v.e.pc == M.OwesWake then M.Wake(o.v) else o
  }

  function Credited(v: M.View, part: M.Item): M.View
    requires part.Part?
  {
    var n := if part.more then v.e.rd.msgsRead else v.e.rd.msgsRead + 1;
    var e := v.e.(rd := v.e.rd.(msgsRead := n, delivered := v.e.rd.delivered + [part]));
    v.(e := e, sent := v.sent + if e.rd.lwm > 0 && n % e.rd.lwm == 0 then [M.ActivateWrite(n)] else [])
  }

  lemma ReadCases(v: M.View)
    ensures M.Read(v) ==
      if !M.CanRead(v.e) then M.Ok(v, M.Got(None))
      else if v.inq.flushed == [] then
        M.Ok(v.(inq := v.inq.Read(), e := v.e.(rd := v.e.rd.(inActive := false))), M.Got(None))
      else if v.inq.flushed[0].Delimiter? then M.Delimit(v.(inq := v.inq.Read()), M.Got(None))
      else M.Ok(Credited(v.(inq := v.inq.Read()), v.inq.flushed[0]), M.Got(Some(v.inq.flushed[0])))
  {
  }

  /** The commands of terminate, from the states in which it has something to do. */
  function Told(v: M.View): M.View {
    match v.e.state
    case Pending => if !v.e.delay then M.SetState(M.SendAck(v), M.Terminating) else v
    case _ => M.SendTerm(v)
  }

  lemma TerminateCases(v: M.View, delay: bool)
    requires v.e.state != M.Destroyed
    ensures var v0 := v.(e := v.e.(delay := delay, asked := true));
      M.Terminate(v, delay) ==
        if v.e.state == M.Terminated || v.e.state == M.DoubleTerminated || v.e.state == M.Terminating then
          M.Ok(v0, M.Silent)
        else M.StopOutbound(Told(v0))
  {
  }

  /** The records an endpoint does not keep itself. */
  datatype Records = Records(delivered: seq<M.Item>, open: seq<M.Item>, accepted: seq<M.Item>, asked: bool, sig: M.Signals)

  class Endpoint {
    const inpipe: Data
    var outpipe: YP.Pipe?<M.Item>
    var inActive: bool
    var outActive: bool
    const hwm: int
    const lwm: int
    var msgsRead: nat
    var msgsWritten: nat
    var peersMsgsRead: nat
    var state: M.PipeState
    var delay: bool
    /** Commands sent to the peer. */
    var sent: seq<M.Command>
    /** The outbound pipe, remembered after it has been let go. */
    ghost const out: Data
    ghost var records: Records

    ghost predicate Valid()
      reads this, inpipe, inpipe.queue, inpipe.queue.repr, out, out.queue, out.queue.repr
      ensures Valid() ==> inpipe.Valid() && out.Valid()
    {
      PipesApart() && (outpipe != null ==> outpipe == out)
    }

    /** The two pipes share nothing. */
    ghost predicate PipesApart()
      reads inpipe, inpipe.queue, inpipe.queue.repr, out, out.queue, out.queue.repr
      ensures PipesApart() ==> inpipe.Valid() && out.Valid()
    {
      && inpipe.Valid() && out.Valid() && inpipe.Footprint() !! out.Footprint()
      && this !in inpipe.Footprint() && this !in out.Footprint()
    }

    ghost function Self(): M.End
      reads this
    {
      M.End(M.Reader(inActive, lwm, msgsRead, records.delivered),
            M.Writer(outActive, hwm, msgsWritten, peersMsgsRead, records.open, records.accepted),
            state, delay, outpipe != null, M.Idle, records.asked, records.sig)
    }

    ghost function View(): M.View
      reads this, inpipe, inpipe.queue, inpipe.queue.repr, out, out.queue, out.queue.repr
      requires Valid()
    {
      M.View(Self(), inpipe.Items(), out.Items(), sent)
    }

    constructor (inpipe: Data, outpipe: Data, inHwm: int, outHwm: int, delay: bool)
      requires inpipe.Valid() && outpipe.Valid() && inpipe.Footprint() !! outpipe.Footprint()
      ensures Valid() && this.inpipe == inpipe && this.out == outpipe
      ensures View() == M.View(M.NewEnd(inHwm, outHwm, delay), inpipe.Items(), outpipe.Items(), [])
    {
      this.inpipe, this.outpipe, this.out := inpipe, outpipe, outpipe;
      inActive, outActive := true, true;
      hwm, lwm := outHwm, M.ComputeLwm(inHwm);
      msgsRead, msgsWritten, peersMsgsRead := 0, 0, 0;
      state, this.delay, sent := M.Active, delay, [];
      records := Records([], [], [], false, M.Signals(0, 0, false, false, 0));
    }

    method SendAck()
      requires Valid()
      modifies this`outpipe, this`sent, this`records
      ensures Valid() && View() == M.SendAck(old(View()))
    {
      hide YP.Pipe.Valid, YP.Pipe.Items, YP.Pipe.Footprint, Endpoint.PipesApart;
      outpipe := null;
      sent := sent + [M.PipeTermAck];
      records := records.(sig := records.sig.(acksSent := records.sig.acksSent + 1));
    }

    method Delimit()
      requires Valid() && (state == M.Active || state == M.Pending)
      modifies this
      ensures Valid() && forall r: M.Reply :: M.Delimit(old(View()), r) == M.Ok(View(), r)
    {
      hide YP.Pipe.Valid, YP.Pipe.Items, YP.Pipe.Footprint, Endpoint.PipesApart;
      if state == M.Active {
        state := M.Delimited;
        return;
      }
      SendAck();
      state := M.Terminating;
    }

    method CheckRead() returns (ok: bool)
      requires Valid()
      modifies this, inpipe.Footprint()
      ensures Valid() && M.CheckRead(old(View())) == M.Ok(View(), M.Told(ok))
      ensures ok == old(M.CanRead(Self()) && inpipe.Items().flushed != [] && inpipe.Items().flushed[0].Part?)
    {
      hide YP.Pipe.Valid, YP.Pipe.Items;
      if !inActive || (state != M.Active && state != M.Pending) {
        return false;
      }
      var found := inpipe.CheckRead();
      if !found {
        inActive := false;
        return false;
      }
      var first := inpipe.Probe();
      if first.Delimiter? {
        var item := inpipe.Read();
        Delimit();
        return false;
      }
      return true;
    }

    method Read() returns (item: Option<M.Item>)
      requires Valid()
      modifies this, inpipe.Footprint()
      ensures Valid() && M.Read(old(View())) == M.Ok(View(), M.Got(item))
    {
      hide YP.Pipe.Valid, YP.Pipe.Items, M.Read, M.Delimit, Credited;
      ReadCases(View());
      if !inActive || (state != M.Active && state != M.Pending) {
        return None;
      }
      item := inpipe.Read();
      if item == None {
        inActive := false;
        return;
      }
      if item.value.Delimiter? {
        Delimit();
        return None;
      }
      Credit(item.value);
    }

    /** Count a part handed to the reader, and tell the peer at every low water mark. */
    method Credit(part: M.Item)
      requires Valid() && part.Part?
      modifies this`msgsRead, this`sent, this`records
      ensures Valid() && View() == Credited(old(View()), part)
    {
      hide YP.Pipe.Valid, YP.Pipe.Items, YP.Pipe.Footprint, Endpoint.PipesApart;
      records := records.(delivered := records.delivered + [part]);
      if !part.more {
        msgsRead := msgsRead + 1;
      }
      if lwm > 0 && msgsRead % lwm == 0 {
        sent := sent + [M.ActivateWrite(msgsRead)];
      }
    }

    method CheckWrite() returns (ok: bool)
      requires Valid()
      modifies this`outActive
      ensures Valid() && M.CheckWrite(old(View())) == M.Ok(View(), M.Told(ok))
    {
      hide YP.Pipe.Valid, YP.Pipe.Items, YP.Pipe.Footprint, Endpoint.PipesApart;
      if !outActive || state != M.Active {
        return false;
      }
      if hwm > 0 && msgsWritten - peersMsgsRead == hwm {
        outActive := false;
        return false;
      }
      return true;
    }

    method Write(body: seq<Byte>, more: bool) returns (ok: bool)
      requires Valid() && (state == M.Active ==> outpipe != null)
      modifies this, out.Footprint()
      ensures Valid() && M.Write(old(View()), body, more) == M.Ok(View(), M.Told(ok))
    {
      hide YP.Pipe.Valid, YP.Pipe.Items;
      ok := CheckWrite();
      if !ok {
        return;
      }
      outpipe.Write(M.Part(body, more), more);
      if more {
        records := records.(open := records.open + [M.Part(body, more)]);
      } else {
        msgsWritten := msgsWritten + 1;
        records := records.(open := [], accepted := records.accepted + records.open + [M.Part(body, more)]);
      }
    }

    /** Take back the parts of the unfinished message. */
    method Rollback()
      requires Valid() && M.Rollback(View()).Ok?
      modifies this`records, out.Footprint()
      ensures Valid() && M.Rollback(old(View())) == M.Ok(View(), M.Silent)
      ensures out.Footprint() == old(out.Footprint())
    {
      hide YP.Pipe.Valid, YP.Pipe.Items;
      if outpipe == null {
        return;
      }
      ghost var q := out.Items();
      records := records.(open := []);
      var part := outpipe.Unwrite();
      ghost var k: nat := if q.partial == [] then 0 else |q.partial| - 1;
      while part != None
        invariant Valid() && inpipe.Items() == old(inpipe.Items())
        invariant k <= |q.partial| && out.Items() == q.(partial := q.partial[..k])
        invariant part == None ==> k == 0
        invariant part != None ==> k < |q.partial| && part == Some(q.partial[k])
        invariant out.Footprint() == old(out.Footprint())
        decreases if part == None then 0 else k + 1
        modifies out.Footprint()
      {
        assert part.value.Part? && part.value.more;
        part := outpipe.Unwrite();
        assert k > 0 ==> q.partial[..k][..k - 1] == q.partial[..k - 1];
        k := if k == 0 then 0 else k - 1;
      }
      assert q.partial[..0] == [];
    }

    method Flush()
      requires Valid()
      modifies this`sent, out.Footprint()
      ensures Valid() && Woken(M.Flush(old(View()))) == M.Ok(View(), M.Silent)
    {
      hide YP.Pipe.Valid, YP.Pipe.Items;
      if state == M.Terminating {
        return;
      }
      if outpipe != null {
        var awake := outpipe.Flush();
        if !awake {
          sent := sent + [M.ActivateRead];
        }
      }
    }

    method Terminate(delay: bool)
      requires Valid() && state != M.Destroyed
      requires Completed(M.Terminate(View(), delay)).Ok?
      modifies this, out.Footprint()
      ensures Valid() && Completed(M.Terminate(old(View()), delay)) == M.Ok(View(), M.Silent)
    {
      hide YP.Pipe.Valid, YP.Pipe.Items, YP.Pipe.Footprint, M.Terminate, M.FinishTerminate;
      var going := Announce(delay);
      if going {
        Finish();
      }
    }

    /** The endpoint in the middle of terminating. */
    ghost function Halfway(): M.View
      reads this, inpipe, inpipe.queue, inpipe.queue.repr, out, out.queue, out.queue.repr
      requires Valid()
    {
      View().(e := Self().(pc := M.Finishing))
    }

    /** The first part of terminate: commands and state. */
    method Announce(delay: bool) returns (going: bool)
      requires Valid() && state != M.Destroyed
      modifies this
      ensures Valid() && M.Terminate(old(View()), delay) == M.Ok(if going then Halfway() else View(), M.Silent)
    {
      hide YP.Pipe.Valid, YP.Pipe.Items, YP.Pipe.Footprint, Endpoint.PipesApart, M.Terminate, Told;
      TerminateCases(View(), delay);
      this.delay := delay;
      records := records.(asked := true);
      if state == M.Terminated || state == M.DoubleTerminated {
        return false;
      } else if state == M.Terminating {
        return false;
      }
      TellPeer();
      outActive := false;
      return true;
    }

    method TellPeer()
      requires Valid() && (state == M.Active || state == M.Pending || state == M.Delimited)
      modifies this
      ensures Valid() && View() == Told(old(View()))
    {
      hide YP.Pipe.Valid, YP.Pipe.Items, YP.Pipe.Footprint, Endpoint.PipesApart, M.SendAck, M.SendTerm;
      if state == M.Active {
        SendTerm();
      } else if state == M.Pending && !delay {
        SendAck();
        state := M.Terminating;
      } else if state == M.Pending {
      } else {
        SendTerm();
      }
    }

    /** The second part: drop the unfinished message, write the delimiter and flush. */
    method Finish()
      requires Valid() && Woken(M.FinishTerminate(Halfway())).Ok?
      modifies this, out.Footprint()
      ensures Valid() && Woken(M.FinishTerminate(old(Halfway()))) == M.Ok(View(), M.Silent)
    {
      hide YP.Pipe.Valid, YP.Pipe.Items;
      if outpipe != null {
        Rollback();
        outpipe.Write(M.Delimiter, false);
        Flush();
      }
    }

    method SendTerm()
      requires Valid()
      modifies this`sent, this`records, this`state
      ensures Valid() && View() == M.SendTerm(old(View()))
    {
      hide YP.Pipe.Valid, YP.Pipe.Items, YP.Pipe.Footprint, Endpoint.PipesApart;
      sent := sent + [M.PipeTerm];
      records := records.(sig := records.sig.(termsSent := records.sig.termsSent + 1));
      state := M.Terminated;
    }

    method ProcessActivateRead()
      requires Valid()
      modifies this`inActive
      ensures Valid() && M.Process(old(View()), M.ActivateRead) == M.Ok(View(), M.Silent)
    {
      hide YP.Pipe.Valid, YP.Pipe.Items, YP.Pipe.Footprint, Endpoint.PipesApart;
      if !inActive && (state == M.Active || state == M.Pending) {
        inActive := true;
      }
    }

    method ProcessActivateWrite(count: nat)
      requires Valid()
      modifies this`peersMsgsRead, this`outActive
      ensures Valid() && M.Process(old(View()), M.ActivateWrite(count)) == M.Ok(View(), M.Silent)
    {
      hide YP.Pipe.Valid, YP.Pipe.Items, YP.Pipe.Footprint, Endpoint.PipesApart;
      peersMsgsRead := count;
      if !outActive && state == M.Active {
        outActive := true;
      }
    }

    method ProcessPipeTerm()
      requires Valid() && M.ProcessPipeTerm(View()).Ok?
      modifies this
      ensures Valid() && M.ProcessPipeTerm(old(View())) == M.Ok(View(), M.Silent)
    {
      hide YP.Pipe.Valid, YP.Pipe.Items, YP.Pipe.Footprint, Endpoint.PipesApart;
      records := records.(sig := records.sig.(gotTerm := true));
      if state == M.Active {
        if !delay {
          state := M.Terminating;
          SendAck();
        } else {
          state := M.Pending;
        }
        return;
      }
      if state == M.Delimited {
        state := M.Terminating;
        SendAck();
        return;
      }
      assert state == M.Terminated;
      state := M.DoubleTerminated;
      SendAck();
    }

    /** Acknowledge if need be, empty the inbound pipe and let everything go. */
    method ProcessPipeTermAck()
      requires Valid() && M.ProcessPipeTermAck(View()).Ok?
      modifies this, inpipe.Footprint()
      ensures Valid() && M.ProcessPipeTermAck(old(View())) == M.Ok(View(), M.Silent)
    {
      hide YP.Pipe.Valid, YP.Pipe.Items, YP.Pipe.Footprint, Endpoint.PipesApart, M.SendAck, M.Free;
      records := records.(sig := records.sig.(gotAck := true));
      if state == M.Terminated {
        SendAck();
      } else {
        assert state == M.Terminating || state == M.DoubleTerminated;
      }
      Free();
    }

    method Free()
      requires Valid()
      modifies this, inpipe.Footprint()
      ensures Valid() && M.Free(old(View())) == M.Ok(View(), M.Silent)
    {
      hide YP.Pipe.Valid, YP.Pipe.Items, YP.Pipe.Footprint;
      EmptyInbound();
      records := records.(sig := records.sig.(inFreed := records.sig.inFreed + 1));
      state := M.Destroyed;
    }

    method EmptyInbound()
      requires Valid()
      modifies inpipe.Footprint()
      ensures Valid() && inpipe.Items() == old(inpipe.Items()).Drain() && out.Items() == old(out.Items())
    {
      hide YP.Pipe.Valid, YP.Pipe.Items;
      ghost var q := inpipe.Items();
      var item := inpipe.Read();
      while item != None
        invariant Valid() && out.Items() == old(out.Items())
        invariant inpipe.Footprint() == old(inpipe.Footprint())
        invariant inpipe.Items().taken + inpipe.Items().flushed == q.taken + q.flushed
        invariant inpipe.Items() == q.(taken := inpipe.Items().taken, flushed := inpipe.Items().flushed, asleep := inpipe.Items().asleep)
        invariant item == None ==> inpipe.Items().flushed == [] && inpipe.Items().asleep
        decreases item != None, |inpipe.Items().flushed|
        modifies inpipe.Footprint()
      {
        item := inpipe.Read();
      }
    }
  }
}

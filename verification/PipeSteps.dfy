/** Every call and every command handler keeps the invariant and meets no failed assertion. */
module PipeSteps {
  import opened Basics
  import opened Arithmetic
  import opened QueueSpec
  import opened PipeModel
  import opened Wire
  import opened PipeInvariant

  // ------------------------------------------------------------ queue operations

  lemma ReadMovesOne(q: Queue<Item>)
    requires q.flushed != []
    ensures q.Read().Completed() == q.Completed()
    ensures q.Read().taken + q.Read().flushed == q.taken + q.flushed
  {
  }

  lemma FlushMovesAll(q: Queue<Item>)
    ensures q.Flush().Completed() == q.Completed()
    ensures q.Flush().taken + q.Flush().flushed == q.taken + q.flushed + q.complete == q.Completed()
  {
  }

  lemma DrainMovesAll(q: Queue<Item>)
    ensures q.Drain().Completed() == q.Completed()
    ensures q.Drain().taken + q.Drain().flushed == q.taken + q.flushed
  {
  }

  /** The item the reader meets next is the next accepted part, or a delimiter behind all of them. */
  lemma NextItem(accepted: seq<Item>, q: Queue<Item>, clean: bool, sealed: bool)
    requires ContentInv(accepted, q.Completed(), clean, sealed) && q.taken <= accepted && q.flushed != []
    ensures q.flushed[0].Delimiter? ==> q.taken == accepted && !clean
    ensures q.flushed[0].Part? ==> q.taken + [q.flushed[0]] <= accepted
  {
    var k := |q.taken|;
    assert q.Completed()[k] == q.flushed[0];
    if k < |accepted| {
      assert accepted[k] == q.flushed[0];
    }
  }

  // ------------------------------------------------------------ sending

  lemma SendPlain(terms: nat, acks: nat, gotTerm: bool, gotAck: bool, c: seq<Command>, cmd: Command)
    requires ControlInv(terms, acks, gotTerm, gotAck, c) && acks == 0 && (cmd.ActivateRead? || cmd.ActivateWrite?)
    ensures ControlInv(terms, acks, gotTerm, gotAck, c + [cmd])
  {
    ControlAppend(c, cmd);
    AckLastAppend(c, cmd);
  }

  lemma SendTermCommand(gotTerm: bool, gotAck: bool, c: seq<Command>)
    requires ControlInv(0, 0, gotTerm, gotAck, c)
    ensures ControlInv(1, 0, gotTerm, gotAck, c + [PipeTerm])
  {
    ControlAppend(c, PipeTerm);
    AckLastAppend(c, PipeTerm);
  }

  lemma SendAckCommand(terms: nat, gotTerm: bool, gotAck: bool, c: seq<Command>)
    requires ControlInv(terms, 0, gotTerm, gotAck, c) && !gotAck
    ensures ControlInv(terms, 1, gotTerm, gotAck, c + [PipeTermAck])
  {
    ControlAppend(c, PipeTermAck);
    AckLastAppend(c, PipeTermAck);
  }

  /** Sending anything but a wake-up or a credit leaves those two accounts as they were. */
  lemma SendControl(c: seq<Command>, cmd: Command, owes: bool, listens: bool, inActive: bool, asleep: bool,
                    flushed: seq<Item>, lwm: int, known: nat, read: nat)
    requires cmd.PipeTerm? || cmd.PipeTermAck?
    requires WakeInv(owes, listens, inActive, asleep, flushed, c) && CreditInv(lwm, known, read, c)
    ensures WakeInv(owes, listens, inActive, asleep, flushed, c + [cmd]) && CreditInv(lwm, known, read, c + [cmd])
  {
    WakesAppend(c, cmd);
    CreditAppend(c, cmd, known, read);
  }

  // ------------------------------------------------------------ receiving

  lemma TakePlain(terms: nat, acks: nat, gotTerm: bool, gotAck: bool, c: seq<Command>)
    requires c != [] && (c[0].ActivateRead? || c[0].ActivateWrite?) && ControlInv(terms, acks, gotTerm, gotAck, c)
    ensures ControlInv(terms, acks, gotTerm, gotAck, c[1..]) && !gotAck
  {
    assert Control(c[1..]) == Control(c);
  }

  lemma TakeTerm(terms: nat, acks: nat, gotTerm: bool, gotAck: bool, c: seq<Command>)
    requires c != [] && c[0].PipeTerm? && ControlInv(terms, acks, gotTerm, gotAck, c)
    ensures terms == 1 && !gotTerm && !gotAck && ControlInv(terms, acks, true, gotAck, c[1..])
  {
    assert Control(c)[0] == PipeTerm && Control(c)[1..] == Control(c[1..]);
  }

  lemma TakeAck(terms: nat, acks: nat, gotTerm: bool, gotAck: bool, c: seq<Command>)
    requires c != [] && c[0].PipeTermAck? && ControlInv(terms, acks, gotTerm, gotAck, c)
    ensures acks == 1 && !gotAck && (terms == 1 ==> gotTerm) && ControlInv(terms, acks, gotTerm, true, c[1..])
  {
    assert Control(c)[0] == PipeTermAck && c[1..] == [];
  }

  /** Taking a termination command leaves wake-ups and credits as they were. */
  lemma TakeControl(c: seq<Command>, owes: bool, listens: bool, inActive: bool, asleep: bool,
                    flushed: seq<Item>, lwm: int, known: nat, read: nat)
    requires c != [] && (c[0].PipeTerm? || c[0].PipeTermAck?)
    requires WakeInv(owes, listens, inActive, asleep, flushed, c) && CreditInv(lwm, known, read, c)
    ensures WakeInv(owes, listens, inActive, asleep, flushed, c[1..]) && CreditInv(lwm, known, read, c[1..])
  {
  }

  // ------------------------------------------------------------ flushing

  lemma CompletedIsWhole(accepted: seq<Item>, completed: seq<Item>, clean: bool, sealed: bool)
    requires ContentInv(accepted, completed, clean, sealed)
    ensures Whole(completed)
  {
    if |accepted| == |completed| { assert accepted == completed; }
  }

  lemma FlushWakes(q: Queue<Item>, listens: bool, inActive: bool, toY: seq<Command>)
    requires WakeInv(false, listens, inActive, q.asleep, q.flushed, toY)
    ensures var q' := q.Flush();
            WakeInv(!q.FlushFindsReaderAwake(), listens, inActive, q'.asleep, q'.flushed, toY)
  {
  }

  lemma AckKeepsAccounts(s: System)
    requires Inv(s) && s.a.sig.acksSent == 0
    ensures ControlInv(s.a.sig.termsSent, 1, s.b.sig.gotTerm, s.b.sig.gotAck, s.toB + [PipeTermAck])
    ensures WakeInv(s.a.pc == OwesWake, Listens(s.b), s.b.rd.inActive, s.ab.asleep, s.ab.flushed, s.toB + [PipeTermAck])
    ensures CreditInv(s.a.rd.lwm, s.b.wr.peersRead, s.a.rd.msgsRead, s.toB + [PipeTermAck])
  {
    SendAckCommand(s.a.sig.termsSent, s.b.sig.gotTerm, s.b.sig.gotAck, s.toB);
    SendControl(s.toB, PipeTermAck, s.a.pc == OwesWake, Listens(s.b), s.b.rd.inActive, s.ab.asleep, s.ab.flushed,
                s.a.rd.lwm, s.b.wr.peersRead, s.a.rd.msgsRead);
  }

  // ------------------------------------------------------------ reading

  /** A delimiter at the head of the queue: the reader has all there is, the writer has asked
      to terminate, and `y2`, which is `y` in a state that reads no more, may take it. */
  lemma DelimiterIn(x: End, y: End, y2: End, q: Queue<Item>, toY: seq<Command>, toX: seq<Command>)
    requires Direction(x, y, q, toY, toX) && Local(x) && Local(y) && CanRead(y) && q.flushed != [] && q.flushed[0].Delimiter?
    requires x.sig.gotTerm ==> y.sig.termsSent == 1
    requires x.sig.gotAck ==> y.sig.acksSent == 1
    requires y2.rd == y.rd && y2.sig.gotTerm == y.sig.gotTerm && y2.sig.gotAck == y.sig.gotAck && !Listens(y2)
    ensures Direction(x, y2, q.Read(), toY, toX)
  {
    hide CountInv, CreditInv, FlushedInv, OpenInv, LimitInv;
    NextItem(x.wr.accepted, q, Clean(x), Sealed(x));
    ReadMovesOne(q);
    assert x.state == Terminated;
    hide ControlInv, ContentInv;
  }

  lemma DelimiterWhileActiveGood(s: System, reply: Reply)
    requires Inv(s) && s.a.pc == Idle && CanRead(s.a) && s.ba.flushed != [] && s.ba.flushed[0].Delimiter? && s.a.state == Active
    ensures var v := s.ViewOfA();
            Good(WithViewOfA(s, s.toA, Delimit(v.(inq := v.inq.Read()), reply)))
  {
    DelimiterIn(s.b, s.a, s.a.(state := Delimited), s.ba, s.toA, s.toB);
    hide ControlInv, ContentInv, FlushedInv, OpenInv, DeliveryInv, WakeInv, CountInv, CreditInv, PauseInv;
  }

  lemma DelimiterWhilePendingGood(s: System, reply: Reply)
    requires Inv(s) && s.a.pc == Idle && CanRead(s.a) && s.ba.flushed != [] && s.ba.flushed[0].Delimiter? && s.a.state == Pending
    ensures var v := s.ViewOfA();
            Good(WithViewOfA(s, s.toA, Delimit(v.(inq := v.inq.Read()), reply)))
  {
    AckKeepsAccounts(s);
    DelimiterIn(s.b, s.a, SetState(SendAck(s.ViewOfA()), Terminating).e, s.ba, s.toA, s.toB);
    hide ControlInv, ContentInv, FlushedInv, DeliveryInv, WakeInv, CountInv, CreditInv, PauseInv;
  }

  lemma DelimiterGood(s: System, reply: Reply)
    requires Inv(s) && s.a.pc == Idle && CanRead(s.a) && s.ba.flushed != [] && s.ba.flushed[0].Delimiter?
    ensures var v := s.ViewOfA();
            Good(WithViewOfA(s, s.toA, Delimit(v.(inq := v.inq.Read()), reply)))
  {
    if s.a.state == Active { DelimiterWhileActiveGood(s, reply); } else { DelimiterWhilePendingGood(s, reply); }
  }

  lemma CheckReadGood(s: System)
    requires Inv(s) && s.a.pc == Idle && s.a.state != Destroyed
    ensures Good(WithViewOfA(s, s.toA, CheckRead(s.ViewOfA())))
  {
    hide ControlInv, ContentInv, OpenInv, CountInv, CreditInv, LimitInv;
    if CanRead(s.a) && s.ba.flushed != [] && s.ba.flushed[0].Delimiter? {
      DelimiterGood(s, Told(false));
    }
  }

  lemma NextMultiple(n: nat, k: nat)
    requires k > 0 && (n + 1) % k != 0
    ensures (n + 1) % k == n % k + 1
  {
    var q, r := n / k, n % k;
    assert n + 1 == k * q + (r + 1);
    if r + 1 < k {
      assert (n + 1) / k == q by { QuotientIs(n + 1, k, q, r + 1); }
    } else {
      QuotientIs(n + 1, k, q + 1, 0);
    }
  }

  function Credit(lwm: int, n: nat): seq<Command> {
    if lwm > 0 && n % lwm == 0 then [ActivateWrite(n)] else []
  }

  lemma ReadCredit(lwm: int, known: nat, read: nat, n: nat, c: seq<Command>)
    requires CreditInv(lwm, known, read, c) && (n == read || n == read + 1)
    ensures CreditInv(lwm, known, n, c + Credit(lwm, n))
  {
    CreditsStillRise(c, known, read, n);
    CreditAppend(c, ActivateWrite(n), known, n);
    if Credit(lwm, n) == [] {
      assert c + Credit(lwm, n) == c;
      if lwm > 0 && n != read { NextMultiple(read, lwm); }
    }
  }

  lemma TakePart(accepted: seq<Item>, q: Queue<Item>, clean: bool, sealed: bool, terms: nat, read: nat)
    requires ContentInv(accepted, q.Completed(), clean, sealed) && q.flushed != [] && q.flushed[0].Part?
    requires DeliveryInv(accepted, q.taken, q.taken, true, false, terms) && CountInv(read, q.taken)
    ensures var q', item := q.Read(), q.flushed[0];
            && DeliveryInv(accepted, q.taken + [item], q'.taken, true, false, terms)
            && CountInv(read + B(!item.more), q.taken + [item])
            && q'.Completed() == q.Completed() && q'.taken + q'.flushed == q.taken + q.flushed
  {
    NextItem(accepted, q, clean, sealed);
    ReadMovesOne(q);
    FinalsAppend(q.taken, [q.flushed[0]]);
  }

  lemma CreditSent(s: System, n: nat)
    requires Inv(s) && s.a.sig.acksSent == 0 && s.a.rd.msgsRead <= n <= s.a.rd.msgsRead + 1
    ensures var c := s.toB + Credit(s.a.rd.lwm, n);
            && ControlInv(s.a.sig.termsSent, s.a.sig.acksSent, s.b.sig.gotTerm, s.b.sig.gotAck, c)
            && WakeInv(s.a.pc == OwesWake, Listens(s.b), s.b.rd.inActive, s.ab.asleep, s.ab.flushed, c)
            && CreditInv(s.a.rd.lwm, s.b.wr.peersRead, n, c)
  {
    ReadCredit(s.a.rd.lwm, s.b.wr.peersRead, s.a.rd.msgsRead, n, s.toB);
    if Credit(s.a.rd.lwm, n) != [] {
      SendPlain(s.a.sig.termsSent, s.a.sig.acksSent, s.b.sig.gotTerm, s.b.sig.gotAck, s.toB, ActivateWrite(n));
      WakesAppend(s.toB, ActivateWrite(n));
    } else {
      assert s.toB + Credit(s.a.rd.lwm, n) == s.toB;
    }
  }

  lemma ReadPartIn(x: End, y: End, q: Queue<Item>, toY: seq<Command>, toX: seq<Command>, n: nat)
    requires Direction(x, y, q, toY, toX) && CanRead(y) && q.flushed != [] && q.flushed[0].Part?
    requires n == y.rd.msgsRead + B(!q.flushed[0].more)
    ensures Direction(x, y.(rd := y.rd.(msgsRead := n, delivered := y.rd.delivered + [q.flushed[0]])), q.Read(), toY, toX + Credit(y.rd.lwm, n))
  {
    TakePart(x.wr.accepted, q, Clean(x), Sealed(x), x.sig.termsSent, y.rd.msgsRead);
    ReadCredit(y.rd.lwm, x.wr.peersRead, y.rd.msgsRead, n, toX);
  }

  lemma ReadPartGood(s: System)
    requires Inv(s) && s.a.pc == Idle && CanRead(s.a) && s.ba.flushed != [] && s.ba.flushed[0].Part?
    ensures Good(WithViewOfA(s, s.toA, Read(s.ViewOfA())))
  {
    hide ControlInv, ContentInv, FlushedInv, OpenInv, DeliveryInv, WakeInv, CountInv, CreditInv, LimitInv;
    var n := s.a.rd.msgsRead + B(!s.ba.flushed[0].more);
    ReadPartIn(s.b, s.a, s.ba, s.toA, s.toB, n);
    CreditSent(s, n);
  }

  lemma ReadGood(s: System)
    requires Inv(s) && s.a.pc == Idle && s.a.state != Destroyed
    ensures Good(WithViewOfA(s, s.toA, Read(s.ViewOfA())))
  {
    hide ControlInv, ContentInv, OpenInv, CountInv, CreditInv, LimitInv;
    if CanRead(s.a) && s.ba.flushed != [] {
      if s.ba.flushed[0].Delimiter? { DelimiterGood(s, Got(None)); } else { ReadPartGood(s); }
    }
  }

  // ------------------------------------------------------------ writing

  lemma CheckWriteGood(s: System)
    requires Inv(s) && s.a.pc == Idle && s.a.state != Destroyed
    ensures Good(WithViewOfA(s, s.toA, CheckWrite(s.ViewOfA())))
  {
    hide ControlInv, DeliveryInv, WakeInv, CountInv, CreditInv, ContentInv, FlushedInv;
  }

  lemma AcceptMessage(accepted: seq<Item>, open: seq<Item>, part: Item, written: nat)
    requires CountInv(written, accepted) && AllOpen(open) && part.Part? && !part.more
    requires ContentInv(accepted, accepted, true, false)
    ensures CountInv(written + 1, accepted + open + [part])
    ensures ContentInv(accepted + open + [part], accepted + open + [part], true, false)
  {
    FinalsAppend(accepted, open);
    FinalsAppend(accepted + open, [part]);
    NoFinalsWhileOpen(open);
  }

  lemma StillDelivered(accepted: seq<Item>, more: seq<Item>, delivered: seq<Item>, taken: seq<Item>, listens: bool, drained: bool)
    requires DeliveryInv(accepted, delivered, taken, listens, drained, 0)
    ensures DeliveryInv(accepted + more, delivered, taken, listens, drained, 0)
  {
  }

  lemma AcceptIntoQueue(accepted: seq<Item>, open: seq<Item>, part: Item, q: Queue<Item>, written: nat)
    requires ContentInv(accepted, q.Completed(), true, false) && OpenInv(open, true, q.partial)
    requires CountInv(written, accepted) && part.Part? && !part.more
    ensures var q', accepted' := q.Write(part, false), accepted + (open + [part]);
            && ContentInv(accepted', q'.Completed(), true, false) && OpenInv([], true, q'.partial)
            && CountInv(written + 1, accepted') && accepted' == accepted + open + [part]
  {
    AcceptMessage(accepted, open, part, written);
    assert accepted + (open + [part]) == accepted + open + [part];
    assert q.Write(part, false).Completed() == accepted + open + [part];
  }

  lemma WriteOpenPartGood(s: System, body: seq<Byte>)
    requires Inv(s) && s.a.pc == Idle && s.a.state == Active && s.a.wr.outActive && !Full(s.a)
    ensures Good(WithViewOfA(s, s.toA, Write(s.ViewOfA(), body, true)))
  {
    hide ControlInv, DeliveryInv, WakeInv, CountInv, CreditInv, ContentInv, FlushedInv;
  }

  lemma WriteFinalPartOut(x: End, y: End, q: Queue<Item>, toY: seq<Command>, toX: seq<Command>, part: Item)
    requires Direction(x, y, q, toY, toX) && Local(x) && x.state == Active && x.wr.outActive && !Full(x) && part.Part? && !part.more
    ensures Direction(x.(wr := x.wr.(open := [], accepted := x.wr.accepted + x.wr.open + [part], msgsWritten := x.wr.msgsWritten + 1)), y,
                      q.Write(part, false), toY, toX)
  {
    hide ControlInv, ContentInv, OpenInv, DeliveryInv, WakeInv, CountInv, CreditInv, PauseInv;
    AcceptIntoQueue(x.wr.accepted, x.wr.open, part, q, x.wr.msgsWritten);
    StillDelivered(x.wr.accepted, x.wr.open + [part], y.rd.delivered, q.taken, Listens(y), Drained(y));
  }

  lemma WriteFinalPartGood(s: System, body: seq<Byte>)
    requires Inv(s) && s.a.pc == Idle && s.a.state == Active && s.a.wr.outActive && !Full(s.a)
    ensures Good(WithViewOfA(s, s.toA, Write(s.ViewOfA(), body, false)))
  {
    hide ControlInv, ContentInv, FlushedInv, OpenInv, DeliveryInv, WakeInv, CountInv, CreditInv, LimitInv;
    WriteFinalPartOut(s.a, s.b, s.ab, s.toB, s.toA, Part(body, false));
  }

  lemma WriteGood(s: System, body: seq<Byte>, more: bool)
    requires Inv(s) && s.a.pc == Idle && s.a.state != Destroyed
    ensures Good(WithViewOfA(s, s.toA, Write(s.ViewOfA(), body, more)))
  {
    if s.a.wr.outActive && s.a.state == Active && !Full(s.a) {
      if more { WriteOpenPartGood(s, body); } else { WriteFinalPartGood(s, body); }
    } else {
      CheckWriteGood(s);
    }
  }

  lemma RollbackGood(s: System)
    requires Inv(s) && s.a.pc == Idle && s.a.state != Destroyed
    ensures Good(WithViewOfA(s, s.toA, Rollback(s.ViewOfA())))
  {
    hide ControlInv, DeliveryInv, WakeInv, CountInv, CreditInv, ContentInv, FlushedInv;
  }

  lemma FlushOut(x: End, y: End, q: Queue<Item>, toY: seq<Command>, toX: seq<Command>)
    requires Direction(x, y, q, toY, toX) && x.pc == Idle
    ensures Direction(x.(pc := if q.FlushFindsReaderAwake() then Idle else OwesWake), y, q.Flush(), toY, toX)
  {
    FlushMovesAll(q);
    CompletedIsWhole(x.wr.accepted, q.Completed(), Clean(x), Sealed(x));
    FlushWakes(q, Listens(y), y.rd.inActive, toY);
  }

  lemma FlushGood(s: System)
    requires Inv(s) && s.a.pc == Idle && s.a.state != Destroyed
    ensures Good(WithViewOfA(s, s.toA, Flush(s.ViewOfA())))
  {
    hide ControlInv, ContentInv, FlushedInv, OpenInv, DeliveryInv, WakeInv, CountInv, CreditInv, LimitInv;
    FlushOut(s.a, s.b, s.ab, s.toB, s.toA);
  }

  lemma WakeGood(s: System)
    requires Inv(s) && s.a.pc == OwesWake && s.a.state != Destroyed
    ensures Good(WithViewOfA(s, s.toA, Wake(s.ViewOfA())))
  {
    hide ControlInv, ContentInv, FlushedInv, OpenInv, DeliveryInv, CountInv, LimitInv, PauseInv;
    SendPlain(s.a.sig.termsSent, s.a.sig.acksSent, s.b.sig.gotTerm, s.b.sig.gotAck, s.toB, ActivateRead);
    WakesAppend(s.toB, ActivateRead);
    CreditAppend(s.toB, ActivateRead, s.b.wr.peersRead, s.a.rd.msgsRead);
  }

  // ------------------------------------------------------------ terminating

  lemma TerminateByCommandGood(s: System, delay: bool)
    requires Inv(s) && s.a.pc == Idle && s.a.state in {Active, Delimited}
    ensures Good(WithViewOfA(s, s.toA, Terminate(s.ViewOfA(), delay)))
  {
    hide CountInv, OpenInv, FlushedInv, CreditInv;
    SendTermCommand(s.b.sig.gotTerm, s.b.sig.gotAck, s.toB);
    SendControl(s.toB, PipeTerm, s.a.pc == OwesWake, Listens(s.b), s.b.rd.inActive, s.ab.asleep, s.ab.flushed,
                s.a.rd.lwm, s.b.wr.peersRead, s.a.rd.msgsRead);
  }

  lemma TerminatePendingGood(s: System, delay: bool)
    requires Inv(s) && s.a.pc == Idle && s.a.state == Pending
    ensures Good(WithViewOfA(s, s.toA, Terminate(s.ViewOfA(), delay)))
  {
    hide CountInv, CreditInv;
    AckKeepsAccounts(s);
  }

  lemma TerminateGood(s: System, delay: bool)
    requires Inv(s) && s.a.pc == Idle && s.a.state != Destroyed
    ensures Good(WithViewOfA(s, s.toA, Terminate(s.ViewOfA(), delay)))
  {
    if s.a.state == Pending {
      TerminatePendingGood(s, delay);
    } else if s.a.state in {Active, Delimited} {
      TerminateByCommandGood(s, delay);
    }
  }

  lemma DelimiterAppended(accepted: seq<Item>, completed: seq<Item>, clean: bool, sealed: bool)
    requires ContentInv(accepted, completed, clean, false)
    ensures ContentInv(accepted, completed + [Delimiter], false, sealed) && Whole(completed + [Delimiter])
  {
  }

  /** The queue after the second part of `terminate`. */
  function SealQueue(q: Queue<Item>): Queue<Item> {
    q.(partial := []).Write(Delimiter, false).Flush()
  }

  lemma SealedQueue(q: Queue<Item>)
    ensures var r := SealQueue(q);
            && r.taken == q.taken && r.complete == [] && r.partial == []
            && r.Completed() == q.Completed() + [Delimiter] == r.taken + r.flushed
            && q.(partial := []).Write(Delimiter, false).FlushFindsReaderAwake() == !q.asleep
  {
    assert q.complete + [Delimiter] != [];
  }

  lemma SealWakes(q: Queue<Item>, listens: bool, inActive: bool, toY: seq<Command>)
    requires WakeInv(false, listens, inActive, q.asleep, q.flushed, toY)
    ensures WakeInv(q.asleep, listens, inActive, SealQueue(q).asleep, SealQueue(q).flushed, toY)
  {
    SealedQueue(q);
    FlushWakes(q.(partial := []).Write(Delimiter, false), listens, inActive, toY);
  }

  lemma FinishOut(x: End, y: End, q: Queue<Item>, toY: seq<Command>, toX: seq<Command>)
    requires Direction(x, y, q, toY, toX) && x.pc == Finishing && x.state in {Terminated, Pending}
    ensures Direction(x.(wr := x.wr.(open := []), pc := if q.asleep then OwesWake else Idle), y, SealQueue(q), toY, toX)
  {
    hide ControlInv, ContentInv, DeliveryInv, WakeInv, CountInv, CreditInv, SealQueue;
    SealedQueue(q);
    SealWakes(q, Listens(y), y.rd.inActive, toY);
    DelimiterAppended(x.wr.accepted, q.Completed(), Clean(x), x.state == Terminated);
  }

  lemma FinishGood(s: System)
    requires Inv(s) && s.a.pc == Finishing && s.a.state != Destroyed
    ensures Good(WithViewOfA(s, s.toA, FinishTerminate(s.ViewOfA())))
  {
    hide ControlInv, ContentInv, FlushedInv, DeliveryInv, WakeInv, CountInv, CreditInv, LimitInv;
    if s.a.hasOut {
      SealedQueue(s.ab);
      FinishOut(s.a, s.b, s.ab, s.toB, s.toA);
    }
  }

  // ------------------------------------------------------------ commands

  /** The first endpoint takes the next command of its channel. */
  function ReceiveA(s: System): Result
    requires s.toA != []
  {
    if s.a.state == Destroyed then Failed else WithViewOfA(s, s.toA[1..], Process(s.ViewOfA(), s.toA[0]))
  }

  lemma ActivateReadGood(s: System)
    requires Inv(s) && s.a.pc == Idle && s.toA != [] && s.toA[0].ActivateRead?
    ensures Good(ReceiveA(s))
  {
    hide ControlInv, ContentInv, FlushedInv, OpenInv, DeliveryInv, CountInv, LimitInv;
    TakePlain(s.b.sig.termsSent, s.b.sig.acksSent, s.a.sig.gotTerm, s.a.sig.gotAck, s.toA);
    assert CreditInv(s.b.rd.lwm, s.a.wr.peersRead, s.b.rd.msgsRead, s.toA[1..]);
  }

  lemma TakeCredit(hwm: int, lwm: int, written: nat, known: nat, read: nat, midMessage: bool, blocked: bool, c: seq<Command>)
    requires c != [] && c[0].ActivateWrite?
    requires CreditInv(lwm, known, read, c) && LimitInv(hwm, written, known, midMessage, blocked)
    ensures CreditInv(lwm, c[0].count, read, c[1..]) && LimitInv(hwm, written, c[0].count, midMessage, false)
    ensures known <= c[0].count <= read
  {
    CreditsStillRise(c[1..], c[0].count, read, read);
  }

  lemma ActivateWriteGood(s: System)
    requires Inv(s) && s.a.pc == Idle && s.toA != [] && s.toA[0].ActivateWrite?
    ensures Good(ReceiveA(s))
  {
    hide ControlInv, ContentInv, FlushedInv, OpenInv, DeliveryInv, CountInv, LimitInv, CreditInv;
    TakePlain(s.b.sig.termsSent, s.b.sig.acksSent, s.a.sig.gotTerm, s.a.sig.gotAck, s.toA);
    TakeCredit(s.a.wr.hwm, s.b.rd.lwm, s.a.wr.msgsWritten, s.a.wr.peersRead, s.b.rd.msgsRead, s.a.wr.open != [], Blocked(s.a), s.toA);
    assert WakeInv(s.b.pc == OwesWake, Listens(s.a), s.a.rd.inActive, s.ba.asleep, s.ba.flushed, s.toA[1..]);
  }

  lemma TermTaken(s: System)
    requires Inv(s) && s.toA != [] && s.toA[0].PipeTerm?
    ensures s.a.state in {Active, Delimited, Terminated}
    ensures ControlInv(s.b.sig.termsSent, s.b.sig.acksSent, true, s.a.sig.gotAck, s.toA[1..])
    ensures WakeInv(s.b.pc == OwesWake, Listens(s.a), s.a.rd.inActive, s.ba.asleep, s.ba.flushed, s.toA[1..])
    ensures CreditInv(s.b.rd.lwm, s.a.wr.peersRead, s.b.rd.msgsRead, s.toA[1..])
    ensures s.b.sig.termsSent == 1
  {
    TakeTerm(s.b.sig.termsSent, s.b.sig.acksSent, s.a.sig.gotTerm, s.a.sig.gotAck, s.toA);
    TakeControl(s.toA, s.b.pc == OwesWake, Listens(s.a), s.a.rd.inActive, s.ba.asleep, s.ba.flushed,
                s.b.rd.lwm, s.a.wr.peersRead, s.b.rd.msgsRead);
  }

  lemma BecomePendingGood(s: System)
    requires Inv(s) && s.a.pc == Idle && s.toA != [] && s.toA[0].PipeTerm? && s.a.state == Active && s.a.delay
    ensures Good(ReceiveA(s))
  {
    TermTaken(s);
    hide ControlInv, FlushedInv, OpenInv, WakeInv, CountInv, CreditInv, PauseInv;
  }

  function Acknowledged(e: End): End {
    e.(hasOut := false, sig := e.sig.(gotTerm := true, acksSent := e.sig.acksSent + 1),
       state := if e.state == Terminated then DoubleTerminated else Terminating)
  }

  lemma AcknowledgeOut(s: System)
    requires Inv(s) && s.a.pc == Idle && s.toA != [] && s.toA[0].PipeTerm? && !(s.a.state == Active && s.a.delay)
    ensures Direction(Acknowledged(s.a), s.b, s.ab, s.toB + [PipeTermAck], s.toA[1..])
  {
    TermTaken(s);
    AckKeepsAccounts(s);
  }

  lemma AcknowledgeIn(s: System)
    requires Inv(s) && s.a.pc == Idle && s.toA != [] && s.toA[0].PipeTerm? && !(s.a.state == Active && s.a.delay)
    ensures Direction(s.b, Acknowledged(s.a), s.ba, s.toA[1..], s.toB + [PipeTermAck])
  {
    TermTaken(s);
    AckKeepsAccounts(s);
  }

  lemma AcknowledgeGood(s: System)
    requires Inv(s) && s.a.pc == Idle && s.toA != [] && s.toA[0].PipeTerm? && !(s.a.state == Active && s.a.delay)
    ensures Good(ReceiveA(s))
  {
    hide ControlInv, ContentInv, FlushedInv, OpenInv, DeliveryInv, WakeInv, CountInv, CreditInv, LimitInv;
    TermTaken(s);
    AcknowledgeOut(s);
    AcknowledgeIn(s);
  }

  lemma AckTaken(s: System)
    requires Inv(s) && s.toA != [] && s.toA[0].PipeTermAck?
    ensures s.a.state in {Terminated, Terminating, DoubleTerminated}
    ensures ControlInv(s.b.sig.termsSent, s.b.sig.acksSent, s.a.sig.gotTerm, true, s.toA[1..])
    ensures CreditInv(s.b.rd.lwm, s.a.wr.peersRead, s.b.rd.msgsRead, s.toA[1..])
  {
    TakeAck(s.b.sig.termsSent, s.b.sig.acksSent, s.a.sig.gotTerm, s.a.sig.gotAck, s.toA);
    TakeControl(s.toA, s.b.pc == OwesWake, Listens(s.a), s.a.rd.inActive, s.ba.asleep, s.ba.flushed,
                s.b.rd.lwm, s.a.wr.peersRead, s.b.rd.msgsRead);
  }

  function Deleted(e: End): End {
    e.(hasOut := false, sig := e.sig.(gotAck := true, acksSent := 1, inFreed := e.sig.inFreed + 1), state := Destroyed)
  }

  function LastWords(s: System): seq<Command> {
    if s.a.state == Terminated then s.toB + [PipeTermAck] else s.toB
  }

  lemma DeleteOut(s: System)
    requires Inv(s) && s.a.pc == Idle && s.toA != [] && s.toA[0].PipeTermAck?
    ensures Direction(Deleted(s.a), s.b, s.ab, LastWords(s), s.toA[1..])
  {
    AckTaken(s);
    if s.a.state == Terminated { AckKeepsAccounts(s); }
    hide ControlInv, DeliveryInv, CountInv, CreditInv, WakeInv;
  }

  lemma DeleteIn(s: System)
    requires Inv(s) && s.a.pc == Idle && s.toA != [] && s.toA[0].PipeTermAck?
    ensures Direction(s.b, Deleted(s.a), s.ba.Drain(), s.toA[1..], LastWords(s))
  {
    AckTaken(s);
    if s.a.state == Terminated { AckKeepsAccounts(s); }
    DrainMovesAll(s.ba);
    hide ControlInv, ContentInv, FlushedInv, OpenInv, CountInv, CreditInv, LimitInv;
  }

  lemma PipeTermAckGood(s: System)
    requires Inv(s) && s.a.pc == Idle && s.toA != [] && s.toA[0].PipeTermAck?
    ensures Good(ReceiveA(s))
  {
    AckTaken(s);
    DeleteOut(s);
    DeleteIn(s);
    hide Direction;
  }

  lemma ReceiveGood(s: System)
    requires Inv(s) && s.a.pc == Idle && s.toA != []
    ensures Good(ReceiveA(s))
  {
    match s.toA[0]
    case ActivateRead => ActivateReadGood(s);
    case ActivateWrite(_) => ActivateWriteGood(s);
    case PipeTerm => if s.a.state == Active && s.a.delay { BecomePendingGood(s); } else { AcknowledgeGood(s); }
    case PipeTermAck => PipeTermAckGood(s);
  }

  lemma CallGood(s: System, call: Call)
    requires Inv(s) && call != Receive
    ensures Good(WithViewOfA(s, s.toA, CallA(s.ViewOfA(), call)))
  {
    hide Inv;
    if s.a.state != Destroyed {
      if s.a.pc == Finishing {
        if call == Continue { FinishGood(s); }
      } else if s.a.pc == OwesWake {
        if call == Continue { WakeGood(s); }
      } else {
        match call
        case DoCheckRead => CheckReadGood(s);
        case DoRead => ReadGood(s);
        case DoCheckWrite => CheckWriteGood(s);
        case DoWrite(body, more) => WriteGood(s, body, more);
        case DoRollback => RollbackGood(s);
        case DoFlush => FlushGood(s);
        case DoTerminate(delay) => TerminateGood(s, delay);
        case Continue =>
      }
    }
  }

  lemma StepAGood(s: System, call: Call)
    requires Inv(s)
    ensures Good(StepA(s, call))
  {
    if call != Receive {
      CallGood(s, call);
    } else if s.toA != [] && s.a.pc == Idle {
      ReceiveGood(s);
    }
  }

  lemma StepGood(s: System, act: Action)
    requires Inv(s)
    ensures Good(Step(s, act))
  {
    StepAGood(if act.second then s.Flip() else s, act.call);
  }

  /** No run ever fails an assertion or delivers a command to a deleted endpoint. */
  lemma {:induction false} EveryRunIsGood(c: Config, acts: seq<Action>)
    ensures Good(Exec(c, acts))
  {
    if acts == [] {
      InitGood(c);
    } else {
      EveryRunIsGood(c, acts[..|acts| - 1]);
      StepGood(Exec(c, acts[..|acts| - 1]).s, acts[|acts| - 1]);
    }
  }
}

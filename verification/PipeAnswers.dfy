/** What each call at an endpoint of a pipe pair tells its caller, and what it brings about, in
    every run. */
module PipeAnswers {
  import opened Basics
  import opened QueueSpec
  import opened Wire
  import opened PipeModel
  import opened PipeInvariant
  import opened PipeSteps
  import opened PipeTheorems

  // ------------------------------------------------------------ reading

  /** The first endpoint may read, and what comes next is a part. */
  predicate PartWaits(s: System) { CanRead(s.a) && s.ba.flushed != [] && s.ba.flushed[0].Part? }

  /** A read that yields the part after those delivered so far. */
  predicate Yields(s: System, r: Result) {
    && |s.a.rd.delivered| < |s.b.wr.accepted|
    && var part := s.b.wr.accepted[|s.a.rd.delivered|];
    r.Done? && r.reply == Got(Some(part)) && r.s.a.rd.delivered == s.a.rd.delivered + [part]
  }

  lemma NextPart(s: System)
    requires Inv(s) && Listens(s.a) && s.ba.flushed != []
    ensures s.ba.flushed[0].Part? <==> |s.a.rd.delivered| < |s.b.wr.accepted|
    ensures s.ba.flushed[0].Part? ==> s.ba.flushed[0] == s.b.wr.accepted[|s.a.rd.delivered|]
  {
    hide ControlInv, FlushedInv, OpenInv, WakeInv, CountInv, CreditInv, LimitInv, PauseInv;
    var q := s.ba;
    assert q.taken == s.a.rd.delivered;
    assert q.Completed()[|q.taken|] == q.flushed[0];
  }

  /** What check_read and read say of a state. */
  predicate ReadingIsTrue(s: System) {
    var check, read := StepA(s, DoCheckRead), StepA(s, DoRead);
    && check.Done? && read.Done?
    && (check.reply == Told(true) <==> PartWaits(s))
    && ((read.reply.Got? && read.reply.item.Some?) <==> PartWaits(s))
    && (PartWaits(s) ==> check.s == s && Yields(s, read))
  }

  lemma ReadingAnswers(s: System)
    requires Inv(s) && s.a.pc == Idle
    ensures ReadingIsTrue(s)
  {
    hide Inv;
    CallGood(s, DoCheckRead);
    CallGood(s, DoRead);
    if Listens(s.a) && s.ba.flushed != [] { NextPart(s); }
  }

  /** In every run check_read says yes exactly if a read would yield a part, which is exactly if the endpoint
      listens and is active and a part comes next; the read then yields the part after those delivered. */
  lemma {:induction false} EveryReadIsAnswered(c: Config, acts: seq<Action>, fromSecond: bool)
    ensures Exec(c, acts).Done?
    ensures var s := Seen(c, acts, fromSecond); s.a.pc == Idle ==> ReadingIsTrue(s)
  {
    BothDirections(c, acts);
    hide Inv, ReadingIsTrue;
    if Seen(c, acts, fromSecond).a.pc == Idle { ReadingAnswers(Seen(c, acts, fromSecond)); }
  }

  /** All that the second endpoint has accepted is flushed, and no wake-up is on its way. */
  predicate Settled(s: System) { s.ba.complete == [] && WakesDue(s.b, s.toA) == 0 }

  lemma SettledReads(s: System)
    requires Inv(s) && Settled(s) && Listens(s.a)
    ensures PartWaits(s) <==> s.a.rd.delivered != s.b.wr.accepted
  {
    if s.ba.flushed != [] { NextPart(s); }
    hide ControlInv, FlushedInv, OpenInv, CountInv, CreditInv, LimitInv, PauseInv;
    assert s.ba.Completed() == s.ba.taken + s.ba.flushed;
  }

  /** Once everything is flushed and the wake-ups have arrived, a listening endpoint reads on
      exactly until it has got all that its peer has accepted. */
  lemma {:induction false} SettledReaderGetsEverything(c: Config, acts: seq<Action>, fromSecond: bool)
    ensures Exec(c, acts).Done?
    ensures var s := Seen(c, acts, fromSecond);
            Settled(s) && Listens(s.a) && s.a.pc == Idle ==>
              && StepA(s, DoCheckRead).Done?
              && (StepA(s, DoCheckRead).reply == Told(true) <==> s.a.rd.delivered != s.b.wr.accepted)
  {
    BothDirections(c, acts);
    var s := Seen(c, acts, fromSecond);
    hide Inv, StepA;
    if Settled(s) && Listens(s.a) && s.a.pc == Idle {
      ReadingAnswers(s);
      SettledReads(s);
    }
  }

  // ------------------------------------------------------------ writing

  /** Room for one more message, as far as the first endpoint knows. */
  predicate HasRoom(e: End) { e.wr.hwm <= 0 || e.wr.msgsWritten - e.wr.peersRead < e.wr.hwm }

  /** What check_write and write say of a state; an accepted part is appended and nothing else happens to earlier ones. */
  predicate WritingIsTrue(s: System, body: seq<Byte>, more: bool) {
    var check, write := StepA(s, DoCheckWrite), StepA(s, DoWrite(body, more));
    var free, part := s.a.state == Active && HasRoom(s.a), Part(body, more);
    && check.Done? && write.Done?
    && (check.reply == Told(true) <==> free) && (write.reply == Told(true) <==> free)
    && (if free then
          && write.s.a.wr.accepted + write.s.a.wr.open == s.a.wr.accepted + s.a.wr.open + [part]
          && (more <==> write.s.a.wr.open != [])
        else write.s.a.wr.accepted == s.a.wr.accepted && write.s.a.wr.open == s.a.wr.open)
  }

  lemma LimitHolds(s: System)
    requires Inv(s)
    ensures s.a.wr.hwm > 0 ==> s.a.wr.msgsWritten - s.a.wr.peersRead <= s.a.wr.hwm
    ensures s.a.state == Active && !s.a.wr.outActive ==> Full(s.a)
  {
    hide ControlInv, ContentInv, FlushedInv, OpenInv, DeliveryInv, WakeInv, CountInv, CreditInv, PauseInv;
  }

  lemma WritingAnswers(s: System, body: seq<Byte>, more: bool)
    requires Inv(s) && s.a.pc == Idle
    ensures WritingIsTrue(s, body, more)
  {
    hide Inv;
    LimitHolds(s);
    var wr, part := s.a.wr, Part(body, more);
    assert wr.accepted + wr.open + [part] + [] == wr.accepted + wr.open + [part];
    assert wr.accepted + (wr.open + [part]) == wr.accepted + wr.open + [part];
  }

  /** In every run a write is accepted exactly if the endpoint is active and fewer messages than the
      limit are outstanding as far as it knows. */
  lemma {:induction false} EveryWriteIsAnswered(c: Config, acts: seq<Action>, fromSecond: bool, body: seq<Byte>, more: bool)
    ensures Exec(c, acts).Done?
    ensures var s := Seen(c, acts, fromSecond); s.a.pc == Idle ==> WritingIsTrue(s, body, more)
  {
    BothDirections(c, acts);
    hide Inv, WritingIsTrue;
    if Seen(c, acts, fromSecond).a.pc == Idle { WritingAnswers(Seen(c, acts, fromSecond), body, more); }
  }

  /** After a flush of an active endpoint all it has accepted is published; after a rollback the unfinished message is gone. */
  predicate Publishes(s: System) {
    var flush, back := StepA(s, DoFlush), StepA(s, DoRollback);
    && flush.Done? && back.Done?
    && flush.s.ab.taken + flush.s.ab.flushed == s.a.wr.accepted && flush.s.ab.complete == []
    && flush.s.ab.partial == s.a.wr.open && flush.s.a.wr == s.a.wr
    && back.s.ab == s.ab.(partial := []) && back.s.a.wr == s.a.wr.(open := [])
  }

  lemma ActiveQueue(s: System)
    requires Inv(s) && s.a.state == Active
    ensures s.a.hasOut && s.ab.Completed() == s.a.wr.accepted && s.ab.partial == s.a.wr.open && AllOpen(s.a.wr.open)
  {
    hide ControlInv, FlushedInv, DeliveryInv, WakeInv, CountInv, CreditInv, LimitInv, PauseInv;
  }

  lemma FlushPublishes(s: System)
    requires Inv(s) && s.a.pc == Idle && s.a.state == Active
    ensures Publishes(s)
  {
    hide Inv;
    ActiveQueue(s);
    assert s.ab.taken + (s.ab.flushed + s.ab.complete) == s.ab.Completed();
  }

  lemma {:induction false} EveryFlushPublishes(c: Config, acts: seq<Action>, fromSecond: bool)
    ensures Exec(c, acts).Done?
    ensures var s := Seen(c, acts, fromSecond); s.a.pc == Idle && s.a.state == Active ==> Publishes(s)
  {
    BothDirections(c, acts);
    var s := Seen(c, acts, fromSecond);
    hide Inv, Publishes;
    if s.a.pc == Idle && s.a.state == Active { FlushPublishes(s); }
  }

  // ------------------------------------------------------------ terminating

  /** What processing pipe_term leads to: only an active endpoint with delay keeps reading, any other acknowledges at once. */
  predicate TermIsAnswered(s: System) {
    var r := StepA(s, Receive);
    && r.Done? && r.s.a.sig.gotTerm
    && (if s.a.state == Active && s.a.delay then r.s.a.state == Pending && r.s.toB == s.toB
        else r.s.toB == s.toB + [PipeTermAck] && !r.s.a.hasOut && r.s.a.state in {Terminating, DoubleTerminated})
    && (Listens(s.a) && !s.a.delay ==> r.s.a.state == Terminating && r.s.a.sig.acksSent == 1)
  }

  lemma TermAnswers(s: System)
    requires Inv(s) && s.a.pc == Idle && s.toA != [] && s.toA[0] == PipeTerm
    ensures TermIsAnswered(s)
  {
    hide Inv;
    ReceiveGood(s);
    TermFinds(s);
  }

  /** The states in which pipe_term arrives. */
  lemma TermFinds(s: System)
    requires Inv(s) && s.toA != [] && s.toA[0] == PipeTerm
    ensures s.a.state in {Active, Delimited, Terminated} && s.a.sig.acksSent == 0
  {
    hide ContentInv, FlushedInv, OpenInv, DeliveryInv, WakeInv, CountInv, CreditInv, LimitInv, PauseInv;
    assert Control(s.toA)[0] == PipeTerm;
    assert ControlInv(s.b.sig.termsSent, s.b.sig.acksSent, s.a.sig.gotTerm, s.a.sig.gotAck, s.toA);
  }

  lemma {:induction false} EveryTermIsAnswered(c: Config, acts: seq<Action>, fromSecond: bool)
    ensures Exec(c, acts).Done?
    ensures var s := Seen(c, acts, fromSecond); s.a.pc == Idle && s.toA != [] && s.toA[0] == PipeTerm ==> TermIsAnswered(s)
  {
    BothDirections(c, acts);
    var s := Seen(c, acts, fromSecond);
    hide Inv, TermIsAnswered;
    if s.a.pc == Idle && s.toA != [] && s.toA[0] == PipeTerm { TermAnswers(s); }
  }

  /** What terminate brings about at once: an end that has not heard of termination announces it; one that waits
      for the delimiter acknowledges if it is not to wait; any other end is terminating already. */
  predicate TerminateIsAnswered(s: System, delay: bool) {
    var r := StepA(s, DoTerminate(delay));
    && r.Done? && r.s.a.asked && r.s.a.delay == delay
    && (s.a.state in {Active, Delimited} ==> r.s.a.state == Terminated && r.s.toB == s.toB + [PipeTerm])
    && (s.a.state == Pending && !delay ==> r.s.a.state == Terminating && r.s.toB == s.toB + [PipeTermAck])
    && (s.a.state == Pending && delay ==> r.s.a.state == Pending && r.s.toB == s.toB)
    && (s.a.state in {Terminated, Terminating, DoubleTerminated} ==> r.s == s.(a := s.a.(delay := delay, asked := true)))
  }

  lemma {:induction false} EveryTerminateIsAnswered(c: Config, acts: seq<Action>, fromSecond: bool, delay: bool)
    ensures Exec(c, acts).Done?
    ensures var s := Seen(c, acts, fromSecond); s.a.pc == Idle && s.a.state != Destroyed ==> TerminateIsAnswered(s, delay)
  {
    hide Inv, Exec;
    BothDirections(c, acts);
  }

  /** An end that was asked to terminate does so, and one that waits for the delimiter is to. */
  predicate Turned(e: End) { (e.asked ==> e.state !in {Active, Delimited}) && (e.state == Pending ==> e.delay) }

  predicate StaysTurned(e: End, o: Outcome) { o.Ok? ==> Turned(o.v.e) && (e.asked ==> o.v.e.asked) }

  lemma ReadingTurns(v: View)
    requires Turned(v.e)
    ensures StaysTurned(v.e, CheckRead(v)) && StaysTurned(v.e, Read(v))
  {
  }

  lemma WritingTurns(v: View, body: seq<Byte>, more: bool)
    requires Turned(v.e)
    ensures StaysTurned(v.e, Write(v, body, more)) && StaysTurned(v.e, CheckWrite(v))
    ensures StaysTurned(v.e, Rollback(v)) && StaysTurned(v.e, Flush(v))
  {
  }

  lemma TerminatingTurns(v: View, delay: bool)
    requires Turned(v.e)
    ensures StaysTurned(v.e, Terminate(v, delay)) && StaysTurned(v.e, FinishTerminate(v))
  {
  }

  lemma ProcessingTurns(v: View, cmd: Command)
    requires Turned(v.e)
    ensures StaysTurned(v.e, Process(v, cmd))
  {
  }

  lemma CallTurns(v: View, call: Call)
    requires Turned(v.e)
    ensures StaysTurned(v.e, CallA(v, call))
  {
    hide CheckRead, Read, CheckWrite, Write, Rollback, Flush, Terminate, FinishTerminate;
    ReadingTurns(v);
    WritingTurns(v, if call.DoWrite? then call.body else [], call.DoWrite? && call.more);
    TerminatingTurns(v, call.DoTerminate? && call.delay);
  }

  lemma StepTurns(s: System, call: Call)
    requires Turned(s.a)
    ensures var r := StepA(s, call); r.Done? ==> Turned(r.s.a) && (s.a.asked ==> r.s.a.asked) && r.s.b == s.b
  {
    hide CallA, Process;
    if call != Receive {
      CallTurns(s.ViewOfA(), call);
    } else if s.toA != [] {
      ProcessingTurns(s.ViewOfA(), s.toA[0]);
    }
  }

  lemma {:induction false} EveryRunTurns(c: Config, acts: seq<Action>)
    ensures Exec(c, acts).Done? && Turned(After(c, acts).a) && Turned(After(c, acts).b)
  {
    hide StepA, Inv;
    EveryRunIsGood(c, acts);
    if acts != [] {
      var init, act := acts[..|acts| - 1], acts[|acts| - 1];
      EveryRunTurns(c, init);
      StepTurns(if act.second then After(c, init).Flip() else After(c, init), act.call);
    }
  }

  lemma {:induction false} AskedStays(c: Config, acts: seq<Action>, more: seq<Action>, fromSecond: bool)
    requires Seen(c, acts, fromSecond).a.asked
    ensures Seen(c, acts + more, fromSecond).a.asked
  {
    hide StepA, Inv;
    if more == [] {
      assert acts + more == acts;
    } else {
      var init, act := more[..|more| - 1], more[|more| - 1];
      AskedStays(c, acts, init, fromSecond);
      assert (acts + more)[..|acts + more| - 1] == acts + init;
      EveryRunTurns(c, acts + init);
      EveryRunTurns(c, acts + more);
      StepTurns(if act.second then After(c, acts + init).Flip() else After(c, acts + init), act.call);
    }
  }

  /** Either both ends are gone, or one waits for the other, which is to read all and gets something on its next read. */
  predicate Finishes(s: System) {
    || (s.a.state == Destroyed && s.b.state == Destroyed)
    || (s.a.state == Terminated && s.b.state == Pending && s.b.delay && ReadsOn(s.Flip()))
    || (s.b.state == Terminated && s.a.state == Pending && s.a.delay && ReadsOn(s))
  }

  /** Once an end has called terminate, then however the run goes on, in every quiet state both ends are gone or one
      is about to read on; without delay both are gone. */
  lemma {:induction false} TerminationFinishes(c: Config, acts: seq<Action>, fromSecond: bool, delay: bool, more: seq<Action>)
    ensures Exec(c, acts).Done?
    ensures var s, t := Seen(c, acts, fromSecond), Seen(c, acts + [Action(fromSecond, DoTerminate(delay))] + more, fromSecond);
            s.a.pc == Idle && s.a.state != Destroyed && Quiet(t) ==>
              Finishes(t) && (!t.a.delay && !t.b.delay ==> t.a.state == Destroyed && t.b.state == Destroyed)
  {
    hide StepA, Inv, TerminateIsAnswered, ReadsOn;
    var s, all := Seen(c, acts, fromSecond), acts + [Action(fromSecond, DoTerminate(delay))];
    var t := Seen(c, all + more, fromSecond);
    EveryRunTurns(c, acts);
    if s.a.pc == Idle && s.a.state != Destroyed && Quiet(t) {
      EveryTerminateIsAnswered(c, acts, fromSecond, delay);
      TerminateAsks(s, delay);
      assert all[..|acts|] == acts;
      EveryRunTurns(c, all);
      AskedStays(c, all, more, fromSecond);
      EveryRunTurns(c, all + more);
      TerminationNeverStuck(c, all + more);
    }
  }

  lemma TerminateAsks(s: System, delay: bool)
    requires TerminateIsAnswered(s, delay)
    ensures var r := StepA(s, DoTerminate(delay)); r.Done? && r.s.a.asked
  {
  }
}

/** What every run of a pipe pair guarantees, for any watermarks, any delay settings and any
    interleaving of calls and command deliveries at the two ends. */
module PipeTheorems {
  import opened Basics
  import opened QueueSpec
  import opened PipeModel
  import opened Wire
  import opened PipeInvariant
  import opened PipeSteps

  /** The state a run leads to; every run leads to one (`EveryRunIsGood`). */
  function After(c: Config, acts: seq<Action>): System {
    match Exec(c, acts)
    case Failed => PipePair(c.hwm0, c.hwm1, c.delay0, c.delay1)
    case Done(s, _) => s
  }

  /** Facts about one direction are stated once and proved for both. */
  lemma {:induction false} BothDirections(c: Config, acts: seq<Action>)
    ensures Exec(c, acts).Done? && Inv(After(c, acts)) && Inv(After(c, acts).Flip())
  {
    EveryRunIsGood(c, acts);
  }

  // ------------------------------------------------------------ termination

  /** What holds of an endpoint `x` with peer `y` and pending commands `toX`. */
  predicate TerminatesOnce(x: End, y: End, toX: seq<Command>) {
    && x.sig.termsSent <= 1 && x.sig.acksSent <= 1
    && (x.state == Destroyed ==> x.sig.acksSent == 1 && toX == [] && !y.hasOut)
    && x.sig.inFreed == (if x.state == Destroyed then 1 else 0)
    && (x.hasOut ==> y.state != Destroyed)
  }

  /** Each endpoint sends at most one term command and exactly one acknowledgement before it
      is deleted, nothing is in flight to a deleted endpoint, and each queue is freed once,
      by its reader, only after its writer has let go of it. */
  lemma {:induction false} EveryRunTerminatesOnce(c: Config, acts: seq<Action>)
    ensures Exec(c, acts).Done?
    ensures var s := After(c, acts); TerminatesOnce(s.a, s.b, s.toA) && TerminatesOnce(s.b, s.a, s.toB)
  {
    BothDirections(c, acts);
    hide ContentInv, FlushedInv, OpenInv, DeliveryInv, WakeInv, CountInv, CreditInv, LimitInv, PauseInv;
  }

  predicate Quiet(s: System) { s.toA == [] && s.toB == [] && s.a.pc == Idle && s.b.pc == Idle }

  /** The next read of the first endpoint takes an item: it hands over a part, or it meets the
      delimiter and the endpoint acknowledges. */
  predicate ReadsOn(s: System) {
    var r := StepA(s, DoRead);
    && r.Done? && |r.s.ba.flushed| == |s.ba.flushed| - 1
    && if r.reply.Got? && r.reply.item.Some? then r.s.a.rd.delivered == s.a.rd.delivered + [r.reply.item.value]
       else r.s.a.state == Terminating && r.s.a.sig.acksSent == 1
  }

  lemma PendingHasItems(s: System)
    requires Inv(s) && Quiet(s) && s.b.state == Terminated && s.a.state == Pending
    ensures CanRead(s.a) && s.ba.flushed != [] && s.a.sig.acksSent == 0
  {
    hide ControlInv, OpenInv, CountInv, CreditInv, LimitInv, PauseInv;
    assert s.ba.taken == s.a.rd.delivered;
    assert s.ba.Completed() == s.ba.taken + s.ba.flushed;
  }

  lemma PendingKeepsReading(s: System)
    requires Inv(s) && Quiet(s) && s.b.state == Terminated && s.a.state == Pending
    ensures ReadsOn(s)
  {
    PendingHasItems(s);
    hide Inv;
  }

  lemma QuietStates(s: System)
    requires Inv(s) && Quiet(s)
    ensures (s.a.state, s.b.state) in {(Active, Active), (Destroyed, Destroyed), (Terminated, Pending), (Pending, Terminated)}
  {
    hide ContentInv, FlushedInv, OpenInv, WakeInv, CountInv, CreditInv, LimitInv, PauseInv;
    assert s.b.sig.gotTerm <==> s.a.sig.termsSent == 1;
    assert s.a.sig.gotTerm <==> s.b.sig.termsSent == 1;
  }

  /** Termination never gets stuck: with no command in flight either nobody has started, or
      both ends are gone, or one end waits for the other to finish reading — and that one
      gets something on its next read. */
  lemma {:induction false} TerminationNeverStuck(c: Config, acts: seq<Action>)
    ensures Exec(c, acts).Done?
    ensures var s := After(c, acts);
            Quiet(s) ==>
              || (s.a.state == Active && s.b.state == Active)
              || (s.a.state == Destroyed && s.b.state == Destroyed)
              || (s.a.state == Terminated && s.b.state == Pending && ReadsOn(s.Flip()))
              || (s.b.state == Terminated && s.a.state == Pending && ReadsOn(s))
  {
    BothDirections(c, acts);
    var s := After(c, acts);
    hide Inv, ReadsOn;
    if Quiet(s) {
      QuietStates(s);
      if s.a.state == Terminated { PendingKeepsReading(s.Flip()); }
      if s.b.state == Terminated { PendingKeepsReading(s); }
    }
  }

  // ------------------------------------------------------------ delivery

  /** `y` has been given a prefix of what `x` completed, never less than all of it when it
      leaves the stream for lack of items. */
  predicate DeliversInOrder(x: End, y: End) {
    && y.rd.delivered <= x.wr.accepted
    && Whole(x.wr.accepted)
    && (y.state in {Terminating, Destroyed} && y.delay && !y.asked ==> y.rd.delivered == x.wr.accepted)
  }

  /** Graceful drain: an endpoint with delay set that does not call `terminate` has read
      exactly the complete messages its peer wrote, in order and without the unfinished
      tail, by the time it is terminating; and at all times it has read a prefix of them. */
  lemma {:induction false} EveryRunDeliversInOrder(c: Config, acts: seq<Action>)
    ensures Exec(c, acts).Done?
    ensures var s := After(c, acts); DeliversInOrder(s.a, s.b) && DeliversInOrder(s.b, s.a)
  {
    BothDirections(c, acts);
    hide ControlInv, FlushedInv, OpenInv, WakeInv, CountInv, CreditInv, LimitInv, PauseInv;
  }

  /** Once its peer has asked for termination, nothing more is accepted: the list to be
      drained no longer grows. */
  lemma {:induction false} AcceptedIsFinal(c: Config, acts: seq<Action>, act: Action)
    ensures Exec(c, acts).Done? && Exec(c, acts + [act]).Done?
    ensures var s, s' := After(c, acts), After(c, acts + [act]);
            && s.a.wr.accepted <= s'.a.wr.accepted && s.b.wr.accepted <= s'.b.wr.accepted
            && (s.a.state != Active ==> s'.a.wr.accepted == s.a.wr.accepted)
            && (s.b.state != Active ==> s'.b.wr.accepted == s.b.wr.accepted)
  {
    EveryRunIsGood(c, acts);
    EveryRunIsGood(c, acts + [act]);
    assert (acts + [act])[..|acts|] == acts;
    var s := After(c, acts);
    AcceptedGrowsA(s, act.call);
    AcceptedGrowsA(s.Flip(), act.call);
  }

  /** The outcome leaves the list of accepted parts alone. */
  predicate AcceptsNothing(v: View, o: Outcome) { o.Ok? ==> o.v.e.wr.accepted == v.e.wr.accepted }

  lemma ReadingAcceptsNothing(v: View)
    ensures AcceptsNothing(v, CheckRead(v)) && AcceptsNothing(v, Read(v))
  {
  }

  lemma TerminatingAcceptsNothing(v: View, delay: bool)
    ensures AcceptsNothing(v, Terminate(v, delay)) && AcceptsNothing(v, FinishTerminate(v))
  {
  }

  lemma PipeTermAcceptsNothing(v: View)
    ensures AcceptsNothing(v, ProcessPipeTerm(v))
  {
  }

  lemma PipeTermAckAcceptsNothing(v: View)
    ensures AcceptsNothing(v, ProcessPipeTermAck(v))
  {
  }

  lemma ProcessingAcceptsNothing(v: View, cmd: Command)
    ensures AcceptsNothing(v, Process(v, cmd))
  {
    hide ProcessPipeTerm, ProcessPipeTermAck;
    PipeTermAcceptsNothing(v);
    PipeTermAckAcceptsNothing(v);
  }

  lemma CallAccepts(v: View, call: Call)
    ensures var o := CallA(v, call);
            o.Ok? ==> v.e.wr.accepted <= o.v.e.wr.accepted && (v.e.state != Active ==> o.v.e.wr.accepted == v.e.wr.accepted)
  {
    hide CheckRead, Read, Terminate, FinishTerminate;
    ReadingAcceptsNothing(v);
    TerminatingAcceptsNothing(v, if call.DoTerminate? then call.delay else false);
  }

  lemma AcceptedGrowsA(s: System, call: Call)
    ensures var r := StepA(s, call);
            r.Done? ==>
              && r.s.b.wr.accepted == s.b.wr.accepted && s.a.wr.accepted <= r.s.a.wr.accepted
              && (s.a.state != Active ==> r.s.a.wr.accepted == s.a.wr.accepted)
  {
    hide CallA, Process;
    if call != Receive {
      CallAccepts(s.ViewOfA(), call);
    } else if s.toA != [] {
      ProcessingAcceptsNothing(s.ViewOfA(), s.toA[0]);
    }
  }

  // ------------------------------------------------------------ wake-ups

  /** How many wake-ups for `y` are in its channel or still to be sent by `x`. */
  function WakesDue(x: End, toY: seq<Command>): nat { Wakes(toY) + B(x.pc == OwesWake) }

  predicate NeverLosesWakeUp(x: End, y: End, q: Queue<Item>, toY: seq<Command>) {
    Listens(y) ==>
      && (!y.rd.inActive <==> (q.asleep || WakesDue(x, toY) == 1))
      && !(q.asleep && WakesDue(x, toY) > 0)
      && (q.flushed != [] && !y.rd.inActive ==> WakesDue(x, toY) == 1)
  }

  /** An endpoint that still reads is inactive exactly when its queue knows it sleeps or one
      wake-up is due, so flushed items at a sleeping endpoint always have exactly one on
      the way. */
  lemma {:induction false} EveryRunKeepsWakeUps(c: Config, acts: seq<Action>)
    ensures Exec(c, acts).Done?
    ensures var s := After(c, acts);
            NeverLosesWakeUp(s.a, s.b, s.ab, s.toB) && NeverLosesWakeUp(s.b, s.a, s.ba, s.toA)
  {
    BothDirections(c, acts);
    hide ControlInv, ContentInv, FlushedInv, OpenInv, DeliveryInv, CountInv, CreditInv, LimitInv, PauseInv;
  }

  // ------------------------------------------------------------ flow control

  /** The low watermark is half the limit, rounded up, or a fixed gap below a large one. So it is
      positive and at most the high one for every limit, and below it, as the design asks,
      exactly from two messages on. */
  lemma LowWatermark(hwm: int)
    ensures 0 < hwm <= 2 * MAX_WM_DELTA ==> hwm <= 2 * ComputeLwm(hwm) <= hwm + 1
    ensures hwm > 2 * MAX_WM_DELTA ==> hwm - ComputeLwm(hwm) == MAX_WM_DELTA
    ensures hwm > 0 ==> 0 < ComputeLwm(hwm) <= hwm && hwm - ComputeLwm(hwm) <= MAX_WM_DELTA
    ensures hwm > 0 ==> (ComputeLwm(hwm) < hwm <==> hwm >= 2)
    ensures hwm <= 0 ==> ComputeLwm(hwm) <= 0
  {
  }

  /** No credit is on its way to the writer. */
  predicate NoCredit(toX: seq<Command>) { forall i | 0 <= i < |toX| :: !toX[i].ActivateWrite? }

  lemma {:induction false} CreditKnown(c: seq<Command>, known: nat)
    requires NoCredit(c)
    ensures LastCredit(c, known) == known
  {
    if c != [] { CreditKnown(c[1..], known); }
  }

  lemma {:induction false} FinalsOfPrefix(s: seq<Item>, t: seq<Item>)
    requires s <= t
    ensures Finals(s) <= Finals(t)
  {
    assert t == s + t[|s|..];
    FinalsAppend(s, t[|s|..]);
  }

  predicate Bounded(x: End, y: End, toX: seq<Command>) {
    && x.wr.msgsWritten == Finals(x.wr.accepted) && y.rd.msgsRead == Finals(y.rd.delivered)
    && x.wr.peersRead <= y.rd.msgsRead <= x.wr.msgsWritten
    && (x.wr.hwm > 0 ==> x.wr.msgsWritten - y.rd.msgsRead <= x.wr.msgsWritten - x.wr.peersRead <= x.wr.hwm)
    && (x.state == Active && !x.wr.outActive ==> Full(x))
    && (x.wr.hwm > 0 && NoCredit(toX) ==> y.rd.msgsRead - x.wr.peersRead < y.rd.lwm <= x.wr.hwm)
    && (x.wr.hwm > 0 && NoCredit(toX) && y.rd.msgsRead == x.wr.msgsWritten && x.state == Active ==> x.wr.outActive && !Full(x))
  }

  lemma DirectionBounded(x: End, y: End, q: Queue<Item>, toY: seq<Command>, toX: seq<Command>)
    requires Direction(x, y, q, toY, toX)
    ensures Bounded(x, y, toX)
  {
    hide ControlInv, ContentInv, FlushedInv, OpenInv, WakeInv, PauseInv;
    FinalsOfPrefix(y.rd.delivered, x.wr.accepted);
    CreditsStillRise(toX, x.wr.peersRead, y.rd.msgsRead, y.rd.msgsRead);
    LowWatermark(x.wr.hwm);
    if NoCredit(toX) { CreditKnown(toX, x.wr.peersRead); }
  }

  /** At most `hwm` complete messages are ever outstanding; a writer is blocked only with
      exactly `hwm` outstanding in its view; and when its peer has read everything and no
      credit is in flight, fewer than `lwm` are outstanding and the writer is not blocked. */
  lemma {:induction false} EveryRunIsBounded(c: Config, acts: seq<Action>)
    ensures Exec(c, acts).Done?
    ensures var s := After(c, acts); Bounded(s.a, s.b, s.toA) && Bounded(s.b, s.a, s.toB)
  {
    BothDirections(c, acts);
    var s := After(c, acts);
    hide Direction;
    DirectionBounded(s.a, s.b, s.ab, s.toB, s.toA);
    DirectionBounded(s.b, s.a, s.ba, s.toA, s.toB);
  }

  // ------------------------------------------------------------ multipart messages

  /** The pair as seen from either endpoint. */
  function Seen(c: Config, acts: seq<Action>, fromSecond: bool): System {
    if fromSecond then After(c, acts).Flip() else After(c, acts)
  }

  /** Whatever has happened, no call at either endpoint and no delivery fails an assertion. */
  lemma {:induction false} EveryCallSucceeds(c: Config, acts: seq<Action>, fromSecond: bool, call: Call)
    ensures Exec(c, acts).Done? && StepA(Seen(c, acts, fromSecond), call).Done?
  {
    hide Inv, StepA;
    BothDirections(c, acts);
    StepAGood(Seen(c, acts, fromSecond), call);
  }

  /** Between the parts of a message, the next part of it is accepted. */
  lemma {:induction false} LaterPartsAreNeverRefused(c: Config, acts: seq<Action>, fromSecond: bool, body: seq<Byte>, more: bool)
    ensures Exec(c, acts).Done?
    ensures var s := Seen(c, acts, fromSecond);
            s.a.state == Active && s.a.pc == Idle && s.a.wr.open != [] ==>
              var r := StepA(s, DoWrite(body, more));
              r.Done? && r.reply == Told(true)
  {
    BothDirections(c, acts);
    hide ControlInv, ContentInv, FlushedInv, OpenInv, DeliveryInv, WakeInv, CountInv, CreditInv, PauseInv;
  }

  lemma MidMessageHasMore(x: End, y: End, q: Queue<Item>, toY: seq<Command>, toX: seq<Command>)
    requires Direction(x, y, q, toY, toX) && Listens(y) && !Whole(y.rd.delivered)
    ensures y.rd.inActive && q.flushed != [] && q.flushed[0].Part?
  {
    hide ControlInv, OpenInv, WakeInv, CountInv, CreditInv, LimitInv;
    assert q.taken + [] == q.taken;
    NextItem(x.wr.accepted, q, Clean(x), Sealed(x));
  }

  lemma NextReadYieldsPart(s: System)
    requires Inv(s) && Listens(s.a) && s.a.pc == Idle && !Whole(s.a.rd.delivered)
    ensures var r := StepA(s, DoRead);
            && r.Done? && r.reply.Got? && r.reply.item.Some? && r.reply.item.value.Part?
            && r.s.a.rd.delivered == s.a.rd.delivered + [r.reply.item.value]
  {
    MidMessageHasMore(s.b, s.a, s.ba, s.toA, s.toB);
    hide Direction;
  }

  /** Once a part that announces more has been read, the next read yields the next part. */
  lemma {:induction false} LaterPartsAreReady(c: Config, acts: seq<Action>, fromSecond: bool)
    ensures Exec(c, acts).Done?
    ensures var s := Seen(c, acts, fromSecond);
            Listens(s.a) && s.a.pc == Idle && !Whole(s.a.rd.delivered) ==>
              var r := StepA(s, DoRead);
              && r.Done? && r.reply.Got? && r.reply.item.Some? && r.reply.item.value.Part?
              && r.s.a.rd.delivered == s.a.rd.delivered + [r.reply.item.value]
  {
    BothDirections(c, acts);
    var s := Seen(c, acts, fromSecond);
    hide Inv;
    if Listens(s.a) && s.a.pc == Idle && !Whole(s.a.rd.delivered) { NextReadYieldsPart(s); }
  }
}

/** The inductive invariant of the pipe pair, stated for one direction of flow: `x` writes,
    `y` reads, `q` is the queue between them and `toY` the commands from `x` to `y`. */
module PipeInvariant {
  import opened Basics
  import opened QueueSpec
  import opened PipeModel

  // ------------------------------------------------- reading command channels

  /** The termination commands of a channel, in order. */
  function Control(c: seq<Command>): seq<Command> {
    if c == [] then []
    else (if c[0].PipeTerm? || c[0].PipeTermAck? then [c[0]] else []) + Control(c[1..])
  }

  /** Nothing follows an acknowledgement. */
  predicate AckLast(c: seq<Command>) {
    c == [] || (if c[0].PipeTermAck? then |c| == 1 else AckLast(c[1..]))
  }

  function Wakes(c: seq<Command>): nat {
    if c == [] then 0 else (if c[0].ActivateRead? then 1 else 0) + Wakes(c[1..])
  }

  /** The credit the writer will know once it has processed the channel. */
  function LastCredit(c: seq<Command>, known: nat): nat {
    if c == [] then known else LastCredit(c[1..], if c[0].ActivateWrite? then c[0].count else known)
  }

  /** Credits in the channel never go back and never exceed what has been read. */
  predicate CreditsRise(c: seq<Command>, known: nat, read: nat) {
    if c == [] then known <= read
    else if c[0].ActivateWrite? then known <= c[0].count && CreditsRise(c[1..], c[0].count, read)
    else CreditsRise(c[1..], known, read)
  }

  lemma {:induction false} ControlAppend(c: seq<Command>, x: Command)
    ensures Control(c + [x]) == Control(c) + Control([x])
  {
    if c != [] {
      assert (c + [x])[1..] == c[1..] + [x];
      ControlAppend(c[1..], x);
    } else {
      assert c + [x] == [x];
    }
  }

  lemma {:induction false} AckLastAppend(c: seq<Command>, x: Command)
    requires AckLast(c) && PipeTermAck !in Control(c)
    ensures AckLast(c + [x])
  {
    if c != [] {
      assert (c + [x])[1..] == c[1..] + [x];
      AckLastAppend(c[1..], x);
    }
  }

  lemma {:induction false} WakesAppend(c: seq<Command>, x: Command)
    ensures Wakes(c + [x]) == Wakes(c) + if x.ActivateRead? then 1 else 0
  {
    if c != [] {
      assert (c + [x])[1..] == c[1..] + [x];
      WakesAppend(c[1..], x);
    }
  }

  lemma {:induction false} CreditAppend(c: seq<Command>, x: Command, known: nat, read: nat)
    requires CreditsRise(c, known, read)
    requires x.ActivateWrite? ==> x.count == read
    ensures CreditsRise(c + [x], known, read)
    ensures LastCredit(c + [x], known) == if x.ActivateWrite? then read else LastCredit(c, known)
  {
    if c != [] {
      assert (c + [x])[1..] == c[1..] + [x];
      CreditAppend(c[1..], x, if c[0].ActivateWrite? then c[0].count else known, read);
    }
  }

  lemma {:induction false} CreditsStillRise(c: seq<Command>, known: nat, read: nat, read': nat)
    requires CreditsRise(c, known, read) && read <= read'
    ensures CreditsRise(c, known, read') && known <= read
  {
    if c != [] {
      CreditsStillRise(c[1..], if c[0].ActivateWrite? then c[0].count else known, read, read');
    }
  }

  // ------------------------------------------------------- reading item lists

  predicate EndsMessage(item: Item) { item.Delimiter? || !item.more }

  /** Nothing, or something whose last item ends a message. */
  predicate Whole(s: seq<Item>) { s == [] || EndsMessage(s[|s| - 1]) }

  predicate AllParts(s: seq<Item>) { forall i | 0 <= i < |s| :: s[i].Part? }

  predicate AllOpen(s: seq<Item>) { forall i | 0 <= i < |s| :: s[i].Part? && s[i].more }

  /** How many messages end in a list of parts. */
  function Finals(s: seq<Item>): nat {
    if s == [] then 0 else Finals(s[..|s| - 1]) + if s[|s| - 1].Part? && !s[|s| - 1].more then 1 else 0
  }

  lemma {:induction false} FinalsAppend(s: seq<Item>, t: seq<Item>)
    ensures Finals(s + t) == Finals(s) + Finals(t)
  {
    if t == [] {
      assert s + t == s;
    } else {
      assert (s + t)[..|s + t| - 1] == s + t[..|t| - 1];
      FinalsAppend(s, t[..|t| - 1]);
    }
  }

  lemma {:induction false} NoFinalsWhileOpen(s: seq<Item>)
    requires AllOpen(s)
    ensures Finals(s) == 0
  {
    if s != [] { NoFinalsWhileOpen(s[..|s| - 1]); }
  }

  // -------------------------------------------------------------- the invariant

  /** What each state says about the commands the endpoint has sent and seen. */
  predicate Local(e: End) {
    && (match e.state
        case Active => e.sig.termsSent == 0 && e.sig.acksSent == 0 && !e.sig.gotTerm && !e.sig.gotAck
        case Delimited => e.sig.termsSent == 0 && e.sig.acksSent == 0 && !e.sig.gotTerm && !e.sig.gotAck
        case Pending => e.sig.termsSent == 0 && e.sig.acksSent == 0 && e.sig.gotTerm && !e.sig.gotAck
        case Terminating => e.sig.termsSent == 0 && e.sig.acksSent == 1 && e.sig.gotTerm && !e.sig.gotAck
        case Terminated => e.sig.termsSent == 1 && e.sig.acksSent == 0 && !e.sig.gotTerm && !e.sig.gotAck
        case DoubleTerminated => e.sig.termsSent == 1 && e.sig.acksSent == 1 && e.sig.gotTerm && !e.sig.gotAck
        case Destroyed => e.sig.termsSent <= 1 && e.sig.acksSent == 1 && e.sig.gotAck && (e.sig.gotTerm || e.sig.termsSent == 1))
    && (e.hasOut <==> e.sig.acksSent == 0)
    && (e.pc == Finishing ==> e.state in {Terminated, Pending, Terminating} && e.asked)
    && (e.pc == OwesWake ==> e.hasOut)
    && e.sig.inFreed == B(e.state == Destroyed)
    && (e.sig.termsSent == 1 ==> e.asked)
  }

  /** The termination commands in flight are those sent and not yet seen, and nothing
      follows an acknowledgement. */
  predicate ControlInv(terms: nat, acks: nat, gotTerm: bool, gotAck: bool, toY: seq<Command>) {
    && Control(toY) == (if terms == 1 && !gotTerm then [PipeTerm] else [])
                     + (if acks == 1 && !gotAck then [PipeTermAck] else [])
    && AckLast(toY)
    && (gotTerm ==> terms == 1)
    && (gotAck ==> acks == 1 && (terms == 1 ==> gotTerm) && toY == [])
  }

  /** Its owner has not put a delimiter into the queue. */
  predicate Clean(x: End) { x.state in {Active, Delimited} || (x.state == Terminated && x.pc == Finishing) }

  /** Its owner has put a delimiter into the queue and flushed it. */
  predicate Sealed(x: End) { x.state == Terminated && x.pc != Finishing }

  /** The queue has carried the accepted parts, in order, then only delimiters. */
  predicate ContentInv(accepted: seq<Item>, completed: seq<Item>, clean: bool, sealed: bool) {
    && accepted <= completed
    && (forall i | |accepted| <= i < |completed| :: completed[i].Delimiter?)
    && AllParts(accepted) && Whole(accepted)
    && (clean ==> completed == accepted)
    && (sealed ==> |accepted| < |completed|)
  }

  /** Only whole messages are ever flushed. */
  predicate FlushedInv(seen: seq<Item>, complete: seq<Item>, sealed: bool) {
    Whole(seen) && (sealed ==> complete == [])
  }

  predicate OpenInv(open: seq<Item>, hasOut: bool, partial: seq<Item>) {
    AllOpen(open) && (hasOut ==> partial == open)
  }

  predicate Listens(y: End) { y.state in {Active, Pending} }

  /** It has left the stream, on its own initiative or not, and was to see all of it first. */
  predicate Drained(y: End) {
    y.state == Delimited || (y.state in {Terminating, Destroyed} && !y.asked && y.delay)
  }

  /** The reader has been given a prefix of the accepted parts, and all of them once it has
      met a delimiter. */
  predicate DeliveryInv(accepted: seq<Item>, delivered: seq<Item>, taken: seq<Item>, listens: bool, drained: bool, terms: nat) {
    && delivered <= accepted
    && (listens ==> taken == delivered)
    && (drained ==> delivered == accepted && terms == 1)
  }

  /** A reading endpoint is awake, or its queue knows it sleeps, or one wake-up is due. */
  predicate WakeInv(owes: bool, listens: bool, inActive: bool, asleep: bool, flushed: seq<Item>, toY: seq<Command>) {
    && (asleep ==> flushed == [])
    && (listens ==> Wakes(toY) + B(owes) + B(asleep) + B(inActive) == 1)
  }

  /** A reader pauses only between messages. */
  predicate PauseInv(paused: bool, delivered: seq<Item>) { paused ==> Whole(delivered) }

  predicate CountInv(n: nat, items: seq<Item>) { n == Finals(items) }

  predicate Blocked(x: End) { x.state == Active && !x.wr.outActive }

  /** Credits under way, and the limit on outstanding messages. */
  predicate CreditInv(lwm: int, known: nat, read: nat, toX: seq<Command>) {
    && CreditsRise(toX, known, read)
    && (lwm > 0 ==> LastCredit(toX, known) == read - read % lwm)
  }

  predicate LimitInv(hwm: int, written: nat, known: nat, midMessage: bool, blocked: bool) {
    && (hwm > 0 ==> written - known <= hwm - B(midMessage))
    && (blocked ==> hwm > 0 && written - known == hwm)
  }

  predicate Direction(x: End, y: End, q: Queue<Item>, toY: seq<Command>, toX: seq<Command>) {
    && ControlInv(x.sig.termsSent, x.sig.acksSent, y.sig.gotTerm, y.sig.gotAck, toY)
    && ContentInv(x.wr.accepted, q.Completed(), Clean(x), Sealed(x))
    && FlushedInv(q.taken + q.flushed, q.complete, Sealed(x))
    && OpenInv(x.wr.open, x.hasOut, q.partial)
    && DeliveryInv(x.wr.accepted, y.rd.delivered, q.taken, Listens(y), Drained(y), x.sig.termsSent)
    && WakeInv(x.pc == OwesWake, Listens(y), y.rd.inActive, q.asleep, q.flushed, toY)
    && PauseInv(Listens(y) && !y.rd.inActive, y.rd.delivered)
    && CountInv(x.wr.msgsWritten, x.wr.accepted) && CountInv(y.rd.msgsRead, y.rd.delivered)
    && CreditInv(y.rd.lwm, x.wr.peersRead, y.rd.msgsRead, toX)
    && LimitInv(x.wr.hwm, x.wr.msgsWritten, x.wr.peersRead, x.wr.open != [], Blocked(x))
    && y.rd.lwm == ComputeLwm(x.wr.hwm)
  }

  predicate Inv(s: System) {
    && Local(s.a) && Local(s.b)
    && Direction(s.a, s.b, s.ab, s.toB, s.toA)
    && Direction(s.b, s.a, s.ba, s.toA, s.toB)
  }

  /** The step succeeds and leads to a good state. */
  predicate Good(r: Result) { r.Done? && Inv(r.s) }

  lemma {:induction false} InitGood(c: Config)
    ensures Good(Exec(c, []))
  {
  }
}

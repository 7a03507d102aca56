/** The mailbox: any number of senders serialised by a lock, one receiver, a lock-free
    pipe of commands and a signal counter, interleaved at every shared access. */
module MailboxModel {
  import opened QueueSpec
  import Y = YPipeModel

  /** Where the sender holding the lock has got to. */
  datatype Holder<C> = Free | Writing(cmd: C) | Flushing | Storing | Leaving(awake: bool)

  /** Where the receiver has got to inside `recv`. */
  datatype Receiver = Outside | Reading | TakingSignal | GivingBack | Waiting | ReadingAfterSignal

  /** `owed` counts senders that have left the lock and still have to signal; `sent` and
      `received` record the commands in the order of writing and of delivery. */
  datatype State<C> = State(pipe: Y.State<C>, holder: Holder<C>, owed: nat, signals: nat, active: bool,
                            receiver: Receiver, sent: seq<C>, received: seq<C>)

  datatype Action<C> =
    | Lock(cmd: C) | HolderStep | Signal
    | Recv | ReceiverStep | Timeout

  /** Fault stands for a failed assertion or error check. */
  datatype Outcome<C> = Fault | Ok(s: State<C>)

  /** The constructor reads once, which leaves the pipe's reader asleep. */
  function Init<C>(): Outcome<C> {
    match Y.Step(Y.Init<C>(), Y.Read)
    case Fault => Fault
    case Ok(p, reply) => if reply == Y.Value(None) then Ok(State(p, Free, 0, 0, false, Outside, [], [])) else Fault
  }

  function HolderNext<C>(s: State<C>): Outcome<C> {
    match s.holder
    case Free => Ok(s)
    case Writing(cmd) =>
      (match Y.Step(s.pipe, Y.Write(cmd, false))
       case Fault => Fault
       case Ok(p, _) => Ok(s.(pipe := p, holder := Flushing, sent := s.sent + [cmd])))
    case Flushing =>
      (match Y.Step(s.pipe, Y.Flush)
       case Fault => Fault
       case Ok(p, reply) => Ok(s.(pipe := p, holder := if reply.Told? then Leaving(true) else Storing)))
    case Storing =>
      (match Y.Step(s.pipe, Y.Publish)
       case Fault => Fault
       case Ok(p, _) => Ok(s.(pipe := p, holder := Leaving(false))))
    case Leaving(awake) =>
      Ok(s.(holder := Free, owed := if awake then s.owed else s.owed + 1))
  }

  function ReceiverNext<C>(s: State<C>): Outcome<C> {
    match s.receiver
    case Outside => Ok(s)
    case Reading =>
      (match Y.Step(s.pipe, Y.Read)
       case Fault => Fault
       case Ok(p, reply) =>
         if reply.Value? && reply.v.Some? then
           Ok(s.(pipe := p, receiver := Outside, received := s.received + [reply.v.value]))
         else
           Ok(s.(pipe := p, active := false, receiver := TakingSignal)))
    case TakingSignal =>
      // Reading the event counter returns its value and clears it; an empty counter is an error.
      if s.signals == 2 then Ok(s.(signals := 0, receiver := GivingBack))
      else if s.signals == 1 then Ok(s.(signals := 0, receiver := Waiting))
      else Fault
    case GivingBack => Ok(s.(signals := s.signals + 1, receiver := Waiting))
    case Waiting =>
      if s.signals > 0 then Ok(s.(active := true, receiver := ReadingAfterSignal)) else Ok(s)
    case ReadingAfterSignal =>
      match Y.Step(s.pipe, Y.Read)
      case Fault => Fault
      case Ok(p, reply) =>
        if reply.Value? && reply.v.Some? then
          Ok(s.(pipe := p, receiver := Outside, received := s.received + [reply.v.value]))
        else Fault
  }

  function Step<C>(s: State<C>, a: Action<C>): Outcome<C> {
    match a
    case Lock(cmd) => if s.holder == Free then Ok(s.(holder := Writing(cmd))) else Ok(s)
    case HolderStep => HolderNext(s)
    case Signal => if s.owed > 0 then Ok(s.(owed := s.owed - 1, signals := s.signals + 1)) else Ok(s)
    case Recv =>
      if s.receiver == Outside then Ok(s.(receiver := if s.active then Reading else Waiting)) else Ok(s)
    case ReceiverStep => ReceiverNext(s)
    case Timeout => if s.receiver == Waiting then Ok(s.(receiver := Outside)) else Ok(s)
  }

  function Exec<C>(acts: seq<Action<C>>): Outcome<C> {
    if acts == [] then Init()
    else
      match Exec(acts[..|acts| - 1])
      case Fault => Fault
      case Ok(s) => Step(s, acts[|acts| - 1])
  }

  // ---------------------------------------------------------------- invariant

  predicate Asleep<C>(s: State<C>) { s.pipe.c == None }

  /** Flushed commands nobody has read. */
  function Unread<C>(s: State<C>): int { s.pipe.w - s.pipe.front }

  /** Signals in the counter, on their way to it, or about to be on their way. */
  function Signalled<C>(s: State<C>): nat {
    s.signals + s.owed + if s.holder == Leaving(false) then 1 else 0
  }

  ghost predicate PipeInv<C>(s: State<C>) {
    && Y.Inv(s.pipe)
    && s.pipe.got == s.received
    && s.pipe.cells == s.sent
    && s.pipe.f == |s.pipe.cells|
    && (s.holder == Storing <==> s.pipe.pc == Y.CasFailed)
    && (s.holder.Flushing? || s.holder.Storing? <==> s.pipe.w < s.pipe.f)
  }

  predicate SignalInv<C>(s: State<C>) {
    match s.receiver
    case Reading => s.active && !Asleep(s) && Signalled(s) == 1 && s.signals == 1
    case ReadingAfterSignal => s.active && !Asleep(s) && Signalled(s) == 1 && s.signals == 1 && Unread(s) > 0
    case TakingSignal =>
      && !s.active && s.signals >= 1
      && (if Asleep(s) then Signalled(s) == 1 else Signalled(s) == 2 && Unread(s) > 0)
    case GivingBack => !s.active && !Asleep(s) && Signalled(s) == 0 && Unread(s) > 0
    case Waiting =>
      && !s.active
      && (if Asleep(s) then Signalled(s) == 0 else Signalled(s) == 1 && Unread(s) > 0)
    case Outside =>
      if s.active then !Asleep(s) && Signalled(s) == 1 && s.signals == 1
      else if Asleep(s) then Signalled(s) == 0
      else Signalled(s) == 1 && Unread(s) > 0
  }

  ghost predicate Inv<C>(s: State<C>) { PipeInv(s) && SignalInv(s) }

  lemma HolderKeepsInv<C>(s: State<C>)
    requires Inv(s)
    ensures HolderNext(s).Ok? && Inv(HolderNext(s).s)
  {
    match s.holder
    case Free =>
    case Writing(cmd) => Y.WriteRefines(s.pipe, cmd, false);
    case Flushing => Y.FlushRefines(s.pipe);
    case Storing => Y.FlushRefines(s.pipe);
    case Leaving(awake) =>
  }

  lemma ReadingKeepsInv<C>(s: State<C>)
    requires Inv(s) && (s.receiver.Reading? || s.receiver.ReadingAfterSignal?)
    ensures ReceiverNext(s).Ok? && Inv(ReceiverNext(s).s)
  {
    Y.ReadRefines(s.pipe);
  }

  lemma ReceiverKeepsInv<C>(s: State<C>)
    requires Inv(s)
    ensures ReceiverNext(s).Ok? && Inv(ReceiverNext(s).s)
  {
    if s.receiver.Reading? || s.receiver.ReadingAfterSignal? {
      ReadingKeepsInv(s);
    } else {
      hide Y.Step;
    }
  }

  lemma StepKeepsInv<C>(s: State<C>, a: Action<C>)
    requires Inv(s)
    ensures Step(s, a).Ok? && Inv(Step(s, a).s)
  {
    hide HolderNext, ReceiverNext;
    HolderKeepsInv(s);
    ReceiverKeepsInv(s);
  }

  /** Whatever the interleaving of senders and receiver: no assertion fails (the receiver
      always finds the signal it takes, and the read after a successful wait succeeds). */
  lemma {:induction false} EveryRunIsGood<C>(acts: seq<Action<C>>)
    ensures Exec(acts).Ok? && Inv(Exec(acts).s)
  {
    if acts == [] {
      Y.ReadRefines(Y.Init<C>());
    } else {
      EveryRunIsGood(acts[..|acts| - 1]);
      StepKeepsInv(Exec(acts[..|acts| - 1]).s, acts[|acts| - 1]);
    }
  }

  /** The counter never holds more than two signals. */
  lemma {:induction false} AtMostTwoSignals<C>(acts: seq<Action<C>>)
    ensures Exec(acts).Ok? && Exec(acts).s.signals <= 2
  {
    EveryRunIsGood(acts);
  }

  /** Commands are delivered once each, in the order the lock admitted them. */
  lemma {:induction false} DeliveredInOrder<C>(acts: seq<Action<C>>)
    ensures Exec(acts).Ok? && Exec(acts).s.received <= Exec(acts).s.sent
  {
    EveryRunIsGood(acts);
  }

  /** No lost wake-up: a receiver that is about to wait, or waiting, while a flushed
      command is unread has a signal in the counter or a sender that is about to put it
      there; with no sender in the middle of a call the signal is already there. */
  lemma {:induction false} NoLostWakeUp<C>(acts: seq<Action<C>>)
    ensures Exec(acts).Ok?
    ensures var s := Exec(acts).s;
            !s.active && (s.receiver == Waiting || s.receiver == Outside) && Unread(s) > 0 ==>
              && (s.signals == 1 || s.owed == 1 || s.holder == Leaving(false))
              && (s.owed == 0 && s.holder == Free ==> s.signals == 1)
  {
    EveryRunIsGood(acts);
  }

  /** Nothing is stranded: when every sender has finished and the receiver is waiting on an
      empty counter, every command sent has been received. */
  lemma {:induction false} QuietMailboxIsEmpty<C>(acts: seq<Action<C>>)
    ensures Exec(acts).Ok?
    ensures var s := Exec(acts).s;
            s.holder == Free && s.owed == 0 && s.receiver == Waiting && s.signals == 0 ==> s.received == s.sent
  {
    EveryRunIsGood(acts);
  }

  /** The steps of a call of recv that finds a command: one read, or a wait and a read. */
  function Receiving<C>(active: bool): seq<Action<C>> {
    if active then [Recv, ReceiverStep] else [Recv, ReceiverStep, ReceiverStep]
  }

  lemma {:induction false} ExecSnoc<C>(acts: seq<Action<C>>, a: Action<C>)
    ensures Exec(acts + [a]) == match Exec(acts) case Fault => Fault case Ok(s) => Step(s, a)
  {
    assert (acts + [a])[..|acts|] == acts;
  }

  /** What a read of the pipe yields in a good state. */
  lemma ReadYields<C>(s: State<C>)
    requires Inv(s) && (s.receiver == Reading || s.receiver == ReadingAfterSignal) && s.holder == Free && |s.received| < |s.sent|
    ensures ReceiverNext(s).Ok?
    ensures var t := ReceiverNext(s).s; t.receiver == Outside && t.received == s.received + [s.sent[|s.received|]]
  {
    Y.ReadRefines(s.pipe);
  }

  /** Between the calls of senders, a call of recv yields the oldest command not received, if there is one. */
  lemma {:induction false} NextRecvDelivers<C>(acts: seq<Action<C>>)
    ensures Exec(acts).Ok?
    ensures var s := Exec(acts).s;
            s.holder == Free && s.owed == 0 && s.receiver == Outside && |s.received| < |s.sent| ==>
              var o := Exec(acts + Receiving(s.active));
              o.Ok? && o.s.receiver == Outside && o.s.received == s.received + [s.sent[|s.received|]]
  {
    hide Y.Step;
    EveryRunIsGood(acts);
    var s := Exec(acts).s;
    if s.holder == Free && s.owed == 0 && s.receiver == Outside && |s.received| < |s.sent| {
      EveryRunIsGood(acts + [Recv]);
      ExecSnoc(acts, Recv);
      EveryRunIsGood(acts + [Recv] + [ReceiverStep]);
      ExecSnoc(acts + [Recv], ReceiverStep);
      ExecSnoc(acts + [Recv] + [ReceiverStep], ReceiverStep);
      assert acts + [Recv, ReceiverStep] == acts + [Recv] + [ReceiverStep];
      assert acts + [Recv, ReceiverStep, ReceiverStep] == acts + [Recv] + [ReceiverStep] + [ReceiverStep];
      if s.active {
        ReadYields(Exec(acts + [Recv]).s);
      } else {
        ReadYields(Exec(acts + [Recv] + [ReceiverStep]).s);
      }
    }
  }
}

/** Shutdown of the ownership forest: every object counts the commands it still has to
    process and the acknowledgements it still waits for, and deletes itself when both are
    settled. Each object has one FIFO inbox; objects take turns in any order. */
module OwnModel {
  import opened QueueSpec

  type Id = nat

  /** `Counted` stands for the attach and bind commands, which together with plug and own are
      counted by sequence numbers. The child named in an acknowledgement is only a record:
      the receiver never looks at it. */
  datatype Command = Plug | Own(child: Id) | Counted | TermReq(child: Id) | Term | TermAck(child: Id)

  /** How far an owner has got with a child: plugged but not yet announced to itself, own
      command sent, owned, asked to terminate, acknowledged. A Root has no owner. */
  datatype Phase = Root | Launching | Announced | Owned | Dying | Buried

  /** `total` is the number of counted commands ever sent to the object and `promised` those
      of them whose sender has raised the counter but not yet sent the command; `ext` is the
      number of external events registered. `phase` is a record kept for the proofs. */
  datatype Obj = Obj(owner: Option<Id>, live: bool, terminating: bool, total: nat, processed: nat, owned: set<Id>,
                     termAcks: int, launching: Option<Id>, ext: nat, promised: nat, inbox: seq<Command>, phase: Phase)

  type Objs = seq<Obj>

  /** Fault stands for a failed assertion or for touching a deleted object. */
  datatype Outcome = Fault | Ok(objs: Objs)

  const COUNTER_RANGE := 0x1_0000_0000

  /** The sent counter has 32 bits, the processed counter 64. */
  predicate MayDie(o: Obj) {
    o.terminating && o.processed == o.total % COUNTER_RANGE && o.termAcks == 0
  }

  function Send(objs: Objs, to: Id, cmd: Command): Outcome
    requires to < |objs|
  {
    if !objs[to].live then Fault
    else Ok(objs[to := objs[to].(inbox := objs[to].inbox + [cmd])])
  }

  function CheckTermAcks(objs: Objs, x: Id): Outcome
    requires x < |objs|
  {
    var o := objs[x];
    if !MayDie(o) then Ok(objs)
    else if o.owned != {} then Fault
    else
      var objs' := objs[x := o.(live := false)];
      if o.owner.Some? then (if o.owner.value >= |objs| then Fault else Send(objs', o.owner.value, TermAck(x)))
      else Ok(objs')
  }

  function ProcessSeqnum(objs: Objs, x: Id): Outcome
    requires x < |objs|
  {
    CheckTermAcks(objs[x := objs[x].(processed := objs[x].processed + 1)], x)
  }

  /** Wait for one more acknowledgement and ask the child to terminate. */
  function TermOne(objs: Objs, x: Id, c: Id): Outcome
    requires x < |objs|
  {
    if c >= |objs| || !objs[c].live then Fault
    else
      var objs' := objs[x := objs[x].(termAcks := objs[x].termAcks + 1)];
      Ok(objs'[c := objs'[c].(inbox := objs'[c].inbox + [Term], phase := Dying)])
  }

  function ProcessTermReq(objs: Objs, x: Id, c: Id): Outcome
    requires x < |objs|
  {
    if objs[x].terminating || c !in objs[x].owned then Ok(objs)
    else TermOne(objs[x := objs[x].(owned := objs[x].owned - {c})], x, c)
  }

  function ProcessOwn(objs: Objs, x: Id, c: Id): Outcome
    requires x < |objs|
  {
    if objs[x].terminating then TermOne(objs, x, c)
    else if c >= |objs| then Fault
    else
      var objs' := objs[x := objs[x].(owned := objs[x].owned + {c})];
      Ok(objs'[c := objs'[c].(phase := Owned)])
  }

  /** Ask all owned objects at once. */
  function TermAll(objs: Objs, owned: set<Id>): Objs {
    seq(|objs|, i requires 0 <= i < |objs| =>
      if i in owned then objs[i].(inbox := objs[i].inbox + [Term], phase := Dying) else objs[i])
  }

  function ProcessTerm(objs: Objs, x: Id): Outcome
    requires x < |objs|
  {
    var o := objs[x];
    if o.terminating then Fault
    else if exists c | c in o.owned :: c >= |objs| || !objs[c].live then Fault
    else
      CheckTermAcks(TermAll(objs, o.owned)[x := o.(termAcks := o.termAcks + |o.owned|, owned := {}, terminating := true)], x)
  }

  function UnregisterTermAck(objs: Objs, x: Id): Outcome
    requires x < |objs|
  {
    if objs[x].termAcks <= 0 then Fault
    else CheckTermAcks(objs[x := objs[x].(termAcks := objs[x].termAcks - 1)], x)
  }

  function ProcessTermAck(objs: Objs, x: Id, c: Id): Outcome
    requires x < |objs|
  {
    if c >= |objs| then Fault
    else UnregisterTermAck(objs[c := objs[c].(phase := Buried)], x)
  }

  /** The object takes the next command of its inbox. */
  function Process(objs: Objs, x: Id): Outcome
    requires x < |objs| && objs[x].inbox != []
  {
    var cmd := objs[x].inbox[0];
    var objs' := objs[x := objs[x].(inbox := objs[x].inbox[1..])];
    match cmd
    case Plug => ProcessSeqnum(objs', x)
    case Counted => ProcessSeqnum(objs', x)
    case Own(c) =>
      (match ProcessOwn(objs', x, c)
       case Fault => Fault
       case Ok(objs'') => if |objs''| <= x then Fault else ProcessSeqnum(objs'', x))
    case TermReq(c) => ProcessTermReq(objs', x, c)
    case Term => ProcessTerm(objs', x)
    case TermAck(c) => ProcessTermAck(objs', x, c)
  }

  datatype Action =
    | NewRoot                    // an object without owner, such as a socket
    | Launch(x: Id)              // launch_child: create, set owner, send plug
    | FinishLaunch(x: Id)        // launch_child: send own to itself
    | Promise(y: Id, x: Id)      // y raises x's counter for a command it will send
    | Deliver(x: Id)             // such a command is sent to x
    | Terminate(x: Id)
    | TermChild(x: Id, c: Id)
    | Register(x: Id, n: nat)
    | Unregister(x: Id)
    | Receive(x: Id)

  /** A live object that is not in the middle of launching a child. */
  predicate Ready(objs: Objs, x: Id) {
    x < |objs| && objs[x].live && objs[x].launching == None
  }

  /** Who may announce a counted command for `x`: the object itself, an object it owns, or
      anyone who found it registered, which ends when it starts to terminate. */
  predicate MayPromise(objs: Objs, y: Id, x: Id) {
    && y < |objs| && objs[y].live && x < |objs|
    && (x == y || objs[y].owner == Some(x) || (objs[x].live && !objs[x].terminating))
  }

  function NewObj(owner: Option<Id>): Obj {
    if owner == None then Obj(None, true, false, 0, 0, {}, 0, None, 0, 0, [], Root)
    else Obj(owner, true, false, 1, 0, {}, 0, None, 0, 0, [Plug], Launching)
  }

  function Step(objs: Objs, a: Action): Outcome {
    match a
    case NewRoot => Ok(objs + [NewObj(None)])
    case Launch(x) =>
      if !Ready(objs, x) then Ok(objs)
      else Ok(objs[x := objs[x].(launching := Some(|objs|))] + [NewObj(Some(x))])
    case FinishLaunch(x) =>
      if x >= |objs| || objs[x].launching == None then Ok(objs)
      else
        var c := objs[x].launching.value;
        if c >= |objs| || !objs[x].live then Fault
        else
          var o := objs[x];
          var objs' := objs[x := o.(launching := None, total := o.total + 1, inbox := o.inbox + [Own(c)])];
          Ok(objs'[c := objs'[c].(phase := Announced)])
    case Promise(y, x) =>
      if !MayPromise(objs, y, x) then Ok(objs)
      else if !objs[x].live then Fault
      else Ok(objs[x := objs[x].(total := objs[x].total + 1, promised := objs[x].promised + 1)])
    case Deliver(x) =>
      if x >= |objs| || objs[x].promised == 0 then Ok(objs)
      else Send(objs[x := objs[x].(promised := objs[x].promised - 1)], x, Counted)
    case Terminate(x) =>
      if !Ready(objs, x) || objs[x].terminating then Ok(objs)
      else if objs[x].owner == None then ProcessTerm(objs, x)
      else if objs[x].owner.value >= |objs| then Fault
      else Send(objs, objs[x].owner.value, TermReq(x))
    case TermChild(x, c) => if Ready(objs, x) then ProcessTermReq(objs, x, c) else Ok(objs)
    case Register(x, n) =>
      if !Ready(objs, x) then Ok(objs)
      else Ok(objs[x := objs[x].(termAcks := objs[x].termAcks + n, ext := objs[x].ext + n)])
    case Unregister(x) =>
      if !Ready(objs, x) || objs[x].ext == 0 then Ok(objs)
      else UnregisterTermAck(objs[x := objs[x].(ext := objs[x].ext - 1)], x)
    case Receive(x) =>
      if x >= |objs| || objs[x].inbox == [] || objs[x].launching.Some? then Ok(objs)
      else if !objs[x].live then Fault
      else Process(objs, x)
  }

  function Exec(acts: seq<Action>): Outcome {
    if acts == [] then Ok([])
    else
      match Exec(acts[..|acts| - 1])
      case Fault => Fault
      case Ok(objs) => Step(objs, acts[|acts| - 1])
  }
}

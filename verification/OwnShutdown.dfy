/** Shutdown of a part of the ownership forest: what a request to terminate leads to, and what holds an
    object back. */
module OwnShutdown {
  import opened Basics
  import opened QueueSpec
  import opened OwnModel
  import opened OwnInvariant
  import opened OwnSteps
  import opened OwnTheorems

  // ------------------------------------------------------------ an object from one state to a later one

  /** Object `c` does not go back on its way to the end, and the inbox of its owner `x` only grows. */
  predicate Onward(objs: Objs, objs': Objs, c: Id, x: Option<Id>) {
    && c < |objs| <= |objs'|
    && (var o, o' := objs[c], objs'[c];
        && o'.owner == o.owner && (o'.live ==> o.live) && (o.terminating ==> o'.terminating)
        && (o'.phase == o.phase || o'.phase in {Dying, Buried}))
    && (x.Some? && x.value < |objs| ==> objs[x.value].inbox <= objs'[x.value].inbox)
  }

  /** Nor is anything registered or announced for it, or settled. */
  predicate Later(objs: Objs, objs': Objs, c: Id, x: Option<Id>) {
    && Onward(objs, objs', c, x)
    && objs'[c].ext == objs[c].ext && objs'[c].promised == objs[c].promised
  }

  predicate OkLater(objs: Objs, o: Outcome, c: Id, x: Option<Id>) { o.Ok? ==> Later(objs, o.objs, c, x) }

  lemma CheckLater(objs: Objs, y: Id, c: Id, x: Option<Id>)
    requires y < |objs| && c < |objs|
    ensures OkLater(objs, CheckTermAcks(objs, y), c, x)
  {
  }

  lemma LaterTwice(objs: Objs, objs': Objs, o: Outcome, c: Id, x: Option<Id>)
    requires Later(objs, objs', c, x) && OkLater(objs', o, c, x)
    ensures OkLater(objs, o, c, x)
  {
  }

  lemma SeqnumLater(objs: Objs, y: Id, c: Id, x: Option<Id>)
    requires y < |objs| && c < |objs|
    ensures OkLater(objs, ProcessSeqnum(objs, y), c, x)
  {
    hide CheckTermAcks;
    var objs' := objs[y := objs[y].(processed := objs[y].processed + 1)];
    CheckLater(objs', y, c, x);
    LaterTwice(objs, objs', ProcessSeqnum(objs, y), c, x);
  }

  lemma TermReqLater(objs: Objs, y: Id, d: Id, c: Id, x: Option<Id>)
    requires y < |objs| && c < |objs|
    ensures OkLater(objs, ProcessTermReq(objs, y, d), c, x)
  {
  }

  lemma OwnLater(objs: Objs, y: Id, d: Id, c: Id, x: Option<Id>)
    requires y < |objs| && c < |objs| && d != c
    ensures OkLater(objs, ProcessOwn(objs, y, d), c, x)
  {
  }

  lemma TermAllLater(objs: Objs, owned: set<Id>, c: Id, x: Option<Id>)
    requires c < |objs|
    ensures Later(objs, TermAll(objs, owned), c, x)
  {
  }

  lemma TermLater(objs: Objs, y: Id, c: Id, x: Option<Id>)
    requires y < |objs| && c < |objs| && y !in objs[y].owned
    ensures OkLater(objs, ProcessTerm(objs, y), c, x)
  {
    hide CheckTermAcks, TermAll;
    if ProcessTerm(objs, y).Ok? {
      var o := objs[y];
      var objs1 := TermAll(objs, o.owned);
      TermAllLater(objs, o.owned, c, x);
      Untouched(objs, o.owned, y);
      var objs2 := objs1[y := o.(termAcks := o.termAcks + |o.owned|, owned := {}, terminating := true)];
      CheckLater(objs2, y, c, x);
      LaterTwice(objs, objs2, ProcessTerm(objs, y), c, x);
    }
  }

  lemma Untouched(objs: Objs, owned: set<Id>, y: Id)
    requires y < |objs| && y !in owned
    ensures |TermAll(objs, owned)| == |objs| && TermAll(objs, owned)[y] == objs[y]
  {
  }

  lemma UnregisterLater(objs: Objs, y: Id, c: Id, x: Option<Id>)
    requires y < |objs| && c < |objs|
    ensures OkLater(objs, UnregisterTermAck(objs, y), c, x)
  {
    hide CheckTermAcks;
    var objs' := objs[y := objs[y].(termAcks := objs[y].termAcks - 1)];
    CheckLater(objs', y, c, x);
    LaterTwice(objs, objs', UnregisterTermAck(objs, y), c, x);
  }

  lemma TermAckLater(objs: Objs, y: Id, d: Id, c: Id, x: Option<Id>)
    requires y < |objs| && c < |objs|
    ensures OkLater(objs, ProcessTermAck(objs, y, d), c, x)
  {
    hide UnregisterTermAck;
    if d < |objs| {
      var objs' := objs[d := objs[d].(phase := Buried)];
      UnregisterLater(objs', y, c, x);
      LaterTwice(objs, objs', ProcessTermAck(objs, y, d), c, x);
    }
  }

  /** The object's state once it has taken its next command out of its inbox. */
  function Popped(objs: Objs, y: Id): Objs
    requires y < |objs| && objs[y].inbox != []
  {
    objs[y := objs[y].(inbox := objs[y].inbox[1..])]
  }

  lemma ProcessLater(objs: Objs, y: Id, c: Id, x: Option<Id>)
    requires y < |objs| && c < |objs| && objs[y].inbox != [] && objs[y].inbox[0] != Own(c) && y !in objs[y].owned
    ensures OkLater(Popped(objs, y), Process(objs, y), c, x)
  {
    hide ProcessSeqnum, ProcessOwn, ProcessTermReq, ProcessTerm, ProcessTermAck;
    var objs' := Popped(objs, y);
    match objs[y].inbox[0] {
      case Plug => SeqnumLater(objs', y, c, x);
      case Counted => SeqnumLater(objs', y, c, x);
      case Own(d) =>
        OwnLater(objs', y, d, c, x);
        if ProcessOwn(objs', y, d).Ok? && y < |ProcessOwn(objs', y, d).objs| {
          SeqnumLater(ProcessOwn(objs', y, d).objs, y, c, x);
          LaterTwice(objs', ProcessOwn(objs', y, d).objs, Process(objs, y), c, x);
        }
      case TermReq(d) => TermReqLater(objs', y, d, c, x);
      case Term => TermLater(objs', y, c, x);
      case TermAck(d) => TermAckLater(objs', y, d, c, x);
    }
  }

  // ------------------------------------------------------------ doomed objects

  /** The owner has yet to process a request for the child, and will own the child by then. */
  predicate Requested(inbox: seq<Command>, c: Id, phase: Phase) {
    || (phase == Owned && TermReq(c) in inbox)
    || (phase == Announced && exists i, j | 0 <= i < j < |inbox| :: inbox[i] == Own(c) && inbox[j] == TermReq(c))
  }

  /** The object is gone, or terminating, or was sent term, or its owner is going to send it. */
  predicate Doomed(objs: Objs, c: Id) {
    && c < |objs|
    && var o := objs[c];
    || !o.live || o.terminating || o.phase in {Dying, Buried}
    || (o.owner.Some? && o.owner.value < |objs| && Requested(objs[o.owner.value].inbox, c, o.phase))
  }

  lemma StillRequested(inbox: seq<Command>, inbox': seq<Command>, c: Id, phase: Phase)
    requires Requested(inbox, c, phase) && inbox <= inbox'
    ensures Requested(inbox', c, phase)
  {
    if phase == Announced {
      var i, j :| 0 <= i < j < |inbox| && inbox[i] == Own(c) && inbox[j] == TermReq(c);
      assert inbox'[i] == Own(c) && inbox'[j] == TermReq(c);
    }
  }

  lemma LaterIsDoomed(objs: Objs, objs': Objs, c: Id)
    requires c < |objs| && Onward(objs, objs', c, objs[c].owner) && Doomed(objs, c)
    ensures Doomed(objs', c)
  {
    hide Requested;
    var o := objs[c];
    if o.owner.Some? && o.owner.value < |objs| && Requested(objs[o.owner.value].inbox, c, o.phase) {
      StillRequested(objs[o.owner.value].inbox, objs'[o.owner.value].inbox, c, o.phase);
    }
  }

  /** Taking out a command that is neither own nor the request leaves the child doomed. */
  lemma PoppedIsDoomed(objs: Objs, y: Id, c: Id)
    requires Doomed(objs, c) && y < |objs| && objs[y].inbox != []
    requires objs[y].inbox[0] != Own(c) && (objs[y].inbox[0] == TermReq(c) ==> objs[c].phase != Owned || objs[c].owner != Some(y))
    ensures Doomed(Popped(objs, y), c)
  {
    var o, inbox := objs[c], objs[y].inbox;
    if o.owner == Some(y) && Requested(inbox, c, o.phase) {
      if o.phase == Owned {
        var j :| 0 <= j < |inbox| && inbox[j] == TermReq(c);
        assert inbox[1..][j - 1] == TermReq(c);
      } else {
        var i, j :| 0 <= i < j < |inbox| && inbox[i] == Own(c) && inbox[j] == TermReq(c);
        assert inbox[1..][i - 1] == Own(c) && inbox[1..][j - 1] == TermReq(c);
      }
    }
  }

  /** The owner processes the request of a child it owns. */
  lemma RequestDooms(objs: Objs, y: Id, c: Id)
    requires Inv(objs) && y < |objs| && objs[y].inbox != [] && objs[y].inbox[0] == TermReq(c)
    requires c < |objs| && objs[c].owner == Some(y) && objs[c].phase == Owned
    ensures Process(objs, y).Ok? ==> Doomed(Process(objs, y).objs, c)
  {
    assert ChildOk(objs, c) && ObjOk(objs, y);
  }

  /** The owner takes in a child that has asked to terminate. */
  lemma OwnDooms(objs: Objs, y: Id, c: Id)
    requires Inv(objs) && y < |objs| && objs[y].inbox != [] && objs[y].inbox[0] == Own(c) && Doomed(objs, c)
    ensures Process(objs, y).Ok? ==> Doomed(Process(objs, y).objs, c)
  {
    hide ProcessSeqnum;
    assert ObjOk(objs, y) && Justified(objs, y, objs[y].inbox[0]);
    assert ChildOk(objs, c);
    var objs', inbox := Popped(objs, y), objs[y].inbox;
    var i, j :| 0 <= i < j < |inbox| && inbox[i] == Own(c) && inbox[j] == TermReq(c);
    assert inbox[1..][j - 1] == TermReq(c);
    if ProcessOwn(objs', y, c).Ok? {
      var objs'' := ProcessOwn(objs', y, c).objs;
      assert Doomed(objs'', c);
      SeqnumLater(objs'', y, c, objs[c].owner);
      if ProcessSeqnum(objs'', y).Ok? { LaterIsDoomed(objs'', ProcessSeqnum(objs'', y).objs, c); }
    }
  }

  lemma ReceiveDooms(objs: Objs, y: Id, c: Id)
    requires Inv(objs) && y < |objs| && objs[y].inbox != [] && Doomed(objs, c)
    ensures Process(objs, y).Ok? ==> Doomed(Process(objs, y).objs, c)
  {
    hide Process, Doomed;
    assert ObjOk(objs, y);
    DoomedExists(objs, c);
    var cmd := objs[y].inbox[0];
    if cmd == Own(c) {
      OwnDooms(objs, y, c);
    } else if cmd == TermReq(c) && objs[c].phase == Owned && objs[c].owner == Some(y) {
      RequestDooms(objs, y, c);
    } else {
      OwnsNotItself(objs, y);
      PoppedIsDoomed(objs, y, c);
      ProcessLater(objs, y, c, objs[c].owner);
      if Process(objs, y).Ok? { LaterIsDoomed(Popped(objs, y), Process(objs, y).objs, c); }
    }
  }

  lemma DoomedExists(objs: Objs, c: Id)
    requires Doomed(objs, c)
    ensures c < |objs|
  {
  }

  lemma OwnsNotItself(objs: Objs, y: Id)
    requires Inv(objs) && y < |objs|
    ensures y !in objs[y].owned
  {
    assert ObjOk(objs, y) && ChildOk(objs, y);
  }

  lemma StepDooms(objs: Objs, a: Action, c: Id)
    requires Inv(objs) && Doomed(objs, c)
    ensures Step(objs, a).Ok? ==> Doomed(Step(objs, a).objs, c)
  {
    hide Process, Doomed, ProcessTerm, ProcessTermReq, UnregisterTermAck;
    DoomedExists(objs, c);
    var x := objs[c].owner;
    match a {
      case NewRoot => LaterIsDoomed(objs, Step(objs, a).objs, c);
      case Launch(y) => LaterIsDoomed(objs, Step(objs, a).objs, c);
      case FinishLaunch(y) => FinishLaunchDooms(objs, y, c);
      case Promise(_, y) => if Step(objs, a).Ok? { LaterIsDoomed(objs, Step(objs, a).objs, c); }
      case Deliver(y) => if Step(objs, a).Ok? { LaterIsDoomed(objs, Step(objs, a).objs, c); }
      case Terminate(y) =>
        if Ready(objs, y) { OwnsNotItself(objs, y); TermLater(objs, y, c, x); }
        if Step(objs, a).Ok? { LaterIsDoomed(objs, Step(objs, a).objs, c); }
      case TermChild(y, d) =>
        if Ready(objs, y) { TermReqLater(objs, y, d, c, x); }
        if Step(objs, a).Ok? { LaterIsDoomed(objs, Step(objs, a).objs, c); }
      case Register(y, n) => LaterIsDoomed(objs, Step(objs, a).objs, c);
      case Unregister(y) =>
        if Ready(objs, y) && objs[y].ext > 0 {
          var objs' := objs[y := objs[y].(ext := objs[y].ext - 1)];
          LaterIsDoomed(objs, objs', c);
          UnregisterLater(objs', y, c, x);
          if Step(objs, a).Ok? { LaterIsDoomed(objs', Step(objs, a).objs, c); }
        }
      case Receive(y) => if y < |objs| && objs[y].inbox != [] { ReceiveDooms(objs, y, c); }
    }
  }

  lemma FinishLaunchDooms(objs: Objs, y: Id, c: Id)
    requires Inv(objs) && Doomed(objs, c)
    ensures Step(objs, FinishLaunch(y)).Ok? ==> Doomed(Step(objs, FinishLaunch(y)).objs, c)
  {
    hide Doomed;
    DoomedExists(objs, c);
    if y < |objs| && objs[y].launching.Some? && Step(objs, FinishLaunch(y)).Ok? {
      assert ObjOk(objs, y);
      NotLaunching(objs, c);
      LaterIsDoomed(objs, Step(objs, FinishLaunch(y)).objs, c);
    }
  }

  lemma NotLaunching(objs: Objs, c: Id)
    requires Inv(objs) && Doomed(objs, c)
    ensures objs[c].phase != Launching
  {
    assert ChildOk(objs, c);
  }

  /** A doomed object is gone once nothing is under way. */
  lemma DoomedDies(objs: Objs, c: Id)
    requires Inv(objs) && Quiet(objs) && Doomed(objs, c)
    ensures !objs[c].live
  {
    assert ChildOk(objs, c);
    if objs[c].live { NobodyWaits(objs, c); }
  }

  // ------------------------------------------------------------ runs

  lemma {:induction false} PrefixWithinRange(acts: seq<Action>, more: seq<Action>)
    requires WithinRange(acts + more)
    ensures WithinRange(acts)
  {
    forall k | 0 <= k <= |acts| && Exec(acts[..k]).Ok? ensures FewCommands(Exec(acts[..k]).objs) {
      assert (acts + more)[..k] == acts[..k];
    }
  }

  lemma {:induction false} StaysDoomed(acts: seq<Action>, more: seq<Action>, c: Id)
    requires WithinRange(acts + more) && Exec(acts).Ok? && Doomed(Exec(acts).objs, c)
    ensures Exec(acts + more).Ok? && Doomed(Exec(acts + more).objs, c)
  {
    hide Doomed, Step, Inv;
    EveryRunIsGood(acts + more);
    if more == [] {
      assert acts + more == acts;
    } else {
      var init, a := more[..|more| - 1], more[|more| - 1];
      assert acts + more == (acts + init) + [a];
      PrefixWithinRange(acts + init, [a]);
      StaysDoomed(acts, init, c);
      EveryRunIsGood(acts + init);
      ExecSnoc(acts + init, a);
      StepDooms(Exec(acts + init).objs, a, c);
    }
  }

  /** `d` is `c` or below it. */
  predicate Below(objs: Objs, d: Id, c: Id)
    requires d < |objs|
  {
    d == c || (objs[d].owner.Some? && objs[d].owner.value < d && Below(objs, objs[d].owner.value, c))
  }

  lemma {:induction false} LiveUpTo(objs: Objs, d: Id, c: Id)
    requires Inv(objs) && d < |objs| && objs[d].live && Below(objs, d, c)
    ensures c < |objs| && objs[c].live
  {
    assert ChildOk(objs, d);
    if d != c { LiveUpTo(objs, objs[d].owner.value, c); }
  }

  /** From now on, in every quiet state nothing is left alive at `c` or below. */
  ghost predicate Goes(acts: seq<Action>, more: seq<Action>, c: Id) {
    && Exec(acts + more).Ok?
    && var objs := Exec(acts + more).objs;
    c < |objs| && (Quiet(objs) ==> forall d: Id | d < |objs| && Below(objs, d, c) :: !objs[d].live)
  }

  lemma {:induction false} DoomedGoes(acts: seq<Action>, more: seq<Action>, c: Id)
    requires WithinRange(acts + more) && Exec(acts).Ok? && Doomed(Exec(acts).objs, c)
    ensures Goes(acts, more, c)
  {
    StaysDoomed(acts, more, c);
    EveryRunIsGood(acts + more);
    var objs := Exec(acts + more).objs;
    hide Doomed;
    DoomedExists(objs, c);
    if Quiet(objs) {
      DoomedDies(objs, c);
      forall d: Id | d < |objs| && Below(objs, d, c) ensures !objs[d].live {
        if objs[d].live { LiveUpTo(objs, d, c); }
      }
    }
  }

  lemma TerminateDooms(objs: Objs, c: Id)
    requires Inv(objs) && Ready(objs, c) && objs[c].phase != Launching
    ensures Step(objs, Terminate(c)).Ok? ==> Doomed(Step(objs, Terminate(c)).objs, c)
  {
    assert ChildOk(objs, c);
    if objs[c].owner == None {
      RootDooms(objs, c);
    } else if !objs[c].terminating {
      var x := objs[c].owner.value;
      var inbox := objs[x].inbox;
      assert ObjOk(objs, x);
      if objs[c].phase == Announced {
        var i :| 0 <= i < |inbox| && inbox[i] == Own(c);
        assert (inbox + [TermReq(c)])[i] == Own(c) && (inbox + [TermReq(c)])[|inbox|] == TermReq(c);
      } else {
        assert (inbox + [TermReq(c)])[|inbox|] == TermReq(c);
      }
    }
  }

  lemma RootDooms(objs: Objs, c: Id)
    requires Inv(objs) && Ready(objs, c) && objs[c].owner == None
    ensures Step(objs, Terminate(c)).Ok? ==> Doomed(Step(objs, Terminate(c)).objs, c)
  {
    hide TermAll;
    if !objs[c].terminating {
      OwnsNotItself(objs, c);
      Untouched(objs, objs[c].owned, c);
    }
  }

  /**
   * Partial shutdown completes: once an object that is a root, or whose owner has sent itself the own
   * command for it, has called terminate, then however the run goes on, nothing at it or below it is
   * left alive in any quiet state.
   */
  lemma {:induction false} TerminateCompletes(acts: seq<Action>, c: Id, more: seq<Action>)
    requires WithinRange(acts + [Terminate(c)] + more)
    ensures Exec(acts).Ok?
    ensures Ready(Exec(acts).objs, c) && Exec(acts).objs[c].phase != Launching ==> Goes(acts + [Terminate(c)], more, c)
  {
    hide Step, Goes, Inv, Doomed;
    PrefixWithinRange(acts + [Terminate(c)], more);
    PrefixWithinRange(acts, [Terminate(c)]);
    EveryRunIsGood(acts);
    if Ready(Exec(acts).objs, c) && Exec(acts).objs[c].phase != Launching {
      EveryRunIsGood(acts + [Terminate(c)]);
      ExecSnoc(acts, Terminate(c));
      TerminateDooms(Exec(acts).objs, c);
      DoomedGoes(acts + [Terminate(c)], more, c);
    }
  }

  /** The same once an owner terminates an object it owns. */
  lemma {:induction false} TermChildCompletes(acts: seq<Action>, x: Id, c: Id, more: seq<Action>)
    requires WithinRange(acts + [TermChild(x, c)] + more)
    ensures Exec(acts).Ok?
    ensures Ready(Exec(acts).objs, x) && c in Exec(acts).objs[x].owned ==> Goes(acts + [TermChild(x, c)], more, c)
  {
    hide Goes;
    PrefixWithinRange(acts + [TermChild(x, c)], more);
    PrefixWithinRange(acts, [TermChild(x, c)]);
    EveryRunIsGood(acts);
    var objs := Exec(acts).objs;
    if Ready(objs, x) && c in objs[x].owned {
      assert ObjOk(objs, x) && ChildOk(objs, c);
      EveryRunIsGood(acts + [TermChild(x, c)]);
      ExecSnoc(acts, TermChild(x, c));
      DoomedGoes(acts + [TermChild(x, c)], more, c);
    }
  }

  // ------------------------------------------------------------ requests that come too early

  /** What hearing a request means: the child is sent term and awaited. */
  predicate Heard(objs: Objs, objs': Objs, x: Id, c: Id) {
    && x < |objs| == |objs'| && c < |objs|
    && objs'[c].inbox == objs[c].inbox + [Term] && objs'[c].phase == Dying
    && objs'[x].termAcks == objs[x].termAcks + 1 && objs'[x].owned == objs[x].owned - {c}
  }

  /** A request the owner processes is heard if and only if the owner has processed own and has not yet
      asked the child to terminate; otherwise it is ignored. */
  lemma RequestIsHeardIff(objs: Objs, x: Id, c: Id)
    requires Inv(objs) && x < |objs| && objs[x].launching == None && objs[x].inbox != [] && objs[x].inbox[0] == TermReq(c)
    ensures Step(objs, Receive(x)).Ok? && c < |objs|
    ensures if objs[c].phase == Owned then Heard(Popped(objs, x), Step(objs, Receive(x)).objs, x, c)
            else Step(objs, Receive(x)).objs == Popped(objs, x)
  {
    assert ObjOk(objs, x) && Justified(objs, x, objs[x].inbox[0]);
    assert ChildOk(objs, c);
    assert c in objs[x].owned <==> objs[c].phase == Owned;
  }

  /** A child asks to terminate after plug and before own. */
  function TooEarly(): seq<Action> {
    [NewRoot, Launch(0)] + [Receive(1), Terminate(1), FinishLaunch(0)] + [Receive(0), Receive(0)]
  }

  const OWNER := NewObj(None)
  const CHILD := NewObj(Some(0)).(inbox := [], processed := 1)

  lemma LaunchHappens()
    ensures Exec([NewRoot, Launch(0)]) == Ok([LAUNCHING, NewObj(Some(0))])
  {
    assert [NewRoot, Launch(0)] == [] + [NewRoot] + [Launch(0)];
    ExecSnoc([], NewRoot);
    ExecSnoc([] + [NewRoot], Launch(0));
    assert Exec([] + [NewRoot]) == Ok([OWNER]);
  }

  const LAUNCHING := OWNER.(launching := Some(1))

  lemma PlugHappens()
    ensures Step([LAUNCHING, NewObj(Some(0))], Receive(1)) == Ok([LAUNCHING, CHILD])
  {
    var before := [LAUNCHING, NewObj(Some(0))];
    assert [Plug][1..] == [];
    assert Popped(before, 1)[0] == before[0] && Popped(before, 1) == [LAUNCHING, NewObj(Some(0)).(inbox := [])];
    assert Process(before, 1) == ProcessSeqnum(Popped(before, 1), 1);
  }

  lemma RequestHappens()
    ensures Step([LAUNCHING, CHILD], Terminate(1)) == Ok([LAUNCHING.(inbox := [TermReq(1)]), CHILD])
  {
    assert [] + [TermReq(1)] == [TermReq(1)];
  }

  lemma OwnHappens()
    ensures Step([LAUNCHING.(inbox := [TermReq(1)]), CHILD], FinishLaunch(0)) ==
      Ok([OWNER.(total := 1, inbox := [TermReq(1), Own(1)]), CHILD.(phase := Announced)])
  {
    assert [TermReq(1)] + [Own(1)] == [TermReq(1), Own(1)];
  }

  lemma {:induction false} AskingHappens(acts: seq<Action>)
    requires Exec(acts) == Ok([LAUNCHING, NewObj(Some(0))])
    ensures Exec(acts + [Receive(1), Terminate(1), FinishLaunch(0)]) ==
      Ok([OWNER.(total := 1, inbox := [TermReq(1), Own(1)]), CHILD.(phase := Announced)])
  {
    hide Step, Exec;
    PlugHappens();
    RequestHappens();
    OwnHappens();
    ExecSnoc(acts, Receive(1));
    ExecSnoc(acts + [Receive(1)], Terminate(1));
    ExecSnoc(acts + [Receive(1)] + [Terminate(1)], FinishLaunch(0));
    assert acts + [Receive(1), Terminate(1), FinishLaunch(0)] == acts + [Receive(1)] + [Terminate(1)] + [FinishLaunch(0)];
  }

  lemma {:induction false} IgnoringHappens(acts: seq<Action>)
    requires Exec(acts) == Ok([OWNER.(total := 1, inbox := [TermReq(1), Own(1)]), CHILD.(phase := Announced)])
    ensures Exec(acts + [Receive(0), Receive(0)]) ==
      Ok([OWNER.(total := 1, processed := 1, owned := {1}), CHILD.(phase := Owned)])
  {
    var before := [OWNER.(total := 1, inbox := [TermReq(1), Own(1)]), CHILD.(phase := Announced)];
    var ignored := [OWNER.(total := 1, inbox := [Own(1)]), CHILD.(phase := Announced)];
    assert Popped(before, 0) == ignored;
    assert Step(before, Receive(0)) == Ok(ignored);
    ExecSnoc(acts, Receive(0));
    var own := [OWNER.(total := 1), CHILD.(phase := Announced)];
    assert Popped(ignored, 0) == own;
    assert {} + {1} == {1};
    var owned := [OWNER.(total := 1, owned := {1}), CHILD.(phase := Owned)];
    assert ProcessOwn(own, 0, 1) == Ok(owned);
    assert ProcessSeqnum(owned, 0) == Ok([OWNER.(total := 1, processed := 1, owned := {1}), CHILD.(phase := Owned)]);
    ExecSnoc(acts + [Receive(0)], Receive(0));
    assert acts + [Receive(0), Receive(0)] == acts + [Receive(0)] + [Receive(0)];
  }

  /** Its request reaches the owner before own and is ignored: in the quiet state that follows it lives on. */
  lemma {:induction false} EarlyRequestIsIgnored()
    ensures Exec(TooEarly()).Ok?
    ensures var objs := Exec(TooEarly()).objs; |objs| == 2 && Quiet(objs) && objs[1].live && !objs[1].terminating && objs[0].owned == {1}
  {
    hide Exec;
    LaunchHappens();
    AskingHappens([NewRoot, Launch(0)]);
    IgnoringHappens([NewRoot, Launch(0)] + [Receive(1), Terminate(1), FinishLaunch(0)]);
  }

  // ------------------------------------------------------------ what holds an object back

  function Count(acts: seq<Action>, a: Action): nat { if acts == [] then 0 else Count(acts[..|acts| - 1], a) + B(acts[|acts| - 1] == a) }

  /** Only its own unregistrations and deliveries settle what an object waits for. */
  lemma StepHolds(objs: Objs, a: Action, x: Id)
    requires Inv(objs) && x < |objs|
    ensures Step(objs, a).Ok? ==>
      var objs' := Step(objs, a).objs;
      && x < |objs'| && objs'[x].ext >= objs[x].ext - B(a == Unregister(x))
      && objs'[x].promised >= objs[x].promised - B(a == Deliver(x))
  {
    hide Process, ProcessTerm, ProcessTermReq, UnregisterTermAck;
    match a {
      case Terminate(y) => if Ready(objs, y) { OwnsNotItself(objs, y); TermLater(objs, y, x, None); }
      case TermChild(y, d) => if Ready(objs, y) { TermReqLater(objs, y, d, x, None); }
      case Unregister(y) =>
        if Ready(objs, y) && objs[y].ext > 0 {
          UnregisterLater(objs[y := objs[y].(ext := objs[y].ext - 1)], y, x, None);
        }
      case Receive(y) => ReceiveHolds(objs, y, x);
      case _ =>
    }
  }

  lemma ReceiveHolds(objs: Objs, y: Id, x: Id)
    requires Inv(objs) && x < |objs|
    ensures Step(objs, Receive(y)).Ok? ==>
      var objs' := Step(objs, Receive(y)).objs; x < |objs'| && objs'[x].ext == objs[x].ext && objs'[x].promised == objs[x].promised
  {
    hide ProcessSeqnum;
    if y < |objs| && objs[y].inbox != [] {
      OwnsNotItself(objs, y);
      if objs[y].inbox[0] != Own(x) {
        hide Process;
        ProcessLater(objs, y, x, None);
      } else if ProcessOwn(Popped(objs, y), y, x).Ok? {
        SeqnumLater(ProcessOwn(Popped(objs, y), y, x).objs, y, x, None);
      }
    }
  }

  /** An object is not deleted while fewer events have been unregistered than were registered with it, nor
      before a command announced for it has been delivered. */
  lemma {:induction false} HeldObjectLives(acts: seq<Action>, more: seq<Action>, x: Id)
    requires WithinRange(acts + more)
    ensures Exec(acts).Ok? && Exec(acts + more).Ok?
    ensures var objs, objs' := Exec(acts).objs, Exec(acts + more).objs;
      x < |objs| ==>
        && x < |objs'| && objs'[x].ext + Count(more, Unregister(x)) >= objs[x].ext
        && objs'[x].promised + Count(more, Deliver(x)) >= objs[x].promised
        && (Count(more, Unregister(x)) < objs[x].ext || Count(more, Deliver(x)) < objs[x].promised ==> objs'[x].live)
  {
    hide Step;
    PrefixWithinRange(acts, more);
    EveryRunIsGood(acts);
    EveryRunIsGood(acts + more);
    var objs := Exec(acts).objs;
    if x < |objs| {
      if more == [] {
        assert acts + more == acts;
      } else {
        var init, a := more[..|more| - 1], more[|more| - 1];
        assert acts + more == (acts + init) + [a];
        PrefixWithinRange(acts + init, [a]);
        HeldObjectLives(acts, init, x);
        EveryRunIsGood(acts + init);
        ExecSnoc(acts + init, a);
        StepHolds(Exec(acts + init).objs, a, x);
      }
      var objs' := Exec(acts + more).objs;
      assert ObjOk(objs', x);
    }
  }

  /** Registering and announcing count, and unregistering and delivering settle: an event unregistered is no longer
      waited for, and a command delivered is in the inbox. */
  lemma RegisteringCounts(objs: Objs, x: Id, y: Id, n: nat)
    requires Inv(objs) && FewCommands(objs) && Ready(objs, x)
    ensures Step(objs, Register(x, n)).Ok? && Step(objs, Register(x, n)).objs[x].ext == objs[x].ext + n
    ensures MayPromise(objs, y, x) ==>
      Step(objs, Promise(y, x)).Ok? && Step(objs, Promise(y, x)).objs[x].promised == objs[x].promised + 1
    ensures objs[x].promised > 0 ==>
      && Step(objs, Deliver(x)).Ok? && Step(objs, Deliver(x)).objs[x].promised == objs[x].promised - 1
      && Step(objs, Deliver(x)).objs[x].inbox == objs[x].inbox + [Counted]
    ensures objs[x].ext > 0 ==>
      && Step(objs, Unregister(x)).Ok? && x < |Step(objs, Unregister(x)).objs|
      && Step(objs, Unregister(x)).objs[x].ext == objs[x].ext - 1
  {
    hide Process, ProcessTerm, ProcessTermReq, UnregisterTermAck;
    if objs[x].ext > 0 {
      StepGood(objs, Unregister(x));
      UnregisterLater(objs[x := objs[x].(ext := objs[x].ext - 1)], x, x, None);
    }
  }

  // ------------------------------------------------------------ launching

  /** In a quiet state every object that was launched and is alive is in the owned set of its owner. */
  lemma {:induction false} LaunchedIsOwned(acts: seq<Action>, c: Id)
    requires WithinRange(acts)
    ensures Exec(acts).Ok?
    ensures var objs := Exec(acts).objs;
      Quiet(objs) && c < |objs| && objs[c].live && objs[c].owner.Some? ==>
        objs[c].owner.value < c && objs[objs[c].owner.value].live && c in objs[objs[c].owner.value].owned
  {
    EveryRunIsGood(acts);
    var objs := Exec(acts).objs;
    if Quiet(objs) && c < |objs| && objs[c].live {
      assert ChildOk(objs, c);
      NobodyWaits(objs, c);
    }
  }

  /** A ready object that launches a child, and finishes, has a new live child it has announced to itself. */
  lemma LaunchMakesAChild(objs: Objs, x: Id)
    requires Inv(objs) && Ready(objs, x)
    ensures var first := Step(objs, Launch(x));
      && first.Ok? && |first.objs| == |objs| + 1 && first.objs[|objs|] == NewObj(Some(x))
      && var second := Step(first.objs, FinishLaunch(x));
      second.Ok? && Own(|objs|) in second.objs[x].inbox && second.objs[|objs|].live && second.objs[x].launching == None
  {
    var objs1 := Step(objs, Launch(x)).objs;
    var inbox := objs1[x].inbox;
    assert (inbox + [Own(|objs|)])[|inbox|] == Own(|objs|);
  }
}

/** Every step of the ownership forest keeps the invariant and faults nowhere. */
module OwnSteps {
  import opened QueueSpec
  import opened OwnModel
  import opened OwnInvariant

  predicate SameFamily(objs: Objs, objs': Objs) {
    |objs| == |objs'| && forall c: Id | c < |objs| :: objs'[c].owner == objs[c].owner && objs'[c].phase == objs[c].phase
  }

  lemma SameDying(objs: Objs, objs': Objs, x: Id)
    requires SameFamily(objs, objs')
    ensures DyingOf(objs', x) == DyingOf(objs, x)
  {
  }

  // ------------------------------------------------------------ changes to one object

  /** `o'` differs from `o` only in counters and in plain commands of its inbox. */
  predicate PlainChange(objs: Objs, x: Id, o': Obj)
    requires x < |objs|
  {
    var o := objs[x];
    && o'.owner == o.owner && o'.phase == o.phase && o'.live == o.live && o'.terminating == o.terminating
    && o'.owned == o.owned && o'.launching == o.launching
    && CountsOk(o') && LifeOk(o') && o'.termAcks - o'.ext == o.termAcks - o.ext
    && (forall i | 0 <= i < |o'.inbox| :: Justified(objs, x, o'.inbox[i]))
    && (forall i, j | 0 <= i < j < |o'.inbox| :: MayFollow(o'.inbox[i], o'.inbox[j]))
    && (forall cmd | cmd in o.inbox && (cmd.Own? || cmd.TermAck? || cmd.Term?) :: cmd in o'.inbox)
    && (Term in o'.inbox ==> Term in o.inbox)
  }

  lemma PlainChangeKeeps(objs: Objs, x: Id, o': Obj)
    requires AllBut(objs, x) && x < |objs| && PlainChange(objs, x, o')
    ensures AllBut(objs[x := o'], x)
  {
    var objs' := objs[x := o'];
    forall y: Id | y < |objs'| ensures ObjOk(objs', y) {
      assert ObjOk(objs, y);
      SameDying(objs, objs', y);
      var inbox := objs'[y].inbox;
      forall i | 0 <= i < |inbox| ensures Justified(objs', y, inbox[i]) {
        assert Justified(objs, y, inbox[i]);
      }
    }
    forall y: Id | y < |objs'| ensures ChildOk(objs', y) {
      assert ChildOk(objs, y);
    }
  }

  // ------------------------------------------------------------ deletion

  function AfterDeath(objs: Objs, x: Id, y: Id): Objs
    requires x < |objs| && y < |objs|
  {
    objs[x := objs[x].(live := false)][y := objs[y].(inbox := objs[y].inbox + [TermAck(x)])]
  }

  lemma DeathKeepsObj(objs: Objs, x: Id, y: Id, z: Id)
    requires AllBut(objs, x) && FewCommands(objs) && x < |objs| && objs[x].live && objs[x].launching == None
    requires MayDie(objs[x]) && objs[x].owner == Some(y) && z < |objs| && y < |objs|
    ensures ObjOk(AfterDeath(objs, x, y), z)
  {
    NothingLeft(objs, x);
    var objs' := AfterDeath(objs, x, y);
    NumCountedAppend(objs[y].inbox, TermAck(x));
    assert ObjOk(objs, z);
    hide AllBut;
    SameDying(objs, objs', z);
    var inbox, inbox' := objs[z].inbox, objs'[z].inbox;
    forall i | 0 <= i < |inbox'| ensures Justified(objs', z, inbox'[i]) {
      if i < |inbox| { assert Justified(objs, z, inbox[i]); }
    }
    forall i, j | 0 <= i < j < |inbox'| ensures MayFollow(inbox'[i], inbox'[j]) {
      assert Justified(objs, z, inbox[i]);
    }
  }

  lemma DeathKeeps(objs: Objs, x: Id)
    requires AllBut(objs, x) && FewCommands(objs) && x < |objs| && objs[x].live && objs[x].launching == None
    requires MayDie(objs[x]) && objs[x].owner.Some?
    ensures Good(CheckTermAcks(objs, x))
  {
    NothingLeft(objs, x);
    var y := objs[x].owner.value;
    var objs' := AfterDeath(objs, x, y);
    forall z: Id | z < |objs'| ensures ChildOk(objs', z) && ObjOk(objs', z) {
      assert ChildOk(objs, z);
      DeathKeepsObj(objs, x, y, z);
    }
    hide ObjOk, ChildOk;
  }

  lemma RootDeathKeeps(objs: Objs, x: Id)
    requires AllBut(objs, x) && FewCommands(objs) && x < |objs| && objs[x].live && objs[x].launching == None
    requires MayDie(objs[x]) && objs[x].owner == None
    ensures Good(CheckTermAcks(objs, x))
  {
    NothingLeft(objs, x);
    var objs' := objs[x := objs[x].(live := false)];
    forall z: Id | z < |objs'| ensures ObjOk(objs', z) {
      assert ObjOk(objs, z);
      SameDying(objs, objs', z);
      var inbox := objs'[z].inbox;
      forall i | 0 <= i < |inbox| ensures Justified(objs', z, inbox[i]) {
        assert Justified(objs, z, inbox[i]);
      }
    }
    forall z: Id | z < |objs'| ensures ChildOk(objs', z) {
      assert ChildOk(objs, z);
    }
  }

  lemma CheckKeeps(objs: Objs, x: Id)
    requires AllBut(objs, x) && FewCommands(objs) && x < |objs| && objs[x].live && objs[x].launching == None
    ensures Good(CheckTermAcks(objs, x))
  {
    if MayDie(objs[x]) {
      if objs[x].owner.Some? { DeathKeeps(objs, x); } else { RootDeathKeeps(objs, x); }
    } else {
      assert ObjOk(objs, x);
      assert objs[x].total % COUNTER_RANGE == objs[x].total;
    }
  }

  // ------------------------------------------------------------ plain commands

  lemma CheckedChange(objs: Objs, x: Id, o': Obj)
    requires Inv(objs) && FewCommands(objs) && x < |objs| && objs[x].live && objs[x].launching == None
    requires PlainChange(objs, x, o') && o'.total == objs[x].total
    ensures Good(CheckTermAcks(objs[x := o'], x))
  {
    PlainChangeKeeps(objs, x, o');
    CheckKeeps(objs[x := o'], x);
  }

  lemma SeqnumGood(objs: Objs, x: Id)
    requires Inv(objs) && FewCommands(objs) && x < |objs| && objs[x].live && objs[x].launching == None
    requires objs[x].inbox != [] && (objs[x].inbox[0].Plug? || objs[x].inbox[0].Counted?)
    ensures Good(Process(objs, x))
  {
    var o := objs[x];
    assert ObjOk(objs, x);
    hide Inv, CheckTermAcks;
    var o' := o.(inbox := o.inbox[1..], processed := o.processed + 1);
    assert PlainChange(objs, x, o');
    CheckedChange(objs, x, o');
    assert objs[x := o.(inbox := o.inbox[1..])][x := o'] == objs[x := o'];
  }

  lemma CounterGood(objs: Objs, x: Id, o': Obj)
    requires Inv(objs) && x < |objs| && PlainChange(objs, x, o') && NotDue(o')
    ensures Inv(objs[x := o'])
  {
    PlainChangeKeeps(objs, x, o');
  }

  lemma PromiseGood(objs: Objs, y: Id, x: Id)
    requires Inv(objs)
    ensures Good(Step(objs, Promise(y, x)))
  {
    if MayPromise(objs, y, x) {
      assert ObjOk(objs, x) && ChildOk(objs, y);
      var o := objs[x];
      CounterGood(objs, x, o.(total := o.total + 1, promised := o.promised + 1));
    }
  }

  lemma DeliverGood(objs: Objs, x: Id)
    requires Inv(objs)
    ensures Good(Step(objs, Deliver(x)))
  {
    if x < |objs| && objs[x].promised > 0 {
      assert ObjOk(objs, x);
      var o := objs[x];
      var o' := o.(promised := o.promised - 1, inbox := o.inbox + [Counted]);
      NumCountedAppend(o.inbox, Counted);
      hide Inv;
      assert PlainChange(objs, x, o');
      CounterGood(objs, x, o');
      assert objs[x := o.(promised := o.promised - 1)][x := o'] == objs[x := o'];
    }
  }

  lemma RegisterGood(objs: Objs, x: Id, n: nat)
    requires Inv(objs)
    ensures Good(Step(objs, Register(x, n)))
  {
    if Ready(objs, x) {
      assert ObjOk(objs, x);
      var o := objs[x];
      CounterGood(objs, x, o.(termAcks := o.termAcks + n, ext := o.ext + n));
    }
  }

  lemma UnregisterGood(objs: Objs, x: Id)
    requires Inv(objs) && FewCommands(objs)
    ensures Good(Step(objs, Unregister(x)))
  {
    if Ready(objs, x) && objs[x].ext > 0 {
      assert ObjOk(objs, x);
      hide Inv, CheckTermAcks;
      var o := objs[x];
      var o' := o.(ext := o.ext - 1, termAcks := o.termAcks - 1);
      CheckedChange(objs, x, o');
      assert objs[x := o.(ext := o.ext - 1)][x := o'] == objs[x := o'];
    }
  }

  lemma SendTermReqGood(objs: Objs, x: Id)
    requires Inv(objs) && x < |objs| && objs[x].live && !objs[x].terminating && objs[x].owner.Some?
    ensures objs[x].owner.value < |objs| && Good(Send(objs, objs[x].owner.value, TermReq(x)))
  {
    var y := objs[x].owner.value;
    assert ChildOk(objs, x) && ObjOk(objs, y);
    var o := objs[y];
    var o' := o.(inbox := o.inbox + [TermReq(x)]);
    NumCountedAppend(o.inbox, TermReq(x));
    forall i, j | 0 <= i < j < |o'.inbox| ensures MayFollow(o'.inbox[i], o'.inbox[j]) {
      if j == |o'.inbox| - 1 { assert Justified(objs, y, o.inbox[i]); }
    }
    assert PlainChange(objs, y, o');
    CounterGood(objs, y, o');
  }

  // ------------------------------------------------------------ asking children to terminate

  lemma OneMoreDying(objs: Objs, objs': Objs, x: Id, c: Id)
    requires |objs| == |objs'| && c < |objs| && IsChild(objs, c, x) && objs[c].phase != Dying
    requires forall z: Id | z < |objs| :: objs'[z].owner == objs[z].owner
    requires forall z: Id | z < |objs| && z != c :: objs'[z].phase == objs[z].phase
    ensures objs'[c].phase == Dying ==> DyingOf(objs', x) == DyingOf(objs, x) + {c} && c !in DyingOf(objs, x)
    ensures objs'[c].phase != Dying ==> DyingOf(objs', x) == DyingOf(objs, x)
    ensures forall y: Id | y != x :: DyingOf(objs', y) == DyingOf(objs, y)
  {
    forall y: Id | y != x ensures DyingOf(objs', y) == DyingOf(objs, y) {
      assert forall z: Id | z < |objs| :: z in DyingOf(objs', y) <==> z in DyingOf(objs, y);
    }
    assert forall z: Id | z < |objs| && z != c :: z in DyingOf(objs', x) <==> z in DyingOf(objs, x);
  }

  // ------------------------------------------------------------ an owner and its child change together

  /** `x` and its child `c` change; nothing that concerns anybody else does. */
  ghost predicate OnlyBetween(objs: Objs, objs': Objs, x: Id, c: Id) {
    && x < c < |objs| && IsChild(objs, c, x) && |objs'| == |objs|
    && (forall z: Id | z < |objs| && z != x && z != c :: objs'[z] == objs[z])
    && var o, o', k, k' := objs[x], objs'[x], objs[c], objs'[c];
    && o'.owner == o.owner && o'.phase == o.phase && o'.live == o.live && o'.terminating == o.terminating
    && k'.owner == k.owner && k'.live == k.live && k'.launching == k.launching && k'.owned == k.owned
    && (Term in o'.inbox <==> Term in o.inbox)
    && (forall d: Id | d != c ::
          && (Own(d) in o.inbox ==> Own(d) in o'.inbox)
          && (TermAck(d) in o.inbox ==> TermAck(d) in o'.inbox)
          && (o.launching == Some(d) ==> o'.launching == Some(d))
          && (d in o.owned ==> d in o'.owned))
    && (forall cmd | cmd in k.inbox :: cmd in k'.inbox)
  }

  lemma OthersKeepObj(objs: Objs, objs': Objs, x: Id, c: Id, z: Id)
    requires AllBut(objs, x) && OnlyBetween(objs, objs', x, c) && z < |objs| && z != x && z != c
    ensures ObjOk(objs', z)
  {
    assert ObjOk(objs, z);
    assert DyingOf(objs', z) == DyingOf(objs, z) by {
      assert forall d: Id | d < |objs| :: d in DyingOf(objs', z) <==> d in DyingOf(objs, z);
    }
    var inbox := objs'[z].inbox;
    forall i | 0 <= i < |inbox| ensures Justified(objs', z, inbox[i]) {
      assert Justified(objs, z, inbox[i]);
    }
  }

  lemma OthersKeepChild(objs: Objs, objs': Objs, x: Id, c: Id, z: Id)
    requires AllBut(objs, x) && OnlyBetween(objs, objs', x, c) && z < |objs| && z != c
    ensures ChildOk(objs', z)
  {
    assert ChildOk(objs, z);
  }

  lemma FamilyChangeKeeps(objs: Objs, objs': Objs, x: Id, c: Id)
    requires AllBut(objs, x) && OnlyBetween(objs, objs', x, c)
    requires ObjOk(objs', x) && ObjOk(objs', c) && ChildOk(objs', c) && NotDue(objs'[c])
    ensures AllBut(objs', x)
  {
    forall z: Id | z < |objs'| ensures ObjOk(objs', z) && ChildOk(objs', z) {
      if z != x && z != c { OthersKeepObj(objs, objs', x, c, z); }
      if z != c { OthersKeepChild(objs, objs', x, c, z); }
    }
    hide ObjOk, ChildOk;
  }

  // ------------------------------------------------------------ asking children to terminate

  function Asked(k: Obj): Obj { k.(inbox := k.inbox + [Term], phase := Dying) }

  lemma AskedChildOk(objs: Objs, objs': Objs, x: Id, c: Id)
    requires AllBut(objs, x) && OnlyBetween(objs, objs', x, c) && objs[c].phase in {Announced, Owned}
    requires objs'[c] == Asked(objs[c])
    ensures ObjOk(objs', c) && ChildOk(objs', c) && NotDue(objs'[c])
  {
    assert ObjOk(objs, c) && ChildOk(objs, c);
    NumCountedAppend(objs[c].inbox, Term);
    assert DyingOf(objs', c) == DyingOf(objs, c) by {
      assert forall d: Id | d < |objs| :: d in DyingOf(objs', c) <==> d in DyingOf(objs, c);
    }
    var inbox, inbox' := objs[c].inbox, objs'[c].inbox;
    forall i | 0 <= i < |inbox'| ensures Justified(objs', c, inbox'[i]) {
      if i < |inbox| { assert Justified(objs, c, inbox[i]); }
    }
    forall i, j | 0 <= i < j < |inbox'| ensures MayFollow(inbox'[i], inbox'[j]) {
      assert Justified(objs, c, inbox[i]);
    }
  }

  /** The owner's side of a change: its books balance and its inbox stays justified. */
  lemma OwnerOk(objs: Objs, objs': Objs, x: Id, c: Id)
    requires AllBut(objs, x) && OnlyBetween(objs, objs', x, c)
    requires CountsOk(objs'[x]) && LifeOk(objs'[x]) && LinksOk(objs', x)
    requires objs'[x].termAcks - objs'[x].ext - (objs[x].termAcks - objs[x].ext) == |DyingOf(objs', x)| - |DyingOf(objs, x)|
    requires forall cmd | cmd in objs'[x].inbox :: cmd in objs[x].inbox || cmd == Own(c)
    requires forall cmd | cmd in objs'[x].inbox && (cmd.Own? || cmd.TermReq? || cmd.TermAck?) && cmd.child == c ::
               Justified(objs', x, cmd)
    requires forall i, j | 0 <= i < j < |objs'[x].inbox| :: MayFollow(objs'[x].inbox[i], objs'[x].inbox[j])
    ensures ObjOk(objs', x)
  {
    assert ObjOk(objs, x);
    var inbox := objs'[x].inbox;
    forall i | 0 <= i < |inbox| ensures Justified(objs', x, inbox[i]) {
      assert inbox[i] in inbox;
      if inbox[i] in objs[x].inbox { assert Justified(objs, x, inbox[i]); }
    }
  }

  function AfterRequest(objs: Objs, x: Id, c: Id): Objs
    requires x < |objs| && c < |objs|
  {
    objs[x := objs[x].(owned := objs[x].owned - {c}, termAcks := objs[x].termAcks + 1)][c := Asked(objs[c])]
  }

  lemma RequestKeepsOwner(objs: Objs, x: Id, c: Id)
    requires Inv(objs) && x < |objs| && c in objs[x].owned
    ensures x < c < |objs| && objs[c].live && objs[c].phase == Owned
    ensures OnlyBetween(objs, AfterRequest(objs, x, c), x, c) && ObjOk(AfterRequest(objs, x, c), x)
  {
    assert ObjOk(objs, x);
    assert ChildOk(objs, c);
    var objs' := AfterRequest(objs, x, c);
    OneMoreDying(objs, objs', x, c);
    OwnerOk(objs, objs', x, c);
  }

  lemma TermReqGood(objs: Objs, x: Id, c: Id)
    requires Inv(objs) && x < |objs|
    ensures Good(ProcessTermReq(objs, x, c))
  {
    if !objs[x].terminating && c in objs[x].owned {
      RequestKeepsOwner(objs, x, c);
      var objs' := AfterRequest(objs, x, c);
      AskedChildOk(objs, objs', x, c);
      FamilyChangeKeeps(objs, objs', x, c);
      assert ProcessTermReq(objs, x, c) == Ok(objs');
      hide ObjOk, ChildOk, OnlyBetween;
    }
  }

  lemma ReceiveTermReqGood(objs: Objs, x: Id)
    requires Inv(objs) && x < |objs| && objs[x].live && objs[x].inbox != [] && objs[x].inbox[0].TermReq?
    ensures Good(Process(objs, x))
  {
    var o := objs[x];
    assert ObjOk(objs, x);
    var o' := o.(inbox := o.inbox[1..]);
    assert PlainChange(objs, x, o');
    CounterGood(objs, x, o');
    TermReqGood(objs[x := o'], x, o.inbox[0].child);
  }

  // ------------------------------------------------------------ own commands

  /** A terminating owner asks a newly announced child to terminate at once. */
  function AfterLateOwn(objs: Objs, x: Id, c: Id): Objs
    requires x < |objs| && c < |objs| && objs[x].inbox != []
  {
    var o := objs[x];
    objs[x := o.(inbox := o.inbox[1..], processed := o.processed + 1, termAcks := o.termAcks + 1)][c := Asked(objs[c])]
  }

  function AfterOwn(objs: Objs, x: Id, c: Id): Objs
    requires x < |objs| && c < |objs| && objs[x].inbox != []
  {
    var o := objs[x];
    objs[x := o.(inbox := o.inbox[1..], processed := o.processed + 1, owned := o.owned + {c})][c := objs[c].(phase := Owned)]
  }

  lemma TailOf(inbox: seq<Command>, cmd: Command)
    requires inbox != [] && cmd in inbox && cmd != inbox[0]
    ensures cmd in inbox[1..]
  {
    var i :| 0 <= i < |inbox| && inbox[i] == cmd;
    assert inbox[1..][i - 1] == cmd;
  }

  lemma TailsOf(inbox: seq<Command>)
    requires inbox != []
    ensures forall cmd | cmd in inbox && cmd != inbox[0] :: cmd in inbox[1..]
    ensures forall cmd | cmd in inbox[1..] :: cmd in inbox
  {
    forall cmd | cmd in inbox && cmd != inbox[0] ensures cmd in inbox[1..] { TailOf(inbox, cmd); }
  }

  lemma HeadFacts(objs: Objs, x: Id)
    requires Inv(objs) && x < |objs| && objs[x].inbox != []
    ensures ObjOk(objs, x) && Justified(objs, x, objs[x].inbox[0])
    ensures forall cmd | cmd in objs[x].inbox[1..] :: MayFollow(objs[x].inbox[0], cmd)
    ensures forall cmd | cmd in objs[x].inbox && cmd != objs[x].inbox[0] :: cmd in objs[x].inbox[1..]
  {
    assert ObjOk(objs, x);
    TailsOf(objs[x].inbox);
    forall cmd | cmd in objs[x].inbox[1..] ensures MayFollow(objs[x].inbox[0], cmd) {
      var j :| 0 <= j < |objs[x].inbox| - 1 && objs[x].inbox[1..][j] == cmd;
      assert objs[x].inbox[j + 1] == cmd;
    }
  }

  lemma LateOwnKeepsOwner(objs: Objs, x: Id)
    requires Inv(objs) && x < |objs| && objs[x].live && objs[x].terminating && objs[x].inbox != [] && objs[x].inbox[0].Own?
    ensures var c := objs[x].inbox[0].child;
            && x < c < |objs| && objs[c].live && objs[c].phase == Announced
            && OnlyBetween(objs, AfterLateOwn(objs, x, c), x, c) && ObjOk(AfterLateOwn(objs, x, c), x)
  {
    HeadFacts(objs, x);
    var c := objs[x].inbox[0].child;
    assert ChildOk(objs, c);
    var objs' := AfterLateOwn(objs, x, c);
    OneMoreDying(objs, objs', x, c);
    OwnerOk(objs, objs', x, c);
  }

  lemma LateOwnGood(objs: Objs, x: Id)
    requires Inv(objs) && FewCommands(objs) && x < |objs| && objs[x].live && objs[x].launching == None
    requires objs[x].terminating && objs[x].inbox != [] && objs[x].inbox[0].Own?
    ensures Good(Process(objs, x))
  {
    LateOwnKeepsOwner(objs, x);
    var c := objs[x].inbox[0].child;
    var objs' := AfterLateOwn(objs, x, c);
    AskedChildOk(objs, objs', x, c);
    FamilyChangeKeeps(objs, objs', x, c);
    CheckKeeps(objs', x);
    hide ObjOk, ChildOk, OnlyBetween, CheckTermAcks;
    var popped := objs[x := objs[x].(inbox := objs[x].inbox[1..])];
    var asked := TermOne(popped, x, c).objs;
    assert asked[x := asked[x].(processed := asked[x].processed + 1)] == objs';
  }

  lemma OwnKeepsOwner(objs: Objs, x: Id)
    requires Inv(objs) && x < |objs| && objs[x].live && !objs[x].terminating && objs[x].inbox != [] && objs[x].inbox[0].Own?
    ensures var c := objs[x].inbox[0].child;
            && x < c < |objs| && objs[c].live && objs[c].phase == Announced
            && OnlyBetween(objs, AfterOwn(objs, x, c), x, c) && ObjOk(AfterOwn(objs, x, c), x)
  {
    HeadFacts(objs, x);
    var c := objs[x].inbox[0].child;
    assert ChildOk(objs, c);
    var objs' := AfterOwn(objs, x, c);
    OneMoreDying(objs, objs', x, c);
    OwnerOk(objs, objs', x, c);
  }

  lemma OwnedChildOk(objs: Objs, objs': Objs, x: Id, c: Id)
    requires AllBut(objs, x) && OnlyBetween(objs, objs', x, c) && objs[c].phase in {Announced, Launching}
    requires objs'[c] == objs[c].(phase := objs'[c].phase)
    requires (objs'[c].phase == Owned && c in objs'[x].owned) || (objs'[c].phase == Announced && Own(c) in objs'[x].inbox)
    ensures ObjOk(objs', c) && ChildOk(objs', c) && NotDue(objs'[c])
  {
    assert ObjOk(objs, c) && ChildOk(objs, c);
    assert DyingOf(objs', c) == DyingOf(objs, c) by {
      assert forall d: Id | d < |objs| :: d in DyingOf(objs', c) <==> d in DyingOf(objs, c);
    }
    var inbox := objs'[c].inbox;
    forall i | 0 <= i < |inbox| ensures Justified(objs', c, inbox[i]) {
      assert Justified(objs, c, inbox[i]);
    }
  }

  lemma OwnGood(objs: Objs, x: Id)
    requires Inv(objs) && FewCommands(objs) && x < |objs| && objs[x].live && objs[x].launching == None
    requires !objs[x].terminating && objs[x].inbox != [] && objs[x].inbox[0].Own?
    ensures Good(Process(objs, x))
  {
    OwnKeepsOwner(objs, x);
    var c := objs[x].inbox[0].child;
    var objs' := AfterOwn(objs, x, c);
    OwnedChildOk(objs, objs', x, c);
    FamilyChangeKeeps(objs, objs', x, c);
    CheckKeeps(objs', x);
    hide ObjOk, ChildOk, OnlyBetween, CheckTermAcks;
    var popped := objs[x := objs[x].(inbox := objs[x].inbox[1..])];
    var owns := ProcessOwn(popped, x, c).objs;
    assert owns[x := owns[x].(processed := owns[x].processed + 1)] == objs';
  }

  // ------------------------------------------------------------ launching

  function AfterFinish(objs: Objs, x: Id, c: Id): Objs
    requires x < |objs| && c < |objs|
  {
    var o := objs[x];
    objs[x := o.(launching := None, total := o.total + 1, inbox := o.inbox + [Own(c)])][c := objs[c].(phase := Announced)]
  }

  lemma FinishKeepsOwner(objs: Objs, x: Id)
    requires Inv(objs) && x < |objs| && objs[x].launching.Some?
    ensures var c := objs[x].launching.value;
            && x < c < |objs| && objs[x].live && objs[c].phase == Launching
            && OnlyBetween(objs, AfterFinish(objs, x, c), x, c) && ObjOk(AfterFinish(objs, x, c), x)
  {
    assert ObjOk(objs, x);
    var c := objs[x].launching.value;
    assert ChildOk(objs, c);
    var o := objs[x];
    var objs' := AfterFinish(objs, x, c);
    NumCountedAppend(o.inbox, Own(c));
    OneMoreDying(objs, objs', x, c);
    forall i, j | 0 <= i < j < |objs'[x].inbox| ensures MayFollow(objs'[x].inbox[i], objs'[x].inbox[j]) {
      assert Justified(objs, x, o.inbox[i]);
    }
    OwnerOk(objs, objs', x, c);
  }

  lemma FinishLaunchGood(objs: Objs, x: Id)
    requires Inv(objs)
    ensures Good(Step(objs, FinishLaunch(x)))
  {
    if x < |objs| && objs[x].launching.Some? {
      FinishKeepsOwner(objs, x);
      var c := objs[x].launching.value;
      var objs' := AfterFinish(objs, x, c);
      OwnedChildOk(objs, objs', x, c);
      FamilyChangeKeeps(objs, objs', x, c);
      assert NotDue(objs'[x]);
      hide ObjOk, ChildOk, OnlyBetween;
      assert Step(objs, FinishLaunch(x)) == Ok(objs');
    }
  }

  // ------------------------------------------------------------ acknowledgements

  function AfterAck(objs: Objs, x: Id, c: Id): Objs
    requires x < |objs| && c < |objs| && objs[x].inbox != []
  {
    var o := objs[x];
    objs[x := o.(inbox := o.inbox[1..], termAcks := o.termAcks - 1)][c := objs[c].(phase := Buried)]
  }

  lemma OneLessDying(objs: Objs, objs': Objs, x: Id, c: Id)
    requires |objs| == |objs'| && c < |objs| && IsChild(objs, c, x) && objs[c].phase == Dying && objs'[c].phase == Buried
    requires forall z: Id | z < |objs| :: objs'[z].owner == objs[z].owner
    requires forall z: Id | z < |objs| && z != c :: objs'[z].phase == objs[z].phase
    ensures DyingOf(objs', x) == DyingOf(objs, x) - {c} && c in DyingOf(objs, x)
  {
  }

  lemma AckKeepsOwner(objs: Objs, x: Id)
    requires Inv(objs) && x < |objs| && objs[x].live && objs[x].inbox != [] && objs[x].inbox[0].TermAck?
    ensures var c := objs[x].inbox[0].child;
            && x < c < |objs| && objs[c].phase == Dying && !objs[c].live && objs[x].termAcks > 0
            && OnlyBetween(objs, AfterAck(objs, x, c), x, c) && ObjOk(AfterAck(objs, x, c), x)
  {
    HeadFacts(objs, x);
    var c := objs[x].inbox[0].child;
    assert ChildOk(objs, c);
    var objs' := AfterAck(objs, x, c);
    OneLessDying(objs, objs', x, c);
    assert TermReq(c) !in objs'[x].inbox && TermAck(c) !in objs'[x].inbox;
    OwnerOk(objs, objs', x, c);
  }

  lemma BuriedChildOk(objs: Objs, objs': Objs, x: Id, c: Id)
    requires AllBut(objs, x) && OnlyBetween(objs, objs', x, c) && objs[c].phase == Dying && !objs[c].live
    requires objs'[c] == objs[c].(phase := Buried)
    ensures ObjOk(objs', c) && ChildOk(objs', c) && NotDue(objs'[c])
  {
    assert ObjOk(objs, c) && ChildOk(objs, c);
    assert DyingOf(objs', c) == DyingOf(objs, c) by {
      assert forall d: Id | d < |objs| :: d in DyingOf(objs', c) <==> d in DyingOf(objs, c);
    }
  }

  lemma TermAckGood(objs: Objs, x: Id)
    requires Inv(objs) && FewCommands(objs) && x < |objs| && objs[x].live && objs[x].launching == None
    requires objs[x].inbox != [] && objs[x].inbox[0].TermAck?
    ensures Good(Process(objs, x))
  {
    AckKeepsOwner(objs, x);
    var c := objs[x].inbox[0].child;
    var objs' := AfterAck(objs, x, c);
    BuriedChildOk(objs, objs', x, c);
    FamilyChangeKeeps(objs, objs', x, c);
    CheckKeeps(objs', x);
    hide ObjOk, ChildOk, OnlyBetween, CheckTermAcks;
    var popped := objs[x := objs[x].(inbox := objs[x].inbox[1..])];
    var buried := popped[c := popped[c].(phase := Buried)];
    assert buried[x := buried[x].(termAcks := buried[x].termAcks - 1)] == objs';
  }

  // ------------------------------------------------------------ new objects

  lemma NewRootGood(objs: Objs)
    requires Inv(objs)
    ensures Good(Step(objs, NewRoot))
  {
    var objs' := objs + [NewObj(None)];
    forall z: Id | z < |objs'| ensures ObjOk(objs', z) && ChildOk(objs', z) {
      StillOk(objs, objs', z);
    }
    forall z: Id | z < |objs'| ensures NotDue(objs'[z]) {}
    hide ObjOk, ChildOk;
  }

  /** Adding an object disturbs nobody; `objs` is a prefix except for one launching field. */
  lemma StillOk(objs: Objs, objs': Objs, z: Id)
    requires Inv(objs) && |objs'| == |objs| + 1 && z < |objs'|
    requires objs' == objs + [NewObj(None)]
    ensures ObjOk(objs', z) && ChildOk(objs', z)
  {
    assert DyingOf(objs', z) == if z < |objs| then DyingOf(objs, z) else {} by {
      assert forall d: Id | d < |objs| :: ChildOk(objs, d) && (d in DyingOf(objs', z) <==> d in DyingOf(objs, z));
    }
    if z < |objs| {
      assert ObjOk(objs, z) && ChildOk(objs, z);
      var inbox := objs'[z].inbox;
      forall i | 0 <= i < |inbox| ensures Justified(objs', z, inbox[i]) {
        assert Justified(objs, z, inbox[i]);
      }
    }
  }

  function AfterLaunch(objs: Objs, x: Id): Objs
    requires x < |objs|
  {
    objs[x := objs[x].(launching := Some(|objs|))] + [NewObj(Some(x))]
  }

  lemma LaunchKeepsObj(objs: Objs, x: Id, z: Id)
    requires Inv(objs) && Ready(objs, x) && z <= |objs|
    ensures ObjOk(AfterLaunch(objs, x), z)
  {
    var objs' := AfterLaunch(objs, x);
    assert DyingOf(objs', z) == if z < |objs| then DyingOf(objs, z) else {} by {
      assert forall d: Id | d < |objs| :: ChildOk(objs, d) && (d in DyingOf(objs', z) <==> d in DyingOf(objs, z));
    }
    if z < |objs| {
      assert ObjOk(objs, z);
      var inbox := objs'[z].inbox;
      forall i | 0 <= i < |inbox| ensures Justified(objs', z, inbox[i]) {
        assert Justified(objs, z, inbox[i]);
      }
    } else {
      assert objs'[z] == NewObj(Some(x));
      assert NumCounted([Plug]) == 1;
    }
  }

  lemma LaunchKeepsChild(objs: Objs, x: Id, z: Id)
    requires Inv(objs) && Ready(objs, x) && z <= |objs|
    ensures ChildOk(AfterLaunch(objs, x), z)
  {
    if z < |objs| { assert ChildOk(objs, z); } else { assert AfterLaunch(objs, x)[z] == NewObj(Some(x)); }
  }

  lemma LaunchGood(objs: Objs, x: Id)
    requires Inv(objs)
    ensures Good(Step(objs, Launch(x)))
  {
    if Ready(objs, x) {
      var objs' := AfterLaunch(objs, x);
      forall z: Id | z < |objs'| ensures ObjOk(objs', z) && ChildOk(objs', z) && NotDue(objs'[z]) {
        LaunchKeepsObj(objs, x, z);
        LaunchKeepsChild(objs, x, z);
      }
      hide ObjOk, ChildOk;
    }
  }

  // ------------------------------------------------------------ starting to terminate

  /** The inbox of an object that starts to terminate: a root starts by itself, any other
      object because it takes its term command. */
  predicate StartsWith(o: Obj, inbox: seq<Command>) {
    (o.phase == Root && inbox == o.inbox) || (o.inbox != [] && o.inbox[0] == Term && inbox == o.inbox[1..])
  }

  function Started(o: Obj, inbox: seq<Command>): Obj {
    o.(inbox := inbox, termAcks := o.termAcks + |o.owned|, owned := {}, terminating := true)
  }

  function AfterStart(objs: Objs, x: Id, inbox: seq<Command>): Objs
    requires x < |objs|
  {
    TermAll(objs, objs[x].owned)[x := Started(objs[x], inbox)]
  }

  ghost predicate Starting(objs: Objs, x: Id, inbox: seq<Command>) {
    && Inv(objs) && x < |objs| && objs[x].live && objs[x].launching == None && !objs[x].terminating
    && StartsWith(objs[x], inbox)
  }

  lemma {:induction false} StartingInbox(objs: Objs, x: Id, inbox: seq<Command>)
    requires Starting(objs, x, inbox)
    ensures ObjOk(objs, x) && Term !in inbox && NumCounted(inbox) == NumCounted(objs[x].inbox)
    ensures forall cmd | cmd in inbox :: cmd in objs[x].inbox && Justified(objs, x, cmd)
    ensures forall cmd | cmd in objs[x].inbox && cmd != Term :: cmd in inbox
    ensures forall i, j | 0 <= i < j < |inbox| :: MayFollow(inbox[i], inbox[j])
    ensures forall c | c in objs[x].owned :: x < c < |objs| && objs[c].owner == Some(x) && objs[c].phase == Owned && objs[c].live
  {
    assert ObjOk(objs, x) && ChildOk(objs, x);
    if inbox != objs[x].inbox { HeadFacts(objs, x); }
    forall c | c in objs[x].owned ensures x < c < |objs| && objs[c].live {
      assert IsChild(objs, c, x);
      assert ChildOk(objs, c);
    }
  }

  ghost predicate Begun(objs: Objs, objs': Objs, x: Id, inbox: seq<Command>) {
    && Starting(objs, x, inbox) && |objs'| == |objs| && objs'[x] == Started(objs[x], inbox)
    && (forall z: Id | z < |objs| && z != x :: objs'[z] == if z in objs[x].owned then Asked(objs[z]) else objs[z])
  }

  lemma DyingAfterStart(objs: Objs, objs': Objs, x: Id, inbox: seq<Command>)
    requires Begun(objs, objs', x, inbox)
    ensures |DyingOf(objs', x)| == |DyingOf(objs, x)| + |objs[x].owned|
    ensures forall z: Id | z != x :: DyingOf(objs', z) == DyingOf(objs, z)
  {
    StartingInbox(objs, x, inbox);
    hide Inv, ObjOk, Justified;
    assert DyingOf(objs', x) == DyingOf(objs, x) + objs[x].owned by {
      assert forall d: Id | d < |objs| :: d in DyingOf(objs', x) <==> d in DyingOf(objs, x) || d in objs[x].owned;
    }
    forall z: Id | z != x ensures DyingOf(objs', z) == DyingOf(objs, z) {
      assert forall d: Id | d < |objs| :: d in DyingOf(objs', z) <==> d in DyingOf(objs, z);
    }
  }

  lemma StillJustified(objs: Objs, objs': Objs, x: Id, inbox: seq<Command>, z: Id, cmd: Command)
    requires Begun(objs, objs', x, inbox) && z < |objs| && Justified(objs, z, cmd) && (z == x ==> cmd != Term)
    ensures Justified(objs', z, cmd)
  {
    StartingInbox(objs, x, inbox);
    hide Inv, ObjOk;
    assert z in objs[x].owned ==> objs'[z].phase == Dying && objs[z].phase == Owned;
  }

  lemma StartKeepsStarter(objs: Objs, objs': Objs, x: Id, inbox: seq<Command>)
    requires Begun(objs, objs', x, inbox)
    ensures ObjOk(objs', x) && ChildOk(objs', x)
  {
    StartingInbox(objs, x, inbox);
    DyingAfterStart(objs, objs', x, inbox);
    assert ChildOk(objs, x);
    forall i | 0 <= i < |inbox| ensures Justified(objs', x, inbox[i]) {
      assert inbox[i] in inbox;
      StillJustified(objs, objs', x, inbox, x, inbox[i]);
    }
    hide Inv, Justified, MayFollow;
  }

  lemma StartKeepsObj(objs: Objs, objs': Objs, x: Id, inbox: seq<Command>, z: Id)
    requires Begun(objs, objs', x, inbox) && z < |objs| && z != x
    ensures ObjOk(objs', z)
  {
    StartingInbox(objs, x, inbox);
    assert ObjOk(objs, z) && ChildOk(objs, z);
    hide Inv;
    NumCountedAppend(objs[z].inbox, Term);
    DyingAfterStart(objs, objs', x, inbox);
    var now := objs'[z].inbox;
    forall i | 0 <= i < |now| ensures Justified(objs', z, now[i]) {
      if i < |objs[z].inbox| { StillJustified(objs, objs', x, inbox, z, objs[z].inbox[i]); }
    }
    forall i, j | 0 <= i < j < |now| ensures MayFollow(now[i], now[j]) {
      assert Justified(objs, z, objs[z].inbox[i]);
    }
    hide Justified, MayFollow;
  }

  lemma StartKeepsChild(objs: Objs, objs': Objs, x: Id, inbox: seq<Command>, z: Id)
    requires Begun(objs, objs', x, inbox) && z < |objs| && z != x
    ensures ChildOk(objs', z)
  {
    StartingInbox(objs, x, inbox);
    assert ChildOk(objs, z) && ObjOk(objs, z);
    if z in objs[x].owned { assert objs'[z].inbox[|objs[z].inbox|] == Term; }
  }

  lemma StartKeeps(objs: Objs, objs': Objs, x: Id, inbox: seq<Command>)
    requires Begun(objs, objs', x, inbox)
    ensures AllBut(objs', x)
  {
    StartingInbox(objs, x, inbox);
    forall z: Id | z < |objs'| ensures ObjOk(objs', z) && ChildOk(objs', z) {
      if z == x {
        StartKeepsStarter(objs, objs', x, inbox);
      } else {
        StartKeepsObj(objs, objs', x, inbox, z);
        StartKeepsChild(objs, objs', x, inbox, z);
      }
    }
    hide ObjOk, ChildOk;
  }

  lemma StartIsAfterStart(objs: Objs, x: Id, inbox: seq<Command>)
    requires x < |objs| && !objs[x].terminating
    requires forall c | c in objs[x].owned :: x < c < |objs| && objs[c].live
    ensures |AfterStart(objs, x, inbox)| == |objs|
    ensures ProcessTerm(objs[x := objs[x].(inbox := inbox)], x) == CheckTermAcks(AfterStart(objs, x, inbox), x)
  {
    hide CheckTermAcks, TermAll;
    var popped := objs[x := objs[x].(inbox := inbox)];
    var o := popped[x];
    assert forall c | c in o.owned :: c < |popped| && popped[c].live;
    SameExcept(objs, popped, o.owned, x, Started(objs[x], inbox));
    assert o.(termAcks := o.termAcks + |o.owned|, owned := {}, terminating := true) == Started(objs[x], inbox);
  }

  lemma SameExcept(objs: Objs, objs': Objs, owned: set<Id>, x: Id, o: Obj)
    requires |objs| == |objs'| && x < |objs| && forall i: Id | i < |objs| && i != x :: objs[i] == objs'[i]
    ensures |TermAll(objs, owned)| == |objs| && |TermAll(objs', owned)| == |objs|
    ensures TermAll(objs, owned)[x := o] == TermAll(objs', owned)[x := o]
  {
    var s, s' := TermAll(objs, owned)[x := o], TermAll(objs', owned)[x := o];
    assert forall i | 0 <= i < |objs| :: s[i] == s'[i];
  }

  lemma StartGood(objs: Objs, x: Id, inbox: seq<Command>)
    requires Starting(objs, x, inbox) && FewCommands(objs)
    ensures Good(ProcessTerm(objs[x := objs[x].(inbox := inbox)], x))
  {
    StartingInbox(objs, x, inbox);
    var objs' := AfterStart(objs, x, inbox);
    hide ObjOk, ChildOk, CheckTermAcks, ProcessTerm, Inv, Justified, MayFollow;
    StartIsAfterStart(objs, x, inbox);
    StartKeeps(objs, objs', x, inbox);
    CheckKeeps(objs', x);
  }

  // ------------------------------------------------------------ all steps

  lemma ReceiveGood(objs: Objs, x: Id)
    requires Inv(objs) && FewCommands(objs)
    ensures Good(Step(objs, Receive(x)))
  {
    if x < |objs| && objs[x].inbox != [] && objs[x].launching == None {
      assert ObjOk(objs, x);
      match objs[x].inbox[0]
      case Plug => SeqnumGood(objs, x);
      case Counted => SeqnumGood(objs, x);
      case Own(_) => if objs[x].terminating { LateOwnGood(objs, x); } else { OwnGood(objs, x); }
      case TermReq(_) => ReceiveTermReqGood(objs, x);
      case Term =>
        HeadFacts(objs, x);
        StartGood(objs, x, objs[x].inbox[1..]);
      case TermAck(_) => TermAckGood(objs, x);
    }
  }

  lemma TerminateGood(objs: Objs, x: Id)
    requires Inv(objs) && FewCommands(objs)
    ensures Good(Step(objs, Terminate(x)))
  {
    if Ready(objs, x) && !objs[x].terminating {
      assert ChildOk(objs, x);
      if objs[x].owner == None {
        StartGood(objs, x, objs[x].inbox);
        assert objs[x := objs[x].(inbox := objs[x].inbox)] == objs;
      } else {
        SendTermReqGood(objs, x);
      }
    }
  }

  lemma StepGood(objs: Objs, a: Action)
    requires Inv(objs) && FewCommands(objs)
    ensures Good(Step(objs, a))
  {
    match a
    case NewRoot => NewRootGood(objs);
    case Launch(x) => LaunchGood(objs, x);
    case FinishLaunch(x) => FinishLaunchGood(objs, x);
    case Promise(y, x) => PromiseGood(objs, y, x);
    case Deliver(x) => DeliverGood(objs, x);
    case Terminate(x) => TerminateGood(objs, x);
    case TermChild(x, c) => if Ready(objs, x) { TermReqGood(objs, x, c); }
    case Register(x, n) => RegisterGood(objs, x, n);
    case Unregister(x) => UnregisterGood(objs, x);
    case Receive(x) => ReceiveGood(objs, x);
  }
}

/** The objects of the ownership forest, each with its own fields and its own mailbox. */
module Own {
  import opened QueueSpec
  import M = OwnModel

  /** Commands name objects; who sent an acknowledgement is a record the receiver does not get. */
  datatype Command =
    | Plug
    | Own(child: OwnObject)
    | Counted
    | TermReq(child: OwnObject)
    | Term
    | TermAck(ghost sender: OwnObject)

  /** What the proofs of the forest remember about an object. */
  datatype Record = Record(launching: Option<M.Id>, ext: nat, promised: nat, phase: M.Phase)

  /** A command as the forest sees it: objects by their places. */
  ghost function Named(cmd: Command): M.Command {
    match cmd
    case Plug => M.Plug
    case Own(c) => M.Own(c.id)
    case Counted => M.Counted
    case TermReq(c) => M.TermReq(c.id)
    case Term => M.Term
    case TermAck(c) => M.TermAck(c.id)
  }

  ghost function NamedAll(inbox: seq<Command>): (r: seq<M.Command>)
    ensures |r| == |inbox|
  {
    seq(|inbox|, i requires 0 <= i < |inbox| => Named(inbox[i]))
  }

  lemma NamedAppend(inbox: seq<Command>, cmd: Command)
    ensures NamedAll(inbox + [cmd]) == NamedAll(inbox) + [Named(cmd)]
  {
  }

  lemma NamedRest(inbox: seq<Command>)
    requires inbox != []
    ensures NamedAll(inbox)[0] == Named(inbox[0]) && NamedAll(inbox[1..]) == NamedAll(inbox)[1..]
  {
  }

  ghost function Ids(s: set<OwnObject>): set<M.Id> { set o | o in s :: o.id }

  /** The object has its place in the forest. */
  ghost predicate In(world: seq<OwnObject>, o: OwnObject) { o.id < |world| && world[o.id] == o }

  ghost predicate AllIn(world: seq<OwnObject>, s: set<OwnObject>) { forall o | o in s :: In(world, o) }

  lemma IdsWithout(world: seq<OwnObject>, s: set<OwnObject>, o: OwnObject)
    requires AllIn(world, s) && In(world, o)
    ensures Ids(s - {o}) == Ids(s) - {o.id} && (o.id in Ids(s) <==> o in s)
  {
    forall i | i in Ids(s) - {o.id} ensures i in Ids(s - {o}) {
      var q :| q in s && q.id == i;
      assert q in s - {o};
    }
  }

  lemma IdsWith(s: set<OwnObject>, o: OwnObject)
    ensures Ids(s + {o}) == Ids(s) + {o.id}
  {
    forall i | i in Ids(s) + {o.id} ensures i in Ids(s + {o}) {
      if i == o.id {
        assert o in s + {o};
      } else {
        var q :| q in s && q.id == i;
        assert q in s + {o};
      }
    }
  }

  lemma {:induction false} IdsCount(world: seq<OwnObject>, s: set<OwnObject>)
    requires AllIn(world, s)
    ensures |Ids(s)| == |s|
    decreases s
  {
    if s == {} {
      assert Ids(s) == {};
    } else {
      var o :| o in s;
      IdsCount(world, s - {o});
      IdsWithout(world, s, o);
      assert o.id in Ids(s);
    }
  }

  /** The named objects of a command are part of the forest. */
  ghost predicate Known(world: seq<OwnObject>, cmd: Command) {
    match cmd
    case Own(c) => In(world, c)
    case TermReq(c) => In(world, c)
    case TermAck(c) => In(world, c)
    case _ => true
  }

  class OwnObject {
    /** The place of the object in the forest. */
    ghost const id: M.Id
    var owner: OwnObject?
    var terminating: bool
    var sentSeqnum: nat
    var processedSeqnum: nat
    var owned: set<OwnObject>
    var termAcks: int
    var inbox: seq<Command>
    /** False once the object has deleted itself. */
    var live: bool
    ghost var record: Record

    /** The object as the forest sees it. */
    ghost function View(): M.Obj
      reads this
    {
      M.Obj(if owner == null then None else Some(owner.id), live, terminating, sentSeqnum, processedSeqnum, Ids(owned),
            termAcks, record.launching, record.ext, record.promised, NamedAll(inbox), record.phase)
    }

    /** Everything the object refers to is part of the forest. */
    ghost predicate Closed(world: seq<OwnObject>)
      reads this
    {
      && (owner != null ==> In(world, owner))
      && AllIn(world, owned)
      && (forall i | 0 <= i < |inbox| :: Known(world, inbox[i]))
    }

    constructor (ghost id: M.Id)
      ensures this.id == id && View() == M.NewObj(None)
    {
      this.id := id;
      owner, terminating, sentSeqnum, processedSeqnum := null, false, 0, 0;
      owned, termAcks, inbox, live := {}, 0, [], true;
      record := Record(None, 0, 0, M.Root);
    }

    /** The counter has 32 bits. */
    predicate MayDie()
      reads this
    {
      terminating && processedSeqnum == sentSeqnum % M.COUNTER_RANGE && termAcks == 0
    }

    // Each handler takes the whole forest from one state of the model to the next. `world`
    // lists the objects and `objs` is the state they are in; both are there for the proof.

    /** A command for another object, or for the object itself. */
    method Send(to: OwnObject, cmd: Command, ghost world: seq<OwnObject>, ghost objs: M.Objs)
      requires Ties(world, objs) && In(world, to) && Known(world, cmd) && M.Send(objs, to.id, Named(cmd)).Ok?
      modifies to`inbox
      ensures Ties(world, M.Send(objs, to.id, Named(cmd)).objs)
    {
      NamedAppend(to.inbox, cmd);
      to.inbox := to.inbox + [cmd];
    }

    method CheckTermAcks(ghost world: seq<OwnObject>, ghost objs: M.Objs)
      requires Ties(world, objs) && In(world, this) && M.CheckTermAcks(objs, id).Ok?
      modifies world
      ensures Ties(world, M.CheckTermAcks(objs, id).objs)
    {
      if MayDie() {
        assert owned == {} by {
          IdsCount(world, owned);
        }
        live := false;
        ghost var next := objs[id := objs[id].(live := false)];
        if owner != null {
          Send(owner, TermAck(this), world, next);
        }
      }
    }

    method ProcessSeqnum(ghost world: seq<OwnObject>, ghost objs: M.Objs)
      requires Ties(world, objs) && In(world, this) && M.ProcessSeqnum(objs, id).Ok?
      modifies world
      ensures Ties(world, M.ProcessSeqnum(objs, id).objs)
    {
      processedSeqnum := processedSeqnum + 1;
      CheckTermAcks(world, objs[id := objs[id].(processed := objs[id].processed + 1)]);
    }

    method RegisterTermAcks(count: nat)
      modifies this`termAcks
      ensures termAcks == old(termAcks) + count
    {
      termAcks := termAcks + count;
    }

    method UnregisterTermAck(ghost world: seq<OwnObject>, ghost objs: M.Objs)
      requires Ties(world, objs) && In(world, this) && M.UnregisterTermAck(objs, id).Ok?
      modifies world
      ensures Ties(world, M.UnregisterTermAck(objs, id).objs)
    {
      assert termAcks > 0;
      termAcks := termAcks - 1;
      CheckTermAcks(world, objs[id := objs[id].(termAcks := objs[id].termAcks - 1)]);
    }

    /** The child is asked to terminate; that it is dying is a record. */
    method SendTerm(child: OwnObject, ghost world: seq<OwnObject>, ghost objs: M.Objs)
      requires Ties(world, objs) && In(world, child)
      modifies child`inbox, child`record
      ensures var o := objs[child.id]; Ties(world, objs[child.id := o.(inbox := o.inbox + [M.Term], phase := M.Dying)])
    {
      hide Ids, NamedAll;
      NamedAppend(child.inbox, Term);
      child.inbox := child.inbox + [Term];
      child.record := child.record.(phase := M.Dying);
    }

    /** One more child is asked to terminate and waited for. */
    method TermOne(child: OwnObject, ghost world: seq<OwnObject>, ghost objs: M.Objs)
      requires Ties(world, objs) && In(world, this) && In(world, child) && M.TermOne(objs, id, child.id).Ok?
      modifies this`termAcks, child`inbox, child`record
      ensures Ties(world, M.TermOne(objs, id, child.id).objs)
    {
      hide Ids, NamedAll;
      RegisterTermAcks(1);
      SendTerm(child, world, objs[id := objs[id].(termAcks := objs[id].termAcks + 1)]);
    }

    method ProcessTermReq(child: OwnObject, ghost world: seq<OwnObject>, ghost objs: M.Objs)
      requires Ties(world, objs) && In(world, this) && In(world, child) && M.ProcessTermReq(objs, id, child.id).Ok?
      modifies world
      ensures Ties(world, M.ProcessTermReq(objs, id, child.id).objs)
    {
      hide Ids, NamedAll, M.TermOne;
      IdsWithout(world, owned, child);
      if terminating {
        return;
      }
      if child !in owned {
        return;
      }
      owned := owned - {child};
      TermOne(child, world, objs[id := objs[id].(owned := objs[id].owned - {child.id})]);
    }

    method ProcessOwn(child: OwnObject, ghost world: seq<OwnObject>, ghost objs: M.Objs)
      requires Ties(world, objs) && In(world, this) && In(world, child) && M.ProcessOwn(objs, id, child.id).Ok?
      modifies world
      ensures Ties(world, M.ProcessOwn(objs, id, child.id).objs)
    {
      hide Ids, NamedAll, M.TermOne;
      if terminating {
        TermOne(child, world, objs);
        return;
      }
      IdsWith(owned, child);
      owned := owned + {child};
      child.record := child.record.(phase := M.Owned);
    }

    /** Ask every owned object to terminate, in whatever order they come. */
    method TermOwned(ghost world: seq<OwnObject>, ghost objs: M.Objs)
      requires Ties(world, objs) && In(world, this) && this !in owned
      modifies world
      ensures Ties(world, M.TermAll(objs, Ids(owned))) && unchanged(this)
    {
      hide NamedAll, Ids, Ties;
      OwnedIn(world, objs);
      ghost var done: set<OwnObject> := {};
      var left := owned;
      IdsOfNone();
      assert M.TermAll(objs, {}) == objs;
      while left != {}
        invariant left <= owned && done == owned - left && unchanged(this)
        invariant Ties(world, M.TermAll(objs, Ids(done)))
        decreases |left|
      {
        var c :| c in left;
        IdsWith(done, c);
        IdsWithout(world, done, c);
        TermsInAnyOrder(objs, Ids(done), c.id);
        SendTerm(c, world, M.TermAll(objs, Ids(done)));
        done, left := done + {c}, left - {c};
      }
      assert done == owned;
    }

    lemma OwnedIn(world: seq<OwnObject>, objs: M.Objs)
      requires Ties(world, objs) && In(world, this)
      ensures AllIn(world, owned) && |objs| == |world| && objs[id] == View()
    {
    }

    /** From here on the object waits for those it has asked. */
    method StartWaiting(ghost world: seq<OwnObject>, ghost objs: M.Objs)
      requires Ties(world, objs) && In(world, this)
      modifies this`termAcks, this`owned, this`terminating
      ensures var o := objs[id];
        Ties(world, objs[id := o.(termAcks := o.termAcks + |o.owned|, owned := {}, terminating := true)])
    {
      hide NamedAll, Ids;
      IdsCount(world, owned);
      IdsOfNone();
      RegisterTermAcks(|owned|);
      owned := {};
      terminating := true;
    }

    method ProcessTerm(ghost world: seq<OwnObject>, ghost objs: M.Objs)
      requires Ties(world, objs) && In(world, this) && this !in owned && M.ProcessTerm(objs, id).Ok?
      modifies world
      ensures Ties(world, M.ProcessTerm(objs, id).objs)
    {
      hide M.CheckTermAcks, NamedAll, Ids, Ties;
      OwnedIn(world, objs);
      assert !terminating;
      IdsWithout(world, owned, this);
      assert M.TermAll(objs, objs[id].owned)[id] == objs[id];
      TermOwned(world, objs);
      StartWaiting(world, M.TermAll(objs, Ids(owned)));
      ghost var o := objs[id];
      CheckTermAcks(world, M.TermAll(objs, o.owned)[id := o.(termAcks := o.termAcks + |o.owned|, owned := {}, terminating := true)]);
    }

    /** An acknowledgement does not say who sent it. */
    method ProcessTermAck(ghost sender: OwnObject, ghost world: seq<OwnObject>, ghost objs: M.Objs)
      requires Ties(world, objs) && In(world, this) && In(world, sender) && M.ProcessTermAck(objs, id, sender.id).Ok?
      modifies world
      ensures Ties(world, M.ProcessTermAck(objs, id, sender.id).objs)
    {
      hide M.UnregisterTermAck, NamedAll, Ids;
      sender.record := sender.record.(phase := M.Buried);
      UnregisterTermAck(world, objs[sender.id := objs[sender.id].(phase := M.Buried)]);
    }

    /** One command, dispatched; the counted ones also move the counter. */
    method ProcessCommand(ghost world: seq<OwnObject>, ghost objs: M.Objs)
      requires Ties(world, objs) && In(world, this) && this !in owned && inbox != [] && M.Process(objs, id).Ok?
      modifies world
      ensures Ties(world, M.Process(objs, id).objs)
    {
      hide M.ProcessSeqnum, M.ProcessTermReq, M.ProcessOwn, M.ProcessTerm, M.ProcessTermAck, NamedAll, Ids;
      var cmd := inbox[0];
      NamedRest(inbox);
      inbox := inbox[1..];
      ghost var next := objs[id := objs[id].(inbox := objs[id].inbox[1..])];
      match cmd {
        case Plug => ProcessSeqnum(world, next);
        case Counted => ProcessSeqnum(world, next);
        case Own(c) =>
          ProcessOwn(c, world, next);
          ProcessSeqnum(world, M.ProcessOwn(next, id, c.id).objs);
        case TermReq(c) => ProcessTermReq(c, world, next);
        case Term => ProcessTerm(world, next);
        case TermAck(c) => ProcessTermAck(c, world, next);
      }
    }

    /** The root terminates itself; anyone else asks its owner. */
    method Terminate(ghost world: seq<OwnObject>, ghost objs: M.Objs)
      requires Ties(world, objs) && In(world, this) && this !in owned && M.Ready(objs, id)
      requires M.Step(objs, M.Terminate(id)).Ok?
      modifies world
      ensures Ties(world, M.Step(objs, M.Terminate(id)).objs)
    {
      hide M.ProcessTerm, M.Send, NamedAll, Ids;
      if terminating {
        return;
      }
      if owner == null {
        ProcessTerm(world, objs);
        return;
      }
      Send(owner, TermReq(this), world, objs);
    }

    /** The forest has room for one more object. */
    lemma Grown(child: OwnObject, world: seq<OwnObject>, objs: M.Objs)
      requires Ties(world, objs) && child.id == |world| && child.Closed(world + [child])
      ensures Ties(world + [child], objs + [child.View()])
    {
      hide NamedAll, Ids;
      var all := world + [child];
      forall i | 0 <= i < |all| ensures all[i].id == i && all[i].View() == (objs + [child.View()])[i] && all[i].Closed(all) {
        assert i < |world| ==> all[i] == world[i];
      }
    }

    /** A new object is owned and plugged. */
    method PlugChild(child: OwnObject, ghost world: seq<OwnObject>, ghost objs: M.Objs)
      requires Ties(world, objs) && In(world, this) && child.id == |world| && child.View() == M.NewObj(None) && child !in world
      modifies child
      ensures Ties(world + [child], objs + [M.NewObj(Some(id))])
    {
      hide Ids, NamedAll;
      NamedAppend(child.inbox, Plug);
      IdsEmpty(child.owned);
      child.owner := this;
      child.sentSeqnum := child.sentSeqnum + 1;
      child.inbox := child.inbox + [Plug];
      child.record := child.record.(phase := M.Launching);
      NamedLength(child.inbox);
      Grown(child, world, objs);
    }

    /** One more counted command, sent by the object to itself. */
    method SendOwn(child: OwnObject, ghost world: seq<OwnObject>, ghost objs: M.Objs)
      requires Ties(world, objs) && In(world, this) && In(world, child)
      modifies this`sentSeqnum, this`inbox
      ensures var o := objs[id];
        Ties(world, objs[id := o.(total := o.total + 1, inbox := o.inbox + [M.Own(child.id)])])
    {
      hide Ids, NamedAll;
      NamedAppend(inbox, Own(child));
      sentSeqnum := sentSeqnum + 1;
      inbox := inbox + [Own(child)];
    }

    ghost method Mark(phase: M.Phase, world: seq<OwnObject>, objs: M.Objs)
      requires Ties(world, objs) && In(world, this)
      modifies this`record
      ensures Ties(world, objs[id := objs[id].(phase := phase)])
    {
      hide Ids, NamedAll;
      record := record.(phase := phase);
    }

    /** The owner tells itself of the new object. */
    method AnnounceChild(child: OwnObject, ghost world: seq<OwnObject>, ghost objs: M.Objs)
      requires Ties(world, objs) && In(world, this) && In(world, child)
      modifies this`sentSeqnum, this`inbox, child`record
      ensures Ties(world, Announced(objs, id, child.id))
    {
      hide Ids, NamedAll, Ties;
      OwnedIn(world, objs);
      SendOwn(child, world, objs);
      ghost var o := objs[id];
      child.Mark(M.Announced, world, objs[id := o.(total := o.total + 1, inbox := o.inbox + [M.Own(child.id)])]);
    }

    /** A new object is plugged, then announced to its owner by a command of the owner to itself. */
    method LaunchChild(child: OwnObject, ghost world: seq<OwnObject>, ghost objs: M.Objs)
      requires Ties(world, objs) && In(world, this) && M.Ready(objs, id)
      requires child.id == |world| && child.View() == M.NewObj(None) && child !in world
      modifies this, child
      ensures Ties(world + [child], M.Step(M.Step(objs, M.Launch(id)).objs, M.FinishLaunch(id)).objs)
    {
      hide Ids, NamedAll, Ties, M.Step, Announced;
      OwnedIn(world, objs);
      LaunchIs(objs, id);
      PlugChild(child, world, objs);
      AnnounceChild(child, world + [child], objs + [M.NewObj(Some(id))]);
    }
  }

  ghost function Announced(objs: M.Objs, x: M.Id, c: M.Id): M.Objs
    requires x < |objs| && c < |objs|
  {
    var o := objs[x];
    var next := objs[x := o.(total := o.total + 1, inbox := o.inbox + [M.Own(c)])];
    next[c := next[c].(phase := M.Announced)]
  }

  lemma LaunchIs(objs: M.Objs, x: M.Id)
    requires M.Ready(objs, x)
    ensures M.Step(M.Step(objs, M.Launch(x)).objs, M.FinishLaunch(x)) == M.Ok(Announced(objs + [M.NewObj(Some(x))], x, |objs|))
  {
    var o, grown := objs[x], objs + [M.NewObj(Some(x))];
    assert M.Step(objs, M.Launch(x)).objs == grown[x := o.(launching := Some(|objs|))];
    assert grown[x := o.(launching := Some(|objs|))][x := o.(total := o.total + 1, inbox := o.inbox + [M.Own(|objs|)])]
        == grown[x := o.(total := o.total + 1, inbox := o.inbox + [M.Own(|objs|)])];
  }

  lemma IdsEmpty(s: set<OwnObject>)
    ensures Ids(s) == {} ==> s == {}
  {
    if o :| o in s {
      assert o.id in Ids(s);
    }
  }

  lemma NamedLength(inbox: seq<Command>)
    ensures |NamedAll(inbox)| == |inbox|
  {
  }

  lemma IdsOfNone()
    ensures Ids({}) == {}
  {
  }

  /** Terms sent to some objects, one after the other in any order, are as good as sent at once. */
  lemma TermsInAnyOrder(objs: M.Objs, sent: set<M.Id>, c: M.Id)
    requires c < |objs| && c !in sent
    ensures var part := M.TermAll(objs, sent);
      part[c := part[c].(inbox := part[c].inbox + [M.Term], phase := M.Dying)] == M.TermAll(objs, sent + {c})
  {
  }

  /** The objects, each in its place, are this state of the forest. */
  ghost predicate Ties(world: seq<OwnObject>, objs: M.Objs)
    reads world
  {
    && |objs| == |world|
    && forall i | 0 <= i < |world| :: world[i].id == i && world[i].View() == objs[i] && world[i].Closed(world)
  }
}

/** The inductive invariant of the ownership forest. */
module OwnInvariant {
  import opened QueueSpec
  import opened OwnModel

  function NumCounted(inbox: seq<Command>): nat {
    if inbox == [] then 0 else (if inbox[0].Plug? || inbox[0].Own? || inbox[0].Counted? then 1 else 0) + NumCounted(inbox[1..])
  }

  lemma {:induction false} NumCountedAppend(inbox: seq<Command>, cmd: Command)
    ensures NumCounted(inbox + [cmd]) == NumCounted(inbox) + NumCounted([cmd])
  {
    if inbox == [] {
      assert inbox + [cmd] == [cmd];
    } else {
      assert (inbox + [cmd])[1..] == inbox[1..] + [cmd];
      NumCountedAppend(inbox[1..], cmd);
    }
  }

  lemma {:induction false} NoneCounted(inbox: seq<Command>, i: nat)
    requires NumCounted(inbox) == 0 && i < |inbox|
    ensures !inbox[i].Plug? && !inbox[i].Own? && !inbox[i].Counted?
  {
    if i > 0 { NoneCounted(inbox[1..], i - 1); }
  }

  predicate IsChild(objs: Objs, c: Id, x: Id) { c < |objs| && objs[c].owner == Some(x) }

  /** The children of `x` that were sent term and whose acknowledgement is not processed. */
  function DyingOf(objs: Objs, x: Id): set<Id> {
    set c: Id | c < |objs| && IsChild(objs, c, x) && objs[c].phase == Dying
  }

  /** Why a command may be in the inbox of `x`. */
  predicate Justified(objs: Objs, x: Id, cmd: Command)
    requires x < |objs|
  {
    match cmd
    case Plug => true
    case Counted => true
    case Own(c) => IsChild(objs, c, x) && objs[c].phase == Announced
    case TermReq(c) => IsChild(objs, c, x) && objs[c].phase != Buried
    case TermAck(c) => IsChild(objs, c, x) && objs[c].phase == Dying && !objs[c].live
    case Term => objs[x].phase == Dying && !objs[x].terminating
  }

  /** Term, own and acknowledgements come once, and a child's request never follows its
      acknowledgement. */
  predicate MayFollow(first: Command, second: Command) {
    && (first.Term? || first.Own? || first.TermAck? ==> second != first)
    && (first.TermAck? ==> second != TermReq(first.child))
  }

  predicate InboxOk(objs: Objs, x: Id)
    requires x < |objs|
  {
    var inbox := objs[x].inbox;
    && (forall i | 0 <= i < |inbox| :: Justified(objs, x, inbox[i]))
    && (forall i, j | 0 <= i < j < |inbox| :: MayFollow(inbox[i], inbox[j]))
  }

  predicate CountsOk(o: Obj) {
    o.processed + NumCounted(o.inbox) + o.promised == o.total
  }

  predicate AcksOk(objs: Objs, x: Id)
    requires x < |objs|
  {
    objs[x].termAcks == objs[x].ext + |DyingOf(objs, x)|
  }

  predicate LinksOk(objs: Objs, x: Id)
    requires x < |objs|
  {
    && (objs[x].launching.Some? ==>
          objs[x].live && IsChild(objs, objs[x].launching.value, x) && objs[objs[x].launching.value].phase == Launching)
    && (forall c | c in objs[x].owned :: IsChild(objs, c, x) && objs[c].phase == Owned)
  }

  /** A deleted object has nothing left to do and nothing on its way to it. */
  predicate LifeOk(o: Obj) {
    && (o.terminating ==> o.owned == {})
    && (!o.live ==> o.terminating && o.inbox == [] && o.promised == 0 && o.ext == 0 && o.launching == None
                    && o.processed == o.total)
  }

  predicate ObjOk(objs: Objs, x: Id)
    requires x < |objs|
  {
    InboxOk(objs, x) && CountsOk(objs[x]) && AcksOk(objs, x) && LinksOk(objs, x) && LifeOk(objs[x])
  }

  /** An object nobody has asked to terminate. */
  predicate Young(o: Obj) { o.live && !o.terminating }

  /** Where the owner of `c` stands with it. */
  predicate ChildOk(objs: Objs, c: Id)
    requires c < |objs|
  {
    var o := objs[c];
    if o.owner == None then o.phase == Root
    else
      var x := o.owner.value;
      && x < c
      && (o.phase != Buried ==> objs[x].live)
      && match o.phase
         case Root => false
         case Launching => objs[x].launching == Some(c) && Young(o)
         case Announced => Own(c) in objs[x].inbox && Young(o)
         case Owned => c in objs[x].owned && Young(o)
         case Dying =>
           if o.live then o.terminating <==> Term !in o.inbox
           else TermAck(c) in objs[x].inbox
         case Buried => !o.live
  }

  /** A live object is not one that should have been deleted. */
  predicate NotDue(o: Obj) {
    o.live && o.terminating ==> o.processed < o.total || o.termAcks > 0
  }

  predicate FewCommands(objs: Objs) { forall x | 0 <= x < |objs| :: objs[x].total < COUNTER_RANGE }

  /** Everything but `NotDue` for `x`, which is about to check. */
  predicate AllBut(objs: Objs, x: Id) {
    && (forall y: Id | y < |objs| :: ObjOk(objs, y))
    && (forall y: Id | y < |objs| :: ChildOk(objs, y))
    && (forall y: Id | y < |objs| && y != x :: NotDue(objs[y]))
  }

  predicate Inv(objs: Objs) {
    && (forall y: Id | y < |objs| :: ObjOk(objs, y))
    && (forall y: Id | y < |objs| :: ChildOk(objs, y))
    && (forall y: Id | y < |objs| :: NotDue(objs[y]))
  }

  predicate Good(o: Outcome) { o.Ok? && Inv(o.objs) }

  // ------------------------------------------------------------ deletion

  lemma AllChildrenBuried(objs: Objs, x: Id, c: Id)
    requires AllBut(objs, x) && x < |objs| && IsChild(objs, c, x)
    requires objs[x].launching == None && objs[x].owned == {} && NumCounted(objs[x].inbox) == 0 && DyingOf(objs, x) == {}
    ensures objs[c].phase == Buried
  {
    assert ChildOk(objs, c);
    if objs[c].phase == Announced {
      var i :| 0 <= i < |objs[x].inbox| && objs[x].inbox[i] == Own(c);
      NoneCounted(objs[x].inbox, i);
    }
    assert c !in DyingOf(objs, x);
  }

  lemma InboxIsEmpty(objs: Objs, x: Id)
    requires AllBut(objs, x) && x < |objs| && objs[x].terminating
    requires objs[x].launching == None && objs[x].owned == {} && NumCounted(objs[x].inbox) == 0 && DyingOf(objs, x) == {}
    ensures objs[x].inbox == []
  {
    var inbox := objs[x].inbox;
    assert ObjOk(objs, x);
    if inbox != [] {
      NoneCounted(inbox, 0);
      assert Justified(objs, x, inbox[0]);
      if inbox[0].TermReq? || inbox[0].TermAck? {
        AllChildrenBuried(objs, x, inbox[0].child);
      }
    }
  }

  /** What is settled when an object finds that it may go. */
  lemma NothingLeft(objs: Objs, x: Id)
    requires AllBut(objs, x) && FewCommands(objs) && x < |objs| && objs[x].live && objs[x].launching == None
    requires MayDie(objs[x])
    ensures objs[x].inbox == [] && objs[x].promised == 0 && objs[x].ext == 0 && objs[x].owned == {}
    ensures objs[x].processed == objs[x].total
    ensures forall c: Id | IsChild(objs, c, x) :: objs[c].phase == Buried
    ensures objs[x].owner.Some? ==> objs[x].phase == Dying && objs[x].owner.value < x && objs[objs[x].owner.value].live
  {
    var o := objs[x];
    assert ObjOk(objs, x) && ChildOk(objs, x);
    assert o.total % COUNTER_RANGE == o.total;
    assert DyingOf(objs, x) == {};
    InboxIsEmpty(objs, x);
    forall c: Id | IsChild(objs, c, x) ensures objs[c].phase == Buried {
      AllChildrenBuried(objs, x, c);
    }
  }
}

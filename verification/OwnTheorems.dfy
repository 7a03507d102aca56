/** What every run of the ownership forest guarantees. */
module OwnTheorems {
  import opened QueueSpec
  import opened OwnModel
  import opened OwnInvariant
  import opened OwnSteps

  /** No object is ever sent as many counted commands as the 32-bit counter has values. */
  ghost predicate WithinRange(acts: seq<Action>) {
    forall k | 0 <= k <= |acts| :: Exec(acts[..k]).Ok? ==> FewCommands(Exec(acts[..k]).objs)
  }

  lemma {:induction false} EveryRunIsGood(acts: seq<Action>)
    requires WithinRange(acts)
    ensures Good(Exec(acts))
  {
    if acts != [] {
      var init := acts[..|acts| - 1];
      assert forall k | 0 <= k <= |init| :: init[..k] == acts[..k];
      EveryRunIsGood(init);
      assert init[..|init|] == init;
      StepGood(Exec(init).objs, acts[|acts| - 1]);
    }
  }

  /** What a deleted object leaves behind: no live child, no command on its way to it, no
      command announced for it and no event it was asked to wait for. */
  predicate DiesClean(objs: Objs, x: Id)
    requires x < |objs|
  {
    !objs[x].live ==>
      && (forall c: Id | c < |objs| && IsChild(objs, c, x) :: !objs[c].live)
      && objs[x].inbox == [] && objs[x].promised == 0 && objs[x].ext == 0 && objs[x].owned == {}
      && objs[x].processed == objs[x].total
  }

  /** No run fails an assertion (so no object is ever terminated twice) or touches a deleted
      object; deleted objects have left nothing behind; and every object waits for exactly
      the children it has asked to terminate and not yet heard from, plus its own events. */
  lemma {:induction false} EveryRunShutsDownSafely(acts: seq<Action>)
    requires WithinRange(acts)
    ensures Exec(acts).Ok?
    ensures var objs := Exec(acts).objs;
            forall x: Id | x < |objs| ::
              && DiesClean(objs, x)
              && objs[x].termAcks == objs[x].ext + |DyingOf(objs, x)|
              && (objs[x].live && objs[x].owner.Some? ==> objs[x].owner.value < x && objs[objs[x].owner.value].live)
  {
    EveryRunIsGood(acts);
    var objs := Exec(acts).objs;
    forall x: Id | x < |objs|
      ensures DiesClean(objs, x)
      ensures objs[x].termAcks == objs[x].ext + |DyingOf(objs, x)|
      ensures objs[x].live && objs[x].owner.Some? ==> objs[x].owner.value < x && objs[objs[x].owner.value].live
    {
      assert ObjOk(objs, x) && ChildOk(objs, x);
      forall c: Id | c < |objs| && IsChild(objs, c, x) && !objs[x].live ensures !objs[c].live {
        assert ChildOk(objs, c);
      }
    }
  }

  /** Nothing is under way. */
  predicate Quiet(objs: Objs) {
    forall x: Id | x < |objs| ::
      objs[x].inbox == [] && objs[x].promised == 0 && objs[x].ext == 0 && objs[x].launching == None
  }

  lemma NobodyWaits(objs: Objs, x: Id)
    requires Inv(objs) && Quiet(objs) && x < |objs| && objs[x].live
    ensures !objs[x].terminating
    decreases |objs| - x
  {
    assert ObjOk(objs, x) && NotDue(objs[x]);
    if objs[x].terminating {
      assert objs[x].termAcks > 0;
      var c :| c in DyingOf(objs, x);
      assert ChildOk(objs, c);
      NobodyWaits(objs, c);
    }
  }

  /** The root of the tree an object belongs to. */
  function RootOf(objs: Objs, x: Id): Id
    requires x < |objs|
  {
    if objs[x].owner.Some? && objs[x].owner.value < x then RootOf(objs, objs[x].owner.value) else x
  }

  lemma {:induction false} LiveUpToTheRoot(objs: Objs, x: Id)
    requires Inv(objs) && x < |objs| && objs[x].live
    ensures RootOf(objs, x) < |objs| && objs[RootOf(objs, x)].live
  {
    assert ChildOk(objs, x);
    if objs[x].owner.Some? { LiveUpToTheRoot(objs, objs[x].owner.value); }
  }

  /** Shutdown completes: once nothing is under way any more, no object whose root has been
      terminated is left alive. */
  lemma {:induction false} ShutdownCompletes(acts: seq<Action>, x: Id)
    requires WithinRange(acts)
    ensures Exec(acts).Ok?
    ensures var objs := Exec(acts).objs;
            Quiet(objs) && x < |objs| ==>
              && (objs[x].live ==> !objs[x].terminating)
              && (RootOf(objs, x) < |objs| && objs[RootOf(objs, x)].terminating ==> !objs[x].live)
  {
    EveryRunIsGood(acts);
    var objs := Exec(acts).objs;
    if Quiet(objs) && x < |objs| && objs[x].live {
      LiveUpToTheRoot(objs, x);
      NobodyWaits(objs, x);
      NobodyWaits(objs, RootOf(objs, x));
    }
  }

  // ------------------------------------------------------------ the 32-bit counter

  /** The guard that lets a terminating object go tells whether all counted commands were
      processed, however many were, if and only if fewer than 2^32 were sent. */
  lemma CountersTellTheTruthBelowRange(o: Obj)
    requires o.terminating && o.termAcks == 0
    ensures (forall k: nat | k <= o.total :: MayDie(o.(processed := k)) <==> k == o.total) <==> o.total < COUNTER_RANGE
  {
    if o.total >= COUNTER_RANGE {
      assert MayDie(o.(processed := o.total % COUNTER_RANGE));
    } else {
      assert o.total % COUNTER_RANGE == o.total;
    }
  }

  /** An object announces `n` counted commands to itself. */
  function Announcing(n: nat): seq<Action> {
    if n == 0 then [NewRoot] else Announcing(n - 1) + [Promise(0, 0)]
  }

  lemma {:induction false} ExecSnoc(acts: seq<Action>, a: Action)
    ensures Exec(acts + [a]) == if Exec(acts).Fault? then Fault else Step(Exec(acts).objs, a)
  {
    assert (acts + [a])[..|acts|] == acts;
  }

  lemma PromiseCounts(n: nat)
    ensures Step([NewObj(None).(total := n, promised := n)], Promise(0, 0)) ==
      Ok([NewObj(None).(total := n + 1, promised := n + 1)])
  {
    hide ProcessTerm, ProcessTermReq, UnregisterTermAck, Process, Send;
  }

  lemma RootComesFirst()
    ensures Step([], NewRoot) == Ok([NewObj(None)])
  {
    hide ProcessTerm, ProcessTermReq, UnregisterTermAck, Process, Send;
  }

  lemma {:induction false} AnnouncingCounts(n: nat)
    ensures Exec(Announcing(n)) == Ok([NewObj(None).(total := n, promised := n)])
  {
    hide Step;
    if n == 0 {
      assert [NewRoot] == [] + [NewRoot];
      ExecSnoc([], NewRoot);
      RootComesFirst();
    } else {
      AnnouncingCounts(n - 1);
      ExecSnoc(Announcing(n - 1), Promise(0, 0));
      PromiseCounts(n - 1);
    }
  }

  /** A run that wraps the counter: terminated with `n` announced commands pending, the object
      is deleted at once, and the first of them reaches a deleted object, if and only if `n`
      is a multiple of 2^32. */
  lemma {:induction false} WrappedCounterDestroysEarly(n: nat)
    requires n > 0
    ensures var acts := Announcing(n) + [Terminate(0)];
            && Exec(acts).Ok? && |Exec(acts).objs| == 1 && Exec(acts).objs[0].promised == n
            && (!Exec(acts).objs[0].live <==> n % COUNTER_RANGE == 0)
            && (Exec(acts + [Deliver(0)]).Fault? <==> n % COUNTER_RANGE == 0)
  {
    AnnouncingCounts(n);
    var before := [NewObj(None).(total := n, promised := n)];
    var o := before[0].(terminating := true);
    ExecSnoc(Announcing(n), Terminate(0));
    assert TermAll(before, {})[0 := o] == [o];
    assert Exec(Announcing(n) + [Terminate(0)]) == CheckTermAcks([o], 0);
    ExecSnoc(Announcing(n) + [Terminate(0)], Deliver(0));
  }
}

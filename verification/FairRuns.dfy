/** What every run of the fair queue keeps, with pipes that go away: how long a ready pipe waits,
    and which pipe a message begun is read on from. */
module FairRuns {
  import opened Basics
  import opened PipeArray
  import opened RoundRobin
  import F = Fairness
  import S = Schedulers

  /** `Do`: anything the scheduler does; `Gone`: a pipe goes away. */
  datatype Act = Do(act: F.Act) | Gone(p: Id)

  predicate Enabled(t: Turn, a: Act) {
    match a
    case Do(act) => F.Enabled(t, act)
    case Gone(p) => p in t.items
  }

  function Step(t: Turn, a: Act): (Turn, seq<F.Part>)
    requires Sound(t) && Enabled(t, a)
  {
    match a
    case Do(act) => F.Step(t, act)
    case Gone(p) => (S.Terminated(t, p), [])
  }

  /** The pipe that goes away has the turn, or moves it. */
  predicate LosesTheTurn(t: Turn, p: Id)
    requires p in t.items
  {
    var i := IndexOf(t.items, p);
    t.active > 0 && (i == t.current || (t.current == t.active - 1 && 0 < i < t.active))
  }

  /**
   * The pipe with the turn keeps it, unless it goes away or moves: the turn then goes to the
   * first pipe if it was at the last active one, and else to the last active one.
   */
  lemma {:induction false} TurnAfterTermination(t: Turn, p: Id)
    requires Sound(t) && t.active > 0 && p in t.items
    ensures var u := S.Terminated(t, p);
      && Sound(u) && u.more == t.more
      && (u.active == 0 <==> t.active == 1 && p == t.items[0])
      && (u.active > 0 ==>
            F.TurnOf(u) == if !LosesTheTurn(t, p) then F.TurnOf(t)
                           else if t.current == t.active - 1 then t.items[0] else t.items[t.active - 1])
      && (LosesTheTurn(t, p) <==> u.active == 0 || F.TurnOf(u) != F.TurnOf(t))
  {
    hide S.Terminated, IndexOf;
    S.TerminatedKeepsSound(t, p);
    S.TerminatedItems(t, p);
    S.TerminatedTurn(t, p);
    MoreStays(t, p);
    var i := IndexOf(t.items, p);
    if t.items[0] == p {
      IndexIs(t.items, p, 0);
    }
  }

  lemma MoreStays(t: Turn, p: Id)
    requires Sound(t) && p in t.items
    ensures S.Terminated(t, p).more == t.more
  {
  }

  /**
   * The next part of a message begun is read from the pipe that has the turn then; the
   * assertion on whole messages fails if that pipe has nothing. With no active pipe left
   * nothing is received, although has_in keeps saying that there is.
   */
  lemma {:induction false} NextPartAfterTermination(t: Turn, p: Id, ready: set<Id>, more: bool)
    requires Sound(t) && t.more && t.active > 0 && p in t.items
    ensures var u := S.Terminated(t, p);
      && Sound(u)
      && (u.active == 0 ==> Call(u, ready, more) == (u, Nothing) && Poll(u, ready) == (u, true))
      && (u.active > 0 ==> Call(u, ready, more).1 == if F.TurnOf(u) in ready then Served(F.TurnOf(u)) else Fault)
  {
    hide S.Terminated;
    TurnAfterTermination(t, p);
  }

  lemma StepStays(t: Turn, a: Act)
    requires Sound(t) && Enabled(t, a)
    ensures Sound(Step(t, a).0)
  {
    match a {
      case Do(act) => F.StepKeepsSound(t, act);
      case Gone(p) => S.TerminatedKeepsSound(t, p);
    }
  }

  ghost predicate AllEnabled(t: Turn, acts: seq<Act>)
    requires Sound(t)
    decreases |acts|
  {
    acts == [] || (Enabled(t, acts[0]) && (StepStays(t, acts[0]); AllEnabled(Step(t, acts[0]).0, acts[1..])))
  }

  ghost function Exec(t: Turn, acts: seq<Act>): (Turn, seq<F.Part>)
    requires Sound(t) && AllEnabled(t, acts)
    decreases |acts|
  {
    if acts == [] then (t, [])
    else
      StepStays(t, acts[0]);
      var (u, first) := Step(t, acts[0]);
      var (v, rest) := Exec(u, acts[1..]);
      (v, first + rest)
  }

  // ------------------------------------------------------------ waiting

  function Joins(acts: seq<Act>): nat {
    if acts == [] then 0
    else B(acts[0].Do? && (acts[0].act.Join? || acts[0].act.Wake?)) + Joins(acts[1..])
  }

  function Asks(acts: seq<Act>): nat {
    if acts == [] then 0 else B(acts[0].Do? && acts[0].act.Ask?) + Asks(acts[1..])
  }

  /** By how many turns a step brings a pipe further from its turn, pipes that join left out. */
  function Delay(t: Turn, a: Act, p: Id): nat
    requires Sound(t) && Enabled(t, a)
  {
    if a.Gone? && t.active > 0 && p == t.items[t.active - 1] && IndexOf(t.items, a.p) < t.current then IndexOf(t.items, a.p)
    else 0
  }

  ghost function Delays(t: Turn, acts: seq<Act>, p: Id): nat
    requires Sound(t) && AllEnabled(t, acts)
    decreases |acts|
  {
    if acts == [] then 0
    else StepStays(t, acts[0]); Delay(t, acts[0], p) + Delays(Step(t, acts[0]).0, acts[1..], p)
  }

  /** The pipe stays and is ready whenever the scheduler looks. */
  predicate ReadyFor(a: Act, p: Id) { match a case Do(act) => F.ReadyFor(act, p) case Gone(q) => q != p }

  predicate ReadyThroughout(acts: seq<Act>, p: Id) { forall a | a in acts :: ReadyFor(a, p) }

  /** No assertion fails on the way. */
  ghost predicate NeverFails(t: Turn, acts: seq<Act>)
    requires Sound(t) && AllEnabled(t, acts)
    decreases |acts|
  {
    acts == [] ||
    (!(acts[0].Do? && F.Fails(t, acts[0].act)) && (StepStays(t, acts[0]); NeverFails(Step(t, acts[0]).0, acts[1..])))
  }

  lemma StepWaits(t: Turn, a: Act, p: Id)
    requires Sound(t) && Enabled(t, a) && Active(t, p) && ReadyFor(a, p)
    requires forall q | q in Step(t, a).1 :: q.p != p
    ensures Sound(Step(t, a).0) && Active(Step(t, a).0, p)
    ensures |Step(t, a).1| == B(a.Do? && a.act.Ask? && !F.Fails(t, a.act))
    ensures Wait(Step(t, a).0, p) + F.Messages(Step(t, a).1) <=
      Wait(t, p) + B(a.Do? && (a.act.Join? || a.act.Wake?)) + Delay(t, a, p)
  {
    match a {
      case Do(act) => F.StepWaits(t, act, p);
      case Gone(q) => S.WaitAfterTermination(t, q, p);
    }
  }

  /**
   * Bounded waiting: as long as an active, ready pipe is not served, every call serves some pipe,
   * and the whole messages served to others, plus the turns still to wait, never exceed the turns
   * it had to wait at first, plus the pipes that joined since, plus what pipes that went away cost it.
   */
  lemma {:induction false} BoundedWaiting(t: Turn, acts: seq<Act>, p: Id)
    requires Sound(t) && AllEnabled(t, acts) && Active(t, p) && ReadyThroughout(acts, p)
    requires forall q | q in Exec(t, acts).1 :: q.p != p
    ensures Sound(Exec(t, acts).0) && Active(Exec(t, acts).0, p)
    ensures NeverFails(t, acts) ==> |Exec(t, acts).1| == Asks(acts)
    ensures F.Messages(Exec(t, acts).1) + Wait(Exec(t, acts).0, p) <= Wait(t, p) + Joins(acts) + Delays(t, acts, p)
    decreases |acts|
  {
    hide Step, Delay, F.Fails;
    if acts != [] {
      StepStays(t, acts[0]);
      var (u, first) := Step(t, acts[0]);
      var rest := Exec(u, acts[1..]).1;
      assert Exec(t, acts).1 == first + rest;
      assert forall q | q in first :: q in first + rest;
      assert forall q | q in rest :: q in first + rest;
      StepWaits(t, acts[0], p);
      BoundedWaiting(u, acts[1..], p);
      F.MessagesAdd(first, rest);
    }
  }

  /** A ready pipe is served before `active` whole messages have gone to others, not counting one for
      each pipe that joins and what pipes that go away cost it. */
  lemma {:induction false} ServedWithinARound(t: Turn, acts: seq<Act>, p: Id)
    requires Sound(t) && AllEnabled(t, acts) && Active(t, p) && ReadyThroughout(acts, p)
    requires F.Messages(Exec(t, acts).1) >= t.active + Joins(acts) + Delays(t, acts, p)
    ensures exists q :: q in Exec(t, acts).1 && q.p == p
  {
    if forall q | q in Exec(t, acts).1 :: q.p != p {
      BoundedWaiting(t, acts, p);
    }
  }

  // ------------------------------------------------------------ whole messages

  /** In mid-message the turn is lost. */
  ghost predicate SomeLoss(t: Turn, acts: seq<Act>)
    requires Sound(t) && AllEnabled(t, acts)
    decreases |acts|
  {
    acts != [] && ((acts[0].Gone? && t.more && LosesTheTurn(t, acts[0].p))
                   || (StepStays(t, acts[0]); SomeLoss(Step(t, acts[0]).0, acts[1..])))
  }

  lemma StepContinues(t: Turn, a: Act)
    requires Sound(t) && Enabled(t, a) && (t.more ==> t.active > 0)
    requires a.Gone? && t.more ==> !LosesTheTurn(t, a.p)
    ensures var (u, log) := Step(t, a);
      && Sound(u) && (u.more ==> u.active > 0)
      && (log == [] ==> u.more == t.more && (t.more ==> F.TurnOf(u) == F.TurnOf(t)))
      && (log != [] ==> |log| == 1 && log[0].more == u.more && (t.more ==> log[0].p == F.TurnOf(t)))
      && (log != [] && u.more ==> F.TurnOf(u) == log[0].p)
  {
    match a {
      case Do(act) => F.StepStays(t, act);
      case Gone(p) =>
        S.TerminatedKeepsSound(t, p);
        MoreStays(t, p);
        if t.more { TurnAfterTermination(t, p); }
    }
  }

  /** In every run, pipes going away included, each message is read whole from one pipe, unless the turn is lost in mid-message. */
  lemma {:induction false} MessagesAreReadWhole(t: Turn, acts: seq<Act>)
    requires Sound(t) && AllEnabled(t, acts) && (t.more ==> t.active > 0)
    ensures !SomeLoss(t, acts) ==> F.Contiguous(Exec(t, acts).1, t.more, F.TurnOf(t))
    decreases |acts|
  {
    hide Step, LosesTheTurn, F.TurnOf;
    if acts != [] && !SomeLoss(t, acts) {
      StepContinues(t, acts[0]);
      var (u, first) := Step(t, acts[0]);
      MessagesAreReadWhole(u, acts[1..]);
      var rest := Exec(u, acts[1..]).1;
      var log := first + rest;
      assert Exec(t, acts).1 == log;
      if first == [] {
        assert log == rest;
      } else {
        forall i | 0 <= i < |log| - 1 ensures log[i].more ==> log[i + 1].p == log[i].p {
          assert log[i + 1] == rest[i];
          assert i > 0 ==> log[i] == rest[i - 1];
        }
      }
    }
  }

  lemma {:induction false} OneStep(t: Turn, acts: seq<Act>)
    requires Sound(t) && acts != [] && Enabled(t, acts[0]) && Sound(Step(t, acts[0]).0)
    ensures AllEnabled(t, acts) <==> AllEnabled(Step(t, acts[0]).0, acts[1..])
    ensures AllEnabled(t, acts) ==>
      Exec(t, acts) == (Exec(Step(t, acts[0]).0, acts[1..]).0, Step(t, acts[0]).1 + Exec(Step(t, acts[0]).0, acts[1..]).1)
  {
  }

  /** Two pipes join, the first part of a message is read from the one, and that one goes away. */
  function Torn(): seq<Act> {
    [Do(F.Join(1)), Do(F.Join(2)), Do(F.Ask({1, 2}, true)), Gone(1), Do(F.Ask({2}, false))]
  }

  lemma {:induction false} JoinedPair()
    ensures Attach(Turn([], 0, 0, false), 1) == Turn([1], 1, 0, false)
    ensures Attach(Turn([1], 1, 0, false), 2) == Turn([1, 2], 2, 0, false)
    ensures S.Terminated(Turn([1, 2], 2, 0, true), 1) == Turn([2], 1, 0, true)
  {
    assert [] + [1] == [1] && [1] + [2] == [1, 2];
    SwapTrivia([1], 0, 0);
    SwapTrivia([1, 2], 1, 1);
    IndexIs([1, 2], 1, 0);
    assert Swap([1, 2], 0, 1) == [2, 1] && Erased([2, 1], 1) == [2];
  }

  /** Its message is then continued from the other. */
  lemma {:induction false} LossTearsAMessage()
    ensures var t := Turn([], 0, 0, false);
      AllEnabled(t, Torn()) && Exec(t, Torn()).1 == [F.Part(1, true), F.Part(2, false)]
  {
    hide AllEnabled, Exec, Attach, S.Terminated;
    var acts := Torn();
    JoinedPair();
    var t0, t1, t2 := Turn([], 0, 0, false), Turn([1], 1, 0, false), Turn([1, 2], 2, 0, false);
    var t3, t4 := t2.(more := true), Turn([2], 1, 0, true);
    assert Step(t2, acts[2]) == (t3, [F.Part(1, true)]) && Step(t4, acts[4]) == (t4.(more := false), [F.Part(2, false)]);
    Finished(t4.(more := false));
    OneStep(t4, acts[4..]);
    assert acts[4..][1..] == [];
    OneStep(t3, acts[3..]);
    assert acts[3..][1..] == acts[4..];
    OneStep(t2, acts[2..]);
    assert acts[2..][1..] == acts[3..];
    OneStep(t1, acts[1..]);
    assert acts[1..][1..] == acts[2..];
    OneStep(t0, acts);
    var x, y := F.Part(1, true), F.Part(2, false);
    assert [] + ([] + ([x] + ([] + ([y] + [])))) == [x, y];
  }

  lemma {:induction false} Finished(t: Turn)
    requires Sound(t)
    ensures AllEnabled(t, []) && Exec(t, []) == (t, [])
  {
  }
}

/** The load balancer: round-robin sending that drops the rest of a message whose pipe is gone. */
module LoadBalancer {
  import opened Basics
  import opened PipeArray
  import opened RoundRobin
  import F = Fairness
  import S = Schedulers
  import O = TurnOrder
  import opened QueueSpec

  datatype Sender = Sender(turn: Turn, dropping: bool)

  function SendPart(s: Sender, ready: set<Id>, more: bool): (Sender, Reply)
    requires Sound(s.turn)
  {
    if s.dropping then (Sender(s.turn.(more := more), more), Dropped)
    else
      var (turn, reply) := Call(s.turn, ready, more);
      (Sender(turn, false), reply)
  }

  function Leave(s: Sender, p: Id): Sender
    requires Sound(s.turn) && p in s.turn.items
  {
    Sender(S.Terminated(s.turn, p), s.dropping || (s.turn.more && IndexOf(s.turn.items, p) == s.turn.current))
  }

  /** `Do`: anything the plain scheduler does; `Gone`: a pipe goes away. */
  datatype Act = Do(act: F.Act) | Gone(p: Id)

  /** Where each part went (nowhere, if dropped) and whether more parts follow. */
  datatype Sent = Sent(reply: Reply, more: bool)

  predicate Enabled(s: Sender, a: Act) {
    match a
    case Do(act) => F.Enabled(s.turn, act)
    case Gone(p) => p in s.turn.items
  }

  /** A pipe leaves and the message being sent is to be continued on another pipe. */
  predicate Moves(s: Sender, a: Act)
    requires Sound(s.turn) && Enabled(s, a)
  {
    a.Gone? && s.turn.more && !s.dropping && MovesTheTurn(s.turn, a.p)
  }

  /** The pipe that carries the message being sent leaves. */
  predicate Cuts(s: Sender, a: Act)
    requires Sound(s.turn) && Enabled(s, a)
  {
    a.Gone? && s.turn.more && s.turn.active > 0 && a.p == s.turn.items[s.turn.current]
  }

  predicate MovesTheTurn(t: Turn, p: Id)
    requires Sound(t) && p in t.items
  {
    t.current == t.active - 1 && 0 < IndexOf(t.items, p) < t.active && IndexOf(t.items, p) != t.current
  }

  function Step(s: Sender, a: Act): (Sender, seq<Sent>)
    requires Sound(s.turn) && Enabled(s, a)
  {
    match a
    case Do(act) =>
      if act.Ask? then
        var (next, reply) := SendPart(s, act.ready, act.more);
        (next, if reply.Served? || reply.Dropped? then [Sent(reply, act.more)] else [])
      else (s.(turn := F.Step(s.turn, act).0), [])
    case Gone(p) => (Leave(s, p), [])
  }

  ghost predicate Good(s: Sender) {
    && Sound(s.turn)
    && (s.dropping ==> s.turn.more)
    && (s.turn.more && !s.dropping ==> s.turn.active > 0)
  }

  /** Where the next part has to go while a message is being sent. */
  function Owed(s: Sender): Reply
    requires Sound(s.turn)
  {
    if s.dropping then Dropped else Served(F.TurnOf(s.turn))
  }

  lemma StepOwes(s: Sender, a: Act)
    requires Good(s) && Enabled(s, a)
    ensures var (u, log) := Step(s, a);
      && Good(u)
      && (log == [] ==> u.turn.more == s.turn.more)
      && (log == [] && s.turn.more && !Moves(s, a) ==> Owed(u) == if Cuts(s, a) then Dropped else Owed(s))
      && (log != [] ==> |log| == 1 && log[0].more == u.turn.more)
      && (log != [] ==> if s.turn.more then log[0].reply == Owed(s) else log[0].reply.Served?)
      && (log != [] && u.turn.more ==> Owed(u) == log[0].reply)
  {
    match a {
      case Do(act) =>
        if !(act.Ask? && s.dropping) {
          F.StepKeepsSound(s.turn, act);
          if s.dropping {
            DroppingStays(s, act);
          } else {
            F.StepStays(s.turn, act);
          }
        }
      case Gone(p) => GoneOwes(s, p);
    }
  }

  lemma DroppingStays(s: Sender, act: F.Act)
    requires Good(s) && s.dropping && F.Enabled(s.turn, act) && !act.Ask?
    ensures F.Step(s.turn, act).0.more == s.turn.more
  {
    match act {
      case Look(ready) => SettleSkips(s.turn, ready);
      case Join(p) =>
      case Wake(p) =>
    }
  }

  /** When a pipe leaves, the rest of the message goes nowhere exactly if that pipe carried it, and stays
      where it was otherwise, unless the turn moves. */
  lemma GoneOwes(s: Sender, p: Id)
    requires Good(s) && p in s.turn.items
    ensures Good(Leave(s, p)) && Leave(s, p).turn.more == s.turn.more
    ensures s.turn.more ==>
      (Owed(Leave(s, p)) == Owed(s) || Owed(Leave(s, p)) == Dropped <==> !Moves(s, Gone(p)))
    ensures s.turn.more ==> (Owed(Leave(s, p)) == Dropped <==> s.dropping || Cuts(s, Gone(p)))
  {
    var t := s.turn;
    S.TerminatedKeepsSound(t, p);
    if t.more && !s.dropping && p != t.items[t.current] {
      S.TerminationMovesTheTurn(t, p);
      IndexIs(t.items, t.items[t.current], t.current);
    } else if t.more && !s.dropping {
      IndexIs(t.items, p, t.current);
    }
  }

  /** The next part of the message then goes to another pipe, if and only if the turn has moved. */
  lemma MovedTurnTears(s: Sender, p: Id, ready: set<Id>, more: bool)
    requires Good(s) && s.turn.more && !s.dropping && p in s.turn.items && Sound(Leave(s, p).turn)
    requires !Leave(s, p).dropping ==> F.TurnOf(Leave(s, p).turn) in ready
    ensures Moves(s, Gone(p)) <==> SendPart(Leave(s, p), ready, more).1 !in {Owed(s), Dropped}
  {
    GoneOwes(s, p);
  }

  ghost predicate AllEnabled(s: Sender, acts: seq<Act>)
    requires Good(s)
    decreases |acts|
  {
    acts == [] || (Enabled(s, acts[0]) && (StepOwes(s, acts[0]); AllEnabled(Step(s, acts[0]).0, acts[1..])))
  }

  ghost function Exec(s: Sender, acts: seq<Act>): (Sender, seq<Sent>)
    requires Good(s) && AllEnabled(s, acts)
    decreases |acts|
  {
    if acts == [] then (s, [])
    else
      StepOwes(s, acts[0]);
      var (u, first) := Step(s, acts[0]);
      var (v, rest) := Exec(u, acts[1..]);
      (v, first + rest)
  }

  /** After a part with more to come: the next part goes to the same place, or nowhere. */
  predicate Follows(a: Reply, b: Reply) { b == a || b == Dropped }

  /** The first part of a message is always sent. */
  predicate Whole(log: seq<Sent>, mid: bool, first: Reply) {
    && (log != [] ==> if mid then Follows(first, log[0].reply) else log[0].reply.Served?)
    && (forall i | 0 <= i < |log| - 1 ::
          if log[i].more then Follows(log[i].reply, log[i + 1].reply) else log[i + 1].reply.Served?)
  }

  /** Some pipe leaves in the one way that moves the turn. */
  ghost predicate SomeMove(s: Sender, acts: seq<Act>)
    requires Good(s) && AllEnabled(s, acts)
    decreases |acts|
  {
    acts != [] && (Moves(s, acts[0]) || (StepOwes(s, acts[0]); SomeMove(Step(s, acts[0]).0, acts[1..])))
  }

  /**
   * In every run, pipes leaving included, the parts of a message go to one pipe up to some
   * point and nowhere after it: no part reaches a second pipe, unless the turn has moved.
   */
  lemma {:induction false} EveryMessageIsCutOrWhole(s: Sender, acts: seq<Act>)
    requires Good(s) && AllEnabled(s, acts)
    ensures !SomeMove(s, acts) ==> Whole(Exec(s, acts).1, s.turn.more, Owed(s))
    decreases |acts|
  {
    if acts != [] && !SomeMove(s, acts) {
      StepOwes(s, acts[0]);
      var (u, first) := Step(s, acts[0]);
      EveryMessageIsCutOrWhole(u, acts[1..]);
      var rest := Exec(u, acts[1..]).1;
      var log := first + rest;
      assert Exec(s, acts).1 == log;
      if first == [] {
        assert log == rest;
      } else {
        forall i | 0 <= i < |log| - 1
          ensures if log[i].more then Follows(log[i].reply, log[i + 1].reply) else log[i + 1].reply.Served?
        {
          assert log[i + 1] == rest[i];
          assert i > 0 ==> log[i] == rest[i - 1];
        }
      }
    }
  }

  /** Some pipe leaves that carries the message being sent. */
  ghost predicate SomeCut(s: Sender, acts: seq<Act>)
    requires Good(s) && AllEnabled(s, acts)
    decreases |acts|
  {
    acts != [] && (Cuts(s, acts[0]) || (StepOwes(s, acts[0]); SomeCut(Step(s, acts[0]).0, acts[1..])))
  }

  /** All parts of a message go to one pipe. */
  predicate Uncut(log: seq<Sent>, mid: bool, first: Reply) {
    && (log != [] ==> if mid then log[0].reply == first else log[0].reply.Served?)
    && (forall i | 0 <= i < |log| - 1 ::
          if log[i].more then log[i + 1].reply == log[i].reply else log[i + 1].reply.Served?)
  }

  /** No part is dropped, unless a pipe has left in the middle of the message it carried. */
  lemma {:induction false} NothingIsDroppedNeedlessly(s: Sender, acts: seq<Act>)
    requires Good(s) && AllEnabled(s, acts)
    ensures !SomeMove(s, acts) && !SomeCut(s, acts) ==> Uncut(Exec(s, acts).1, s.turn.more, Owed(s))
    decreases |acts|
  {
    if acts != [] && !SomeMove(s, acts) && !SomeCut(s, acts) {
      StepOwes(s, acts[0]);
      var (u, first) := Step(s, acts[0]);
      NothingIsDroppedNeedlessly(u, acts[1..]);
      var rest := Exec(u, acts[1..]).1;
      var log := first + rest;
      assert Exec(s, acts).1 == log;
      if first == [] {
        assert log == rest;
      } else {
        forall i | 0 <= i < |log| - 1
          ensures if log[i].more then log[i + 1].reply == log[i].reply else log[i + 1].reply.Served?
        {
          assert log[i + 1] == rest[i];
          assert i > 0 ==> log[i] == rest[i - 1];
        }
      }
    }
  }

  /** Between messages a part is sent to the first pipe in order that has room, and to nobody exactly if none has. */
  lemma {:induction false} SendPicksFirstReady(s: Sender, ready: set<Id>, more: bool)
    requires Good(s) && !s.turn.more
    ensures var reply := SendPart(s, ready, more).1;
      match O.FirstReady(O.Order(s.turn), ready) case Some(p) => reply == Served(p) case None => reply == Nothing
  {
    O.CallServesFirstReady(s.turn, ready, more);
  }

  // A message torn between two pipes.

  const THREE := {1, 2, 3}

  function Joins(): seq<Act> { [Do(F.Join(1)), Do(F.Join(2)), Do(F.Join(3))] }

  /** A message goes to each of the first two pipes; the third gets the first part of another. */
  function Asks(): seq<Act> { [Do(F.Ask(THREE, false)), Do(F.Ask(THREE, false)), Do(F.Ask(THREE, true))] }

  const NEW_SENDER := Sender(Turn([], 0, 0, false), false)

  lemma {:induction false} OneStep(s: Sender, acts: seq<Act>)
    requires Good(s) && acts != [] && Enabled(s, acts[0]) && Good(Step(s, acts[0]).0)
    ensures AllEnabled(s, acts) <==> AllEnabled(Step(s, acts[0]).0, acts[1..])
    ensures AllEnabled(s, acts) ==>
      Exec(s, acts) == (Exec(Step(s, acts[0]).0, acts[1..]).0, Step(s, acts[0]).1 + Exec(Step(s, acts[0]).0, acts[1..]).1)
  {
  }

  lemma JoinStep(t: Turn, p: Id)
    requires Good(Sender(t, false)) && t.active == |t.items| && p !in t.items
    ensures Step(Sender(t, false), Do(F.Join(p))) == (Sender(Turn(t.items + [p], t.active + 1, t.current, t.more), false), [])
    ensures Good(Sender(Turn(t.items + [p], t.active + 1, t.current, t.more), false))
  {
    SwapTrivia(t.items + [p], t.active, |t.items|);
  }

  lemma AskStep(t: Turn, more: bool)
    requires Good(Sender(t, false)) && t.active > 0 && t.items[t.current] in THREE
    ensures Step(Sender(t, false), Do(F.Ask(THREE, more))) ==
      (Sender(Serve(t, more), false), [Sent(Served(t.items[t.current]), more)])
    ensures Good(Sender(Serve(t, more), false))
  {
    StepOwes(Sender(t, false), Do(F.Ask(THREE, more)));
  }

  const BEFORE_ASKING := Sender(Turn([1, 2, 3], 3, 0, false), false)

  lemma AskingHappens()
    ensures Good(BEFORE_ASKING) && AllEnabled(BEFORE_ASKING, Asks())
    ensures Exec(BEFORE_ASKING, Asks()) ==
      (Sender(Turn([1, 2, 3], 3, 2, true), false), [Sent(Served(1), false), Sent(Served(2), false), Sent(Served(3), true)])
  {
    hide AllEnabled, Exec, Step;
    var acts, t := Asks(), BEFORE_ASKING.turn;
    AskStep(t, false);
    AskStep(t.(current := 1), false);
    AskStep(t.(current := 2), true);
    NothingLeft(Sender(t.(current := 2, more := true), false));
    OneStep(Sender(t.(current := 2), false), acts[2..]);
    assert acts[2..][1..] == [];
    OneStep(Sender(t.(current := 1), false), acts[1..]);
    assert acts[1..][1..] == acts[2..];
    OneStep(BEFORE_ASKING, acts);
    var x, y, z := Sent(Served(1), false), Sent(Served(2), false), Sent(Served(3), true);
    assert [x] + ([y] + ([z] + [])) == [x, y, z];
  }

  /** A run from the start that leads to the state of `TornMessage`. */
  lemma PreludeHappens()
    ensures AllEnabled(NEW_SENDER, Joins() + Asks())
    ensures Exec(NEW_SENDER, Joins() + Asks()) == Exec(BEFORE_ASKING, Asks())
  {
    hide AllEnabled, Exec, Step;
    AskingHappens();
    var acts := Joins() + Asks();
    var t1, t2 := Turn([1], 1, 0, false), Turn([1, 2], 2, 0, false);
    JoinStep(NEW_SENDER.turn, 1);
    assert [] + [1] == t1.items && t1.items + [2] == t2.items && t2.items + [3] == BEFORE_ASKING.turn.items;
    JoinStep(t1, 2);
    JoinStep(t2, 3);
    OneStep(Sender(t2, false), acts[2..]);
    assert acts[2..][1..] == Asks();
    OneStep(Sender(t1, false), acts[1..]);
    assert acts[1..][1..] == acts[2..];
    OneStep(NEW_SENDER, acts);
    var log := Exec(BEFORE_ASKING, Asks()).1;
    assert [] + ([] + ([] + log)) == log;
  }

  lemma {:induction false} NothingLeft(s: Sender)
    requires Good(s)
    ensures AllEnabled(s, []) && Exec(s, []) == (s, [])
  {
  }

  /** After the prelude the third pipe has the turn in mid-message; when the second leaves, the rest goes to the first. */
  lemma TornMessage()
    ensures var acts := [Gone(2), Do(F.Ask(THREE, false))];
      var s := Sender(Turn([1, 2, 3], 3, 2, true), false);
      && Good(s) && Owed(s) == Served(3) && AllEnabled(s, acts)
      && Exec(s, acts).1 == [Sent(Served(1), false)]
  {
    var acts := [Gone(2), Do(F.Ask(THREE, false))];
    var s := Sender(Turn([1, 2, 3], 3, 2, true), false);
    IndexIs(s.turn.items, 2, 1);
    assert Swap(s.turn.items, 1, 2) == [1, 3, 2] && Erased([1, 3, 2], 2) == [1, 3];
    var u := Sender(Turn([1, 3], 2, 0, true), false);
    assert Step(s, acts[0]) == (u, []);
    OneStep(s, acts);
    assert acts[1..] == [Do(F.Ask(THREE, false))] && acts[1..][1..] == [];
    assert Settle(u.turn, THREE) == u.turn;
    StepOwes(u, acts[1]);
    OneStep(u, acts[1..]);
  }

  class Balancer {
    const pipes: Pipes
    var active: nat
    var current: nat
    var more: bool
    var dropping: bool

    ghost predicate Valid()
      reads this, pipes
    {
      pipes.Valid() && Sound(Snapshot().turn)
    }

    ghost function Snapshot(): Sender
      reads this, pipes
    {
      Sender(Turn(pipes.items, active, current, more), dropping)
    }

    constructor ()
      ensures Valid() && fresh(pipes) && Snapshot() == Sender(Turn([], 0, 0, false), false)
    {
      pipes := new Pipes();
      active, current, more, dropping := 0, 0, false, false;
    }

    method Activated(p: Id)
      requires Valid() && p in pipes.items && !Active(Snapshot().turn, p)
      modifies this, pipes
      ensures Valid() && old(active < |pipes.items|)
      ensures Snapshot() == old(Snapshot()).(turn := Activate(old(Snapshot()).turn, p))
    {
      var i := pipes.Index(p);
      IndexIs(pipes.items, p, i);
      assert i >= active;
      pipes.Exchange(i, active);
      active := active + 1;
    }

    method Attach(p: Id)
      requires Valid() && p !in pipes.items
      modifies this, pipes
      ensures Valid() && Snapshot() == old(Snapshot()).(turn := RoundRobin.Attach(old(Snapshot()).turn, p))
    {
      pipes.PushBack(p);
      IndexIs(pipes.items, p, |pipes.items| - 1);
      SwapTrivia(pipes.items, |pipes.items| - 1, active);
      Activated(p);
    }

    method Terminate(p: Id)
      requires Valid() && p in pipes.items
      modifies this, pipes
      ensures Valid() && Snapshot() == Leave(old(Snapshot()), p)
    {
      hide Swap, Erased, Distinct, IndexOf;
      S.TerminatedKeepsSound(Snapshot().turn, p);
      var i := pipes.Index(p);
      IndexIs(pipes.items, p, i);
      if i == current && more {
        dropping := true;
      }
      if i < active {
        SwapKeeps(pipes.items, i, active - 1);
        SwapPuts(pipes.items, i, active - 1);
        active := active - 1;
        pipes.Exchange(i, active);
        if current == active {
          current := 0;
        }
        IndexIs(pipes.items, p, active);
      }
      pipes.Erase(p);
    }

    /** Send one part to the pipe whose turn it is; `ready` are the pipes with room. */
    method Send(ready: set<Id>, partMore: bool) returns (reply: Reply)
      requires Valid()
      modifies this, pipes
      ensures Valid()
      ensures (Snapshot(), reply) == SendPart(old(Snapshot()), ready, partMore)
    {
      hide Swap, Distinct, IndexOf;
      if dropping {
        more := partMore;
        dropping := more;
        return Dropped;
      }
      ghost var t := Snapshot().turn;
      SettleSkips(t, ready);
      while active > 0
        invariant Valid() && more == t.more && !dropping
        invariant Snapshot().turn == t || !more
        invariant Settle(Snapshot().turn, ready) == Settle(t, ready)
        decreases active
      {
        if pipes.items[current] in ready {
          break;
        }
        if more {
          return Fault;
        }
        DeactivateKeepsSound(Snapshot().turn);
        SwapTrivia(pipes.items, current, active - 1);
        active := active - 1;
        if current < active {
          pipes.Exchange(current, active);
        } else {
          current := 0;
        }
      }
      if active == 0 {
        return Nothing;
      }
      reply := Served(pipes.items[current]);
      more := partMore;
      if !more {
        current := (current + 1) % active;
      }
    }

    method HasOut(ready: set<Id>) returns (r: bool)
      requires Valid()
      modifies this, pipes
      ensures Valid() && dropping == old(dropping)
      ensures (Snapshot().turn, r) == Poll(old(Snapshot()).turn, ready)
      ensures r == (old(more) || exists p | p in ready :: Active(old(Snapshot()).turn, p))
    {
      hide Swap, Distinct, IndexOf;
      if !more { O.PollTellsTheTruth(Snapshot().turn, ready, false); }
      if more {
        return true;
      }
      ghost var t := Snapshot().turn;
      while active > 0
        invariant Valid() && !more && dropping == old(dropping)
        invariant Settle(Snapshot().turn, ready) == Settle(t, ready)
        decreases active
      {
        if pipes.items[current] in ready {
          return true;
        }
        DeactivateKeepsSound(Snapshot().turn);
        active := active - 1;
        pipes.Exchange(current, active);
        if current == active {
          current := 0;
        }
      }
      r := false;
    }
  }
}

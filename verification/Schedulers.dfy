/** The fair queue over its array of pipes, and what a pipe that goes away does to a scheduler. */
module Schedulers {
  import opened Basics
  import opened PipeArray
  import opened RoundRobin
  import O = TurnOrder

  /** The turn after a pipe has gone away. */
  function Terminated(t: Turn, p: Id): Turn
    requires Sound(t) && p in t.items
  {
    var i := IndexOf(t.items, p);
    if i < t.active then
      var active := t.active - 1;
      Turn(Erased(Swap(t.items, i, active), active), active, if t.current == active then 0 else t.current, t.more)
    else t.(items := Erased(t.items, i))
  }

  lemma TerminatedKeepsSound(t: Turn, p: Id)
    requires Sound(t) && p in t.items
    ensures Sound(Terminated(t, p)) && p !in Terminated(t, p).items
  {
    hide Distinct, Swap, Erased, IndexOf;
    var i := IndexOf(t.items, p);
    if i < t.active {
      SwapKeeps(t.items, i, t.active - 1);
      SwapPuts(t.items, i, t.active - 1);
      ErasedKeeps(Swap(t.items, i, t.active - 1), t.active - 1);
    } else {
      ErasedKeeps(t.items, i);
    }
  }

  lemma {:induction false} TerminatedItems(t: Turn, p: Id)
    requires Sound(t) && p in t.items
    ensures var u, i := Terminated(t, p), IndexOf(t.items, p);
      && u.active == (if i < t.active then t.active - 1 else t.active) && |u.items| == |t.items| - 1
      && forall k | 0 <= k < u.active :: u.items[k] == if k == i then t.items[t.active - 1] else t.items[k]
  {
  }

  /** The active pipes lose the terminated one and nobody else. */
  lemma TerminatedKeepsActive(t: Turn, p: Id, q: Id)
    requires Sound(t) && p in t.items
    ensures Active(Terminated(t, p), q) <==> Active(t, q) && q != p
  {
    hide Terminated, IndexOf;
    TerminatedItems(t, p);
    TerminatedKeepsSound(t, p);
    var u := Terminated(t, p);
    var i := IndexOf(t.items, p);
    if Active(u, q) {
      var k :| 0 <= k < u.active && u.items[k] == q;
      assert t.items[if k == i then t.active - 1 else k] == q;
    }
    if Active(t, q) && q != p {
      var k :| 0 <= k < t.active && t.items[k] == q;
      assert u.items[if i < t.active && k == t.active - 1 then i else k] == q;
    }
  }

  /**
   * When a pipe goes away while another one is in mid-message, the turn stays with the pipe
   * in mid-message unless that pipe is the last active one and the other stands between the
   * first and it: the message is then continued on the first pipe.
   */
  lemma {:induction false} TerminationMovesTheTurn(t: Turn, p: Id)
    requires Sound(t) && t.active > 0 && p in t.items && p != t.items[t.current]
    ensures var u := Terminated(t, p);
      && u.active > 0 && u.current < |u.items|
      && (u.items[u.current] == t.items[t.current]
          <==> !(t.current == t.active - 1 && 0 < IndexOf(t.items, p) < t.active))
  {
    TerminatedKeepsSound(t, p);
    var i := IndexOf(t.items, p);
    var u := Terminated(t, p);
    if i < t.active {
      var s := Swap(t.items, i, t.active - 1);
      assert forall k | 0 <= k < u.active :: u.items[k] == s[k];
    } else {
      assert u.items[t.current] == t.items[t.current];
    }
  }

  /**
   * A pipe that goes away brings another one further from its turn exactly if that one is the
   * last active pipe and the other stood between the first pipe and the turn; it then moves
   * away by as many turns as the other's place says, and at most by `active - 2`.
   */
  lemma {:induction false} WaitAfterTermination(t: Turn, p: Id, q: Id)
    requires Sound(t) && p in t.items && Active(t, q) && q != p
    ensures Sound(Terminated(t, p)) && Active(Terminated(t, p), q)
    ensures var j := IndexOf(t.items, p);
      if q == t.items[t.active - 1] && 0 < j < t.current
      then Wait(Terminated(t, p), q) == Wait(t, q) + j && j <= t.active - 2
      else Wait(Terminated(t, p), q) <= Wait(t, q)
  {
    hide Terminated, IndexOf;
    TerminatedKeepsSound(t, p);
    TerminatedItems(t, p);
    TerminatedTurn(t, p);
    var u, j := Terminated(t, p), IndexOf(t.items, p);
    var i :| 0 <= i < t.active && t.items[i] == q;
    WaitIs(t, q, i);
    WaitIs(u, q, if j < t.active && i == t.active - 1 then j else i);
    IndexIs(t.items, q, i);
  }

  lemma {:induction false} TerminatedTurn(t: Turn, p: Id)
    requires Sound(t) && p in t.items
    ensures Terminated(t, p).current ==
      if IndexOf(t.items, p) < t.active && t.current == t.active - 1 then 0 else t.current
  {
  }

  /** Four active pipes, the third at its turn: when the second goes away, the fourth is two turns away instead of one. */
  lemma {:induction false} TerminationDelays(more: bool)
    ensures var t := Turn([1, 2, 3, 4], 4, 2, more);
      && Sound(t) && Active(t, 4) && Wait(t, 4) == 1
      && Sound(Terminated(t, 2)) && Active(Terminated(t, 2), 4) && Wait(Terminated(t, 2), 4) == 2
  {
    var t := Turn([1, 2, 3, 4], 4, 2, more);
    IndexIs(t.items, 2, 1);
    WaitIs(t, 4, 3);
    WaitAfterTermination(t, 2, 4);
  }

  class FairQueue {
    const pipes: Pipes
    var active: nat
    var current: nat
    var more: bool

    ghost predicate Valid()
      reads this, pipes
    {
      pipes.Valid() && Sound(Turns())
    }

    ghost function Turns(): Turn
      reads this, pipes
    {
      Turn(pipes.items, active, current, more)
    }

    constructor ()
      ensures Valid() && fresh(pipes) && Turns() == Turn([], 0, 0, false)
    {
      pipes := new Pipes();
      active, current, more := 0, 0, false;
    }

    method Attach(p: Id)
      requires Valid() && p !in pipes.items
      modifies this, pipes
      ensures Valid() && Turns() == RoundRobin.Attach(old(Turns()), p)
    {
      pipes.PushBack(p);
      pipes.Exchange(active, |pipes.items| - 1);
      active := active + 1;
    }

    method Activated(p: Id)
      requires Valid() && p in pipes.items && !Active(Turns(), p)
      modifies this, pipes
      ensures Valid() && old(active < |pipes.items|) && Turns() == RoundRobin.Activate(old(Turns()), p)
    {
      var i := pipes.Index(p);
      IndexIs(pipes.items, p, i);
      assert i >= active;
      pipes.Exchange(i, active);
      active := active + 1;
    }

    method Terminate(p: Id)
      requires Valid() && p in pipes.items
      modifies this, pipes
      ensures Valid() && Turns() == Terminated(old(Turns()), p)
    {
      hide Swap, Erased, Distinct, IndexOf;
      TerminatedKeepsSound(Turns(), p);
      var i := pipes.Index(p);
      IndexIs(pipes.items, p, i);
      if i < active {
        SwapKeeps(pipes.items, i, active - 1);
        SwapPuts(pipes.items, i, active - 1);
        active := active - 1;
        pipes.Exchange(i, active);
        if current == active {
          current := 0;
        }
        IndexIs(pipes.items, p, active);
      }
      pipes.Erase(p);
    }

    /** Round-robin over the pipes to get the next part; `partMore` is the flag of the part found. */
    method RecvPipe(ready: set<Id>, partMore: bool) returns (reply: Reply)
      requires Valid()
      modifies this, pipes
      ensures Valid()
      ensures (Turns(), reply) == Call(old(Turns()), ready, partMore)
    {
      ghost var t := Turns();
      SettleSkips(t, ready);
      while active > 0
        invariant Valid() && more == t.more
        invariant Turns() == t || !more
        invariant Settle(Turns(), ready) == Settle(t, ready)
        decreases active
      {
        if pipes.items[current] in ready {
          reply := Served(pipes.items[current]);
          more := partMore;
          if !more {
            current := (current + 1) % active;
          }
          return;
        }
        if more {
          return Fault;
        }
        DeactivateKeepsSound(Turns());
        active := active - 1;
        pipes.Exchange(current, active);
        if current == active {
          current := 0;
        }
      }
      reply := Nothing;
    }

    method HasIn(ready: set<Id>) returns (r: bool)
      requires Valid()
      modifies this, pipes
      ensures Valid() && (Turns(), r) == Poll(old(Turns()), ready)
      ensures r == (old(more) || exists p | p in ready :: Active(old(Turns()), p))
    {
      hide Swap, Distinct, IndexOf;
      if !more { O.PollTellsTheTruth(Turns(), ready, false); }
      if more {
        return true;
      }
      ghost var t := Turns();
      while active > 0
        invariant Valid() && !more
        invariant Settle(Turns(), ready) == Settle(t, ready)
        decreases active
      {
        if pipes.items[current] in ready {
          return true;
        }
        DeactivateKeepsSound(Turns());
        active := active - 1;
        pipes.Exchange(current, active);
        if current == active {
          current := 0;
        }
      }
      r := false;
    }
  }
}

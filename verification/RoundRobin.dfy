/** Round-robin over pipes with idle pipes swapped out, and how long a ready pipe can wait. */
module RoundRobin {
  import opened Basics
  import opened PipeArray

  /** The pipes in turn: the first `active` of them may have something to do; `current` has the turn. */
  datatype Turn = Turn(items: seq<Id>, active: nat, current: nat, more: bool)

  predicate Sound(t: Turn) {
    && Distinct(t.items)
    && t.active <= |t.items|
    && (if t.active == 0 then t.current == 0 else t.current < t.active)
  }

  predicate Active(t: Turn, p: Id) { exists i | 0 <= i < t.active && i < |t.items| :: t.items[i] == p }

  function Attach(t: Turn, p: Id): Turn
    requires Sound(t)
  {
    Turn(Swap(t.items + [p], t.active, |t.items|), t.active + 1, t.current, t.more)
  }

  function Activate(t: Turn, p: Id): Turn
    requires Sound(t) && p in t.items && t.active < |t.items|
  {
    Turn(Swap(t.items, IndexOf(t.items, p), t.active), t.active + 1, t.current, t.more)
  }

  /** Swap the pipe whose turn it is out of the active ones. */
  function Deactivate(t: Turn): Turn
    requires Sound(t) && t.active > 0
  {
    var active := t.active - 1;
    Turn(Swap(t.items, t.current, active), active, if t.current == active then 0 else t.current, t.more)
  }

  /** Swap out idle pipes until a ready one has the turn. */
  function Settle(t: Turn, ready: set<Id>): Turn
    requires Sound(t)
    decreases t.active
  {
    if t.active == 0 || t.items[t.current] in ready then t
    else DeactivateKeepsSound(t); Settle(Deactivate(t), ready)
  }

  /** The turn passes on after the last part of a message. */
  function Serve(t: Turn, more: bool): Turn
    requires Sound(t) && t.active > 0
  {
    t.(more := more, current := if more then t.current else (t.current + 1) % t.active)
  }

  /** `Dropped`: the pipe in mid-message is gone and the part goes nowhere. */
  datatype Reply = Served(p: Id) | Nothing | Fault | Dropped

  /** One call of recvpipe or send: `Fault` when the pipe in mid-message is not ready. */
  function Call(t: Turn, ready: set<Id>, more: bool): (Turn, Reply)
    requires Sound(t)
  {
    if t.more && t.active > 0 && t.items[t.current] !in ready then (t, Fault)
    else
      var u := Settle(t, ready);
      SettleSkips(t, ready);
      if u.active == 0 then (u, Nothing) else (Serve(u, more), Served(u.items[u.current]))
  }

  /** One call of has_in or has_out. */
  function Poll(t: Turn, ready: set<Id>): (Turn, bool)
    requires Sound(t)
  {
    if t.more then (t, true) else (Settle(t, ready), Settle(t, ready).active > 0)
  }

  /** How many turns away a pipe is. */
  function Wait(t: Turn, p: Id): (d: nat)
    requires Sound(t) && Active(t, p)
    ensures d < t.active
  {
    ActiveHasIndex(t, p);
    var i := IndexOf(t.items, p);
    if i >= t.current then i - t.current else i + t.active - t.current
  }

  lemma {:induction false} ActiveHasIndex(t: Turn, p: Id)
    requires Sound(t)
    ensures Active(t, p) <==> p in t.items && IndexOf(t.items, p) < t.active
  {
    if Active(t, p) {
      var i :| 0 <= i < t.active && t.items[i] == p;
      IndexIs(t.items, p, i);
    }
  }

  lemma WaitIs(t: Turn, p: Id, i: nat)
    requires Sound(t) && i < t.active && t.items[i] == p
    ensures Active(t, p) && Wait(t, p) == if i >= t.current then i - t.current else i + t.active - t.current
  {
    IndexIs(t.items, p, i);
  }

  lemma DeactivateKeepsSound(t: Turn)
    requires Sound(t) && t.active > 0
    ensures Sound(Deactivate(t))
  {
    SwapKeeps(t.items, t.current, t.active - 1);
  }

  /** Swapping out the pipe that has the turn drops that pipe alone and brings nobody else further away. */
  lemma DeactivateWaits(t: Turn, p: Id)
    requires Sound(t) && t.active > 0
    ensures Sound(Deactivate(t))
    ensures Active(Deactivate(t), p) <==> Active(t, p) && p != t.items[t.current]
    ensures Active(Deactivate(t), p) ==> Wait(Deactivate(t), p) <= Wait(t, p)
  {
    DeactivateKeepsSound(t);
    var u := Deactivate(t);
    if Active(u, p) {
      var i :| 0 <= i < u.active && u.items[i] == p;
      WaitIs(u, p, i);
      WaitIs(t, p, if i == t.current then t.active - 1 else i);
    }
    if Active(t, p) && p != t.items[t.current] {
      var i :| 0 <= i < t.active && t.items[i] == p;
      WaitIs(u, p, if i == t.active - 1 then t.current else i);
    }
  }

  /** Settling drops idle pipes only, stops at a ready pipe and brings nobody further away. */
  lemma {:induction false} SettleWaits(t: Turn, ready: set<Id>, p: Id)
    requires Sound(t)
    ensures Sound(Settle(t, ready))
    ensures Active(Settle(t, ready), p) ==> Active(t, p) && Wait(Settle(t, ready), p) <= Wait(t, p)
    ensures Active(t, p) && p in ready ==> Active(Settle(t, ready), p)
    decreases t.active
  {
    if t.active > 0 && t.items[t.current] !in ready {
      DeactivateWaits(t, p);
      SettleWaits(Deactivate(t), ready, p);
    }
  }

  lemma {:induction false} SettleSkips(t: Turn, ready: set<Id>)
    requires Sound(t)
    ensures Sound(Settle(t, ready)) && Settle(t, ready).more == t.more
    ensures var u := Settle(t, ready); u.active > 0 ==> u.items[u.current] in ready
    ensures multiset(Settle(t, ready).items) == multiset(t.items)
    decreases t.active
  {
    if t.active > 0 && t.items[t.current] !in ready {
      DeactivateKeepsSound(t);
      SwapKeeps(t.items, t.current, t.active - 1);
      SettleSkips(Deactivate(t), ready);
    }
  }
}

/** Which pipe a round-robin scheduler picks, told by the order of the pipes alone. */
module TurnOrder {
  import opened Basics
  import opened QueueSpec
  import opened PipeArray
  import opened RoundRobin

  function Reversed(s: seq<Id>): (r: seq<Id>)
    ensures |r| == |s|
  {
    if s == [] then [] else [s[|s| - 1]] + Reversed(s[..|s| - 1])
  }

  lemma {:induction false} ReversedHas(s: seq<Id>, p: Id)
    ensures p in Reversed(s) <==> p in s
  {
    if s != [] {
      ReversedHas(s[..|s| - 1], p);
      assert s == s[..|s| - 1] + [s[|s| - 1]];
    }
  }

  /**
   * The order in which the active pipes are tried. The last active pipe takes the place of one
   * found idle, so behind the pipe that has the turn come those above it from the last down, then
   * the first, then those between from the last down.
   */
  function Order(t: Turn): seq<Id>
    requires Sound(t)
  {
    if t.active == 0 then []
    else
      [t.items[t.current]] + Reversed(t.items[t.current + 1..t.active])
      + if t.current == 0 then [] else [t.items[0]] + Reversed(t.items[1..t.current])
  }

  lemma DeactivatedItems(t: Turn)
    requires Sound(t) && t.active > 0
    ensures var u, last := Deactivate(t), t.active - 1;
      && |u.items| == |t.items| && u.active == last && u.current == (if t.current == last then 0 else t.current)
      && forall k | 0 <= k < last :: u.items[k] == if k == t.current then t.items[last] else t.items[k]
  {
  }

  /** The order, put together from its parts. */
  function Joined(first: Id, above: seq<Id>, below: seq<Id>): seq<Id> {
    [first] + Reversed(above) + if below == [] then [] else [below[0]] + Reversed(below[1..])
  }

  lemma OrderIsJoined(t: Turn)
    requires Sound(t)
    ensures t.active == 0 ==> Order(t) == []
    ensures t.active > 0 ==> Order(t) == Joined(t.items[t.current], t.items[t.current + 1..t.active], t.items[..t.current])
  {
    if 0 < t.current < t.active { assert t.items[..t.current][1..] == t.items[1..t.current]; }
  }

  lemma JoinedHas(first: Id, above: seq<Id>, below: seq<Id>, p: Id)
    ensures p in Joined(first, above, below) <==> p in below + [first] + above
  {
    ReversedHas(above, p);
    if below != [] {
      ReversedHas(below[1..], p);
      assert below == [below[0]] + below[1..];
    }
  }

  lemma ActiveIsIn(t: Turn, p: Id)
    requires Sound(t)
    ensures Active(t, p) <==> p in t.items[..t.active]
  {
    if i :| 0 <= i < t.active && t.items[i] == p {
      assert t.items[..t.active][i] == p;
    }
  }

  /** Exactly the active pipes are tried. */
  lemma OrderHas(t: Turn, p: Id)
    requires Sound(t)
    ensures p in Order(t) <==> Active(t, p)
  {
    hide Joined, Order, Distinct, Active;
    OrderIsJoined(t);
    ActiveIsIn(t, p);
    if t.active > 0 {
      var c := t.current;
      JoinedHas(t.items[c], t.items[c + 1..t.active], t.items[..c], p);
      assert t.items[..c] + [t.items[c]] + t.items[c + 1..t.active] == t.items[..t.active];
    }
  }

  lemma JoinedRest(first: Id, above: seq<Id>, below: seq<Id>)
    ensures Joined(first, above, below)[1..] ==
      if above != [] then Joined(above[|above| - 1], above[..|above| - 1], below)
      else if below != [] then Joined(below[0], below[1..], [])
      else []
  {
  }

  /** Swapping out the pipe that has the turn makes the next one in order have it. */
  lemma DeactivateAdvances(t: Turn)
    requires Sound(t) && t.active > 0
    ensures Sound(Deactivate(t)) && Order(Deactivate(t)) == Order(t)[1..]
  {
    hide Joined, Swap, Order, Deactivate, Distinct;
    DeactivateKeepsSound(t);
    DeactivatedItems(t);
    OrderIsJoined(t);
    var u, c, last := Deactivate(t), t.current, t.active - 1;
    var above, below := t.items[c + 1..t.active], t.items[..c];
    JoinedRest(t.items[c], above, below);
    OrderIsJoined(u);
    if last > 0 {
      if c < last {
        assert above[|above| - 1] == t.items[last] && above[..|above| - 1] == u.items[c + 1..last];
        assert u.items[..c] == below;
      } else {
        assert above == [] && below[1..] == u.items[1..last] && u.items[..0] == [];
      }
    }
  }

  /** The first pipe in order that is ready. */
  function FirstReady(order: seq<Id>, ready: set<Id>): Option<Id> {
    if order == [] then None else if order[0] in ready then Some(order[0]) else FirstReady(order[1..], ready)
  }

  lemma {:induction false} FirstReadyFound(order: seq<Id>, ready: set<Id>)
    ensures FirstReady(order, ready).Some? <==> exists p | p in order :: p in ready
  {
    if order != [] { FirstReadyFound(order[1..], ready); }
  }

  lemma {:induction false} SettlePicks(t: Turn, ready: set<Id>)
    requires Sound(t)
    ensures var u := Settle(t, ready);
      Sound(u) && FirstReady(Order(t), ready) == if u.active > 0 then Some(u.items[u.current]) else None
    decreases t.active
  {
    SettleSkips(t, ready);
    if t.active > 0 && t.items[t.current] !in ready {
      DeactivateAdvances(t);
      SettlePicks(Deactivate(t), ready);
    }
  }

  /**
   * A call between messages, or in mid-message with the pipe that has the turn ready, serves the
   * first pipe in order that is ready, and nobody exactly if no active pipe is.
   */
  lemma {:induction false} CallServesFirstReady(t: Turn, ready: set<Id>, more: bool)
    requires Sound(t)
    ensures var reply := Call(t, ready, more).1;
      && (reply == Fault <==> t.more && t.active > 0 && t.items[t.current] !in ready)
      && (reply != Fault ==>
            && (reply.Served? <==> exists p | p in ready :: Active(t, p))
            && match FirstReady(Order(t), ready) case Some(p) => reply == Served(p) case None => reply == Nothing)
  {
    SettlePicks(t, ready);
    SomeReady(t, ready);
  }

  lemma {:induction false} SomeReady(t: Turn, ready: set<Id>)
    requires Sound(t)
    ensures FirstReady(Order(t), ready).Some? <==> exists p | p in ready :: Active(t, p)
  {
    FirstReadyFound(Order(t), ready);
    forall p ensures p in Order(t) <==> Active(t, p) {
      OrderHas(t, p);
    }
  }

  lemma {:induction false} SettleAgain(t: Turn, ready: set<Id>)
    requires Sound(t)
    ensures Sound(Settle(t, ready)) && Settle(Settle(t, ready), ready) == Settle(t, ready)
  {
    SettleSkips(t, ready);
  }

  /**
   * Between messages, has_in and has_out say yes exactly if an active pipe is ready, which is exactly
   * if the call that follows serves somebody; and having asked does not change whom it serves.
   */
  lemma {:induction false} PollTellsTheTruth(t: Turn, ready: set<Id>, more: bool)
    requires Sound(t) && !t.more
    ensures Poll(t, ready).1 <==> exists p | p in ready :: Active(t, p)
    ensures Poll(t, ready).1 <==> Call(t, ready, more).1.Served?
    ensures Sound(Poll(t, ready).0) && Call(Poll(t, ready).0, ready, more) == Call(t, ready, more)
  {
    SettlePicks(t, ready);
    SomeReady(t, ready);
    SettleSkips(t, ready);
    SettleAgain(t, ready);
  }
}

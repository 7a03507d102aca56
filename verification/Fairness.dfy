/** What each step of the round-robin schedulers keeps. */
module Fairness {
  import opened Basics
  import opened PipeArray
  import opened RoundRobin

  /** `Ask`: receive or send one part; `Look`: has_in or has_out; `ready` are the pipes able to take part. */
  datatype Act =
    | Ask(ready: set<Id>, more: bool)
    | Look(ready: set<Id>)
    | Join(p: Id)
    | Wake(p: Id)

  /** Who carried each part, and whether more parts follow. */
  datatype Part = Part(p: Id, more: bool)

  /** Pipes join once and wake only when swapped out. */
  predicate Enabled(t: Turn, a: Act) {
    match a
    case Ask(_, _) => true
    case Look(_) => true
    case Join(p) => p !in t.items
    case Wake(p) => p in t.items && !Active(t, p)
  }

  /** The assertion of the receive or send loop fails: the pipe in mid-message is not ready. */
  predicate Fails(t: Turn, a: Act)
    requires Sound(t)
  {
    a.Ask? && Call(t, a.ready, a.more).1 == Fault
  }

  function Step(t: Turn, a: Act): (Turn, seq<Part>)
    requires Sound(t) && Enabled(t, a)
  {
    match a
    case Ask(ready, more) =>
      var (u, reply) := Call(t, ready, more);
      (u, if reply.Served? then [Part(reply.p, more)] else [])
    case Look(ready) => (Poll(t, ready).0, [])
    case Join(p) => (Attach(t, p), [])
    case Wake(p) => (if t.active < |t.items| then Activate(t, p) else t, [])
  }

  lemma JoinWaits(t: Turn, p: Id, q: Id)
    requires Sound(t) && p !in t.items
    ensures Sound(Attach(t, p)) && Active(Attach(t, p), p)
    ensures Active(t, q) ==> Active(Attach(t, p), q) && Wait(Attach(t, p), q) <= Wait(t, q) + 1
    ensures t.active > 0 ==> Attach(t, p).items[t.current] == t.items[t.current]
  {
    SwapKeeps(t.items + [p], t.active, |t.items|);
    var u := Attach(t, p);
    WaitIs(u, p, t.active);
    if Active(t, q) {
      var i :| 0 <= i < t.active && t.items[i] == q;
      WaitIs(t, q, i);
      WaitIs(u, q, i);
    }
  }

  lemma WakeWaits(t: Turn, p: Id, q: Id)
    requires Sound(t) && p in t.items && !Active(t, p)
    ensures t.active < |t.items| && Sound(Activate(t, p)) && Active(Activate(t, p), p)
    ensures Active(t, q) ==> Active(Activate(t, p), q) && Wait(Activate(t, p), q) <= Wait(t, q) + 1
    ensures t.active > 0 ==> Activate(t, p).items[t.current] == t.items[t.current]
  {
    var k := IndexOf(t.items, p);
    assert k >= t.active;
    SwapKeeps(t.items, k, t.active);
    var u := Activate(t, p);
    WaitIs(u, p, t.active);
    if Active(t, q) {
      var i :| 0 <= i < t.active && t.items[i] == q;
      WaitIs(t, q, i);
      WaitIs(u, q, i);
    }
  }

  lemma ServeWaits(t: Turn, more: bool, p: Id)
    requires Sound(t) && t.active > 0
    ensures Sound(Serve(t, more)) && (Active(Serve(t, more), p) <==> Active(t, p))
    ensures Active(t, p) && p != t.items[t.current] ==>
      Wait(Serve(t, more), p) == Wait(t, p) - if more then 0 else 1
  {
    hide Distinct, IndexOf;
    NextTurn(t.current, t.active);
    ActiveHasIndex(t, p);
    var u := Serve(t, more);
    ActiveHasIndex(u, p);
    if Active(t, p) {
      IndexIs(t.items, t.items[t.current], t.current);
    }
  }

  lemma NextTurn(current: nat, active: nat)
    requires current < active
    ensures (current + 1) % active == if current + 1 < active then current + 1 else 0
  {
  }

  function Messages(log: seq<Part>): nat {
    if log == [] then 0 else (if log[0].more then 0 else 1) + Messages(log[1..])
  }

  predicate ReadyFor(a: Act, p: Id) { a.Ask? || a.Look? ==> p in a.ready }

  lemma StepKeepsSound(t: Turn, a: Act)
    requires Sound(t) && Enabled(t, a)
    ensures Sound(Step(t, a).0)
  {
    match a {
      case Ask(ready, more) =>
        SettleSkips(t, ready);
        var u := Settle(t, ready);
        if u.active > 0 {
          ServeWaits(u, more, u.items[u.current]);
        }
      case Look(ready) => SettleSkips(t, ready);
      case Join(p) => JoinWaits(t, p, p);
      case Wake(p) => WakeWaits(t, p, p);
    }
  }

  /** One step: a ready pipe that is not served keeps its place, or gets nearer by one message. */
  lemma StepWaits(t: Turn, a: Act, p: Id)
    requires Sound(t) && Enabled(t, a) && Active(t, p) && ReadyFor(a, p)
    requires forall q | q in Step(t, a).1 :: q.p != p
    ensures Sound(Step(t, a).0) && Active(Step(t, a).0, p)
    ensures |Step(t, a).1| == if a.Ask? && !Fails(t, a) then 1 else 0
    ensures Wait(Step(t, a).0, p) + Messages(Step(t, a).1) <= Wait(t, p) + B(a.Join? || a.Wake?)
  {
    match a {
      case Ask(ready, more) =>
        SettleSkips(t, ready);
        SettleWaits(t, ready, p);
        var u := Settle(t, ready);
        if !Fails(t, a) {
          assert Step(t, a).1 == [Part(u.items[u.current], more)];
          assert u.items[u.current] == Step(t, a).1[0].p;
          ServeWaits(u, more, p);
        }
      case Look(ready) =>
        SettleSkips(t, ready);
        SettleWaits(t, ready, p);
      case Join(q) => JoinWaits(t, q, p);
      case Wake(q) => WakeWaits(t, q, p);
    }
  }

  lemma {:induction false} MessagesAdd(a: seq<Part>, b: seq<Part>)
    ensures Messages(a + b) == Messages(a) + Messages(b)
  {
    if a == [] {
      assert a + b == b;
    } else {
      MessagesAdd(a[1..], b);
      assert (a + b)[1..] == a[1..] + b;
    }
  }

  /** The parts of one message run on one pipe; `first` is the pipe in mid-message at the start. */
  predicate Contiguous(log: seq<Part>, mid: bool, first: Id) {
    && (mid && log != [] ==> log[0].p == first)
    && (forall i | 0 <= i < |log| - 1 :: log[i].more ==> log[i + 1].p == log[i].p)
  }

  function TurnOf(t: Turn): Id
    requires Sound(t)
  {
    if t.active > 0 then t.items[t.current] else 0
  }

  lemma StepStays(t: Turn, a: Act)
    requires Sound(t) && Enabled(t, a) && (t.more ==> t.active > 0)
    ensures var (u, log) := Step(t, a);
      && Sound(u) && (u.more ==> u.active > 0)
      && (log == [] ==> u.more == t.more && (t.more ==> TurnOf(u) == TurnOf(t)))
      && (log != [] ==> |log| == 1 && log[0].more == u.more && (t.more ==> log[0].p == TurnOf(t)))
      && (log != [] && u.more ==> TurnOf(u) == log[0].p)
  {
    StepKeepsSound(t, a);
    match a {
      case Ask(ready, more) => SettleSkips(t, ready);
      case Look(ready) => SettleSkips(t, ready);
      case Join(p) => JoinWaits(t, p, p);
      case Wake(p) => WakeWaits(t, p, p);
    }
  }
}

/** Messages sharing reference-counted content, also across a multicast in progress. */
module MsgModel {

  /** A message: only a long one refers to content, by number; a closed one is invalid. */
  datatype Msg = Invalid | Small | Delimiter | Long(content: nat, shared: bool)

  /** The counter of a content block, and how often the block has been freed. */
  datatype Content = Content(refcnt: int, frees: nat)

  function Freed(c: Content): Content { c.(frees := c.frees + 1) }

  /** Subtract references from a counter; the block is freed when none is left. */
  function Sub(c: Content, n: int): Content {
    var d := c.(refcnt := c.refcnt - n);
    if d.refcnt == 0 then Freed(d) else d
  }

  /** What closing a long message does to its content. */
  function Released(m: Msg, c: Content): Content
    requires m.Long?
  {
    if m.shared then Sub(c, 1) else Freed(c)
  }

  /** What adding references does to a long message and its content. */
  function Counted(m: Msg, c: Content, n: nat): (Msg, Content)
    requires m.Long?
  {
    if n == 0 then (m, c)
    else if m.shared then (m, c.(refcnt := c.refcnt + n))
    else (m.(shared := true), c.(refcnt := n + 1))
  }

  /** What removing references does to the content of a long message. */
  function Removed(m: Msg, c: Content, n: nat): Content
    requires m.Long?
  {
    if n == 0 then c else if !m.shared then Freed(c) else Sub(c, n)
  }

  /** A message held by someone, or one being written to many pipes: `owed` writes are still to be tried. */
  datatype Slot =
    | Held(msg: Msg)
    | Casting(msg: Msg, owed: nat, failed: nat)

  datatype State = State(slots: seq<Slot>, contents: seq<Content>)

  datatype Act =
    | InitSmall(h: nat)
    | InitLong(h: nat)
    | InitDelimiter(h: nat)
    | Close(h: nat)
    | Move(to: nat, from: nat)      // the target has just been closed
    | Copy(to: nat, from: nat)      // the target has just been closed
    | Handle                        // a new, uninitialised message
    | CastBegin(h: nat, pipes: nat) // add_refs (matching - 1)
    | CastWrite(h: nat, to: nat)    // one pipe takes the message
    | CastRefuse(h: nat)            // one pipe refuses it
    | CastEnd(h: nat)               // rm_refs (failed), then init

  predicate Has(s: State, h: nat) { h < |s.slots| && s.slots[h].Held? }

  predicate Blank(s: State, h: nat) { Has(s, h) && s.slots[h].msg.Invalid? }

  /** A message is initialised when blank, and distinct messages are moved or copied. */
  predicate Enabled(s: State, a: Act) {
    match a
    case InitSmall(h) => Blank(s, h)
    case InitLong(h) => Blank(s, h)
    case InitDelimiter(h) => Blank(s, h)
    case Close(h) => Has(s, h) && !s.slots[h].msg.Invalid?
    case Move(to, from) => to != from && Blank(s, to) && Has(s, from) && !s.slots[from].msg.Invalid?
    case Copy(to, from) => to != from && Blank(s, to) && Has(s, from) && !s.slots[from].msg.Invalid?
    case Handle => true
    case CastBegin(h, pipes) => Has(s, h) && s.slots[h].msg.Long? && pipes > 0
    case CastWrite(h, to) => h < |s.slots| && s.slots[h].Casting? && s.slots[h].owed > 0 && Blank(s, to)
    case CastRefuse(h) => h < |s.slots| && s.slots[h].Casting? && s.slots[h].owed > 0
    case CastEnd(h) => h < |s.slots| && s.slots[h].Casting? && s.slots[h].owed == 0
  }

  function Put(s: State, h: nat, x: Slot): State
    requires h < |s.slots|
  {
    s.(slots := s.slots[h := x])
  }

  function SetContent(s: State, c: nat, x: Content): State {
    if c < |s.contents| then s.(contents := s.contents[c := x]) else s
  }

  function Body(s: State, m: Msg): Content
    requires m.Long?
  {
    if m.content < |s.contents| then s.contents[m.content] else Content(0, 0)
  }

  function Step(s: State, a: Act): State
    requires Enabled(s, a)
  {
    match a
    case InitSmall(h) => Put(s, h, Held(Small))
    case InitLong(h) =>
      State(s.slots[h := Held(Long(|s.contents|, false))], s.contents + [Content(0, 0)])
    case InitDelimiter(h) => Put(s, h, Held(Delimiter))
    case Close(h) =>
      var m := s.slots[h].msg;
      var t := Put(s, h, Held(Invalid));
      if m.Long? then SetContent(t, m.content, Released(m, Body(s, m))) else t
    case Move(to, from) => Put(Put(s, to, s.slots[from]), from, Held(Small))
    case Copy(to, from) =>
      var m := s.slots[from].msg;
      if m.Long? then
        var (m', c) := Counted(m, Body(s, m), 1);
        SetContent(Put(Put(s, to, Held(m')), from, Held(m')), m.content, c)
      else Put(s, to, Held(m))
    case Handle => s.(slots := s.slots + [Held(Invalid)])
    case CastBegin(h, pipes) =>
      var m := s.slots[h].msg;
      var (m', c) := Counted(m, Body(s, m), pipes - 1);
      SetContent(Put(s, h, Casting(m', pipes, 0)), m.content, c)
    case CastWrite(h, to) =>
      var x := s.slots[h];
      Put(Put(s, to, Held(x.msg)), h, x.(owed := x.owed - 1))
    case CastRefuse(h) =>
      var x := s.slots[h];
      Put(s, h, x.(owed := x.owed - 1, failed := x.failed + 1))
    case CastEnd(h) =>
      var x := s.slots[h];
      var t := Put(s, h, Held(Small));
      if x.msg.Long? then SetContent(t, x.msg.content, Removed(x.msg, Body(s, x.msg), x.failed)) else t
  }

  /** The references one slot stands for: its own, or the writes still owed or failed. */
  function Weight(x: Slot, c: nat): nat {
    if !x.msg.Long? || x.msg.content != c then 0
    else match x case Held(_) => 1 case Casting(_, owed, failed) => owed + failed
  }

  function Total(slots: seq<Slot>, c: nat): nat {
    if slots == [] then 0 else Weight(slots[0], c) + Total(slots[1..], c)
  }

  lemma {:induction false} TotalPut(slots: seq<Slot>, h: nat, x: Slot, c: nat)
    requires h < |slots|
    ensures Total(slots[h := x], c) == Total(slots, c) - Weight(slots[h], c) + Weight(x, c)
    ensures Weight(slots[h], c) <= Total(slots, c)
  {
    if h == 0 {
      assert slots[h := x][1..] == slots[1..];
    } else {
      TotalPut(slots[1..], h - 1, x, c);
      assert slots[h := x][1..] == slots[1..][h - 1 := x];
    }
  }

  lemma {:induction false} TotalAppend(slots: seq<Slot>, x: Slot, c: nat)
    ensures Total(slots + [x], c) == Total(slots, c) + Weight(x, c)
  {
    if slots == [] {
      assert slots + [x] == [x];
    } else {
      TotalAppend(slots[1..], x, c);
      assert (slots + [x])[1..] == slots[1..] + [x];
    }
  }

  /** A slot that still stands for some reference to content `c`. */
  predicate Refers(x: Slot, c: nat) { Weight(x, c) > 0 }

  /** The accounts of one content block. */
  ghost predicate Balanced(s: State, c: nat)
    requires c < |s.contents|
  {
    var b := s.contents[c];
    && b.frees <= 1
    && (b.frees == 1 <==> Total(s.slots, c) == 0)
    && (forall h | 0 <= h < |s.slots| && Refers(s.slots[h], c) ::
          if s.slots[h].msg.shared then b.refcnt == Total(s.slots, c) else Total(s.slots, c) == 1)
  }

  ghost predicate Conserved(s: State) {
    && (forall h | 0 <= h < |s.slots| && s.slots[h].msg.Long? :: s.slots[h].msg.content < |s.contents|)
    && (forall h | 0 <= h < |s.slots| && s.slots[h].Casting? :: s.slots[h].msg.Long?)
    && (forall c | 0 <= c < |s.contents| :: Balanced(s, c))
  }

  /** A slot stands for no more than all the slots together. */
  lemma {:induction false} TotalCovers(slots: seq<Slot>, h: nat, c: nat)
    requires h < |slots|
    ensures Weight(slots[h], c) <= Total(slots, c)
  {
    TotalPut(slots, h, slots[h], c);
  }

  lemma {:induction false} TotalCoversTwo(slots: seq<Slot>, h: nat, k: nat, c: nat)
    requires h < |slots| && k < |slots| && h != k
    ensures Weight(slots[h], c) + Weight(slots[k], c) <= Total(slots, c)
  {
    TotalPut(slots, h, Held(Invalid), c);
    TotalCovers(slots[h := Held(Invalid)], k, c);
  }

  lemma {:induction false} NoSlotNoTotal(slots: seq<Slot>, c: nat)
    requires forall h | 0 <= h < |slots| :: !Refers(slots[h], c)
    ensures Total(slots, c) == 0
  {
    if slots != [] {
      assert forall h | 0 <= h < |slots[1..]| :: slots[1..][h] == slots[h + 1];
      NoSlotNoTotal(slots[1..], c);
    }
  }

  lemma CloseConserves(s: State, h: nat)
    requires Conserved(s) && Enabled(s, Close(h))
    ensures Conserved(Step(s, Close(h)))
  {
    hide Total;
    var t := Step(s, Close(h));
    forall c | 0 <= c < |t.contents| ensures Balanced(t, c) {
      assert Balanced(s, c);
      TotalPut(s.slots, h, Held(Invalid), c);
      forall k | 0 <= k < |t.slots| && Refers(t.slots[k], c)
        ensures if t.slots[k].msg.shared then t.contents[c].refcnt == Total(t.slots, c) else Total(t.slots, c) == 1
      {
        assert k != h && Refers(s.slots[k], c);
        TotalCoversTwo(s.slots, h, k, c);
      }
    }
  }

  lemma MoveConserves(s: State, to: nat, from: nat)
    requires Conserved(s) && Enabled(s, Move(to, from))
    ensures Conserved(Step(s, Move(to, from)))
  {
    hide Total;
    var t := Step(s, Move(to, from));
    forall c | 0 <= c < |t.contents| ensures Balanced(t, c) {
      assert Balanced(s, c);
      TotalPut(s.slots, to, s.slots[from], c);
      TotalPut(s.slots[to := s.slots[from]], from, Held(Small), c);
      forall k | 0 <= k < |t.slots| && Refers(t.slots[k], c)
        ensures Refers(s.slots[if k == to then from else k], c)
          && t.slots[k].msg == s.slots[if k == to then from else k].msg
      {
      }
    }
  }

  lemma CopyConserves(s: State, to: nat, from: nat)
    requires Conserved(s) && Enabled(s, Copy(to, from))
    ensures Conserved(Step(s, Copy(to, from)))
  {
    hide Total;
    var t := Step(s, Copy(to, from));
    forall c | 0 <= c < |t.contents| ensures Balanced(t, c) {
      assert Balanced(s, c);
      var m := t.slots[to];
      TotalPut(s.slots, to, m, c);
      TotalPut(s.slots[to := m], from, m, c);
      assert t.slots == s.slots[to := m][from := m];
      TotalCovers(s.slots, from, c);
      forall k | 0 <= k < |t.slots| && Refers(t.slots[k], c)
        ensures if t.slots[k].msg.shared then t.contents[c].refcnt == Total(t.slots, c) else Total(t.slots, c) == 1
      {
        if k != to && k != from {
          TotalCoversTwo(s.slots, k, from, c);
        }
      }
    }
  }

  lemma CastBeginConserves(s: State, h: nat, pipes: nat)
    requires Conserved(s) && Enabled(s, CastBegin(h, pipes))
    ensures Conserved(Step(s, CastBegin(h, pipes)))
  {
    hide Total;
    var t := Step(s, CastBegin(h, pipes));
    forall c | 0 <= c < |t.contents| ensures Balanced(t, c) {
      assert Balanced(s, c);
      TotalPut(s.slots, h, t.slots[h], c);
      TotalCovers(s.slots, h, c);
      forall k | 0 <= k < |t.slots| && Refers(t.slots[k], c)
        ensures if t.slots[k].msg.shared then t.contents[c].refcnt == Total(t.slots, c) else Total(t.slots, c) == 1
      {
        if k != h {
          TotalCoversTwo(s.slots, k, h, c);
        }
      }
    }
  }

  lemma CastWriteConserves(s: State, h: nat, to: nat)
    requires Conserved(s) && Enabled(s, CastWrite(h, to))
    ensures Conserved(Step(s, CastWrite(h, to)))
  {
    hide Total;
    var t := Step(s, CastWrite(h, to));
    forall c | 0 <= c < |t.contents| ensures Balanced(t, c) {
      assert Balanced(s, c);
      var x := s.slots[h];
      TotalPut(s.slots, to, Held(x.msg), c);
      TotalPut(s.slots[to := Held(x.msg)], h, t.slots[h], c);
      forall k | 0 <= k < |t.slots| && Refers(t.slots[k], c)
        ensures Refers(s.slots[if k == to then h else k], c)
          && t.slots[k].msg == s.slots[if k == to then h else k].msg
      {
      }
    }
  }

  lemma CastRefuseConserves(s: State, h: nat)
    requires Conserved(s) && Enabled(s, CastRefuse(h))
    ensures Conserved(Step(s, CastRefuse(h)))
  {
    hide Total;
    var t := Step(s, CastRefuse(h));
    forall c | 0 <= c < |t.contents| ensures Balanced(t, c) {
      assert Balanced(s, c);
      TotalPut(s.slots, h, t.slots[h], c);
      forall k | 0 <= k < |t.slots| && Refers(t.slots[k], c)
        ensures Refers(s.slots[k], c) && t.slots[k].msg == s.slots[k].msg
      {
      }
    }
  }

  lemma CastEndConserves(s: State, h: nat)
    requires Conserved(s) && Enabled(s, CastEnd(h))
    ensures Conserved(Step(s, CastEnd(h)))
  {
    hide Total;
    var t := Step(s, CastEnd(h));
    forall c | 0 <= c < |t.contents| ensures Balanced(t, c) {
      assert Balanced(s, c);
      TotalPut(s.slots, h, Held(Small), c);
      TotalCovers(s.slots, h, c);
      forall k | 0 <= k < |t.slots| && Refers(t.slots[k], c)
        ensures if t.slots[k].msg.shared then t.contents[c].refcnt == Total(t.slots, c) else Total(t.slots, c) == 1
      {
        if k != h {
          TotalCoversTwo(s.slots, k, h, c);
        }
      }
    }
  }

  lemma InitConserves(s: State, a: Act)
    requires Conserved(s) && Enabled(s, a) && (a.InitSmall? || a.InitDelimiter? || a.InitLong? || a.Handle?)
    ensures Conserved(Step(s, a))
  {
    hide Total;
    var t := Step(s, a);
    forall c | 0 <= c < |t.contents| ensures Balanced(t, c) {
      if a.Handle? {
        TotalAppend(s.slots, Held(Invalid), c);
      } else {
        TotalPut(s.slots, a.h, t.slots[a.h], c);
      }
      if c < |s.contents| {
        assert Balanced(s, c);
        forall k | 0 <= k < |t.slots| && Refers(t.slots[k], c) ensures k < |s.slots| && t.slots[k] == s.slots[k] {
        }
      } else {
        NoSlotNoTotal(s.slots, c);
      }
    }
  }

  lemma StepConserves(s: State, a: Act)
    requires Conserved(s) && Enabled(s, a)
    ensures Conserved(Step(s, a))
  {
    hide Conserved, Step;
    match a {
      case InitSmall(_) => InitConserves(s, a);
      case InitLong(_) => InitConserves(s, a);
      case InitDelimiter(_) => InitConserves(s, a);
      case Close(h) => CloseConserves(s, h);
      case Move(to, from) => MoveConserves(s, to, from);
      case Copy(to, from) => CopyConserves(s, to, from);
      case Handle => InitConserves(s, a);
      case CastBegin(h, pipes) => CastBeginConserves(s, h, pipes);
      case CastWrite(h, to) => CastWriteConserves(s, h, to);
      case CastRefuse(h) => CastRefuseConserves(s, h);
      case CastEnd(h) => CastEndConserves(s, h);
    }
  }

  ghost predicate AllEnabled(s: State, acts: seq<Act>)
    decreases |acts|
  {
    acts == [] || (Enabled(s, acts[0]) && AllEnabled(Step(s, acts[0]), acts[1..]))
  }

  ghost function Exec(s: State, acts: seq<Act>): State
    requires AllEnabled(s, acts)
    decreases |acts|
  {
    if acts == [] then s else Exec(Step(s, acts[0]), acts[1..])
  }

  /** Conservation: every run keeps each shared counter equal to the references that exist. */
  lemma {:induction false} EveryRunConserves(s: State, acts: seq<Act>)
    requires Conserved(s) && AllEnabled(s, acts)
    ensures Conserved(Exec(s, acts))
    decreases |acts|
  {
    if acts != [] {
      StepConserves(s, acts[0]);
      EveryRunConserves(Step(s, acts[0]), acts[1..]);
    }
  }

  /** The same kind of message with the same content; whether that is shared does not matter to a reader. */
  predicate SameText(m: Msg, n: Msg) { m == n || (m.Long? && n.Long? && m.content == n.content) }

  /** Which message a step puts where: the one it comes from. */
  function Source(a: Act, k: nat): nat {
    match a
    case Move(to, from) => if k == to then from else k
    case Copy(to, from) => if k == to then from else k
    case CastWrite(h, to) => if k == to then h else k
    case _ => k
  }

  /** A step that ends a message, or begins a new one, there. */
  predicate Replaces(a: Act, k: nat) {
    match a
    case InitSmall(h) => k == h
    case InitLong(h) => k == h
    case InitDelimiter(h) => k == h
    case Close(h) => k == h
    case Move(_, from) => k == from
    case CastEnd(h) => k == h
    case _ => false
  }

  /** No step changes what a reader of a message sees: a message moved, copied or multicast reads the
      same where it arrives, and all others read as before. */
  lemma MessagesKeepTheirText(s: State, a: Act, k: nat)
    requires Enabled(s, a) && k < |s.slots| && !Replaces(a, k)
    ensures k < |Step(s, a).slots| && Source(a, k) < |s.slots|
    ensures SameText(Step(s, a).slots[k].msg, s.slots[Source(a, k)].msg)
  {
  }

  const NO_MESSAGES := State([], [])

  /**
   * From the start, whatever is done in whatever order: a block is freed at most once, exactly
   * when no reference is left, so no message ever refers to a freed block and, once every
   * message is closed, every block has been freed exactly once.
   */
  lemma {:induction false} FreedExactlyOnce(acts: seq<Act>)
    requires AllEnabled(NO_MESSAGES, acts)
    ensures var s := Exec(NO_MESSAGES, acts);
      && (forall c | 0 <= c < |s.contents| ::
            s.contents[c].frees == if Total(s.slots, c) == 0 then 1 else 0)
      && (forall h | 0 <= h < |s.slots| && s.slots[h].Held? && s.slots[h].msg.Long? ::
            s.slots[h].msg.content < |s.contents| && s.contents[s.slots[h].msg.content].frees == 0)
      && ((forall h | 0 <= h < |s.slots| :: !s.slots[h].msg.Long?) ==>
            forall c | 0 <= c < |s.contents| :: s.contents[c].frees == 1)
  {
    assert Conserved(NO_MESSAGES);
    EveryRunConserves(NO_MESSAGES, acts);
    var s := Exec(NO_MESSAGES, acts);
    forall h | 0 <= h < |s.slots| && s.slots[h].Held? && s.slots[h].msg.Long?
      ensures s.slots[h].msg.content < |s.contents| && s.contents[s.slots[h].msg.content].frees == 0
    {
      TotalCovers(s.slots, h, s.slots[h].msg.content);
      assert Balanced(s, s.slots[h].msg.content);
    }
    forall c | 0 <= c < |s.contents|
      ensures s.contents[c].frees == if Total(s.slots, c) == 0 then 1 else 0
    {
      assert Balanced(s, c);
    }
    if forall h | 0 <= h < |s.slots| :: !s.slots[h].msg.Long? {
      forall c | 0 <= c < |s.contents| ensures s.contents[c].frees == 1 {
        NoSlotNoTotal(s.slots, c);
      }
    }
  }
}

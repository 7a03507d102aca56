/** The distributor as an object over its array of pipes. */
module Dist {
  import opened Basics
  import opened PipeArray
  import opened DistArray
  import D = DistSpec

  class Distributor {
    const pipes: Pipes
    var matching: nat
    var active: nat
    var eligible: nat
    var more: bool

    ghost predicate Valid()
      reads this, pipes
    {
      pipes.Valid() && Sound(View())
    }

    /** The array with its counters. */
    ghost function View(): Regions
      reads this, pipes
    {
      Regions(pipes.items, matching, active, eligible, more)
    }

    ghost function Groups(): (g: D.Group)
      requires Valid()
      reads this, pipes
      ensures D.Ordered(g)
    {
      GroupOf(View())
    }

    constructor ()
      ensures Valid() && fresh(pipes) && View() == EMPTY && Groups() == D.EMPTY_GROUP
    {
      pipes := new Pipes();
      matching, active, eligible, more := 0, 0, 0, false;
    }

    lemma NoneMatching()
      requires Valid()
      ensures matching == 0 <==> Groups().matching == {}
    {
      assert matching > 0 ==> pipes.items[0] in First(pipes.items, matching);
    }

    lemma Known(p: Id)
      requires Valid() && p in Groups().all
      ensures p in pipes.items
    {
    }

    method Attach(p: Id)
      requires Valid() && p !in pipes.items
      modifies this, pipes
      ensures Valid() && View() == DistArray.Attach(old(View()), p)
      ensures Groups() == D.Attach(old(Groups()), p)
    {
      hide First, Swap, Distinct;
      AttachActs(View(), p);
      pipes.PushBack(p);
      var last := |pipes.items| - 1;
      if more {
        pipes.Exchange(eligible, last);
        eligible := eligible + 1;
      } else {
        pipes.Exchange(active, last);
        active := active + 1;
        eligible := eligible + 1;
      }
    }

    /** Mark a pipe. One that is eligible but not active is swapped all the same, which spoils the regions. */
    method Match(p: Id)
      requires Valid() && p in pipes.items
      modifies this, pipes
      ensures pipes.Valid() && View() == DistArray.Match(old(View()), p)
      ensures old(p !in Groups().eligible - Groups().active) ==> Valid() && Groups() == D.Match(old(Groups()), p)
    {
      hide First, Swap, Distinct, IndexOf;
      ghost var a := View();
      if p !in GroupOf(a).eligible - GroupOf(a).active {
        MatchActs(a, p);
      }
      var i := pipes.Index(p);
      IndexIs(pipes.items, p, i);
      if i < matching {
        return;
      }
      if i >= eligible {
        return;
      }
      pipes.Exchange(i, matching);
      matching := matching + 1;
    }

    method Unmatch()
      requires Valid()
      modifies this
      ensures Valid() && View() == DistArray.Unmatch(old(View())) && Groups() == D.Unmatch(old(Groups()))
    {
      matching := 0;
    }

    method Terminated(p: Id)
      requires Valid() && p in pipes.items
      modifies this, pipes
      ensures Valid() && View() == DistArray.Terminated(old(View()), p)
      ensures Groups().all == old(Groups()).all - {p}
      ensures Groups() == D.Detach(old(Groups()), p) <==> KeepsAll(old(View()), p)
    {
      hide First, Erased, IndexOf, Distinct;
      TerminatedActsIff(View(), p);
      var i := pipes.Index(p);
      IndexIs(pipes.items, p, i);
      if i < matching {
        matching := matching - 1;
      }
      if i < active {
        active := active - 1;
      }
      if i < eligible {
        eligible := eligible - 1;
      }
      pipes.Erase(p);
    }

    method Activated(p: Id)
      requires Valid() && p in pipes.items && p !in Groups().eligible
      modifies this, pipes
      ensures old(eligible < |pipes.items|) && Valid() && View() == DistArray.Activated(old(View()), p)
      ensures Groups() == D.Activated(old(Groups()), p)
    {
      hide First, Swap, IndexOf, Distinct;
      ActivatedActs(View(), p);
      var i := pipes.Index(p);
      IndexIs(pipes.items, p, i);
      SwapKeeps(pipes.items, i, eligible);
      pipes.Exchange(i, eligible);
      eligible := eligible + 1;
      if !more {
        pipes.Exchange(eligible - 1, active);
        active := active + 1;
      }
    }

    /** Write to one pipe; a pipe that refuses becomes passive. */
    method Write(i: nat, full: set<Id>) returns (ok: bool)
      requires Valid() && i < matching
      modifies this, pipes
      ensures Valid() && ok == (old(pipes.items[i]) !in full)
      ensures View() == if ok then old(View()) else Refused(old(View()), i)
    {
      hide First, Swap, Distinct;
      var p := pipes.items[i];
      ok := p !in full;
      if !ok {
        RefusedActs(View(), i);
        SwapKeeps(pipes.items, i, matching - 1);
        SwapPuts(pipes.items, i, matching - 1);
        pipes.Exchange(i, matching - 1);
        matching := matching - 1;
        var j := pipes.Index(p);
        IndexIs(pipes.items, p, j);
        IndexIs(pipes.items, p, matching);
        SwapKeeps(pipes.items, j, active - 1);
        pipes.Exchange(j, active - 1);
        active := active - 1;
        pipes.Exchange(active, eligible - 1);
        eligible := eligible - 1;
      }
    }

    /** The retry loop; `written` lists the pipes that took the part. */
    method Distribute(full: set<Id>) returns (written: seq<Id>)
      requires Valid()
      modifies this, pipes
      ensures Valid() && (View(), written) == DistArray.Distribute(old(View()), 0, full)
    {
      hide First, PushedOut, Distinct;
      ghost var goal := DistArray.Distribute(View(), 0, full);
      var i := 0;
      written := [];
      assert [] + goal.1 == goal.1;
      while i < matching
        invariant Valid() && i <= matching
        invariant var (b, rest) := DistArray.Distribute(View(), i, full); goal == (b, written + rest)
        decreases matching - i
      {
        ghost var rest := DistArray.Distribute(View(), i, full).1;
        RefusedActs(View(), i);
        var ok := Write(i, full);
        if ok {
          ghost var later := DistArray.Distribute(View(), i + 1, full).1;
          assert written + rest == written + [pipes.items[i]] + later;
          written := written + [pipes.items[i]];
          i := i + 1;
        }
      }
      assert written + [] == written;
    }

    method SendToMatching(last: bool, full: set<Id>) returns (written: seq<Id>)
      requires Valid()
      modifies this, pipes
      ensures Valid() && (View(), written) == DistArray.Send(old(View()), false, last, full)
      ensures Groups() == D.SendToMatching(old(Groups()), last, full)
      ensures Distinct(written) && First(written, |written|) == old(Groups()).matching - full
    {
      hide First, DistArray.Distribute, Distinct;
      SendActs(View(), false, last, full);
      written := Distribute(full);
      if last {
        active := eligible;
      }
      more := !last;
    }

    method SendToAll(last: bool, full: set<Id>) returns (written: seq<Id>)
      requires Valid()
      modifies this, pipes
      ensures Valid() && (View(), written) == DistArray.Send(old(View()), true, last, full)
      ensures Groups() == D.SendToAll(old(Groups()), last, full)
      ensures Distinct(written) && First(written, |written|) == old(Groups()).active - full
    {
      hide First, DistArray.Distribute, Distinct;
      SendActs(View(), true, last, full);
      matching := active;
      written := SendToMatching(last, full);
    }
  }
}

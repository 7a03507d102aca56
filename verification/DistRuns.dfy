/** What every run of a distributor keeps, pipes that terminate included. */
module DistRuns {
  import opened Basics
  import opened PipeArray
  import opened DistArray
  import D = DistSpec

  datatype Act =
    | AttachPipe(p: Id)
    | MatchPipe(p: Id)
    | UnmatchPipes
    | ActivatePipe(p: Id)
    | TerminatePipe(p: Id)
    | SendPart(toAll: bool, last: bool, full: set<Id>)

  /** `parts`: who took each part of the message being sent; `sent`: the same for whole messages. */
  datatype Run = Run(regions: Regions, parts: seq<set<Id>>, sent: seq<seq<set<Id>>>)

  const FRESH_RUN := Run(EMPTY, [], [])

  /** Pipes are attached once, named when attached, and activated when passive. */
  ghost predicate Enabled(r: Run, a: Act)
    requires Sound(r.regions)
  {
    match a
    case AttachPipe(p) => p !in r.regions.items
    case MatchPipe(p) => p in r.regions.items
    case UnmatchPipes => true
    case ActivatePipe(p) => p in r.regions.items && p !in GroupOf(r.regions).eligible && r.regions.eligible < |r.regions.items|
    case TerminatePipe(p) => p in r.regions.items
    case SendPart(_, _, _) => true
  }

  ghost function Step(r: Run, a: Act): Run
    requires Sound(r.regions) && Enabled(r, a)
  {
    match a
    case AttachPipe(p) => r.(regions := Attach(r.regions, p))
    case MatchPipe(p) => r.(regions := Match(r.regions, p))
    case UnmatchPipes => r.(regions := Unmatch(r.regions))
    case ActivatePipe(p) => r.(regions := Activated(r.regions, p))
    case TerminatePipe(p) => r.(regions := Terminated(r.regions, p))
    case SendPart(toAll, last, full) =>
      var (after, written) := Send(r.regions, toAll, last, full);
      var parts := r.parts + [First(written, |written|)];
      if last then Run(after, [], r.sent + [parts]) else Run(after, parts, r.sent)
  }

  /** Whoever took a part took every earlier part. */
  predicate Whole(parts: seq<set<Id>>) {
    forall i, j | 0 <= i < j < |parts| :: parts[j] <= parts[i]
  }

  /** The pipe has taken every part so far of the message being sent. */
  predicate Loyal(r: Run, p: Id) { forall i | 0 <= i < |r.parts| :: p in r.parts[i] }

  ghost predicate Good(r: Run) {
    && Sound(r.regions)
    && (r.regions.more <==> r.parts != [])
    && Whole(r.parts)
    && (forall p | p in GroupOf(r.regions).matching :: Loyal(r, p))
    && (forall m | m in r.sent :: m != [] && Whole(m))
  }

  lemma WholeOneMore(parts: seq<set<Id>>, takers: set<Id>)
    requires Whole(parts)
    ensures Whole(parts + [takers]) <==> (parts != [] ==> takers <= parts[|parts| - 1])
  {
    var all := parts + [takers];
    if parts != [] && Whole(all) {
      assert all[|parts|] <= all[|parts| - 1];
    }
  }

  /** Having taken the latest part is having taken all. */
  lemma LoyalIsLatest(r: Run, p: Id)
    requires Whole(r.parts) && r.parts != []
    ensures Loyal(r, p) <==> p in r.parts[|r.parts| - 1]
  {
  }

  // ------------------------------------------------------------ exact conditions

  /** Marking a pipe keeps counters and messages right, if and only if it is ignored, or has taken
      every part so far and an active pipe is left to mark. */
  lemma MatchIsGoodIff(r: Run, p: Id)
    requires Good(r) && p in r.regions.items
    ensures Good(Step(r, MatchPipe(p))) <==>
      p !in GroupOf(r.regions).eligible || (Loyal(r, p) && (p in GroupOf(r.regions).matching || r.regions.matching < r.regions.active))
  {
    var a, next := r.regions, Step(r, MatchPipe(p));
    PlaceOf(a, p);
    var i := IndexOf(a.items, p);
    if a.matching <= i < a.eligible {
      SwapKeeps(a.items, i, a.matching);
      SwapIn(a.items, i, a.matching);
      assert Sound(next.regions) <==> a.matching < a.active;
      assert Sound(next.regions) ==> GroupOf(next.regions).matching == GroupOf(a).matching + {p};
      assert forall q :: Loyal(next, q) <==> Loyal(r, q);
    } else if i < a.matching {
      assert p in GroupOf(a).matching;
    }
  }

  /** A part sent keeps messages right, if and only if all its takers took the part before. */
  predicate Continues(r: Run, takers: set<Id>) { r.parts != [] ==> takers <= r.parts[|r.parts| - 1] }

  lemma SendIsGoodIff(r: Run, toAll: bool, last: bool, full: set<Id>)
    requires Good(r)
    ensures Good(Step(r, SendPart(toAll, last, full))) <==> Continues(r, D.Takers(GroupOf(r.regions), toAll, full))
  {
    hide First, Send;
    SendActs(r.regions, toAll, last, full);
    var g, next := GroupOf(r.regions), Step(r, SendPart(toAll, last, full));
    var takers := D.Takers(g, toAll, full);
    var parts := r.parts + [takers];
    WholeOneMore(r.parts, takers);
    assert last ==> next.sent == r.sent + [parts] && parts in next.sent;
    assert GroupOf(next.regions).matching == takers;
    if Continues(r, takers) && r.parts != [] {
      forall p | p in takers ensures Loyal(r, p) {
        LoyalIsLatest(r, p);
      }
    }
  }

  /** Sending to matching pipes always does. */
  lemma MatchingContinues(r: Run, full: set<Id>)
    requires Good(r)
    ensures Continues(r, D.Takers(GroupOf(r.regions), false, full))
  {
    if r.parts != [] {
      forall p | p in GroupOf(r.regions).matching ensures p in r.parts[|r.parts| - 1] {
        assert Loyal(r, p);
      }
    }
  }

  /** Continuing for all pipes keeps a message whole whoever refuses, if and only if all active pipes took the latest part. */
  lemma ContinuingForAllIff(r: Run)
    requires Good(r) && r.parts != []
    ensures (forall full: set<Id> :: Whole(r.parts + [D.Takers(GroupOf(r.regions), true, full)]))
            <==> GroupOf(r.regions).active <= r.parts[|r.parts| - 1]
  {
    var none: set<Id> := {};
    assert D.Takers(GroupOf(r.regions), true, none) == GroupOf(r.regions).active;
    forall full: set<Id> {
      WholeOneMore(r.parts, D.Takers(GroupOf(r.regions), true, full));
    }
  }

  /** The pipe that takes the free place when another one goes. */
  function Mover(r: Run): Id
    requires r.regions.items != []
  {
    r.regions.items[|r.regions.items| - 1]
  }

  /** The boundary at `k` is kept when the pipe goes. */
  predicate BoundaryKept(r: Run, p: Id, k: nat)
    requires p in r.regions.items
  {
    Keeps(IndexOf(r.regions.items, p), k, |r.regions.items|)
  }

  /** What the three regions hold after a termination. */
  lemma AfterTermination(r: Run, p: Id)
    requires Sound(r.regions) && p in r.regions.items
    ensures var a, b := r.regions, Terminated(r.regions, p);
      && Sound(b) && Mover(r) !in GroupOf(b).all - GroupOf(a).all
      && GroupOf(b).matching == After(a, p, a.matching)
      && GroupOf(b).active == After(a, p, a.active)
      && GroupOf(b).eligible == After(a, p, a.eligible)
  {
    hide First, Erased, Distinct, IndexOf;
    var i := IndexOf(r.regions.items, p);
    TerminatedActsIff(r.regions, p);
    RegionAfter(r.regions.items, i, r.regions.matching);
    RegionAfter(r.regions.items, i, r.regions.active);
    RegionAfter(r.regions.items, i, r.regions.eligible);
  }

  ghost function After(a: Regions, p: Id, k: nat): set<Id>
    requires p in a.items && k <= |a.items|
  {
    if Keeps(IndexOf(a.items, p), k, |a.items|) then First(a.items, k) - {p}
    else First(a.items, k) - {p, a.items[k - 1]} + {a.items[|a.items| - 1]}
  }

  /** A pipe that goes away keeps messages right, if and only if no message is being sent, or the boundary
      of the matching pipes is kept, or the pipe that takes the free place has taken every part so far. */
  lemma TerminationIsGoodIff(r: Run, p: Id)
    requires Good(r) && p in r.regions.items
    ensures Good(Step(r, TerminatePipe(p))) <==>
      r.parts == [] || BoundaryKept(r, p, r.regions.matching) || Loyal(r, Mover(r))
  {
    hide First;
    AfterTermination(r, p);
    var next := Step(r, TerminatePipe(p));
    assert forall q :: Loyal(next, q) <==> Loyal(r, q);
    if !BoundaryKept(r, p, r.regions.matching) {
      assert Mover(r) in GroupOf(next.regions).matching;
    }
  }

  /** After a termination in mid-message, the next part to matching pipes keeps the message whole
      whoever refuses, if and only if the boundary is kept or the mover has taken every part. */
  lemma TerminationTearsMatchingIff(r: Run, p: Id)
    requires Good(r) && r.parts != [] && p in r.regions.items && Sound(Terminated(r.regions, p))
    ensures (forall full: set<Id> :: Whole(r.parts + [D.Takers(GroupOf(Terminated(r.regions, p)), false, full)]))
            <==> BoundaryKept(r, p, r.regions.matching) || Loyal(r, Mover(r))
  {
    hide First;
    AfterTermination(r, p);
    var g, latest := GroupOf(Terminated(r.regions, p)), r.parts[|r.parts| - 1];
    MatchingContinues(r, {});
    assert D.Takers(GroupOf(r.regions), false, {}) == GroupOf(r.regions).matching;
    LoyalIsLatest(r, Mover(r));
    WholeWhoeverRefuses(r.parts, g, false);
  }

  /** The same at the boundary of the active pipes, for a part to all pipes. */
  lemma TerminationTearsAllIff(r: Run, p: Id)
    requires Good(r) && r.parts != [] && p in r.regions.items && Sound(Terminated(r.regions, p))
    requires forall q | q in GroupOf(r.regions).active :: Loyal(r, q)
    ensures (forall full: set<Id> :: Whole(r.parts + [D.Takers(GroupOf(Terminated(r.regions, p)), true, full)]))
            <==> BoundaryKept(r, p, r.regions.active) || Loyal(r, Mover(r))
  {
    hide First;
    AfterTermination(r, p);
    var g, latest := GroupOf(Terminated(r.regions, p)), r.parts[|r.parts| - 1];
    assert GroupOf(r.regions).active <= latest;
    LoyalIsLatest(r, Mover(r));
    WholeWhoeverRefuses(r.parts, g, true);
  }

  lemma WholeWhoeverRefuses(parts: seq<set<Id>>, g: D.Group, toAll: bool)
    requires Whole(parts) && parts != []
    ensures (forall full: set<Id> :: Whole(parts + [D.Takers(g, toAll, full)]))
            <==> (if toAll then g.active else g.matching) <= parts[|parts| - 1]
  {
    var none: set<Id> := {};
    assert D.Takers(g, toAll, none) == if toAll then g.active else g.matching;
    forall full: set<Id> {
      WholeOneMore(parts, D.Takers(g, toAll, full));
    }
  }

  /** A termination readmits no passive pipe, and loses no other eligible one, if and only if the
      boundary of the eligible pipes is kept; otherwise it readmits exactly the mover. */
  lemma TerminationReadmitsIff(r: Run, p: Id)
    requires Sound(r.regions) && p in r.regions.items && Sound(Terminated(r.regions, p))
    ensures var before, after := GroupOf(r.regions).eligible, GroupOf(Terminated(r.regions, p)).eligible;
      && (after <= before <==> BoundaryKept(r, p, r.regions.eligible))
      && (before - {p} <= after <==> BoundaryKept(r, p, r.regions.eligible))
      && (!BoundaryKept(r, p, r.regions.eligible) ==> after - before == {Mover(r)})
  {
    hide First;
    AfterTermination(r, p);
    var a, k := r.regions, r.regions.eligible;
    if !BoundaryKept(r, p, k) {
      FirstHas(a.items, k, k - 1);
      FirstHas(a.items, k, |a.items| - 1);
      var before, after := GroupOf(a).eligible, GroupOf(Terminated(a, p)).eligible;
      assert a.items[k - 1] in before - {p} && a.items[k - 1] !in after;
    }
  }

  // ------------------------------------------------------------ runs

  /** The exact condition under which a step keeps counters and messages right. */
  ghost predicate Allowed(r: Run, a: Act)
    requires Sound(r.regions) && Enabled(r, a)
  {
    match a
    case MatchPipe(p) =>
      var g := GroupOf(r.regions);
      p !in g.eligible || (Loyal(r, p) && (p in g.matching || r.regions.matching < r.regions.active))
    case TerminatePipe(p) => r.parts == [] || BoundaryKept(r, p, r.regions.matching) || Loyal(r, Mover(r))
    case SendPart(toAll, _, full) => Continues(r, D.Takers(GroupOf(r.regions), toAll, full))
    case _ => true
  }

  lemma StepIsGoodIff(r: Run, a: Act)
    requires Good(r) && Enabled(r, a)
    ensures Good(Step(r, a)) <==> Allowed(r, a)
  {
    match a {
      case AttachPipe(p) => QuietStep(r, a);
      case MatchPipe(p) => MatchIsGoodIff(r, p);
      case UnmatchPipes => QuietStep(r, a);
      case ActivatePipe(p) => QuietStep(r, a);
      case TerminatePipe(p) => TerminationIsGoodIff(r, p);
      case SendPart(toAll, last, full) => SendIsGoodIff(r, toAll, last, full);
    }
  }

  lemma QuietStep(r: Run, a: Act)
    requires Good(r) && Enabled(r, a) && (a.AttachPipe? || a.UnmatchPipes? || a.ActivatePipe?)
    ensures Good(Step(r, a))
  {
    hide First;
    match a {
      case AttachPipe(p) => AttachActs(r.regions, p);
      case UnmatchPipes => UnmatchActs(r.regions);
      case ActivatePipe(p) => ActivatedActs(r.regions, p);
    }
    var next := Step(r, a);
    assert forall q :: Loyal(next, q) <==> Loyal(r, q);
  }

  lemma UnmatchActs(a: Regions)
    requires Sound(a)
    ensures Sound(Unmatch(a)) && GroupOf(Unmatch(a)) == D.Unmatch(GroupOf(a))
  {
  }

  ghost predicate AllAllowed(r: Run, acts: seq<Act>)
    requires Good(r)
    decreases |acts|
  {
    acts == [] ||
    (Enabled(r, acts[0]) && Allowed(r, acts[0]) && (StepIsGoodIff(r, acts[0]); AllAllowed(Step(r, acts[0]), acts[1..])))
  }

  ghost function Exec(r: Run, acts: seq<Act>): (e: Run)
    requires Good(r) && AllAllowed(r, acts)
    decreases |acts|
  {
    if acts == [] then r else StepIsGoodIff(r, acts[0]); Exec(Step(r, acts[0]), acts[1..])
  }

  /**
   * In every run of steps each within its exact condition, terminations included, the counters stay in
   * order and a pipe takes a part of a message only if it took all the earlier parts of it.
   */
  lemma {:induction false} EveryRunIsWhole(r: Run, acts: seq<Act>)
    requires Good(r) && AllAllowed(r, acts)
    ensures Good(Exec(r, acts))
    decreases |acts|
  {
    if acts != [] {
      StepIsGoodIff(r, acts[0]);
      EveryRunIsWhole(Step(r, acts[0]), acts[1..]);
    }
  }

  // ------------------------------------------------------------ what the sockets do

  /** Where a socket of this habit picks the takers of its parts: the matching pipes, or all. */
  function Boundary(r: Run, toAll: bool): nat { if toAll then r.regions.active else r.regions.matching }

  /** The socket sends one way only and matches between messages; a pipe goes away between messages,
      or its boundary is kept, or the mover has taken every part. */
  ghost predicate Habit(r: Run, a: Act, toAll: bool)
    requires Sound(r.regions) && Enabled(r, a)
  {
    match a
    case MatchPipe(p) => !toAll && r.parts == []
    case TerminatePipe(p) => r.parts == [] || BoundaryKept(r, p, Boundary(r, toAll)) || Loyal(r, Mover(r))
    case SendPart(all, _, _) => all == toAll
    case _ => true
  }

  /** The pipes the next part may go to have taken every part so far. */
  ghost predicate Faithful(r: Run, toAll: bool)
    requires Sound(r.regions)
  {
    forall p | p in (if toAll then GroupOf(r.regions).active else GroupOf(r.regions).matching) :: Loyal(r, p)
  }

  lemma HabitIsAllowed(r: Run, a: Act, toAll: bool)
    requires Good(r) && Enabled(r, a) && Faithful(r, toAll) && Habit(r, a, toAll)
    ensures Allowed(r, a)
  {
    hide First;
    match a {
      case MatchPipe(p) => PlaceOf(r.regions, p);
      case TerminatePipe(p) =>
        AfterTermination(r, p);
        TerminationIsGoodIff(r, p);
        var next := Step(r, a);
        assert forall q :: Loyal(next, q) <==> Loyal(r, q);
        assert toAll ==> GroupOf(next.regions).matching <= GroupOf(next.regions).active;
      case SendPart(_, _, full) =>
        if r.parts != [] {
          forall q | q in D.Takers(GroupOf(r.regions), toAll, full) ensures q in r.parts[|r.parts| - 1] {
            LoyalIsLatest(r, q);
          }
        }
      case _ =>
    }
  }

  lemma HabitStaysFaithful(r: Run, a: Act)
    requires Good(r) && Enabled(r, a) && Faithful(r, true) && Habit(r, a, true) && Good(Step(r, a))
    ensures Faithful(Step(r, a), true)
  {
    hide First, Send;
    var next := Step(r, a);
    match a {
      case AttachPipe(p) => AttachActs(r.regions, p);
      case UnmatchPipes => UnmatchActs(r.regions);
      case ActivatePipe(p) => ActivatedActs(r.regions, p);
      case TerminatePipe(p) => AfterTermination(r, p);
      case SendPart(_, last, full) => SendActs(r.regions, true, last, full);
    }
    assert !a.SendPart? ==> forall q :: Loyal(next, q) <==> Loyal(r, q);
  }

  ghost predicate AllHabit(r: Run, acts: seq<Act>, toAll: bool)
    requires Good(r)
    decreases |acts|
  {
    acts == [] ||
    (Enabled(r, acts[0]) && Habit(r, acts[0], toAll) && (
       StepIsGoodIff(r, acts[0]);
       Good(Step(r, acts[0])) ==> AllHabit(Step(r, acts[0]), acts[1..], toAll)))
  }

  /** A socket with one way of sending tears no message, as long as the pipes that go away in mid-message
      are harmless in the sense above. */
  lemma {:induction false} OneWayOfSendingIsWhole(r: Run, acts: seq<Act>, toAll: bool)
    requires Good(r) && AllHabit(r, acts, toAll) && Faithful(r, toAll)
    ensures AllAllowed(r, acts) && Good(Exec(r, acts))
    decreases |acts|
  {
    if acts != [] {
      var next := Step(r, acts[0]);
      HabitIsAllowed(r, acts[0], toAll);
      StepIsGoodIff(r, acts[0]);
      if toAll {
        HabitStaysFaithful(r, acts[0]);
      }
      OneWayOfSendingIsWhole(next, acts[1..], toAll);
    }
  }

  // ------------------------------------------------------------ the right pipes

  /** What the groups of pipes should be after a step. */
  function Ideal(g: D.Group, a: Act): D.Group {
    match a
    case AttachPipe(p) => D.Attach(g, p)
    case MatchPipe(p) => D.Match(g, p)
    case UnmatchPipes => D.Unmatch(g)
    case ActivatePipe(p) => D.Activated(g, p)
    case TerminatePipe(p) => D.Detach(g, p)
    case SendPart(toAll, last, full) => if toAll then D.SendToAll(g, last, full) else D.SendToMatching(g, last, full)
  }

  function IdealExec(g: D.Group, acts: seq<Act>): D.Group
    decreases |acts|
  {
    if acts == [] then g else IdealExec(Ideal(g, acts[0]), acts[1..])
  }

  /** No pipe is matched that is eligible and not active, and a pipe that goes away has all boundaries kept. */
  ghost predicate Exact(r: Run, a: Act)
    requires Sound(r.regions) && Enabled(r, a)
  {
    match a
    case MatchPipe(p) => p !in GroupOf(r.regions).eligible - GroupOf(r.regions).active
    case TerminatePipe(p) => KeepsAll(r.regions, p)
    case _ => true
  }

  lemma ExactStep(r: Run, a: Act)
    requires Sound(r.regions) && Enabled(r, a) && Exact(r, a)
    ensures Sound(Step(r, a).regions) && GroupOf(Step(r, a).regions) == Ideal(GroupOf(r.regions), a)
  {
    hide First, Send, Attach, Activated, Match, Terminated;
    match a {
      case AttachPipe(p) => AttachActs(r.regions, p);
      case MatchPipe(p) => MatchActs(r.regions, p);
      case UnmatchPipes => UnmatchActs(r.regions);
      case ActivatePipe(p) => ActivatedActs(r.regions, p);
      case TerminatePipe(p) => TerminatedActsIff(r.regions, p);
      case SendPart(toAll, last, full) => SendActs(r.regions, toAll, last, full);
    }
  }

  ghost predicate AllExact(r: Run, acts: seq<Act>)
    requires Good(r) && AllAllowed(r, acts)
    decreases |acts|
  {
    acts == [] || (Exact(r, acts[0]) && (StepIsGoodIff(r, acts[0]); AllExact(Step(r, acts[0]), acts[1..])))
  }

  /** In every such run each region holds exactly the pipes it should. */
  lemma {:induction false} EveryRegionHoldsTheRightPipes(r: Run, acts: seq<Act>)
    requires Good(r) && AllAllowed(r, acts) && AllExact(r, acts)
    ensures Sound(Exec(r, acts).regions) && GroupOf(Exec(r, acts).regions) == IdealExec(GroupOf(r.regions), acts)
    decreases |acts|
  {
    hide Step, Ideal;
    if acts != [] {
      StepIsGoodIff(r, acts[0]);
      ExactStep(r, acts[0]);
      EveryRegionHoldsTheRightPipes(Step(r, acts[0]), acts[1..]);
    }
  }

  // ------------------------------------------------------------ pipes that refused

  /** The pipe is attached and not eligible. */
  ghost predicate Passive(r: Run, p: Id)
    requires Sound(r.regions)
  {
    p in r.regions.items && p !in GroupOf(r.regions).eligible
  }

  /** A step that makes a passive pipe eligible: its activation, or the termination of another pipe that moves it. */
  ghost predicate Readmits(r: Run, a: Act, p: Id)
    requires Sound(r.regions) && Enabled(r, a)
  {
    match a
    case ActivatePipe(q) => q == p
    case TerminatePipe(q) => q != p && !BoundaryKept(r, q, r.regions.eligible) && Mover(r) == p
    case _ => false
  }

  lemma PassiveStays(r: Run, a: Act, p: Id)
    requires Good(r) && Enabled(r, a) && Allowed(r, a) && Passive(r, p) && a != TerminatePipe(p)
    ensures Sound(Step(r, a).regions) && (Passive(Step(r, a), p) <==> !Readmits(r, a, p))
  {
    hide First, Send, Attach, Activated, Terminated, IndexOf;
    StepIsGoodIff(r, a);
    AllIsItems(r.regions, p);
    var next := Step(r, a);
    AllIsItems(next.regions, p);
    match a {
      case AttachPipe(q) => AttachActs(r.regions, q);
      case MatchPipe(q) => MatchKeepsEligible(r.regions, q);
      case UnmatchPipes => UnmatchActs(r.regions);
      case ActivatePipe(q) => ActivatedActs(r.regions, q);
      case TerminatePipe(q) =>
        TerminatedActsIff(r.regions, q);
        TerminationReadmitsIff(r, q);
        var before, after := GroupOf(r.regions).eligible, GroupOf(next.regions).eligible;
        assert p in after <==> p in after - before;
      case SendPart(toAll, last, full) => SendActs(r.regions, toAll, last, full);
    }
  }

  lemma AllIsItems(a: Regions, p: Id)
    requires Sound(a)
    ensures p in a.items <==> p in GroupOf(a).all
  {
  }

  lemma MatchKeepsEligible(a: Regions, p: Id)
    requires Sound(a) && p in a.items && Sound(Match(a, p))
    ensures GroupOf(Match(a, p)).eligible == GroupOf(a).eligible && GroupOf(Match(a, p)).all == GroupOf(a).all
  {
    var i := IndexOf(a.items, p);
    if a.matching <= i < a.eligible {
      SwapOneSide(a.items, i, a.matching, a.eligible);
      SwapKeeps(a.items, i, a.matching);
    }
  }

  /** What has been sent stays, and what was being sent is continued. */
  lemma {:induction false} HistoryStays(r: Run, acts: seq<Act>)
    requires Good(r) && AllAllowed(r, acts)
    ensures var e := Exec(r, acts);
      && r.sent <= e.sent
      && (if |e.sent| == |r.sent| then r.parts <= e.parts else r.parts <= e.sent[|r.sent|])
    decreases |acts|
  {
    hide First, Send;
    if acts != [] {
      StepIsGoodIff(r, acts[0]);
      HistoryStays(Step(r, acts[0]), acts[1..]);
    }
  }

  /** Of all that happened between `r` and `e`, in messages sent and in the one being sent, the pipe took nothing. */
  predicate TookNothing(r: Run, e: Run, p: Id)
    requires |r.sent| <= |e.sent|
  {
    && (forall m, i | |r.sent| <= m < |e.sent| && 0 <= i < |e.sent[m]| && (m == |r.sent| ==> i >= |r.parts|) ::
          p !in e.sent[m][i])
    && (forall i | 0 <= i < |e.parts| && (|e.sent| == |r.sent| ==> i >= |r.parts|) :: p !in e.parts[i])
  }

  lemma TookNothingStep(r: Run, next: Run, e: Run, p: Id, takers: set<Id>)
    requires |r.sent| <= |next.sent| <= |e.sent| && TookNothing(next, e, p) && p !in takers && next.sent <= e.sent
    requires |e.sent| == |next.sent| ==> next.parts <= e.parts
    requires |e.sent| > |next.sent| ==> next.parts <= e.sent[|next.sent|]
    requires || (next.sent == r.sent && (next.parts == r.parts || next.parts == r.parts + [takers]))
             || (next.sent == r.sent + [r.parts + [takers]] && next.parts == [])
    ensures TookNothing(r, e, p)
  {
    if next.sent != r.sent {
      assert e.sent[|r.sent|] == r.parts + [takers];
    }
  }

  /** No step readmits the pipe, and it does not go away. */
  ghost predicate NeverReadmitted(r: Run, acts: seq<Act>, p: Id)
    requires Good(r) && AllAllowed(r, acts)
    decreases |acts|
  {
    acts == [] ||
    (acts[0] != TerminatePipe(p) && !Readmits(r, acts[0], p) && (
       StepIsGoodIff(r, acts[0]);
       NeverReadmitted(Step(r, acts[0]), acts[1..], p)))
  }

  /** A passive pipe stays so and takes no part of anything, until a step readmits it. */
  lemma {:induction false} RefusersWait(r: Run, acts: seq<Act>, p: Id)
    requires Good(r) && AllAllowed(r, acts) && Passive(r, p) && NeverReadmitted(r, acts, p)
    ensures var e := Exec(r, acts);
      Good(e) && Passive(e, p) && |r.sent| <= |e.sent| && TookNothing(r, e, p)
    decreases |acts|
  {
    hide Step, TookNothing;
    if acts != [] {
      var a, next := acts[0], Step(r, acts[0]);
      StepIsGoodIff(r, a);
      PassiveStays(r, a, p);
      RefusersWait(next, acts[1..], p);
      HistoryStays(next, acts[1..]);
      var takers := StepTakes(r, a, p);
      TookNothingStep(r, next, Exec(next, acts[1..]), p, takers);
    } else {
      NothingTaken(r, p);
    }
  }

  lemma NothingTaken(r: Run, p: Id)
    ensures TookNothing(r, r, p)
  {
  }

  lemma StepTakes(r: Run, a: Act, p: Id) returns (takers: set<Id>)
    requires Good(r) && Enabled(r, a) && Passive(r, p)
    ensures var next := Step(r, a);
      && p !in takers
      && (|| (next.sent == r.sent && (next.parts == r.parts || next.parts == r.parts + [takers]))
          || (next.sent == r.sent + [r.parts + [takers]] && next.parts == []))
  {
    hide First, Send;
    takers := {};
    if a.SendPart? {
      SendActs(r.regions, a.toAll, a.last, a.full);
      takers := D.Takers(GroupOf(r.regions), a.toAll, a.full);
    }
  }

  // ------------------------------------------------------------ pipes that are served

  ghost predicate Eligible(r: Run, p: Id)
    requires Sound(r.regions)
  {
    p in GroupOf(r.regions).eligible
  }

  /** A step that takes an eligible pipe out of the eligible ones: it refuses a part, or goes away, or the
      termination of another pipe pushes it out. */
  ghost predicate Loses(r: Run, a: Act, p: Id)
    requires Sound(r.regions) && Enabled(r, a)
  {
    match a
    case SendPart(toAll, _, full) => p in full && p in (if toAll then GroupOf(r.regions).active else GroupOf(r.regions).matching)
    case TerminatePipe(q) =>
      q == p || (!BoundaryKept(r, q, r.regions.eligible) && p == r.regions.items[r.regions.eligible - 1])
    case _ => false
  }

  lemma EligibleStays(r: Run, a: Act, p: Id)
    requires Good(r) && Enabled(r, a) && Allowed(r, a) && Eligible(r, p)
    ensures Sound(Step(r, a).regions) && (Eligible(Step(r, a), p) <==> !Loses(r, a, p))
  {
    hide First, Send, Attach, Activated, Terminated, IndexOf;
    StepIsGoodIff(r, a);
    match a {
      case AttachPipe(q) => AttachActs(r.regions, q);
      case MatchPipe(q) => MatchKeepsEligible(r.regions, q);
      case UnmatchPipes => UnmatchActs(r.regions);
      case ActivatePipe(q) => ActivatedActs(r.regions, q);
      case TerminatePipe(q) =>
        AfterTermination(r, q);
        MoverIsBehind(r, q);
      case SendPart(toAll, last, full) => SendActs(r.regions, toAll, last, full);
    }
  }

  /** With the boundary of the eligible pipes not kept, the pipe moved is not one of them. */
  lemma MoverIsBehind(r: Run, q: Id)
    requires Sound(r.regions) && q in r.regions.items
    ensures !BoundaryKept(r, q, r.regions.eligible) ==> Mover(r) !in GroupOf(r.regions).eligible
  {
    FirstHas(r.regions.items, r.regions.eligible, |r.regions.items| - 1);
  }

  /** Being attached or activated makes a pipe eligible, at any time. */
  lemma BecomesEligible(r: Run, a: Act, p: Id)
    requires Good(r) && Enabled(r, a) && (a == AttachPipe(p) || a == ActivatePipe(p))
    ensures Good(Step(r, a)) && Eligible(Step(r, a), p)
  {
    hide First, Attach, Activated;
    QuietStep(r, a);
    if a.AttachPipe? { AttachActs(r.regions, p); } else { ActivatedActs(r.regions, p); }
  }

  /** Who took the part sent last. */
  function LatestTakers(r: Run): set<Id> {
    if r.parts != [] then r.parts[|r.parts| - 1]
    else if r.sent != [] && r.sent[|r.sent| - 1] != [] then r.sent[|r.sent| - 1][|r.sent[|r.sent| - 1]| - 1]
    else {}
  }

  /** Between messages the first part sent to all is taken by exactly the eligible pipes with room, and one
      sent to matching pipes by exactly those of them that were matched. */
  lemma FirstPartGoesToTheEligible(r: Run, last: bool, full: set<Id>)
    requires Good(r) && r.parts == []
    ensures LatestTakers(Step(r, SendPart(true, last, full))) == GroupOf(r.regions).eligible - full
    ensures LatestTakers(Step(r, SendPart(false, last, full))) == GroupOf(r.regions).matching - full
  {
    hide First, Send;
    SendActs(r.regions, true, last, full);
    SendActs(r.regions, false, last, full);
    assert GroupOf(r.regions).active == GroupOf(r.regions).eligible;
  }

  /** Marking an eligible pipe between messages makes it one of the matching ones. */
  lemma MarkedIsMatching(r: Run, p: Id)
    requires Good(r) && r.parts == [] && p in r.regions.items
    ensures Good(Step(r, MatchPipe(p)))
    ensures p in GroupOf(Step(r, MatchPipe(p)).regions).matching <==> Eligible(r, p)
  {
    hide First, Match;
    assert GroupOf(r.regions).active == GroupOf(r.regions).eligible;
    MatchActs(r.regions, p);
    StepIsGoodIff(r, MatchPipe(p));
    PlaceOf(r.regions, p);
    BelowActive(r, p);
  }

  lemma BelowActive(r: Run, p: Id)
    requires Good(r) && r.parts == [] && p in r.regions.items
    ensures Allowed(r, MatchPipe(p))
  {
    PlaceOf(r.regions, p);
  }

  /** No step takes the pipe out of the eligible ones. */
  ghost predicate NeverLost(r: Run, acts: seq<Act>, p: Id)
    requires Good(r) && AllAllowed(r, acts)
    decreases |acts|
  {
    acts == [] || (!Loses(r, acts[0], p) && (StepIsGoodIff(r, acts[0]); NeverLost(Step(r, acts[0]), acts[1..], p)))
  }

  lemma {:induction false} StaysEligible(r: Run, acts: seq<Act>, p: Id)
    requires Good(r) && AllAllowed(r, acts) && Eligible(r, p) && NeverLost(r, acts, p)
    ensures Good(Exec(r, acts)) && Eligible(Exec(r, acts), p)
    decreases |acts|
  {
    hide Step, Loses, Eligible;
    if acts != [] {
      StepIsGoodIff(r, acts[0]);
      EligibleStays(r, acts[0], p);
      StaysEligible(Step(r, acts[0]), acts[1..], p);
    }
  }

  /**
   * A pipe that was attached, or had refused and was activated again, in mid-message or not, takes the
   * next message sent to all for which it has room, however many calls come before.
   */
  lemma {:induction false} ReadmittedPipeIsServed(r: Run, a: Act, acts: seq<Act>, p: Id, last: bool, full: set<Id>)
    requires Good(r) && Enabled(r, a) && (a == AttachPipe(p) || a == ActivatePipe(p)) && Good(Step(r, a))
    requires AllAllowed(Step(r, a), acts) && NeverLost(Step(r, a), acts, p)
    ensures var e := Exec(Step(r, a), acts);
      Good(e) && (e.parts == [] ==> (p in LatestTakers(Step(e, SendPart(true, last, full))) <==> p !in full))
  {
    hide Step, NeverLost, AllAllowed, Loses, LatestTakers;
    BecomesEligible(r, a, p);
    StaysEligible(Step(r, a), acts, p);
    var e := Exec(Step(r, a), acts);
    if e.parts == [] { FirstPartGoesToTheEligible(e, last, full); }
  }

  // ------------------------------------------------------------ runs that go wrong

  /** Three pipes, all active, `matching` of them matched, in mid-message or not. */
  function Three(matching: nat, more: bool): Regions { Regions([1, 2, 3], matching, 3, 3, more) }

  lemma AttachLast(a: Regions, p: Id)
    requires Sound(a) && a.eligible == a.active == |a.items| && p !in a.items && !a.more
    ensures Attach(a, p) == a.(items := a.items + [p], active := a.active + 1, eligible := a.eligible + 1)
  {
    SwapTrivia(a.items + [p], a.active, |a.items|);
  }

  /** A step of a run, and the rest of it. */
  lemma {:induction false} OneStep(r: Run, a: Act, rest: seq<Act>)
    requires Good(r) && Enabled(r, a) && Allowed(r, a) && Good(Step(r, a)) && AllAllowed(Step(r, a), rest)
    ensures AllAllowed(r, [a] + rest) && Exec(r, [a] + rest) == Exec(Step(r, a), rest)
  {
    assert ([a] + rest)[1..] == rest;
  }

  /** Three pipes are attached. */
  lemma {:induction false} AttachThree(rest: seq<Act>)
    requires Good(Run(Three(0, false), [], [])) && AllAllowed(Run(Three(0, false), [], []), rest)
    ensures var acts := [AttachPipe(1)] + ([AttachPipe(2)] + ([AttachPipe(3)] + rest));
      Good(FRESH_RUN) && AllAllowed(FRESH_RUN, acts) && Exec(FRESH_RUN, acts) == Exec(Run(Three(0, false), [], []), rest)
  {
    hide AllAllowed, Exec;
    var r1, r2 := Run(Regions([1], 0, 1, 1, false), [], []), Run(Regions([1, 2], 0, 2, 2, false), [], []);
    AttachLast(EMPTY, 1);
    assert [] + [1] == [1] && [1] + [2] == [1, 2] && [1, 2] + [3] == [1, 2, 3];
    AttachLast(r1.regions, 2);
    AttachLast(r2.regions, 3);
    OneStep(r2, AttachPipe(3), rest);
    OneStep(r1, AttachPipe(2), [AttachPipe(3)] + rest);
    OneStep(FRESH_RUN, AttachPipe(1), [AttachPipe(2)] + ([AttachPipe(3)] + rest));
  }

  lemma MatchNext(a: Regions)
    requires Sound(a) && a.matching < a.active
    ensures Match(a, a.items[a.matching]) == a.(matching := a.matching + 1)
  {
    IndexIs(a.items, a.items[a.matching], a.matching);
    SwapTrivia(a.items, a.matching, a.matching);
  }

  /** The first two pipes have got the first part of a message. */
  function Begun(): Run { Run(Three(2, true), [{1, 2}], []) }

  lemma FirstTwo(items: seq<Id>)
    requires |items| >= 2
    ensures First(items, 2) == {items[0], items[1]}
  {
  }

  lemma SendBegins()
    ensures Good(Run(Three(2, false), [], []))
    ensures Step(Run(Three(2, false), [], []), SendPart(false, false, {})) == Begun() && Good(Begun())
  {
    var a, b := Three(2, false), Three(2, true);
    FirstTwo([1, 2, 3]);
    FirstTwo([1, 2]);
    assert Distribute(a, 2, {}) == (a, []);
    assert Distribute(a, 1, {}) == (a, [2] + []);
    assert Distribute(a, 0, {}) == (a, [1] + ([2] + []));
    assert [1] + ([2] + []) == [1, 2];
  }

  /** A run from the start that leads there. */
  lemma {:induction false} BegunHappens(rest: seq<Act>)
    requires Good(Begun()) && AllAllowed(Begun(), rest)
    ensures var send := [MatchPipe(1)] + ([MatchPipe(2)] + ([SendPart(false, false, {})] + rest));
      var acts := [AttachPipe(1)] + ([AttachPipe(2)] + ([AttachPipe(3)] + send));
      Good(FRESH_RUN) && AllAllowed(FRESH_RUN, acts) && Exec(FRESH_RUN, acts) == Exec(Begun(), rest)
  {
    hide AllAllowed, Exec;
    var r0, r1, r2 := Run(Three(0, false), [], []), Run(Three(1, false), [], []), Run(Three(2, false), [], []);
    SendBegins();
    MatchNext(r0.regions);
    MatchNext(r1.regions);
    StepIsGoodIff(r2, SendPart(false, false, {}));
    OneStep(r2, SendPart(false, false, {}), rest);
    StepIsGoodIff(r1, MatchPipe(2));
    OneStep(r1, MatchPipe(2), [SendPart(false, false, {})] + rest);
    StepIsGoodIff(r0, MatchPipe(1));
    OneStep(r0, MatchPipe(1), [MatchPipe(2)] + ([SendPart(false, false, {})] + rest));
    AttachThree([MatchPipe(1)] + ([MatchPipe(2)] + ([SendPart(false, false, {})] + rest)));
  }

  /** The run that leads to `Begun`. */
  function Beginning(): seq<Act> {
    [AttachPipe(1)] + ([AttachPipe(2)] + ([AttachPipe(3)] + ([MatchPipe(1)] + ([MatchPipe(2)] + ([SendPart(false, false, {})] + [])))))
  }

  lemma BeginningHappens()
    ensures Good(FRESH_RUN) && AllAllowed(FRESH_RUN, Beginning()) && Exec(FRESH_RUN, Beginning()) == Begun() && Good(Begun())
  {
    SendBegins();
    BegunHappens([]);
  }

  /** A part nobody refuses. */
  lemma SendToFirst(a: Regions, toAll: bool)
    requires Sound(a)
    ensures Send(a, toAll, true, {}).1 == a.items[..if toAll then a.active else a.matching]
  {
    hide Distinct;
    var from := if toAll then a.(matching := a.active) else a;
    DistributeToAll(from, 0);
    assert from.items[0..from.matching] == from.items[..from.matching];
  }

  lemma {:induction false} DistributeToAll(a: Regions, i: nat)
    requires Sound(a) && i <= a.matching
    ensures Distribute(a, i, {}) == (a, a.items[i..a.matching])
    decreases a.matching - i
  {
    if i < a.matching {
      DistributeToAll(a, i + 1);
      assert a.items[i..a.matching] == [a.items[i]] + a.items[i + 1..a.matching];
    } else {
      assert a.items[i..a.matching] == [];
    }
  }

  /** A pipe that goes away in mid-message tears the message of a socket that sends to matching pipes only and
      matches between messages: the third pipe gets the last part alone, and the second does not get it. */
  lemma TerminationTearsAMessage()
    ensures var r := Step(Begun(), TerminatePipe(1));
      && Good(Begun()) && r.regions == Regions([3, 2], 1, 2, 2, true) && Sound(r.regions)
      && Step(r, SendPart(false, true, {})).sent == [[{1, 2}, {3}]]
    ensures !Whole([{1, 2}, {3}])
  {
    SendBegins();
    IndexIs([1, 2, 3], 1, 0);
    assert Erased([1, 2, 3], 0) == [3, 2];
    var r := Run(Regions([3, 2], 1, 2, 2, true), [{1, 2}], []);
    SendToFirst(r.regions, false);
    assert First([3], 1) == {3} && r.regions.items[..1] == [3];
    assert [{1, 2}] + [{3}] == [{1, 2}, {3}];
    var torn := [{1, 2}, {3}];
    assert 3 in torn[1] && 3 !in torn[0];
  }

  /** Calls no socket of the library makes tear a message as well: continuing for all pipes, or marking another pipe. */
  lemma MixedSendTears()
    ensures Good(Begun()) && Step(Begun(), SendPart(true, true, {})).sent == [[{1, 2}, {1, 2, 3}]]
    ensures Step(Begun(), MatchPipe(3)).regions == Three(3, true)
    ensures Step(Run(Three(3, true), [{1, 2}], []), SendPart(false, true, {})).sent == [[{1, 2}, {1, 2, 3}]]
    ensures !Whole([{1, 2}, {1, 2, 3}])
  {
    SendBegins();
    MatchNext(Begun().regions);
    SendToFirst(Begun().regions, true);
    SendToFirst(Three(3, true), false);
    assert First([1, 2, 3], 3) == {1, 2, 3} && [1, 2, 3][..3] == [1, 2, 3];
    assert [{1, 2}] + [{1, 2, 3}] == [{1, 2}, {1, 2, 3}];
    var torn := [{1, 2}, {1, 2, 3}];
    assert 3 in torn[1] && 3 !in torn[0];
  }

  /** A pipe attached in mid-message and matched then takes the place of an active one. */
  lemma LateMatchSpoilsRegions()
    ensures Good(Begun()) && Enabled(Begun(), AttachPipe(4))
    ensures var a := Step(Begun(), AttachPipe(4)).regions;
      && a == Regions([1, 2, 3, 4], 2, 3, 4, true)
      && Sound(a) && GroupOf(a).active == {1, 2, 3}
      && Match(a, 4) == Regions([1, 2, 4, 3], 3, 3, 4, true)
      && Sound(Match(a, 4)) && GroupOf(Match(a, 4)).active == {1, 2, 4}
  {
    SendBegins();
    assert [1, 2, 3] + [4] == [1, 2, 3, 4];
    SwapTrivia([1, 2, 3, 4], 3, 3);
    var a := Regions([1, 2, 3, 4], 2, 3, 4, true);
    IndexIs(a.items, 4, 3);
    assert Swap(a.items, 3, 2) == [1, 2, 4, 3];
    FirstThree([1, 2, 3, 4]);
    FirstThree([1, 2, 4, 3]);
  }

  lemma FirstThree(items: seq<Id>)
    requires |items| >= 3
    ensures First(items, 3) == {items[0], items[1], items[2]}
  {
  }

  /** One part to all three pipes, which the third refuses. */
  lemma ThirdRefuses()
    ensures Step(Run(Three(0, false), [], []), SendPart(true, true, {3})) == Run(Regions([1, 2, 3], 2, 2, 2, false), [], [[{1, 2}]])
  {
    var a, b := Three(3, false), Regions([1, 2, 3], 2, 2, 2, false);
    SwapTrivia([1, 2, 3], 2, 2);
    assert Refused(a, 2) == b;
    assert Distribute(b, 2, {3}) == (b, []);
    assert Distribute(a, 2, {3}) == (b, []);
    assert Distribute(a, 1, {3}) == (b, [2] + []);
    assert Distribute(a, 0, {3}) == (b, [1] + ([2] + []));
    assert [1] + ([2] + []) == [1, 2];
    FirstTwo([1, 2]);
    assert Three(0, false).(matching := 3) == a;
    assert [] + [{1, 2}] == [{1, 2}];
  }

  /** A pipe that goes away readmits one that has refused: the third pipe gets the next message without having
      been activated, and the second, which has refused nothing, does not get it. */
  lemma TerminationReadmitsARefuser()
    ensures var acts := [AttachPipe(1)] + ([AttachPipe(2)] + ([AttachPipe(3)] + (
        [SendPart(true, true, {3})] + ([TerminatePipe(1)] + ([SendPart(true, true, {})] + [])))));
      && Good(FRESH_RUN) && AllAllowed(FRESH_RUN, acts)
      && Exec(FRESH_RUN, acts).sent == [[{1, 2}], [{3}]]
  {
    hide AllAllowed, Exec;
    var r0, r1 := Run(Three(0, false), [], []), Run(Regions([1, 2, 3], 2, 2, 2, false), [], [[{1, 2}]]);
    var r2 := Run(Regions([3, 2], 1, 1, 1, false), [], [[{1, 2}]]);
    ThirdRefuses();
    StepIsGoodIff(r0, SendPart(true, true, {3}));
    IndexIs([1, 2, 3], 1, 0);
    assert Erased([1, 2, 3], 0) == [3, 2];
    assert Step(r1, TerminatePipe(1)) == r2;
    StepIsGoodIff(r1, TerminatePipe(1));
    SendToFirst(r2.regions, true);
    assert First([3], 1) == {3} && r2.regions.items[..1] == [3];
    StepIsGoodIff(r2, SendPart(true, true, {}));
    var r3 := Step(r2, SendPart(true, true, {}));
    assert [] + [{3}] == [{3}];
    assert r3.sent == [[{1, 2}]] + [[{3}]] == [[{1, 2}], [{3}]];
    NothingMore(r3);
    OneStep(r2, SendPart(true, true, {}), []);
    OneStep(r1, TerminatePipe(1), [SendPart(true, true, {})] + []);
    OneStep(r0, SendPart(true, true, {3}), [TerminatePipe(1)] + ([SendPart(true, true, {})] + []));
    AttachThree([SendPart(true, true, {3})] + ([TerminatePipe(1)] + ([SendPart(true, true, {})] + [])));
  }

  lemma {:induction false} NothingMore(r: Run)
    requires Good(r)
    ensures AllAllowed(r, []) && Exec(r, []) == r
  {
  }
}

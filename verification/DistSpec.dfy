/** Multicast as a plain grouping of pipes: what each call is for. */
module DistSpec {
  import opened PipeArray

  /**
   * The pipes of a distributor: those that may get the next message (`eligible`), those that
   * may get the rest of the message being sent (`active`) and those picked for it (`matching`).
   */
  datatype Group = Group(all: set<Id>, eligible: set<Id>, active: set<Id>, matching: set<Id>, more: bool)

  predicate Ordered(g: Group) {
    && g.matching <= g.active <= g.eligible <= g.all
    && (!g.more ==> g.active == g.eligible)
  }

  const EMPTY_GROUP := Group({}, {}, {}, {}, false)

  function Attach(g: Group, p: Id): Group {
    var h := g.(all := g.all + {p}, eligible := g.eligible + {p});
    if g.more then h else h.(active := g.active + {p})
  }

  function Match(g: Group, p: Id): Group {
    if p in g.eligible then g.(matching := g.matching + {p}) else g
  }

  function Unmatch(g: Group): Group { g.(matching := {}) }

  function Activated(g: Group, p: Id): Group {
    var h := g.(eligible := g.eligible + {p});
    if g.more then h else h.(active := g.active + {p})
  }

  /** A pipe gone from every group. */
  function Detach(g: Group, p: Id): Group {
    g.(all := g.all - {p}, eligible := g.eligible - {p}, active := g.active - {p}, matching := g.matching - {p})
  }

  /** Writing to the matching pipes: those that refuse leave all three groups. */
  function Distribute(g: Group, full: set<Id>): Group {
    var gone := g.matching * full;
    g.(matching := g.matching - gone, active := g.active - gone, eligible := g.eligible - gone)
  }

  function SendToMatching(g: Group, last: bool, full: set<Id>): Group {
    var h := Distribute(g, full);
    h.(active := if last then h.eligible else h.active, more := !last)
  }

  function SendToAll(g: Group, last: bool, full: set<Id>): Group {
    SendToMatching(g.(matching := g.active), last, full)
  }

  /** Who takes the next part. */
  function Takers(g: Group, toAll: bool, full: set<Id>): set<Id> {
    (if toAll then g.active else g.matching) - full
  }
}

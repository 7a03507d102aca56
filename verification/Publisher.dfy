/** The XPUB socket as an object: its subscription trie, its distributor and its notifications. */
module Publisher {
  import opened Basics
  import opened QueueSpec
  import opened Wire
  import opened TrieSpec
  import opened TrieTheorems
  import opened MtrieSpec
  import TN = TrieNodes
  import T = Mtrie
  import X = XPub
  import D = DistSpec
  import DA = DistArray
  import DC = Dist
  import PA = PipeArray

  /** All messages of a peer that are waiting. */
  function ReadAll(s: X.State, p: Pipe, messages: seq<seq<Byte>>): X.Outcome {
    if messages == [] then X.Ok(s)
    else match ReadAll(s, p, messages[..|messages| - 1])
      case Fault => X.Fault
      case Ok(t) => X.ReadMessage(t, p, messages[|messages| - 1])
  }

  lemma {:induction false} ReadPrefix(s: X.State, p: Pipe, messages: seq<seq<Byte>>, k: nat)
    requires k <= |messages| && ReadAll(s, p, messages).Ok?
    ensures ReadAll(s, p, messages[..k]).Ok?
  {
    if k < |messages| {
      var init := messages[..|messages| - 1];
      assert init[..k] == messages[..k];
      ReadPrefix(s, p, init, k);
    } else {
      assert messages[..k] == messages;
    }
  }

  /** Every pipe of a set marked as matching. */
  function MatchAll(g: D.Group, pipes: Pipes): D.Group { g.(matching := g.matching + pipes * g.eligible) }

  /** Only these pipes subscribe to anything. */
  ghost predicate Within(n: Node<Pipes>, all: Pipes) { forall q: Topic :: Subscribers(n, q) <= all }

  lemma {:induction false} SubscribeWithin(n: Node<Pipes>, t: Topic, p: Pipe, all: Pipes)
    requires Compact(n, NOBODY) && Within(n, all) && p in all
    ensures Within(Subscribe(n, t, p), all)
  {
    hide Compact, Subscribe, Subscribers;
    forall q: Topic ensures Subscribers(Subscribe(n, t, p), q) <= all {
      SubscribeActsOnTheMap(n, t, p, q);
    }
  }

  lemma {:induction false} UnsubscribeWithin(n: Node<Pipes>, t: Topic, p: Pipe, all: Pipes)
    requires Compact(n, NOBODY) && Within(n, all) && Unsubscribe(n, t, p).Removed?
    ensures Within(Unsubscribe(n, t, p).n, all)
  {
    hide Compact, Unsubscribe, Subscribers;
    forall q: Topic ensures Subscribers(Unsubscribe(n, t, p).n, q) <= all {
      UnsubscribeActsOnTheMap(n, t, p, q);
    }
  }

  lemma {:induction false} WithoutWithin(n: Node<Pipes>, p: Pipe, all: Pipes)
    requires Compact(n, NOBODY) && Within(n, all)
    ensures Within(WithoutPipe(n, p), all - {p})
  {
    hide Compact, WithoutPipe, Subscribers;
    forall q: Topic ensures Subscribers(WithoutPipe(n, p), q) <= all - {p} {
      WithoutPipeGets(n, p, q);
    }
  }

  class Socket {
    const subscriptions: TN.TrieNode<Pipes>
    const dist: DC.Distributor
    var pending: seq<X.Note>
    var verbose: bool
    var more: bool
    ghost var taken: seq<X.Note>

    ghost predicate Valid()
      reads this, subscriptions, subscriptions.repr, dist, dist.pipes
    {
      && T.Good(subscriptions) && dist.Valid() && Within(subscriptions.shape, dist.Groups().all)
      && more == dist.more && (!more ==> dist.Groups().matching == {})
    }

    ghost function Notes(): X.State
      reads this, subscriptions
    {
      X.State(subscriptions.shape, pending, taken, verbose)
    }

    constructor ()
      ensures Valid() && Notes() == X.Init() && dist.Groups() == D.EMPTY_GROUP && !more
      ensures fresh(subscriptions.repr) && fresh(dist) && fresh(dist.pipes)
    {
      subscriptions := new TN.TrieNode<Pipes>(NOBODY);
      dist := new DC.Distributor();
      pending, verbose, more, taken := [], false, false, [];
      new;
      NewNodeCompact(NOBODY);
    }

    /** A new pipe; one that wants everything is subscribed to the empty topic without a notification. */
    method AttachPipe(p: Pipe, icanhasall: bool)
      requires Valid() && p !in dist.pipes.items
      modifies this, subscriptions.repr, dist, dist.pipes
      ensures Valid() && fresh(subscriptions.repr - old(subscriptions.repr))
      ensures dist.Groups() == D.Attach(old(dist.Groups()), p) && unchanged(this)
      ensures Notes() == if icanhasall then X.SubscribeToAll(old(Notes()), p) else old(Notes())
    {
      hide Compact, Subscribers, Put, TN.TrieNode.Valid, DC.Distributor.Valid;
      dist.Attach(p);
      if icanhasall {
        SubscribeActsOnTheMap(subscriptions.shape, [], p, []);
        SubscribeWithin(subscriptions.shape, [], p, dist.Groups().all);
        var _ := T.Add(subscriptions, [], p);
      }
    }

    method ReadMessage(p: Pipe, data: seq<Byte>)
      requires Valid() && p in dist.Groups().all && X.ReadMessage(Notes(), p, data).Ok?
      modifies this`pending, subscriptions.repr
      ensures Valid() && fresh(subscriptions.repr - old(subscriptions.repr))
      ensures X.ReadMessage(old(Notes()), p, data) == X.Ok(Notes())
    {
      hide Compact, Subscribers, Unsubscribe, TN.TrieNode.Valid, DC.Distributor.Valid, DC.Distributor.Groups, Within;
      ghost var s := Notes();
      if |data| > 0 && (data[0] == 0 || data[0] == 1) {
        var unique;
        if data[0] == 0 {
          UnsubscribeActsOnTheMap(s.subs, data[1..], p, []);
          UnsubscribeWithin(s.subs, data[1..], p, dist.Groups().all);
          unique := T.Rm(subscriptions, data[1..], p);
          assert [0 as Byte] + data[1..] == data;
        } else {
          SubscribeActsOnTheMap(s.subs, data[1..], p, []);
          SubscribeWithin(s.subs, data[1..], p, dist.Groups().all);
          unique := T.Add(subscriptions, data[1..], p);
          assert [1 as Byte] + data[1..] == data;
        }
        if unique || (data[0] != 0 && verbose) {
          pending := pending + [data];
        }
      }
    }

    /** Take in all subscription messages waiting on a pipe. */
    method ReadActivated(p: Pipe, messages: seq<seq<Byte>>)
      requires Valid() && p in dist.Groups().all && ReadAll(Notes(), p, messages).Ok?
      modifies this`pending, subscriptions.repr
      ensures Valid() && fresh(subscriptions.repr - old(subscriptions.repr))
      ensures ReadAll(old(Notes()), p, messages) == X.Ok(Notes())
    {
      hide T.Good, X.ReadMessage, Within, DC.Distributor.Valid, DC.Distributor.Groups;
      ghost var s := Notes();
      assert messages[..0] == [];
      for k := 0 to |messages|
        invariant Valid() && fresh(subscriptions.repr - old(subscriptions.repr))
        invariant ReadAll(s, p, messages[..k]) == X.Ok(Notes())
        modifies this`pending, subscriptions.repr
      {
        ReadPrefix(s, p, messages, k + 1);
        assert messages[..k + 1][..k] == messages[..k];
        ReadMessage(p, messages[k]);
      }
      assert messages[..|messages|] == messages;
    }

    /** A peer is gone: one notification for each topic it leaves without subscribers. */
    method PipeTerminated(p: Pipe)
      requires Valid() && p in dist.pipes.items
      modifies this`pending, subscriptions.repr, dist, dist.pipes
      ensures Valid() && Notes() == X.DropPipe(old(Notes()), p)
      ensures dist.View() == DA.Terminated(old(dist.View()), p)
      ensures dist.Groups().all == old(dist.Groups()).all - {p}
      ensures dist.Groups() == D.Detach(old(dist.Groups()), p) <==> DA.KeepsAll(old(dist.View()), p)
    {
      hide Compact, TN.TrieNode.Valid, WithoutPipe, Within, PA.First, PA.IndexOf, DC.Distributor.Valid;
      WithoutWithin(subscriptions.shape, p, dist.Groups().all);
      var topics := T.RmEverywhere(subscriptions, p);
      Announce(topics);
      dist.NoneMatching();
      dist.Terminated(p);
      dist.NoneMatching();
    }

    method Announce(topics: seq<Topic>)
      modifies this`pending
      ensures pending == old(pending) + X.Unsubscriptions(topics)
    {
      ghost var before := pending;
      for k := 0 to |topics|
        invariant pending == before + X.Unsubscriptions(topics[..k])
      {
        assert topics[..k + 1][..k] == topics[..k];
        pending := pending + [[0] + topics[k]];
      }
      assert topics[..|topics|] == topics;
    }

    method Recv() returns (note: Option<X.Note>)
      modifies this`pending, this`taken
      ensures X.Step(old(Notes()), X.Recv) == X.Ok(Notes())
      ensures note == if old(pending) == [] then None else Some(old(pending)[0])
    {
      if pending == [] {
        return None;
      }
      note := Some(pending[0]);
      taken := taken + [pending[0]];
      pending := pending[1..];
    }

    /** Mark the pipes met on the way down the trie. */
    method MarkMatching(sets: seq<Pipes>)
      requires dist.Valid() && !dist.more && X.UnionOf(sets) <= dist.Groups().all
      modifies dist, dist.pipes
      ensures dist.Valid() && dist.Groups() == MatchAll(old(dist.Groups()), X.UnionOf(sets))
    {
      ghost var g := dist.Groups();
      var i := 0;
      assert g.matching + X.UnionOf([]) * g.eligible == g.matching;
      while i < |sets|
        invariant i <= |sets| && dist.Valid() && dist.Groups() == MatchAll(g, X.UnionOf(sets[..i]))
        modifies dist, dist.pipes
      {
        UnionStep(sets, i);
        MarkSet(sets[i]);
        i := i + 1;
      }
      assert sets[..i] == sets;
    }

    method MarkSet(pipes: Pipes)
      requires dist.Valid() && !dist.Groups().more && pipes <= dist.Groups().all
      modifies dist, dist.pipes
      ensures dist.Valid() && dist.Groups() == MatchAll(old(dist.Groups()), pipes)
    {
      hide DC.Distributor.Valid, DC.Distributor.Groups;
      ghost var g := dist.Groups();
      var left := pipes;
      assert MatchAll(g, pipes - left) == g;
      while left != {}
        invariant left <= pipes && dist.Valid() && dist.Groups() == MatchAll(g, pipes - left)
        decreases |left|
        modifies dist, dist.pipes
      {
        var p :| p in left;
        assert (pipes - (left - {p})) == pipes - left + {p};
        dist.Known(p);
        dist.Match(p);
        OneMoreMatch(g, pipes - left, p);
        left := left - {p};
      }
      assert pipes - left == pipes;
    }

    /**
     * Send one part. The first part of a message goes to every pipe with room, able to take
     * a message, that subscribes to a prefix of it; later parts go to those that took all
     * before and have room.
     */
    method Send(data: Topic, last: bool, full: set<Pipe>) returns (written: seq<Pipe>)
      requires Valid()
      modifies this`more, dist, dist.pipes
      ensures Valid() && more == !last && Distinct(written)
      ensures !old(more) ==> forall p :: p in written <==>
        && p in old(dist.Groups()).eligible && p !in full
        && exists i | 0 <= i <= |data| :: p in Subscribers(subscriptions.shape, data[..i])
      ensures old(more) ==> forall p :: p in written <==> p in old(dist.Groups()).matching && p !in full
      ensures more ==> forall p :: p in written <==> p in dist.Groups().matching
    {
      hide TN.TrieNode.Valid, Compact, DC.Distributor.Valid, X.UnionOf, PA.First, Distinct, Within, X.Matching;
      ghost var g := dist.Groups();
      Reached(subscriptions.shape, data);
      MatchingWithin(subscriptions.shape, data, g.all);
      if !more {
        var sets := T.Match(subscriptions, data);
        MatchingIs(subscriptions.shape, data);
        MarkMatching(sets);
      }
      written := dist.SendToMatching(last, full);
      InWritten(written);
      assert dist.Groups().more == !last;
      if last {
        dist.Unmatch();
      }
      more := !last;
    }
  }

  lemma OneMoreMatch(g: D.Group, done: Pipes, p: Pipe)
    ensures D.Match(MatchAll(g, done), p) == MatchAll(g, done + {p})
  {
    assert p in g.eligible ==> (done + {p}) * g.eligible == done * g.eligible + {p};
    assert p !in g.eligible ==> (done + {p}) * g.eligible == done * g.eligible;
  }

  lemma InWritten(written: seq<Pipe>)
    ensures forall p :: p in written <==> p in PA.First(written, |written|)
  {
  }

  lemma Reached(n: Node<Pipes>, data: Topic)
    ensures forall p :: p in X.Matching(n, data) <==> exists i | 0 <= i <= |data| :: p in Subscribers(n, data[..i])
  {
    forall p ensures p in X.Matching(n, data) <==> exists i | 0 <= i <= |data| :: p in Subscribers(n, data[..i]) {
      X.MatchesPrefixSubscribers(n, data, p);
    }
  }

  lemma MatchingWithin(n: Node<Pipes>, data: Topic, all: Pipes)
    requires Within(n, all)
    ensures X.Matching(n, data) <= all
  {
    Reached(n, data);
  }

  lemma {:induction false} MatchingIs(n: Node<Pipes>, data: Topic)
    ensures X.Matching(n, data) == X.UnionOf(Along(n, data))
  {
  }

  lemma {:induction false} UnionStep(sets: seq<Pipes>, i: nat)
    requires i < |sets|
    ensures X.UnionOf(sets[..i + 1]) == X.UnionOf(sets[..i]) + sets[i]
    ensures sets[i] <= X.UnionOf(sets)
  {
    assert sets[..i + 1] == sets[..i] + [sets[i]];
    forall p ensures p in X.UnionOf(sets[..i + 1]) <==> p in X.UnionOf(sets[..i]) + sets[i] {
      X.InUnion(sets[..i + 1], p);
      X.InUnion(sets[..i], p);
      if p in sets[i] {
        assert p in sets[..i + 1][i];
      }
      if k :| 0 <= k < i && p in sets[..i][k] {
        assert p in sets[..i + 1][k];
      }
    }
    forall p | p in sets[i] ensures p in X.UnionOf(sets) {
      X.InUnion(sets, p);
    }
  }
}

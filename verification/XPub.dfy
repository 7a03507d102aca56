/** The XPUB socket's bookkeeping: subscriptions of its peers, and the notifications about
    new and vanished topics it owes its user. */
module XPub {
  import opened QueueSpec
  import opened Wire
  import opened TrieSpec
  import opened TrieTheorems
  import opened MtrieSpec

  /** A notification or a subscription message: 1 or 0, then the topic. */
  type Note = seq<Byte>

  /** `pending` notifications wait for the user, `taken` are those already received. */
  datatype State = State(subs: Node<Pipes>, pending: seq<Note>, taken: seq<Note>, verbose: bool)

  /** Fault stands for the failed assertion in the trie. */
  datatype Outcome = Fault | Ok(s: State)

  datatype Action =
    | Message(p: Pipe, data: seq<Byte>)   // a peer's message is read
    | AttachAll(p: Pipe)                  // a pipe is attached as wanting everything
    | Terminated(p: Pipe)                 // a peer's pipe is gone
    | Recv                                // the user takes a notification
    | SetVerbose(on: bool)

  function Init(): State { State(NewNode(NOBODY), [], [], false) }

  function AddSub(s: State, p: Pipe, t: Topic): State {
    var unique := Subscribers(s.subs, t) == NOBODY;
    s.(subs := Subscribe(s.subs, t, p), pending := if unique || s.verbose then s.pending + [[1] + t] else s.pending)
  }

  /** What a pipe gets that is attached as wanting everything: the user is told nothing. */
  function SubscribeToAll(s: State, p: Pipe): State { s.(subs := Subscribe(s.subs, [], p)) }

  function RemoveSub(s: State, p: Pipe, t: Topic): Outcome {
    match Unsubscribe(s.subs, t, p)
    case Failed => Fault
    case Removed(n, last) => Ok(s.(subs := n, pending := if last then s.pending + [[0] + t] else s.pending))
  }

  function ReadMessage(s: State, p: Pipe, data: seq<Byte>): Outcome {
    if data == [] || data[0] > 1 then Ok(s)
    else if data[0] == 1 then Ok(AddSub(s, p, data[1..]))
    else RemoveSub(s, p, data[1..])
  }

  /** Notifications that topics have lost their last subscriber. */
  function Unsubscriptions(topics: seq<Topic>): (r: seq<Note>)
    ensures |r| == |topics| && forall i | 0 <= i < |topics| :: r[i] == [0] + topics[i]
  {
    if topics == [] then [] else Unsubscriptions(topics[..|topics| - 1]) + [[0] + topics[|topics| - 1]]
  }

  function DropPipe(s: State, p: Pipe): State {
    s.(subs := WithoutPipe(s.subs, p), pending := s.pending + Unsubscriptions(Emptied(s.subs, p)))
  }

  function Step(s: State, a: Action): Outcome {
    match a
    case Message(p, data) => ReadMessage(s, p, data)
    case AttachAll(p) => Ok(SubscribeToAll(s, p))
    case Terminated(p) => Ok(DropPipe(s, p))
    case Recv => if s.pending == [] then Ok(s) else Ok(s.(taken := s.taken + [s.pending[0]], pending := s.pending[1..]))
    case SetVerbose(on) => Ok(s.(verbose := on))
  }

  function Exec(acts: seq<Action>): Outcome {
    if acts == [] then Ok(Init())
    else
      match Exec(acts[..|acts| - 1])
      case Fault => Fault
      case Ok(s) => Step(s, acts[|acts| - 1])
  }

  // ------------------------------------------------------------ replaying notifications

  /** The topics a user believes to have subscribers after these notifications. */
  function Replay(notes: seq<Note>): set<Topic> {
    if notes == [] then {}
    else
      var before, note := Replay(notes[..|notes| - 1]), notes[|notes| - 1];
      if note == [] then before else if note[0] == 1 then before + {note[1..]} else before - {note[1..]}
  }

  lemma {:induction false} ReplayOneMore(notes: seq<Note>, b: Byte, t: Topic)
    ensures Replay(notes + [[b] + t]) == if b == 1 then Replay(notes) + {t} else Replay(notes) - {t}
  {
    assert (notes + [[b] + t])[..|notes|] == notes;
    assert ([b] + t)[1..] == t;
  }

  lemma {:induction false} ReplayUnsubscriptions(notes: seq<Note>, topics: seq<Topic>)
    ensures Replay(notes + Unsubscriptions(topics)) == Replay(notes) - set t | t in topics
  {
    if topics == [] {
      assert notes + Unsubscriptions(topics) == notes;
    } else {
      var init, t := topics[..|topics| - 1], topics[|topics| - 1];
      ReplayUnsubscriptions(notes, init);
      assert notes + Unsubscriptions(topics) == notes + Unsubscriptions(init) + [[0] + t];
      ReplayOneMore(notes + Unsubscriptions(init), 0, t);
      assert topics == init + [t];
    }
  }

  /** The topics the user ought to know of: all that have subscribers, except the empty one while it is `untold`. */
  predicate Known(n: Node<Pipes>, untold: bool, t: Topic) { Subscribers(n, t) != NOBODY && !(untold && t == []) }

  /** The notifications, delivered and pending, tell exactly which topics have subscribers, but
      for the empty topic if that is untold. */
  ghost predicate Tells(s: State, untold: bool) {
    && Compact(s.subs, NOBODY)
    && (untold ==> Subscribers(s.subs, []) != NOBODY)
    && forall t: Topic :: t in Replay(s.taken + s.pending) <==> Known(s.subs, untold, t)
  }

  ghost predicate Truthful(s: State) { Tells(s, false) }

  lemma TruthfulIff(s: State, untold: bool)
    requires Tells(s, untold)
    ensures Truthful(s) <==> !untold
  {
    hide Compact, Replay, Subscribers;
    var empty: Topic := [];
    assert empty in Replay(s.taken + s.pending) <==> Known(s.subs, untold, empty);
    if Truthful(s) {
      assert empty in Replay(s.taken + s.pending) <==> Known(s.subs, false, empty);
    }
  }

  lemma AddSubTells(s: State, p: Pipe, t: Topic, untold: bool)
    requires Tells(s, untold)
    ensures Subscribers(AddSub(s, p, t).subs, []) != NOBODY || !untold
    ensures Tells(AddSub(s, p, t), untold && !(t == [] && s.verbose))
  {
    hide Compact, Subscribe, Replay, Subscribers;
    var s', now := AddSub(s, p, t), untold && !(t == [] && s.verbose);
    ReplayOneMore(s.taken + s.pending, 1, t);
    assert s.taken + (s.pending + [[1] + t]) == s.taken + s.pending + [[1] + t];
    SubscribeActsOnTheMap(s.subs, t, p, t);
    SubscribeActsOnTheMap(s.subs, t, p, []);
    assert p in Subscribers(s.subs, t) + {p};
    forall q: Topic ensures q in Replay(s'.taken + s'.pending) <==> Known(s'.subs, now, q) {
      SubscribeActsOnTheMap(s.subs, t, p, q);
    }
  }

  lemma AttachAllTells(s: State, p: Pipe, untold: bool)
    requires Tells(s, untold)
    ensures Tells(SubscribeToAll(s, p), untold || Subscribers(s.subs, []) == NOBODY)
    ensures Subscribers(SubscribeToAll(s, p).subs, []) != NOBODY
  {
    hide Compact, Subscribe, Replay, Subscribers;
    var s', now := SubscribeToAll(s, p), untold || Subscribers(s.subs, []) == NOBODY;
    SubscribeActsOnTheMap(s.subs, [], p, []);
    assert p in Subscribers(s'.subs, []);
    forall q: Topic ensures q in Replay(s'.taken + s'.pending) <==> Known(s'.subs, now, q) {
      SubscribeActsOnTheMap(s.subs, [], p, q);
    }
  }

  lemma RemoveSubTells(s: State, p: Pipe, t: Topic, untold: bool)
    requires Tells(s, untold)
    ensures RemoveSub(s, p, t).Fault? <==> Subscribers(s.subs, t) != NOBODY && p !in Subscribers(s.subs, t)
    ensures RemoveSub(s, p, t).Ok? ==>
      var s' := RemoveSub(s, p, t).s; Tells(s', untold && Subscribers(s'.subs, []) != NOBODY)
  {
    hide Compact, Unsubscribe, Replay, Subscribers;
    UnsubscribeActsOnTheMap(s.subs, t, p, t);
    if RemoveSub(s, p, t).Ok? {
      var s' := RemoveSub(s, p, t).s;
      var now := untold && Subscribers(s'.subs, []) != NOBODY;
      ReplayOneMore(s.taken + s.pending, 0, t);
      assert s.taken + (s.pending + [[0] + t]) == s.taken + s.pending + [[0] + t];
      forall q: Topic ensures q in Replay(s'.taken + s'.pending) <==> Known(s'.subs, now, q) {
        UnsubscribeActsOnTheMap(s.subs, t, p, q);
      }
    }
  }

  lemma DropPipeTells(s: State, p: Pipe, untold: bool)
    requires Tells(s, untold)
    ensures var s' := DropPipe(s, p); Tells(s', untold && Subscribers(s'.subs, []) != NOBODY)
  {
    hide Compact, WithoutPipe, Replay, Subscribers, Emptied;
    var s' := DropPipe(s, p);
    var now := untold && Subscribers(s'.subs, []) != NOBODY;
    var gone := Emptied(s.subs, p);
    EmptiedOnce(s.subs, p);
    WithoutPipeCompact(s.subs, p);
    ReplayUnsubscriptions(s.taken + s.pending, gone);
    assert s.taken + (s.pending + Unsubscriptions(gone)) == s.taken + s.pending + Unsubscriptions(gone);
    forall q: Topic ensures q in Replay(s'.taken + s'.pending) <==> Known(s'.subs, now, q) {
      WithoutPipeGets(s.subs, p, q);
    }
  }

  lemma RecvTells(s: State, untold: bool)
    requires Tells(s, untold)
    ensures Tells(Step(s, Recv).s, untold)
  {
    if s.pending != [] {
      assert s.taken + [s.pending[0]] + s.pending[1..] == s.taken + s.pending;
    }
  }

  /** The one step that fails: unsubscribing from a topic that others hold and the peer
      itself does not. */
  predicate BadUnsubscription(s: State, a: Action) {
    && a.Message? && a.data != [] && a.data[0] == 0
    && Subscribers(s.subs, a.data[1..]) != NOBODY && a.p !in Subscribers(s.subs, a.data[1..])
  }

  /** The empty topic becomes untold when its first subscriber comes attached as wanting
      everything, and stays so until it has no subscriber or a verbose socket repeats it. */
  function UntoldAfter(s: State, untold: bool, a: Action): bool {
    match Step(s, a)
    case Fault => false
    case Ok(s') =>
      if a.AttachAll? then untold || Subscribers(s.subs, []) == NOBODY
      else untold && Subscribers(s'.subs, []) != NOBODY && !(a.Message? && a.data == [1] && s.verbose)
  }

  lemma StepTells(s: State, a: Action, untold: bool)
    requires Tells(s, untold)
    ensures Step(s, a).Fault? <==> BadUnsubscription(s, a)
    ensures Step(s, a).Ok? ==> Tells(Step(s, a).s, UntoldAfter(s, untold, a))
  {
    hide Tells, AddSub, RemoveSub, DropPipe, SubscribeToAll, Subscribers;
    EmptyTopicHeld(s, untold);
    match a
    case Message(p, data) =>
      if data != [] {
        if data[0] == 1 {
          AddSubTells(s, p, data[1..], untold);
          assert data[1..] == [] <==> data == [1];
        }
        if data[0] == 0 { RemoveSubTells(s, p, data[1..], untold); }
      }
    case AttachAll(p) => AttachAllTells(s, p, untold);
    case Terminated(p) => DropPipeTells(s, p, untold);
    case Recv => RecvTells(s, untold);
    case SetVerbose(on) => VerboseTells(s, on, untold);
  }

  lemma EmptyTopicHeld(s: State, untold: bool)
    requires Tells(s, untold)
    ensures untold ==> Subscribers(s.subs, []) != NOBODY
  {
  }

  lemma VerboseTells(s: State, on: bool, untold: bool)
    requires Tells(s, untold)
    ensures Tells(s.(verbose := on), untold)
  {
  }

  /** One step from a state whose notifications are true: it fails exactly if it is a bad
      unsubscription, and they stay true exactly if it does not attach the first subscriber
      of the empty topic as wanting everything. */
  lemma StepTruthful(s: State, a: Action)
    requires Truthful(s)
    ensures Step(s, a).Fault? <==> BadUnsubscription(s, a)
    ensures Step(s, a).Ok? ==> (Truthful(Step(s, a).s) <==> !(a.AttachAll? && Subscribers(s.subs, []) == NOBODY))
  {
    hide Tells, Step, Subscribers;
    StepTells(s, a, false);
    if Step(s, a).Ok? { TruthfulIff(Step(s, a).s, UntoldAfter(s, false, a)); }
  }

  lemma InitTruthful()
    ensures Truthful(Init())
  {
    NewNodeCompact(NOBODY);
    forall t: Topic ensures Subscribers(NewNode(NOBODY), t) == NOBODY {}
  }

  /** Some step of the run is a bad unsubscription. */
  predicate MeetsBadUnsubscription(acts: seq<Action>) {
    acts != [] &&
    var init := acts[..|acts| - 1];
    MeetsBadUnsubscription(init) || (Exec(init).Ok? && BadUnsubscription(Exec(init).s, acts[|acts| - 1]))
  }

  /** The empty topic is untold after the run. */
  predicate Untold(acts: seq<Action>) {
    acts != [] &&
    var init := acts[..|acts| - 1];
    Exec(init).Ok? && UntoldAfter(Exec(init).s, Untold(init), acts[|acts| - 1])
  }

  /** After any run of attachments, subscriptions, unsubscriptions, lost peers and deliveries,
      replaying all notifications gives exactly the topics that have a subscriber, but for the
      empty topic while that is untold; and a run fails exactly if it meets a bad unsubscription. */
  lemma {:induction false} EveryRunIsTruthful(acts: seq<Action>)
    ensures Exec(acts).Fault? <==> MeetsBadUnsubscription(acts)
    ensures Exec(acts).Ok? ==> Tells(Exec(acts).s, Untold(acts)) && (Truthful(Exec(acts).s) <==> !Untold(acts))
  {
    hide Tells, Step, BadUnsubscription, Init, UntoldAfter, Truthful;
    if acts == [] {
      InitTruthful();
      NothingUntold();
    } else {
      var init, a := acts[..|acts| - 1], acts[|acts| - 1];
      EveryRunIsTruthful(init);
      if Exec(init).Ok? { StepTells(Exec(init).s, a, Untold(init)); }
    }
    if Exec(acts).Ok? { TruthfulIff(Exec(acts).s, Untold(acts)); }
  }

  lemma NothingUntold()
    ensures Tells(Init(), false)
  {
    InitTruthful();
  }

  // ------------------------------------------------------------ matching

  function UnionOf(loads: seq<Pipes>): Pipes {
    if loads == [] then {} else loads[0] + UnionOf(loads[1..])
  }

  lemma {:induction false} InUnion(loads: seq<Pipes>, p: Pipe)
    ensures p in UnionOf(loads) <==> exists i | 0 <= i < |loads| :: p in loads[i]
  {
    if loads != [] {
      InUnion(loads[1..], p);
      if p in UnionOf(loads) && p !in loads[0] {
        var i :| 0 <= i < |loads| - 1 && p in loads[1..][i];
        assert p in loads[i + 1];
      }
      if i :| 0 <= i < |loads| && p in loads[i] {
        if i > 0 { assert p in loads[1..][i - 1]; }
      }
    }
  }

  /** The pipes signalled for a message. */
  function Matching(n: Node<Pipes>, data: Topic): Pipes { UnionOf(Along(n, data)) }

  /** A message is matched with exactly the pipes that subscribe to a prefix of it. */
  lemma MatchesPrefixSubscribers(n: Node<Pipes>, data: Topic, p: Pipe)
    ensures p in Matching(n, data) <==> exists i | 0 <= i <= |data| :: p in Subscribers(n, data[..i])
  {
    InUnion(Along(n, data), p);
    if p in Matching(n, data) {
      var i :| 0 <= i < |Along(n, data)| && p in Along(n, data)[i];
      AlongMeetsThePrefixes(n, data, i, NOBODY);
      assert p in Subscribers(n, data[..i]);
    }
    if i :| 0 <= i <= |data| && p in Subscribers(n, data[..i]) {
      AlongMeetsThePrefixes(n, data, i, NOBODY);
    }
  }

  // ------------------------------------------------------------ where notifications fail

  /** Attaching a pipe that wants everything keeps the notifications true, if and only if the empty topic has a subscriber already. */
  lemma SubscribeToAllTruthfulIff(s: State, p: Pipe)
    requires Truthful(s)
    ensures Truthful(SubscribeToAll(s, p)) <==> Subscribers(s.subs, []) != NOBODY
  {
    StepTruthful(s, AttachAll(p));
  }

  /** The first pipe of a new socket, wanting everything, is a subscriber nobody is told of. */
  lemma SilentSubscription(p: Pipe)
    ensures Exec([AttachAll(p)]) == Ok(SubscribeToAll(Init(), p)) && !Truthful(SubscribeToAll(Init(), p))
  {
    hide Truthful, SubscribeToAll, Subscribers;
    assert [AttachAll(p)][..0] == [];
    InitTruthful();
    InitHasNobody([]);
    SubscribeToAllTruthfulIff(Init(), p);
  }

  /** Two peers, the second of which unsubscribes from what only the first holds. */
  lemma ForeignUnsubscriptionFails()
    ensures Exec([Message(1, [1, 65]), Message(2, [0, 65])]).Fault?
  {
    hide Subscribers, Unsubscribe, Subscribe, Compact, NewNode;
    var first, second := Message(1, [1, 65]), Message(2, [0, 65]);
    var topic: Topic := [65];
    EveryRunIsTruthful([first, second]);
    assert [first, second][..1] == [first] && [first][..0] == [];
    var s := Init();
    assert Exec([]) == Ok(s);
    assert [1 as Byte, 65][1..] == topic && [0 as Byte, 65][1..] == topic;
    NewNodeCompact(NOBODY);
    SubscribeActsOnTheMap(s.subs, topic, 1, topic);
    InitHasNobody(topic);
    assert Exec([first]) == Step(s, first) == Ok(AddSub(s, 1, topic));
    assert 1 in Subscribers(AddSub(s, 1, topic).subs, topic);
    assert BadUnsubscription(Exec([first]).s, second);
  }

  lemma InitHasNobody(t: Topic)
    ensures Subscribers(Init().subs, t) == NOBODY
  {
  }
}

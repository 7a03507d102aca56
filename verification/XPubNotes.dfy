/** Which notifications an XPUB socket owes its user, told by the subscribers of each topic alone. */
module XPubNotes {
  import opened Basics
  import opened QueueSpec
  import opened Wire
  import opened TrieSpec
  import opened TrieTheorems
  import opened MtrieSpec
  import opened XPub

  /** All notifications so far, in the order in which the user gets them. */
  function Notes(s: State): seq<Note> { s.taken + s.pending }

  /** An unsubscription is passed on if it takes the last subscriber; and, for a topic nobody
      holds, if it is the empty topic or the beginning of a topic somebody holds. */
  ghost predicate PassedOn(s: State, p: Pipe, t: Topic) {
    || Subscribers(s.subs, t) == {p}
    || (Subscribers(s.subs, t) == NOBODY && (t == [] || exists q: Topic :: t <= q && Subscribers(s.subs, q) != NOBODY))
  }

  /** The notifications a step has to add. */
  ghost predicate Owed(s: State, a: Action, notes: seq<Note>) {
    match a
    case Message(p, data) =>
      if data == [] || data[0] > 1 then notes == []
      else if data[0] == 1 then notes == if s.verbose || Subscribers(s.subs, data[1..]) == NOBODY then [data] else []
      else notes == if PassedOn(s, p, data[1..]) then [data] else []
    case Terminated(p) =>
      && Distinct(notes)
      && (forall t: Topic :: [0] + t in notes <==> Subscribers(s.subs, t) == {p})
      && (forall note | note in notes :: exists t: Topic :: note == [0] + t)
    case AttachAll(p) => notes == []
    case Recv => notes == []
    case SetVerbose(on) => notes == []
  }

  /** The notifications behind the first `n`. */
  function Since(s: State, n: nat): seq<Note> { if n <= |Notes(s)| then Notes(s)[n..] else [] }

  lemma AddSubOwes(s: State, p: Pipe, t: Topic)
    ensures Notes(AddSub(s, p, t)) == Notes(s) + if s.verbose || Subscribers(s.subs, t) == NOBODY then [[1] + t] else []
  {
    hide Subscribe, Subscribers;
    assert s.taken + (s.pending + [[1] + t]) == s.taken + s.pending + [[1] + t];
  }

  lemma RemoveSubOwes(s: State, p: Pipe, t: Topic)
    requires Compact(s.subs, NOBODY) && RemoveSub(s, p, t).Ok?
    ensures Notes(RemoveSub(s, p, t).s) == Notes(s) + if PassedOn(s, p, t) then [[0] + t] else []
  {
    hide Compact, Replace, Subscribers, HasNode;
    NodesLeadToSubscribers(s.subs, t);
    assert s.taken + (s.pending + [[0] + t]) == s.taken + s.pending + [[0] + t];
  }

  lemma DropPipeOwes(s: State, p: Pipe, notes: seq<Note>)
    requires Compact(s.subs, NOBODY) && notes == Unsubscriptions(Emptied(s.subs, p))
    ensures Notes(DropPipe(s, p)) == Notes(s) + notes && Owed(s, Terminated(p), notes)
  {
    hide Compact, Subscribers, Emptied, WithoutPipe;
    var gone := Emptied(s.subs, p);
    EmptiedOnce(s.subs, p);
    assert s.taken + (s.pending + notes) == s.taken + s.pending + notes;
    forall i, j | 0 <= i < j < |notes| ensures notes[i] != notes[j] {
      assert notes[i][1..] == gone[i] && notes[j][1..] == gone[j];
    }
    forall t: Topic ensures [0] + t in notes <==> t in gone {
      if i :| 0 <= i < |notes| && notes[i] == [0] + t { assert notes[i][1..] == gone[i] && ([0] + t)[1..] == t; }
      if i :| 0 <= i < |gone| && gone[i] == t { assert notes[i] == [0] + t; }
    }
  }

  /** Every step adds exactly the notifications it has to, behind those there are, and the user takes the oldest first. */
  lemma StepAddsWhatIsOwed(s: State, a: Action)
    requires Compact(s.subs, NOBODY) && Step(s, a).Ok?
    ensures var s' := Step(s, a).s;
      && Notes(s) <= Notes(s') && Owed(s, a, Since(s', |Notes(s)|))
      && s'.taken == if a.Recv? && s.pending != [] then s.taken + [s.pending[0]] else s.taken
  {
    hide Compact, Subscribers, AddSub, RemoveSub, DropPipe, PassedOn;
    match a
    case Message(p, data) =>
      if data != [] && data[0] <= 1 {
        assert [data[0]] + data[1..] == data;
        if data[0] == 1 {
          AddSubOwes(s, p, data[1..]);
          TakesNone(s, p, data[1..]);
        } else {
          RemoveSubOwes(s, p, data[1..]);
          TakesNone(s, p, data[1..]);
        }
      }
    case Terminated(p) =>
      DropPipeOwes(s, p, Unsubscriptions(Emptied(s.subs, p)));
      TakesNone(s, p, []);
    case AttachAll(p) =>
    case Recv => if s.pending != [] { assert s.taken + [s.pending[0]] + s.pending[1..] == s.taken + s.pending; }
    case SetVerbose(on) =>
  }

  lemma TakesNone(s: State, p: Pipe, t: Topic)
    ensures AddSub(s, p, t).taken == s.taken && DropPipe(s, p).taken == s.taken
    ensures RemoveSub(s, p, t).Ok? ==> RemoveSub(s, p, t).s.taken == s.taken
  {
  }

  // ------------------------------------------------------------ runs

  predicate Announces(note: Note) { note != [] && note[0] == 1 }

  /** No topic is announced that is announced already and not withdrawn since. */
  ghost predicate OnlyNews(notes: seq<Note>) {
    forall i | 0 <= i < |notes| && Announces(notes[i]) :: notes[i][1..] !in Replay(notes[..i])
  }

  lemma {:induction false} OneMoreNews(notes: seq<Note>, note: Note)
    requires OnlyNews(notes) && (Announces(note) ==> note[1..] !in Replay(notes))
    ensures OnlyNews(notes + [note])
  {
    hide Replay;
    var all := notes + [note];
    forall i | 0 <= i < |all| && Announces(all[i]) ensures all[i][1..] !in Replay(all[..i]) {
      if i < |notes| {
        assert all[..i] == notes[..i] && all[i] == notes[i];
      } else {
        assert all[..i] == notes;
      }
    }
  }

  lemma {:induction false} WithdrawalsAreNews(notes: seq<Note>, more: seq<Note>)
    requires OnlyNews(notes) && forall note | note in more :: !Announces(note)
    ensures OnlyNews(notes + more)
  {
    if more == [] {
      assert notes + more == notes;
    } else {
      WithdrawalsAreNews(notes, more[..|more| - 1]);
      OneMoreNews(notes + more[..|more| - 1], more[|more| - 1]);
      assert notes + more == notes + more[..|more| - 1] + [more[|more| - 1]];
    }
  }

  lemma StepIsNews(s: State, a: Action, untold: bool)
    requires Tells(s, untold) && !s.verbose && Step(s, a).Ok? && OnlyNews(Notes(s))
    ensures OnlyNews(Notes(Step(s, a).s))
  {
    hide Step, Compact, Subscribers, Replay, PassedOn, OnlyNews;
    var s' := Step(s, a).s;
    StepAddsWhatIsOwed(s, a);
    var more := Since(s', |Notes(s)|);
    assert Notes(s') == Notes(s) + more;
    if a.Message? && a.data != [] && a.data[0] == 1 {
      assert a.data[1..] in Replay(Notes(s)) <==> Known(s.subs, untold, a.data[1..]);
      if more == [] { assert Notes(s) + more == Notes(s); } else { OneMoreNews(Notes(s), a.data); }
    } else {
      forall note | note in more ensures !Announces(note) {
        if a.Terminated? {
          var t: Topic :| note == [0] + t;
        }
      }
      WithdrawalsAreNews(Notes(s), more);
    }
  }

  lemma VerboseStays(s: State, a: Action)
    requires Step(s, a).Ok?
    ensures Step(s, a).s.verbose == if a.SetVerbose? then a.on else s.verbose
  {
    hide Subscribe, Unsubscribe, WithoutPipe, Emptied;
  }

  /** In every run of a socket that is never verbose, no topic is announced twice without having been withdrawn in between. */
  lemma {:induction false} EveryAnnouncementIsNews(acts: seq<Action>)
    requires SetVerbose(true) !in acts
    ensures Exec(acts).Ok? ==> !Exec(acts).s.verbose && OnlyNews(Notes(Exec(acts).s))
  {
    hide Step, OnlyNews, Tells, Untold;
    if acts == [] {
      NoNews();
    } else if Exec(acts).Ok? {
      var init, a := acts[..|acts| - 1], acts[|acts| - 1];
      EveryAnnouncementIsNews(init);
      EveryRunIsTruthful(init);
      StepIsNews(Exec(init).s, a, Untold(init));
      VerboseStays(Exec(init).s, a);
    }
  }

  lemma NoNews()
    ensures OnlyNews(Notes(Init()))
  {
  }

  /** Every step of every run adds exactly what it owes. */
  lemma {:induction false} EveryStepAddsWhatIsOwed(acts: seq<Action>, a: Action)
    requires Exec(acts + [a]).Ok?
    ensures Exec(acts).Ok?
    ensures var s, s' := Exec(acts).s, Exec(acts + [a]).s;
      && Notes(s) <= Notes(s') && Owed(s, a, Since(s', |Notes(s)|))
      && s'.taken == if a.Recv? && s.pending != [] then s.taken + [s.pending[0]] else s.taken
  {
    hide Step, Owed, Untold;
    assert (acts + [a])[..|acts|] == acts;
    EveryRunIsTruthful(acts);
    StepAddsWhatIsOwed(Exec(acts).s, a);
  }

  // ------------------------------------------------------------ withdrawals of nothing

  /** An unsubscription that is passed on withdraws a topic the user knows of, if and only if its
      peer holds it and it is not the untold empty topic. */
  lemma WithdrawalIsNewsIff(s: State, p: Pipe, t: Topic, untold: bool)
    requires Tells(s, untold) && PassedOn(s, p, t)
    ensures t in Replay(Notes(s)) <==> p in Subscribers(s.subs, t) && !(untold && t == [])
  {
    hide Compact, Subscribers, Replay;
    assert t in Replay(Notes(s)) <==> Known(s.subs, untold, t);
  }

  /** A run: the first message of a new socket withdraws the empty topic, which was never announced. */
  lemma WithdrawalOfNothing(p: Pipe)
    ensures Exec([Message(p, [0])]).Ok? && Notes(Exec([Message(p, [0])]).s) == [[0]]
  {
    hide Subscribers;
    assert [Message(p, [0])][..0] == [];
    InitHasNobody([]);
    assert [0 as Byte][1..] == [];
    assert [0] + [] == [0 as Byte];
  }
}

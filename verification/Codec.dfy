/** The decoder and encoder objects, updated in place and proved against the machines of
    `DecoderSpec` and `EncoderSpec`. */
module Codec {
  import opened Basics
  import opened QueueSpec
  import opened Wire
  import opened Framing
  import opened DecoderSpec
  import opened CodecTheorems
  import opened EncoderSpec
  import opened BatchOffset

  /** Storing several bytes of one field at once is the same as one by one. */
  lemma {:induction false} FeedAfterStore(p: Peer, c: Conn, data: seq<Byte>, k: nat)
    requires c.d.Dec? && WellFormed(c.d) && k <= c.d.toRead && k <= |data|
    ensures WellFormed(Store(c, data[..k]).d)
    ensures k > 0 || c.d.toRead > 0 ==>
              Feed(p, c, data) == (Feed(p, Store(c, data[..k]), data[k..]).0, k + Feed(p, Store(c, data[..k]), data[k..]).1)
    decreases k
  {
    hide Feed, Settle, WellFormed;
    StoreKeepsForm(c, data[..k]);
    if k == 0 {
      assert Store(c, data[..0]) == c && data[0..] == data;
    } else {
      SettledStays(p, c);
      FeedUnfolds(p, c, data);
      var c1 := Store(c, data[..1]);
      StoreKeepsForm(c, data[..1]);
      assert data[1..][k - 1..] == data[k..];
      assert Store(c1, data[1..][..k - 1]) == Store(c, data[..k]) by {
        assert data[..1] + data[1..][..k - 1] == data[..k];
        assert c.d.filled + data[..1] + data[1..][..k - 1] == c.d.filled + data[..k];
      }
      if k > 1 { FeedAfterStore(p, c1, data[1..], k - 1); }
    }
  }

  class Decoder {
    const peer: Peer
    const bufsize: nat
    /** False once the stream is in error (the next step is NULL). */
    var alive: bool
    var step: Step
    var toRead: nat
    /** The bytes stored since the current field was started. */
    var filled: seq<Byte>
    var size: nat
    var more: bool
    /** The message sink: its coming answers and what it has taken. */
    var answers: seq<Answer>
    var delivered: seq<Msg>

    function State(): Conn
      reads this
    {
      Conn(if alive then Dec(step, toRead, filled, size, more) else Dead, answers, delivered)
    }

    constructor (peer: Peer, bufsize: nat, answers: seq<Answer>)
      ensures State() == Conn(Start(peer), answers, []) && WellFormed(State().d)
      ensures this.peer == peer && this.bufsize == bufsize
    {
      this.peer, this.bufsize := peer, bufsize;
      alive, toRead, filled, size, more := true, 1, [], 0, false;
      step := if peer.version == V0 then OneByteSize else FlagsReady;
      this.answers, delivered := answers, [];
    }

    /** The field of `n` bytes to read next, and the action that follows. */
    method NextStep(n: nat, step: Step)
      modifies this`toRead, this`filled, this`step
      ensures this.step == step && toRead == n && filled == []
    {
      toRead, filled := n, [];
      this.step := step;
    }

    method MessageReadyAction() returns (ok: bool)
      requires alive && toRead == 0 && step == MessageReady
      modifies this
      ensures State() == Push(peer, old(State()))
      ensures ok == (|delivered| > |old(delivered)|)
    {
      var answer := Busy;
      if answers != [] { answer, answers := answers[0], answers[1..]; }
      if answer != Accept {
        if answer != Busy { alive := false; }
        return false;
      }
      delivered := delivered + [Msg(filled, more)];
      size, more := 0, false;
      NextStep(1, if peer.version == V0 then OneByteSize else FlagsReady);
      return true;
    }

    /** The ZMTP 1.0 actions: one byte of size or an escape, eight bytes of size, flags. */
    method V0Action() returns (ok: bool)
      requires alive && WellFormed(State().d) && toRead == 0 && step != MessageReady && peer.version == V0
      modifies this
      ensures State() == old(State()).(d := Act(peer, old(State().d))) && ok == alive
    {
      match step {
        case OneByteSize =>
          if filled[0] == 255 {
            size, more := 0, false;
            NextStep(8, EightByteSize);
          } else {
            if filled[0] == 0 || (peer.maxSize >= 0 && filled[0] - 1 > peer.maxSize) { alive := false; return false; }
            size, more := filled[0] - 1, false;
            NextStep(1, FlagsReady);
          }
        case EightByteSize =>
          var payload := GetUint64(filled);
          if payload == 0 || (peer.maxSize >= 0 && payload - 1 > peer.maxSize) { alive := false; return false; }
          size, more := payload - 1, false;
          NextStep(1, FlagsReady);
        case FlagsReady =>
          more := filled[0] % 2 == 1;
          NextStep(size, MessageReady);
      }
      return true;
    }

    /** The ZMTP 2.0 actions: flags first, then one or eight bytes of size. */
    method V1Action() returns (ok: bool)
      requires alive && WellFormed(State().d) && toRead == 0 && step != MessageReady && peer.version == V1
      modifies this
      ensures State() == old(State()).(d := Act(peer, old(State().d))) && ok == alive
    {
      match step {
        case FlagsReady =>
          size, more := 0, filled[0] % 2 == 1;
          if (filled[0] / 2) % 2 == 1 { NextStep(8, EightByteSize); } else { NextStep(1, OneByteSize); }
        case OneByteSize =>
          if peer.maxSize >= 0 && filled[0] > peer.maxSize { alive := false; return false; }
          size := filled[0];
          NextStep(size, MessageReady);
        case EightByteSize =>
          size := GetUint64(filled);
          if peer.maxSize >= 0 && size > peer.maxSize { alive := false; return false; }
          NextStep(size, MessageReady);
      }
      return true;
    }

    method RunNext() returns (ok: bool)
      requires alive && WellFormed(State().d) && toRead == 0
      modifies this
      ensures (State(), ok) == Due(peer, old(State())) && WellFormed(State().d) && (ok ==> alive)
    {
      if step == MessageReady {
        ok := MessageReadyAction();
      } else if peer.version == V0 {
        ok := V0Action();
      } else {
        ok := V1Action();
      }
    }

    /** Run the state machine until it needs bytes; false if an action fails. */
    method RunUntilHungry() returns (ok: bool)
      requires alive && WellFormed(State().d)
      modifies this
      ensures (State(), ok) == Settle(peer, old(State())) && WellFormed(State().d)
    {
      hide Due, WellFormed;
      while toRead == 0
        invariant alive && WellFormed(State().d)
        invariant Settle(peer, State()) == Settle(peer, old(State()))
        decreases if toRead > 0 then 0 else if step == MessageReady then 1 else 2
      {
        DueRanks(peer, State());
        ok := RunNext();
        if !ok { return; }
      }
      return true;
    }

    /** A buffer to fill: a place inside the message itself if the message is large. */
    method GetBuffer() returns (zeroCopy: bool, room: nat)
      ensures zeroCopy <==> toRead >= bufsize
      ensures room == if zeroCopy then toRead else bufsize
    {
      if toRead >= bufsize { return true, toRead; }
      return false, bufsize;
    }

    /** Process a filled buffer. Whether it was filled in place or is copied, the effect is
        that of feeding its bytes; the result is the number taken, or -1 after an error. */
    method ProcessBuffer(zeroCopy: bool, data: seq<Byte>) returns (count: int)
      requires WellFormed(State().d)
      requires zeroCopy && alive ==> |data| <= toRead
      modifies this
      ensures WellFormed(State().d)
      ensures !old(alive) ==> count == -1 && State() == old(State())
      ensures old(alive) ==> State() == Feed(peer, old(State()), data).0
      ensures old(alive) ==> count == if alive then Feed(peer, old(State()), data).1 else -1
    {
      hide Feed, Due, WellFormed, Settle;
      if !alive { return -1; }
      ghost var start := State();

      if zeroCopy {
        // The bytes are in place already.
        if toRead > 0 {
          FeedAfterStore(peer, start, data, |data|);
        } else {
          assert data == [] && filled + data == filled;
        }
        assert data[..|data|] == data && data[|data|..] == [];
        filled, toRead := filled + data, toRead - |data|;
        assert State() == Store(start, data);
        FeedUnfolds(peer, State(), []);
        var _ := RunUntilHungry();
        return if alive then |data| else -1;
      }

      var pos := 0;
      assert data[0..] == data;
      while true
        invariant alive && WellFormed(State().d) && pos <= |data|
        invariant Feed(peer, start, data) == (Feed(peer, State(), data[pos..]).0, pos + Feed(peer, State(), data[pos..]).1)
        decreases |data| - pos
      {
        FeedUnfolds(peer, State(), data[pos..]);
        var ok := RunUntilHungry();
        if !ok {
          return if alive then pos else -1;
        }
        SettledStays(peer, State());
        FeedUnfolds(peer, State(), data[pos..]);
        if pos == |data| { return pos; }
        var k := Min(toRead, |data| - pos);
        ghost var before := State();
        FeedAfterStore(peer, before, data[pos..], k);
        assert data[pos..][..k] == data[pos..pos + k] && data[pos..][k..] == data[pos + k..];
        filled, toRead, pos := filled + data[pos..pos + k], toRead - k, pos + k;
        assert State() == Store(before, data[pos - k..pos]);
      }
    }

    /** Has all the data it needs, but cannot hand over its message. */
    method IsStalled() returns (stalled: bool)
      requires WellFormed(State().d)
      modifies this
      ensures WellFormed(State().d)
      ensures !old(alive) ==> !stalled && State() == old(State())
      ensures old(alive) ==> State() == Settle(peer, old(State())).0
      ensures old(alive) ==> (stalled <==> alive && !Settle(peer, old(State())).1)
    {
      hide Settle, WellFormed;
      if !alive { return false; }
      var ok := RunUntilHungry();
      return !ok && alive;
    }
  }

  /** Actions lead towards a state that needs bytes. */
  lemma DueRanks(p: Peer, c: Conn)
    requires c.d.Dec? && WellFormed(c.d) && c.d.toRead == 0
    ensures var (c', ok) := Due(p, c);
            ok ==> c'.d.Dec? && (c'.d.toRead > 0 || (c'.d.step == MessageReady && c.d.step != MessageReady))
  {
  }

  class Encoder {
    const version: Version
    var step: EncStep
    var toWrite: seq<Byte>
    var cur: Msg
    /** The message source: what each pull will yield, and what was pulled. */
    var source: seq<Option<Msg>>
    var pulled: seq<Msg>
    /** The next byte pulled begins a message. */
    var beginning: bool

    function State(): Enc
      reads this
    {
      Enc(step, toWrite, cur, source, pulled)
    }

    predicate Valid()
      reads this
    {
      beginning == Beginning(State())
    }

    constructor (version: Version, source: seq<Option<Msg>>)
      ensures Valid() && State() == NewEncoder(source) && this.version == version
    {
      this.version := version;
      step, toWrite, cur := PullMessage, [], Msg([], false);
      this.source, pulled, beginning := source, [], true;
    }

    method PullAction() returns (ok: bool)
      requires Valid() && step == PullMessage
      modifies this
      ensures Valid() && (State(), ok) == Next(version, old(State()))
    {
      if source == [] { return false; }
      var next := source[0];
      source := source[1..];
      if next == None { return false; }
      cur := next.value;
      pulled := pulled + [cur];
      var n := |cur.body|;
      if version == V0 {
        if n + 1 < 255 {
          toWrite := [n + 1, FlagsByte(cur.more, false)];
        } else {
          toWrite := [255] + PutUint64(n + 1) + [FlagsByte(cur.more, false)];
        }
      } else {
        if n > 255 {
          toWrite := [FlagsByte(cur.more, true)] + PutUint64(n);
        } else {
          toWrite := [FlagsByte(cur.more, false), n];
        }
      }
      step, beginning := WriteBody, false;
      return true;
    }

    method RunNext() returns (ok: bool)
      requires Valid()
      modifies this
      ensures Valid() && (State(), ok) == Next(version, old(State()))
    {
      if step == PullMessage {
        ok := PullAction();
      } else {
        toWrite, step, beginning := cur.body, PullMessage, !cur.more;
        ok := true;
      }
    }

    /** A batch of bytes for a buffer of `limit` bytes, its own or the caller's, and the offset
        of the first message in it. */
    method GetData(own: bool, limit: nat) returns (out: seq<Byte>, offset: Option<nat>)
      requires Valid()
      modifies this
      ensures Valid() && (State(), out) == Fill(version, old(State()), own, limit, 0)
      ensures offset == MessageOffset(version, old(State()), own, limit, 0)
    {
      hide Next, Fill, MessageOffset;
      ghost var goal := Fill(version, State(), own, limit, 0);
      ghost var first := MessageOffset(version, State(), own, limit, 0);
      out, offset := [], None;
      assert [] + goal.1 == goal.1;
      while |out| < limit
        invariant Valid() && |out| <= limit
        invariant var (e, rest) := Fill(version, State(), own, limit, |out|); goal == (e, out + rest)
        invariant first == if offset.Some? then offset else MessageOffset(version, State(), own, limit, |out|)
        decreases limit - |out|, if step == WriteBody then 1 else 0
      {
        ghost var before := State();
        Unfolds(version, before, own, limit, |out|);
        if toWrite == [] {
          if beginning && offset == None {
            offset := Some(|out|);
          }
          NextProgresses(version, before);
          var ok := RunNext();
          if !ok {
            assert out + [] == out;
            return;
          }
        }
        if out == [] && own && |toWrite| >= limit {
          out := toWrite;
          toWrite := [];
          assert [] + out == out;
          return;
        }
        var k := Min(|toWrite|, limit - |out|);
        ghost var mid := State();
        ghost var next := mid.(toWrite := mid.toWrite[k..]);
        Regroup(out, toWrite[..k], Fill(version, next, own, limit, |out| + k).1);
        out := out + toWrite[..k];
        toWrite := toWrite[k..];
        assert State() == next;
      }
      FullBatch(version, State(), own, limit, |out|);
      assert out + [] == out;
    }
  }
}

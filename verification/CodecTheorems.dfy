/** Decoding what was encoded, however the bytes are cut and whatever the sink says. */
module CodecTheorems {
  import opened Wire
  import opened Framing
  import opened DecoderSpec

  // ------------------------------------------------------------ following a frame

  /** The decoder is somewhere inside (or at the end of) the frame of `m`, and what it has
      stored and concluded agrees with it. */
  predicate Agrees(v: Version, d: Dec, m: Msg) {
    && d.Dec? && WellFormed(d)
    && match (v, d.step)
       case (V0, OneByteSize) => d.filled <= Header(v, m)[..1]
       case (V0, EightByteSize) => |m.body| + 1 >= 255 && d.filled <= PutUint64(|m.body| + 1)
       case (V0, FlagsReady) => d.size == |m.body| && d.filled <= [FlagsByte(m.more, false)]
       case (V1, FlagsReady) => d.filled <= Header(v, m)[..1]
       case (V1, OneByteSize) => |m.body| <= 255 && d.more == m.more && d.filled <= [|m.body|]
       case (V1, EightByteSize) => |m.body| > 255 && d.more == m.more && d.filled <= PutUint64(|m.body|)
       case (_, MessageReady) => d.size == |m.body| && d.more == m.more && d.filled <= m.body
  }

  /** Where in the frame the field being read begins. */
  function FieldStart(v: Version, step: Step, m: Msg): nat {
    match (v, step)
    case (V0, OneByteSize) => 0
    case (V0, EightByteSize) => 1
    case (V0, FlagsReady) => |Header(v, m)| - 1
    case (V1, FlagsReady) => 0
    case (V1, OneByteSize) => 1
    case (V1, EightByteSize) => 1
    case (_, MessageReady) => |Header(v, m)|
  }

  /** How many bytes of the frame have been consumed. */
  function Offset(v: Version, d: Dec, m: Msg): nat
    requires d.Dec?
  {
    FieldStart(v, d.step, m) + |d.filled|
  }

  lemma StoreAgrees(v: Version, c: Conn, m: Msg)
    requires Agrees(v, c.d, m) && c.d.toRead > 0
    ensures Offset(v, c.d, m) < |Frame(v, m)|
    ensures var c' := Store(c, [Frame(v, m)[Offset(v, c.d, m)]]);
            Agrees(v, c'.d, m) && Offset(v, c'.d, m) == Offset(v, c.d, m) + 1
  {
    hide PutUint64;
    var b := Frame(v, m)[Offset(v, c.d, m)];
    if c.d.step == MessageReady { assert b == m.body[|c.d.filled|]; }
  }

  lemma ActAgrees(p: Peer, d: Dec, m: Msg)
    requires Agrees(p.version, d, m) && d.toRead == 0 && d.step != MessageReady && Fits(m, p.maxSize)
    ensures Agrees(p.version, Act(p, d), m) && Offset(p.version, Act(p, d), m) == Offset(p.version, d, m)
  {
    if d.step == EightByteSize {
      var n := if p.version == V0 then |m.body| + 1 else |m.body|;
      assert d.filled == PutUint64(n);
      GetAfterPut(n);
      hide PutUint64, GetUint64;
    }
  }

  lemma CompleteMessage(v: Version, d: Dec, m: Msg)
    requires Agrees(v, d, m) && d.toRead == 0 && d.step == MessageReady
    ensures Msg(d.filled, d.more) == m && Offset(v, d, m) == |Frame(v, m)|
  {
  }

  // ------------------------------------------------------------ following a stream

  predicate NeverBroken(answers: seq<Answer>) { Broken !in answers }

  /** The first `n` bytes of the stream of `ms` have been consumed, and the messages handed
      over are the first ones of `ms`; a complete message may still be waiting. */
  predicate Tracks(p: Peer, ms: seq<Msg>, n: nat, c: Conn) {
    && c.d.Dec? && WellFormed(c.d) && NeverBroken(c.answers)
    && var k := |c.delivered|;
    && c.delivered <= ms
    && (k == |ms| ==> c.d == Start(p) && n == |Encode(p.version, ms)|)
    && (k < |ms| ==> Agrees(p.version, c.d, ms[k]) && n == |Encode(p.version, ms[..k])| + Offset(p.version, c.d, ms[k]))
  }

  lemma StartAgrees(p: Peer, m: Msg)
    ensures Agrees(p.version, Start(p), m) && Offset(p.version, Start(p), m) == 0
  {
  }

  lemma AgreesIsWellFormed(v: Version, d: Dec, m: Msg)
    requires Agrees(v, d, m)
    ensures d.Dec? && WellFormed(d)
  {
  }

  lemma StartTracks(p: Peer, ms: seq<Msg>, answers: seq<Answer>)
    requires NeverBroken(answers)
    ensures Tracks(p, ms, 0, Conn(Start(p), answers, []))
  {
  }

  /** The next byte of the stream is the next byte of the current frame. */
  lemma {:induction false} NextByte(p: Peer, ms: seq<Msg>, n: nat, c: Conn)
    requires Tracks(p, ms, n, c) && n < |Encode(p.version, ms)| && c.d.toRead > 0
    ensures var k := |c.delivered|;
            && k < |ms| && Offset(p.version, c.d, ms[k]) < |Frame(p.version, ms[k])|
            && Encode(p.version, ms)[n] == Frame(p.version, ms[k])[Offset(p.version, c.d, ms[k])]
  {
    hide Agrees, Offset, Frame, Encode;
    var v, k := p.version, |c.delivered|;
    StoreAgrees(v, c, ms[k]);
    EncodeStep(v, ms, k);
    EncodePrefix(v, ms, k + 1);
    assert Encode(v, ms)[n] == Encode(v, ms[..k + 1])[n];
  }

  lemma {:induction false} StoreTracks(p: Peer, ms: seq<Msg>, n: nat, c: Conn)
    requires Tracks(p, ms, n, c) && n < |Encode(p.version, ms)| && c.d.toRead > 0
    ensures Tracks(p, ms, n + 1, Store(c, [Encode(p.version, ms)[n]]))
  {
    hide Agrees, Offset, Frame, Encode;
    NextByte(p, ms, n, c);
    StoreAgrees(p.version, c, ms[|c.delivered|]);
  }

  lemma AcceptTracks(p: Peer, ms: seq<Msg>, n: nat, c: Conn)
    requires Tracks(p, ms, n, c) && c.d.toRead == 0 && c.d.step == MessageReady
    requires c.answers != [] && c.answers[0] == Accept
    ensures Tracks(p, ms, n, Push(p, c))
  {
    hide Frame, Encode, Agrees, Offset;
    var v, k := p.version, |c.delivered|;
    CompleteMessage(v, c.d, ms[k]);
    EncodeStep(v, ms, k);
    assert ms[..k] == c.delivered;
    assert c.delivered + [ms[k]] == ms[..k + 1];
    if k + 1 == |ms| { assert ms[..k + 1] == ms; } else { StartAgrees(p, ms[k + 1]); }
  }

  lemma DueTracks(p: Peer, ms: seq<Msg>, n: nat, c: Conn)
    requires Tracks(p, ms, n, c) && AllFit(ms, p.maxSize) && c.d.toRead == 0
    ensures var (c', ok) := Due(p, c);
            Tracks(p, ms, n, c') && (!ok ==> c'.d == c.d && c.d.step == MessageReady)
  {
    hide Agrees, Offset, Frame, Encode;
    if c.d.step == MessageReady {
      if c.answers != [] && c.answers[0] == Accept { AcceptTracks(p, ms, n, c); }
    } else {
      ActAgrees(p, c.d, ms[|c.delivered|]);
      AgreesIsWellFormed(p.version, Act(p, c.d), ms[|c.delivered|]);
    }
  }

  /** A complete message the sink has refused is waiting. */
  predicate Stalled(c: Conn) { c.d.Dec? && c.d.toRead == 0 && c.d.step == MessageReady }

  /** The state machine has nothing to do: it waits for bytes or for the sink. */
  predicate Rests(c: Conn) { c.d.Dec? && (c.d.toRead > 0 || Stalled(c)) }

  lemma {:induction false} SettleTracks(p: Peer, ms: seq<Msg>, n: nat, c: Conn)
    requires Tracks(p, ms, n, c) && AllFit(ms, p.maxSize)
    ensures var (c', ok) := Settle(p, c);
            Tracks(p, ms, n, c') && (!ok ==> Stalled(c'))
    decreases if c.d.toRead > 0 then 0 else if c.d.step == MessageReady then 1 else 2
  {
    hide Tracks, Encode, AllFit;
    Tracked(p, ms, n, c);
    if c.d.toRead == 0 {
      DueTracks(p, ms, n, c);
      var (c', ok) := Due(p, c);
      Tracked(p, ms, n, c');
      if ok { SettleTracks(p, ms, n, c'); }
    }
  }

  lemma SliceStep(s: seq<Byte>, n: nat, data: seq<Byte>)
    requires n + |data| <= |s| && data == s[n..n + |data|] && data != []
    ensures data[..1] == [s[n]] && data[1..] == s[n + 1..n + 1 + |data[1..]|]
  {
  }

  /** The definition of `Feed`, one step at a time. */
  lemma {:induction false} FeedUnfolds(p: Peer, c: Conn, data: seq<Byte>)
    requires c.d.Dec? && WellFormed(c.d)
    ensures var (c1, ok) := Settle(p, c);
            if !ok || data == [] then Feed(p, c, data) == (c1, 0)
            else
              var c2 := Store(c1, data[..1]);
              WellFormed(c2.d) && Feed(p, c, data) == (Feed(p, c2, data[1..]).0, Feed(p, c2, data[1..]).1 + 1)
  {
    hide Settle, WellFormed;
    var (c1, ok) := Settle(p, c);
    if ok && data != [] { StoreKeepsForm(c1, data[..1]); }
  }

  lemma StoreKeepsForm(c: Conn, bytes: seq<Byte>)
    requires c.d.Dec? && WellFormed(c.d) && |bytes| <= c.d.toRead
    ensures WellFormed(Store(c, bytes).d)
  {
  }

  /** Feeding the next piece of the stream keeps track, counts exactly the bytes taken, and
      stops early only at a message the sink refuses. */
  lemma {:induction false} FeedTracks(p: Peer, ms: seq<Msg>, n: nat, c: Conn, data: seq<Byte>)
    requires Tracks(p, ms, n, c) && AllFit(ms, p.maxSize)
    requires n + |data| <= |Encode(p.version, ms)| && data == Encode(p.version, ms)[n..n + |data|]
    ensures var (c', taken) := Feed(p, c, data);
            Tracks(p, ms, n + taken, c') && Rests(c') && (taken < |data| ==> Stalled(c'))
    decreases |data|
  {
    hide Tracks, Encode, Settle, AllFit, Feed, WellFormed;
    Tracked(p, ms, n, c);
    SettleTracks(p, ms, n, c);
    FeedUnfolds(p, c, data);
    var (c1, ok) := Settle(p, c);
    if ok && data != [] {
      SliceStep(Encode(p.version, ms), n, data);
      StoreTracks(p, ms, n, c1);
      FeedTracks(p, ms, n + 1, Store(c1, data[..1]), data[1..]);
    }
  }

  lemma Tracked(p: Peer, ms: seq<Msg>, n: nat, c: Conn)
    requires Tracks(p, ms, n, c)
    ensures c.d.Dec? && WellFormed(c.d)
  {
  }

  // ------------------------------------------------------------ whole receptions

  /** One call of the receiving loop: at most `len` bytes arrive, and the sink will give
      these answers. */
  datatype Call = Call(len: nat, answers: seq<Answer>)

  /** Receive a stream piece by piece; bytes a call did not take come again in the next. */
  function Receive(p: Peer, stream: seq<Byte>, calls: seq<Call>): (r: (Conn, nat))
    ensures WellFormed(r.0.d) && r.1 <= |stream|
  {
    if calls == [] then (Conn(Start(p), [], []), 0)
    else
      var (c, n) := Receive(p, stream, calls[..|calls| - 1]);
      if c.d.Dead? then (c, n)
      else
        var call := calls[|calls| - 1];
        var end := if n + call.len <= |stream| then n + call.len else |stream|;
        var (c', taken) := Feed(p, c.(answers := call.answers), stream[n..end]);
        (c', n + taken)
  }

  /** The stream may end anywhere, also within a frame. */
  lemma {:induction false} ReceiveTracks(p: Peer, ms: seq<Msg>, stream: seq<Byte>, calls: seq<Call>)
    requires AllFit(ms, p.maxSize) && forall i | 0 <= i < |calls| :: NeverBroken(calls[i].answers)
    requires stream <= Encode(p.version, ms)
    ensures var (c, n) := Receive(p, stream, calls); Tracks(p, ms, n, c) && Rests(c)
  {
    hide Encode, Feed, Tracks, AllFit;
    if calls == [] {
      StartTracks(p, ms, []);
    } else {
      var init, call := calls[..|calls| - 1], calls[|calls| - 1];
      ReceiveTracks(p, ms, stream, init);
      var (c, n) := Receive(p, stream, init);
      Tracked(p, ms, n, c);
      Reanswered(p, ms, n, c, call.answers);
      var end := if n + call.len <= |stream| then n + call.len else |stream|;
      FeedTracks(p, ms, n, c.(answers := call.answers), stream[n..end]);
    }
  }

  lemma Reanswered(p: Peer, ms: seq<Msg>, n: nat, c: Conn, answers: seq<Answer>)
    requires Tracks(p, ms, n, c) && NeverBroken(answers)
    ensures Tracks(p, ms, n, c.(answers := answers))
  {
  }

  /** After `n` bytes the messages handed over are those whose frames ended before, and the one
      whose frame ends here, unless the sink holds it up. */
  ghost predicate HandedOver(p: Peer, ms: seq<Msg>, n: nat, c: Conn) {
    && c.delivered <= ms && |Encode(p.version, c.delivered)| <= n
    && (c.delivered == ms ==> !Stalled(c) && n == |Encode(p.version, ms)|)
    && (|c.delivered| < |ms| ==>
          var next := |Encode(p.version, ms[..|c.delivered| + 1])|; n <= next && (Stalled(c) <==> n == next))
  }

  lemma {:induction false} TracksMeans(p: Peer, ms: seq<Msg>, n: nat, c: Conn)
    requires Tracks(p, ms, n, c) && Rests(c)
    ensures HandedOver(p, ms, n, c)
  {
    hide Encode, Offset, Agrees, Frame;
    var v, k := p.version, |c.delivered|;
    assert ms[..k] == c.delivered;
    if k < |ms| {
      EncodeStep(v, ms, k);
      if c.d.toRead > 0 {
        StoreAgrees(v, c, ms[k]);
      } else {
        CompleteMessage(v, c.d, ms[k]);
      }
    } else {
      assert c.delivered == ms;
    }
  }

  /** All messages are handed over exactly when all bytes are taken and the sink holds none up. */
  lemma {:induction false} AllHandedOver(p: Peer, ms: seq<Msg>, n: nat, c: Conn)
    requires HandedOver(p, ms, n, c)
    ensures n == |Encode(p.version, ms)| && !Stalled(c) <==> c.delivered == ms
  {
    hide Encode;
    var k := |c.delivered|;
    if k < |ms| {
      EncodePrefix(p.version, ms, k + 1);
    }
  }

  /** Round trip: for either framing, any messages within the limits, any cutting of the
      bytes into calls and any finite pattern of refusals, the decoder never fails, the
      bytes it reports as taken are exactly those it has consumed, the messages handed over
      are always a prefix of the original ones, and they are all of them exactly when the
      stream is used up and no message is waiting for the sink. */
  lemma {:induction false} EveryReceptionIsFaithful(p: Peer, ms: seq<Msg>, calls: seq<Call>)
    requires AllFit(ms, p.maxSize) && forall i | 0 <= i < |calls| :: NeverBroken(calls[i].answers)
    ensures var (c, n) := Receive(p, Encode(p.version, ms), calls);
            && c.d.Dec? && c.delivered <= ms && Tracks(p, ms, n, c) && HandedOver(p, ms, n, c)
            && (n == |Encode(p.version, ms)| && !Stalled(c) <==> c.delivered == ms)
  {
    hide Encode, Receive, Tracks;
    ReceiveTracks(p, ms, Encode(p.version, ms), calls);
    var (c, n) := Receive(p, Encode(p.version, ms), calls);
    TracksMeans(p, ms, n, c);
    AllHandedOver(p, ms, n, c);
  }

  /** Whatever has happened, once the sink accepts and the rest of the stream is offered,
      every message is handed over. */
  lemma {:induction false} EverythingArrives(p: Peer, ms: seq<Msg>, calls: seq<Call>, answers: seq<Answer>)
    requires AllFit(ms, p.maxSize) && forall i | 0 <= i < |calls| :: NeverBroken(calls[i].answers)
    requires |answers| > |Encode(p.version, ms)| && forall i | 0 <= i < |answers| :: answers[i] == Accept
    ensures var stream := Encode(p.version, ms);
            var (c, n) := Receive(p, stream, calls + [Call(|stream|, answers)]);
            c.delivered == ms && n == |stream|
  {
    hide Encode, Feed, Tracks, AllFit;
    var stream := Encode(p.version, ms);
    var last := Call(|stream|, answers);
    var all := calls + [last];
    assert all[..|calls|] == calls;
    ReceiveTracks(p, ms, stream, calls);
    var (c, n) := Receive(p, stream, calls);
    Tracked(p, ms, n, c);
    Reanswered(p, ms, n, c, answers);
    WillingSinkTakesAll(p, ms, n, c.(answers := answers), stream[n..|stream|]);
    EveryReceptionIsFaithful(p, ms, all);
  }

  /** As long as the sink accepts, a call takes everything it is given. */
  lemma {:induction false} WillingSinkTakesAll(p: Peer, ms: seq<Msg>, n: nat, c: Conn, data: seq<Byte>)
    requires Tracks(p, ms, n, c) && AllFit(ms, p.maxSize)
    requires n + |data| <= |Encode(p.version, ms)| && data == Encode(p.version, ms)[n..n + |data|]
    requires |c.answers| > |data| && forall i | 0 <= i < |c.answers| :: c.answers[i] == Accept
    ensures Feed(p, c, data).1 == |data| && !Stalled(Feed(p, c, data).0)
    decreases |data|
  {
    hide Tracks, Encode, Settle, AllFit, Feed, WellFormed;
    Tracked(p, ms, n, c);
    SettleTracks(p, ms, n, c);
    SettleWillingly(p, ms, n, c);
    FeedUnfolds(p, c, data);
    var (c1, ok) := Settle(p, c);
    if data != [] {
      SliceStep(Encode(p.version, ms), n, data);
      StoreTracks(p, ms, n, c1);
      WillingSinkTakesAll(p, ms, n + 1, Store(c1, data[..1]), data[1..]);
    }
  }

  lemma {:induction false} SettleWillingly(p: Peer, ms: seq<Msg>, n: nat, c: Conn)
    requires Tracks(p, ms, n, c) && AllFit(ms, p.maxSize)
    requires c.answers != [] && forall i | 0 <= i < |c.answers| :: c.answers[i] == Accept
    ensures var (c', ok) := Settle(p, c);
            ok && |c'.answers| >= |c.answers| - 1 && forall i | 0 <= i < |c'.answers| :: c'.answers[i] == Accept
    decreases if c.d.toRead > 0 then 0 else if c.d.step == MessageReady then 1 else 2
  {
    hide Tracks, Encode, AllFit;
    Tracked(p, ms, n, c);
    if c.d.toRead == 0 {
      DueTracks(p, ms, n, c);
      var (c', ok) := Due(p, c);
      Tracked(p, ms, n, c');
      if c.d.step != MessageReady && ok { SettleWillingly(p, ms, n, c'); }
    }
  }

  lemma {:induction false} SettledStays(p: Peer, c: Conn)
    requires c.d.Dec? && WellFormed(c.d) && c.d.toRead > 0
    ensures Settle(p, c) == (c, true)
  {
  }

  /** For any bytes, valid or not: a buffer fed in two calls is as good as in one. */
  lemma {:induction false} SplittingDoesNotMatter(p: Peer, c: Conn, a: seq<Byte>, b: seq<Byte>)
    requires c.d.Dec? && WellFormed(c.d)
    requires var (c1, n) := Feed(p, c, a); n == |a| && c1.d.Dec? && c1.d.toRead > 0
    ensures var (c1, _) := Feed(p, c, a);
            Feed(p, c, a + b) == (Feed(p, c1, b).0, |a| + Feed(p, c1, b).1)
    decreases |a|
  {
    hide Feed, Settle;
    FeedUnfolds(p, c, a);
    FeedUnfolds(p, c, a + b);
    var (c1, ok) := Settle(p, c);
    if a == [] {
      assert a + b == b;
      SettledStays(p, c1);
      FeedUnfolds(p, c1, b);
    } else {
      assert (a + b)[..1] == a[..1] && (a + b)[1..] == a[1..] + b;
      SplittingDoesNotMatter(p, Store(c1, a[..1]), a[1..], b);
    }
  }
}

/** What decoders do with streams of the encoders' making, within the limits and beyond them, and
    with streams in error. */
module StreamLimits {
  import opened Wire
  import opened Framing
  import opened DecoderSpec
  import opened CodecTheorems
  import opened StreamParser

  predicate Willing(answers: seq<Answer>) { forall i | 0 <= i < |answers| :: answers[i] == Accept }

  lemma {:induction false} SettleWillingly(p: Peer, c: Conn)
    requires c.d.Dec? && WellFormed(c.d) && Willing(c.answers) && c.answers != []
    ensures var (c', ok) := Settle(p, c); (ok || c'.d.Dead?) && |c'.answers| >= |c.answers| - 1 && Willing(c'.answers)
    decreases if c.d.toRead > 0 then 0 else if c.d.step == MessageReady then 1 else 2
  {
    hide GetUint64;
    if c.d.toRead == 0 && c.d.step != MessageReady {
      var (c', ok) := Due(p, c);
      if ok { SettleWillingly(p, c'); }
    }
  }

  /** An accepting sink lets a call take every byte, unless the stream is in error. */
  lemma {:induction false} FeedWillingly(p: Peer, c: Conn, data: seq<Byte>)
    requires c.d.Dec? && WellFormed(c.d) && Willing(c.answers) && |c.answers| > |data|
    ensures var (c', taken) := Feed(p, c, data); c'.d.Dead? || (taken == |data| && !Stalled(c'))
    decreases |data|
  {
    hide Settle, Feed, WellFormed;
    SettleWillingly(p, c);
    FeedUnfolds(p, c, data);
    var (c1, ok) := Settle(p, c);
    if ok && data != [] { FeedWillingly(p, Store(c1, data[..1]), data[1..]); }
  }

  /**
   * For any stream and whatever has happened, once the sink accepts and the rest of the stream is
   * offered, exactly the messages that the grammar finds in the stream have been handed over, and
   * the decoder is dead exactly if the stream is in error.
   */
  lemma {:induction false} WillingSinkGetsTheParse(p: Peer, stream: seq<Byte>, calls: seq<Call>, answers: seq<Answer>)
    requires forall i | 0 <= i < |calls| :: NeverBroken(calls[i].answers)
    requires Willing(answers) && |answers| > |stream|
    ensures var (c, n) := Receive(p, stream, calls + [Call(|stream|, answers)]);
      var r := Parse(p, stream);
      c.delivered == r.ms && (c.d.Dead? <==> r.bad) && (!r.bad ==> n == |stream|)
  {
    hide Parse, Feed, WellFormed, NeverBroken;
    var all := calls + [Call(|stream|, answers)];
    assert all[..|calls|] == calls;
    WillingIsUnbroken(answers);
    EveryStreamIsParsed(p, stream, all);
    EveryStreamIsParsed(p, stream, calls);
    var (c0, n0) := Receive(p, stream, calls);
    var (c, n) := Receive(p, stream, all);
    if c0.d.Dec? {
      FeedWillingly(p, c0.(answers := answers), stream[n0..|stream|]);
    }
    assert stream == stream[..n] + stream[n..];
    ParseExtends(p, stream[..n], stream[n..]);
    if c.d.Dec? { assert stream[..n] == stream; }
  }

  lemma WillingIsUnbroken(answers: seq<Answer>)
    requires Willing(answers)
    ensures NeverBroken(answers)
  {
  }

  // ------------------------------------------------------------ encoded messages

  /** Sizes that both framings can express. */
  predicate Expressible(m: Msg) { |m.body| + 1 < UINT64_RANGE }

  /** The size in the header of a frame. */
  lemma FrameSize(v: Version, m: Msg)
    requires Expressible(m)
    ensures var b, n := Frame(v, m), if v == V0 then |m.body| + 1 else |m.body|;
      && b != [] && |b| == |Header(v, m)| + |m.body| && BodyStart(v, b) == |Header(v, m)|
      && (if Large(v, b) then b[1..9] == PutUint64(n) else n < 256 && b[SizeEnd(v, b) - 1..SizeEnd(v, b)] == [n])
  {
    hide PutUint64;
    var b := Frame(v, m);
    assert Large(v, b) ==> b[1..9] == Header(v, m)[1..9];
  }

  lemma FrameAnnounces(v: Version, m: Msg)
    requires Expressible(m)
    ensures var b := Frame(v, m);
      b != [] && |b| == BodyStart(v, b) + |m.body| && Announced(v, b) == |m.body|
  {
    hide PutUint64, GetUint64, Number, Frame, Header;
    FrameSize(v, m);
    var n := if v == V0 then |m.body| + 1 else |m.body|;
    GetAfterPut(n);
    NumberOfEight(PutUint64(n));
    if n < 256 { OneByteNumber(n); }
  }

  lemma FrameHolds(v: Version, m: Msg)
    requires Expressible(m)
    ensures var b := Frame(v, m);
      b != [] && BodyStart(v, b) <= |b| && b[BodyStart(v, b)..] == m.body && HasMore(v, b) == m.more
  {
    hide PutUint64;
    FrameSize(v, m);
  }

  lemma FrameParses(p: Peer, m: Msg)
    requires Expressible(m)
    ensures FirstFrame(p, Frame(p.version, m)) == if Allowed(p, |m.body|) then Whole(m, |Frame(p.version, m)|) else Bad
  {
    hide Frame, Announced, HasMore;
    var b := Frame(p.version, m);
    FrameAnnounces(p.version, m);
    FrameHolds(p.version, m);
    assert b[BodyStart(p.version, b)..|b|] == b[BodyStart(p.version, b)..];
  }

  lemma {:induction false} EncodedParses(p: Peer, ms: seq<Msg>)
    requires forall i | 0 <= i < |ms| :: Expressible(ms[i]) && Allowed(p, |ms[i].body|)
    ensures Parse(p, Encode(p.version, ms)) == Parsed(ms, [], false)
  {
    hide FirstFrame, Parse, Frame;
    if ms == [] {
      NothingParsed(p);
    } else {
      var init, m := ms[..|ms| - 1], ms[|ms| - 1];
      EncodedParses(p, init);
      FrameParses(p, m);
      OneFrame(p, Encode(p.version, init), Frame(p.version, m), init);
      assert init + [m] == ms;
    }
  }

  /** The messages before the first one over the limit, and an error exactly if there is one. */
  lemma {:induction false} EncodedParsesUpToTheLimit(p: Peer, ms: seq<Msg>, k: nat)
    requires k <= |ms| && (forall i | 0 <= i < |ms| :: Expressible(ms[i]))
    requires (forall i | 0 <= i < k :: Allowed(p, |ms[i].body|)) && (k < |ms| ==> !Allowed(p, |ms[k].body|))
    ensures Parse(p, Encode(p.version, ms)).ms == ms[..k] && (Parse(p, Encode(p.version, ms)).bad <==> k < |ms|)
  {
    hide FirstFrame, Parse, Frame, Encode;
    var v := p.version;
    EncodedParses(p, ms[..k]);
    if k == |ms| {
      assert ms[..k] == ms;
    } else {
      FrameParses(p, ms[k]);
      OneFrame(p, Encode(v, ms[..k]), Frame(v, ms[k]), ms[..k]);
      EncodeStep(v, ms, k);
      EncodePrefix(v, ms, k + 1);
      var upto := Encode(v, ms[..k + 1]);
      assert Encode(v, ms) == upto + Encode(v, ms)[|upto|..];
      ParseExtends(p, upto, Encode(v, ms)[|upto|..]);
    }
  }

  /**
   * Of a stream of messages the first of which over the receiver's limit is number `k`, an accepting
   * sink gets exactly those before it, however the bytes are cut, and the decoder is dead exactly
   * if there is such a message.
   */
  lemma {:induction false} TheLimitStops(p: Peer, ms: seq<Msg>, k: nat, calls: seq<Call>, answers: seq<Answer>)
    requires k <= |ms| && (forall i | 0 <= i < |ms| :: Expressible(ms[i]))
    requires (forall i | 0 <= i < k :: Allowed(p, |ms[i].body|)) && (k < |ms| ==> !Allowed(p, |ms[k].body|))
    requires forall i | 0 <= i < |calls| :: NeverBroken(calls[i].answers)
    requires Willing(answers) && |answers| > |Encode(p.version, ms)|
    ensures var stream := Encode(p.version, ms);
      var (c, _) := Receive(p, stream, calls + [Call(|stream|, answers)]);
      c.delivered == ms[..k] && (c.d.Dead? <==> k < |ms|)
  {
    hide Parse, Receive, Encode;
    EncodedParsesUpToTheLimit(p, ms, k);
    WillingSinkGetsTheParse(p, Encode(p.version, ms), calls, answers);
  }

  // ------------------------------------------------------------ streams in error

  /** A frame of version 0 that announces length 0, in either form of the size, ends it all, whatever follows. */
  lemma {:induction false} LengthZeroKills(maxSize: int, b: seq<Byte>)
    requires [0] <= b || [255, 0, 0, 0, 0, 0, 0, 0, 0] <= b
    ensures Parse(Peer(V0, maxSize), b) == Parsed([], b, true)
  {
    if [0] <= b {
      assert b[0] == [0 as Byte][0] && b[0..1] == [0];
      OneByteNumber(0);
    } else {
      var zeros: seq<Byte> := [0, 0, 0, 0, 0, 0, 0, 0];
      var header: seq<Byte> := [255, 0, 0, 0, 0, 0, 0, 0, 0];
      assert b[0] == header[0] && b[1..9] == header[1..9] == zeros;
      NumberOfEight(zeros);
      hide Number;
    }
  }

  /** The first eleven of a stream of version 1 with a limit of ten. */
  lemma {:induction false} OverTheLimitByOne(rest: seq<Byte>)
    ensures Parse(Peer(V1, 10), [0, 11] + rest) == Parsed([], [0, 11] + rest, true)
  {
    var b: seq<Byte> := [0, 11] + rest;
    assert b[0] == 0 && b[1..2] == [11];
    OneByteNumber(11);
  }

  // ------------------------------------------------------------ the bytes of a frame

  /** The bytes of a frame with a body of 300 bytes and more to come, in either framing. */
  lemma FrameOf300(body: seq<Byte>)
    requires |body| == 300
    ensures Frame(V0, Msg(body, true)) == [255, 0, 0, 0, 0, 0, 0, 1, 45, 1] + body
    ensures Frame(V1, Msg(body, true)) == [3, 0, 0, 0, 0, 0, 0, 1, 44] + body
  {
    assert PutUint64(301) == [0, 0, 0, 0, 0, 0, 1, 45];
    assert PutUint64(300) == [0, 0, 0, 0, 0, 0, 1, 44];
  }

  /** The number written has its most significant byte first. */
  lemma PutIsBigEndian(v: nat)
    requires v < UINT64_RANGE
    ensures Number(PutUint64(v)) == v
  {
    GetAfterPut(v);
    NumberOfEight(PutUint64(v));
  }
}

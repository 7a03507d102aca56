/** Both framings as grammars of arbitrary byte strings, and the decoders against them: what they
    hand over and when they give up, for any bytes, valid or not. */
module StreamParser {
  import opened Wire
  import opened Framing
  import opened DecoderSpec
  import opened CodecTheorems

  // ------------------------------------------------------------ the grammar

  /** The number a string of bytes stands for, most significant byte first. */
  function Number(b: seq<Byte>): nat {
    if b == [] then 0 else 256 * Number(b[..|b| - 1]) + b[|b| - 1]
  }

  /** The size takes eight bytes, not one. */
  predicate Large(v: Version, b: seq<Byte>)
    requires b != []
  {
    if v == V0 then b[0] == 255 else (b[0] / 2) % 2 == 1
  }

  /** Where the size ends. */
  function SizeEnd(v: Version, b: seq<Byte>): nat
    requires b != []
  {
    if Large(v, b) then 9 else if v == V0 then 1 else 2
  }

  /** The size of the body. Version 0 counts the flags byte, which comes behind the size. */
  function Announced(v: Version, b: seq<Byte>): int
    requires b != [] && |b| >= SizeEnd(v, b)
  {
    var n := Number(if Large(v, b) then b[1..9] else b[SizeEnd(v, b) - 1..SizeEnd(v, b)]);
    if v == V0 then n - 1 else n
  }

  function BodyStart(v: Version, b: seq<Byte>): nat
    requires b != []
  {
    if v == V0 then SizeEnd(v, b) + 1 else SizeEnd(v, b)
  }

  predicate HasMore(v: Version, b: seq<Byte>)
    requires b != [] && |b| >= BodyStart(v, b)
  {
    b[if v == V0 then SizeEnd(v, b) else 0] % 2 == 1
  }

  /** A string begins with less than a frame, or with a size that is impossible or over the limit, or with a frame. */
  datatype First = Short | Bad | Whole(m: Msg, length: nat)

  function FirstFrame(p: Peer, b: seq<Byte>): (r: First)
    ensures r.Whole? ==> 0 < r.length <= |b|
  {
    var v := p.version;
    if b == [] || |b| < SizeEnd(v, b) then Short
    else
      var size := Announced(v, b);
      if size < 0 || (p.maxSize >= 0 && size > p.maxSize) then Bad
      else if |b| < BodyStart(v, b) + size then Short
      else Whole(Msg(b[BodyStart(v, b)..BodyStart(v, b) + size], HasMore(v, b)), BodyStart(v, b) + size)
  }

  /** All messages of a string, what is left behind them, and whether that is in error. */
  datatype Parsed = Parsed(ms: seq<Msg>, rest: seq<Byte>, bad: bool)

  function Parse(p: Peer, b: seq<Byte>): Parsed
    decreases |b|
  {
    match FirstFrame(p, b)
    case Short => Parsed([], b, false)
    case Bad => Parsed([], b, true)
    case Whole(m, length) =>
      var r := Parse(p, b[length..]);
      Parsed([m] + r.ms, r.rest, r.bad)
  }

  /** What a header says does not change as more is read. */
  lemma HeaderStays(v: Version, b: seq<Byte>, x: seq<Byte>)
    requires b != []
    ensures Large(v, b + x) == Large(v, b) && SizeEnd(v, b + x) == SizeEnd(v, b) && BodyStart(v, b + x) == BodyStart(v, b)
    ensures |b| >= SizeEnd(v, b) ==> Announced(v, b + x) == Announced(v, b)
    ensures |b| >= BodyStart(v, b) ==> HasMore(v, b + x) == HasMore(v, b)
  {
    hide Number;
    assert (b + x)[0] == b[0];
    if |b| >= SizeEnd(v, b) {
      var n := SizeEnd(v, b);
      assert (b + x)[n - 1..n] == b[n - 1..n];
      assert n == 9 ==> (b + x)[1..9] == b[1..9];
    }
  }

  /** A beginning that is a frame, or in error, stays so whatever follows. */
  lemma FirstStays(p: Peer, b: seq<Byte>, x: seq<Byte>)
    requires !FirstFrame(p, b).Short?
    ensures FirstFrame(p, b + x) == FirstFrame(p, b)
  {
    hide Announced, HasMore;
    HeaderStays(p.version, b, x);
    if FirstFrame(p, b).Whole? {
      var start, end := BodyStart(p.version, b), FirstFrame(p, b).length;
      assert (b + x)[start..end] == b[start..end];
    }
  }

  lemma {:induction false} ParseUnfolds(p: Peer, b: seq<Byte>)
    ensures match FirstFrame(p, b)
      case Short => Parse(p, b) == Parsed([], b, false)
      case Bad => Parse(p, b) == Parsed([], b, true)
      case Whole(m, length) =>
        var r := Parse(p, b[length..]);
        Parse(p, b) == Parsed([m] + r.ms, r.rest, r.bad)
  {
    hide FirstFrame;
  }

  /** Parsing goes on where it stopped. */
  lemma {:induction false} ParseExtends(p: Peer, b: seq<Byte>, x: seq<Byte>)
    ensures var r := Parse(p, b);
      if r.bad then Parse(p, b + x) == Parsed(r.ms, r.rest + x, true)
      else
        var more := Parse(p, r.rest + x);
        Parse(p, b + x) == Parsed(r.ms + more.ms, more.rest, more.bad)
    decreases |b|
  {
    hide FirstFrame, Parse;
    ParseUnfolds(p, b);
    ParseUnfolds(p, b + x);
    if FirstFrame(p, b).Short? {
      assert [] + Parse(p, b + x).ms == Parse(p, b + x).ms;
    } else {
      FirstStays(p, b, x);
      if FirstFrame(p, b).Whole? {
        var m, length := FirstFrame(p, b).m, FirstFrame(p, b).length;
        ParseExtends(p, b[length..], x);
        assert (b + x)[length..] == b[length..] + x;
        var r := Parse(p, b[length..]);
        assert !r.bad ==> [m] + (r.ms + Parse(p, r.rest + x).ms) == [m] + r.ms + Parse(p, r.rest + x).ms;
      }
    }
  }

  /** No message beyond the limit is parsed. */
  lemma {:induction false} ParsedFits(p: Peer, b: seq<Byte>, i: nat)
    requires i < |Parse(p, b).ms| && p.maxSize >= 0
    ensures |Parse(p, b).ms[i].body| <= p.maxSize
    decreases |b|
  {
    hide Number;
    var length := FirstFrame(p, b).length;
    if i > 0 { ParsedFits(p, b[length..], i - 1); }
  }

  // ------------------------------------------------------------ the decoder within a frame

  lemma {:induction false} NumberOfEight(b: seq<Byte>)
    requires |b| == 8
    ensures GetUint64(b) == Number(b)
  {
    NumberStep(b, 7);
    NumberStep(b, 6);
    NumberStep(b, 5);
    NumberStep(b, 4);
    NumberStep(b, 3);
    NumberStep(b, 2);
    NumberStep(b, 1);
    NumberStep(b, 0);
    hide Number;
    assert b[..8] == b && Number(b[..0]) == 0;
  }

  lemma {:induction false} NumberStep(b: seq<Byte>, k: nat)
    requires k < |b|
    ensures Number(b[..k + 1]) == 256 * Number(b[..k]) + b[k] && Number([]) == 0
  {
    assert b[..k + 1][..k] == b[..k];
  }

  predicate Within(p: Peer, size: int) { size >= 0 && (p.maxSize < 0 || size <= p.maxSize) }

  /** The decoder has read `part` of a frame, and knows of it what there is to know. */
  ghost predicate Eaten(p: Peer, d: Dec, part: seq<Byte>) {
    && d.Dec? && WellFormed(d)
    && match (p.version, d.step)
       case (V0, OneByteSize) => d.filled == part
       case (V0, EightByteSize) => part == [255] + d.filled
       case (V0, FlagsReady) =>
         && part != [] && |part| == SizeEnd(V0, part) + |d.filled| && part[SizeEnd(V0, part)..] == d.filled
         && Announced(V0, part) == d.size && Within(p, d.size)
       case (V1, FlagsReady) => d.filled == part
       case (V1, OneByteSize) => part != [] && !Large(V1, part) && part[1..] == d.filled && d.more == (part[0] % 2 == 1)
       case (V1, EightByteSize) => part != [] && Large(V1, part) && part[1..] == d.filled && d.more == (part[0] % 2 == 1)
       case (v, MessageReady) =>
         && part != [] && |part| == BodyStart(v, part) + |d.filled| && part[BodyStart(v, part)..] == d.filled
         && Announced(v, part) == d.size && Within(p, d.size) && d.more == HasMore(v, part)
  }

  lemma StartEats(p: Peer)
    ensures Eaten(p, Start(p), [])
  {
  }

  lemma StoreEats(p: Peer, c: Conn, part: seq<Byte>, x: Byte)
    requires Eaten(p, c.d, part) && c.d.toRead > 0
    ensures Eaten(p, Store(c, [x]).d, part + [x])
  {
    hide Announced, HasMore;
    if part != [] {
      HeaderStays(p.version, part, [x]);
      var n := |part| - |c.d.filled|;
      assert (part + [x])[n..] == part[n..] + [x];
    }
  }

  lemma ReadyEats(p: Peer, d: Dec, part: seq<Byte>)
    requires Eaten(p, d, part) && d.toRead == 0 && d.step == MessageReady
    ensures FirstFrame(p, part) == Whole(Msg(d.filled, d.more), |part|)
  {
    hide Announced, HasMore;
  }

  lemma OneByteNumber(x: Byte)
    ensures Number([x]) == x
  {
    assert [x][..0] == [];
  }

  /** The size is known: it is in error, or the flags come next. */
  lemma SizeEats(p: Peer, part: seq<Byte>, length: nat)
    requires p.version == V0 && part != [] && |part| == SizeEnd(V0, part) && Announced(V0, part) == length - 1
    ensures if length == 0 || !Allowed(p, length - 1) then FirstFrame(p, part) == Bad
            else Eaten(p, Dec(FlagsReady, 1, [], length - 1, false), part)
  {
    hide Number, Announced;
  }

  lemma ActEatsV0(p: Peer, d: Dec, part: seq<Byte>)
    requires p.version == V0 && Eaten(p, d, part) && d.toRead == 0 && d.step != MessageReady
    ensures if Act(p, d).Dead? then FirstFrame(p, part) == Bad else Eaten(p, Act(p, d), part)
  {
    hide GetUint64, Number, FirstFrame, HasMore;
    if d.step == OneByteSize {
      assert part[0..1] == [part[0]];
      OneByteNumber(part[0]);
      if part[0] != 255 { SizeEats(p, part, part[0]); }
    } else if d.step == EightByteSize {
      assert part[1..9] == d.filled;
      NumberOfEight(d.filled);
      SizeEats(p, part, GetUint64(d.filled));
    } else {
      FlagsEat(p, d, part);
    }
  }

  lemma FlagsEat(p: Peer, d: Dec, part: seq<Byte>)
    requires p.version == V0 && Eaten(p, d, part) && d.toRead == 0 && d.step == FlagsReady
    ensures Eaten(p, Dec(MessageReady, d.size, [], d.size, d.filled[0] % 2 == 1), part)
  {
    hide Number, Announced;
    assert part[SizeEnd(V0, part)..][0] == part[SizeEnd(V0, part)];
  }

  lemma ActEatsV1(p: Peer, d: Dec, part: seq<Byte>)
    requires p.version == V1 && Eaten(p, d, part) && d.toRead == 0 && d.step != MessageReady
    ensures if Act(p, d).Dead? then FirstFrame(p, part) == Bad else Eaten(p, Act(p, d), part)
  {
    if d.step == OneByteSize {
      assert part[1..2] == [part[1]];
      OneByteNumber(part[1]);
    } else if d.step == EightByteSize {
      assert part[1..9] == d.filled;
      NumberOfEight(d.filled);
      hide GetUint64, Number;
    }
  }

  lemma ShortEats(p: Peer, d: Dec, part: seq<Byte>)
    requires Eaten(p, d, part) && d.toRead > 0
    ensures FirstFrame(p, part) == Short
  {
    hide Number, HasMore;
  }

  // ------------------------------------------------------------ the decoder on a stream

  /** The decoder has read `base`, all of whose messages the sink has taken, and `part` of a frame. */
  ghost predicate Follows(p: Peer, base: seq<Byte>, part: seq<Byte>, c: Conn, mayBreak: bool) {
    && Parse(p, base) == Parsed(c.delivered, [], false)
    && (mayBreak || NeverBroken(c.answers))
    && if c.d.Dec? then Eaten(p, c.d, part)
       else FirstFrame(p, part) == Bad || (mayBreak && FirstFrame(p, part).Whole? && FirstFrame(p, part).length == |part|)
  }

  lemma {:induction false} OneFrame(p: Peer, base: seq<Byte>, part: seq<Byte>, ms: seq<Msg>)
    requires Parse(p, base) == Parsed(ms, [], false)
    ensures match FirstFrame(p, part)
      case Short => Parse(p, base + part) == Parsed(ms, part, false)
      case Bad => Parse(p, base + part) == Parsed(ms, part, true)
      case Whole(m, length) => length == |part| ==> Parse(p, base + part) == Parsed(ms + [m], [], false)
  {
    hide FirstFrame;
    ParseExtends(p, base, part);
    assert [] + part == part;
    match FirstFrame(p, part) {
      case Short => assert ms + [] == ms;
      case Bad => assert ms + [] == ms;
      case Whole(m, length) =>
        if length == |part| {
          assert part[length..] == [];
          NothingParsed(p);
          assert [m] + [] == [m];
        }
    }
  }

  lemma {:induction false} NothingParsed(p: Peer)
    ensures Parse(p, []) == Parsed([], [], false)
  {
  }

  lemma ActEats(p: Peer, d: Dec, part: seq<Byte>)
    requires Eaten(p, d, part) && d.toRead == 0 && d.step != MessageReady
    ensures if Act(p, d).Dead? then FirstFrame(p, part) == Bad else Eaten(p, Act(p, d), part)
    ensures Act(p, d).Dec? ==> Act(p, d).toRead > 0 || Act(p, d).step == MessageReady
  {
    hide Eaten, FirstFrame;
    if p.version == V0 { ActEatsV0(p, d, part); } else { ActEatsV1(p, d, part); }
  }

  lemma {:induction false} PushFollows(p: Peer, base: seq<Byte>, part: seq<Byte>, c: Conn, mayBreak: bool) returns (base': seq<Byte>, part': seq<Byte>)
    requires Follows(p, base, part, c, mayBreak) && c.d.Dec? && c.d.toRead == 0 && c.d.step == MessageReady
    ensures base' + part' == base + part && Follows(p, base', part', Push(p, c), mayBreak)
  {
    hide Eaten, FirstFrame, Parse;
    ReadyEats(p, c.d, part);
    OneFrame(p, base, part, c.delivered);
    if c.answers != [] && c.answers[0] == Accept {
      StartEats(p);
      base', part' := base + part, [];
    } else {
      base', part' := base, part;
    }
  }

  lemma {:induction false} SettleFollows(p: Peer, base: seq<Byte>, part: seq<Byte>, c: Conn, mayBreak: bool) returns (base': seq<Byte>, part': seq<Byte>)
    requires Follows(p, base, part, c, mayBreak) && c.d.Dec?
    ensures WellFormed(c.d)
    ensures base' + part' == base + part && Follows(p, base', part', Settle(p, c).0, mayBreak)
    ensures !Settle(p, c).1 ==> Settle(p, c).0.d.Dead? || Stalled(Settle(p, c).0)
    decreases if c.d.toRead > 0 then 0 else if c.d.step == MessageReady then 1 else 2
  {
    hide FirstFrame, Parse, Act;
    base', part' := base, part;
    if c.d.toRead == 0 {
      if c.d.step == MessageReady {
        base', part' := PushFollows(p, base, part, c, mayBreak);
      } else {
        ActEats(p, c.d, part);
        var d := Act(p, c.d);
        if d.Dec? {
          base', part' := SettleFollows(p, base, part, c.(d := d), mayBreak);
        }
      }
    }
  }

  lemma {:induction false} FeedFollows(p: Peer, base: seq<Byte>, part: seq<Byte>, c: Conn, data: seq<Byte>, mayBreak: bool)
    returns (base': seq<Byte>, part': seq<Byte>)
    requires Follows(p, base, part, c, mayBreak) && c.d.Dec?
    ensures WellFormed(c.d)
    ensures var (c', taken) := Feed(p, c, data);
      && base' + part' == base + part + data[..taken] && Follows(p, base', part', c', mayBreak)
      && (c'.d.Dec? ==> Rests(c')) && (taken < |data| ==> c'.d.Dead? || Stalled(c'))
    decreases |data|
  {
    hide FirstFrame, Parse, Settle, Feed, Eaten, WellFormed;
    base', part' := SettleFollows(p, base, part, c, mayBreak);
    FeedUnfolds(p, c, data);
    var (c1, ok) := Settle(p, c);
    if ok && data != [] {
      var x := data[0];
      assert data[..1] == [x];
      StoreEats(p, c1, part', x);
      var before := base' + part';
      assert base' + (part' + [x]) == before + [x];
      base', part' := FeedFollows(p, base', part' + [x], Store(c1, [x]), data[1..], mayBreak);
      var taken := Feed(p, c, data).1;
      assert data[..taken] == [x] + data[1..][..taken - 1];
      assert before + [x] + data[1..][..taken - 1] == before + ([x] + data[1..][..taken - 1]);
    } else {
      assert base + part + data[..0] == base + part;
    }
  }

  lemma {:induction false} ReceiveFollows(p: Peer, stream: seq<Byte>, calls: seq<Call>, mayBreak: bool)
    returns (base: seq<Byte>, part: seq<Byte>)
    requires mayBreak || forall i | 0 <= i < |calls| :: NeverBroken(calls[i].answers)
    ensures var (c, n) := Receive(p, stream, calls);
      base + part == stream[..n] && Follows(p, base, part, c, mayBreak) && (c.d.Dec? ==> Rests(c))
  {
    hide FirstFrame, Parse, Feed, Eaten, Rests;
    if calls == [] {
      StartEats(p);
      NothingParsed(p);
      base, part := [], [];
      StartRests(p);
    } else {
      var init, call := calls[..|calls| - 1], calls[|calls| - 1];
      base, part := ReceiveFollows(p, stream, init, mayBreak);
      var (c, n) := Receive(p, stream, init);
      if c.d.Dec? {
        var end := if n + call.len <= |stream| then n + call.len else |stream|;
        var data := stream[n..end];
        base, part := FeedFollows(p, base, part, c.(answers := call.answers), data, mayBreak);
        var taken := Feed(p, c.(answers := call.answers), data).1;
        assert stream[..n] + data[..taken] == stream[..n + taken];
      }
    }
  }

  lemma StartRests(p: Peer)
    ensures Rests(Conn(Start(p), [], []))
  {
  }

  /** The sink has a complete message to take, or has refused it for good. */
  predicate Held(ms: seq<Msg>, c: Conn) { |ms| == |c.delivered| + 1 && c.delivered == ms[..|c.delivered|] }

  /** What the decoder has done with the bytes it has taken. */
  ghost predicate HandsOver(p: Peer, taken: seq<Byte>, c: Conn) {
    var r := Parse(p, taken);
    && (c.delivered == r.ms || Held(r.ms, c))
    && (c.d.Dec? ==> !r.bad && (Stalled(c) <==> Held(r.ms, c)))
    && (r.bad ==> c.d.Dead? && c.delivered == r.ms)
  }

  lemma {:induction false} FollowsMeans(p: Peer, base: seq<Byte>, part: seq<Byte>, c: Conn, mayBreak: bool)
    requires Follows(p, base, part, c, mayBreak) && (c.d.Dec? ==> Rests(c))
    ensures HandsOver(p, base + part, c) && (!mayBreak ==> (c.d.Dead? <==> Parse(p, base + part).bad))
  {
    hide FirstFrame, Parse, Eaten;
    OneFrame(p, base, part, c.delivered);
    if c.d.Dec? {
      if c.d.toRead > 0 { ShortEats(p, c.d, part); } else { ReadyEats(p, c.d, part); }
    }
  }

  /**
   * For any bytes, any cutting into calls and any answers of the sink: the messages handed over are
   * those that the grammar finds in the bytes taken, but for one the sink holds up or has refused for
   * good; none is over the limit; and unless the sink refuses for good, the decoder is dead exactly
   * if those bytes are in error.
   */
  lemma {:induction false} EveryStreamIsParsed(p: Peer, stream: seq<Byte>, calls: seq<Call>)
    ensures var (c, n) := Receive(p, stream, calls);
      && HandsOver(p, stream[..n], c)
      && (forall m | m in c.delivered && p.maxSize >= 0 :: |m.body| <= p.maxSize)
      && ((forall i | 0 <= i < |calls| :: NeverBroken(calls[i].answers)) ==> (c.d.Dead? <==> Parse(p, stream[..n]).bad))
  {
    hide Parse, Receive, Follows, Rests;
    var (c, n) := Receive(p, stream, calls);
    var base, part := ReceiveFollows(p, stream, calls, true);
    FollowsMeans(p, base, part, c, true);
    forall m | m in c.delivered && p.maxSize >= 0 ensures |m.body| <= p.maxSize {
      var i :| 0 <= i < |c.delivered| && c.delivered[i] == m;
      assert Parse(p, stream[..n]).ms[i] == m;
      ParsedFits(p, stream[..n], i);
    }
    if forall i | 0 <= i < |calls| :: NeverBroken(calls[i].answers) {
      base, part := ReceiveFollows(p, stream, calls, false);
      FollowsMeans(p, base, part, c, false);
    }
  }

  /** A call that finds a message held up puts it to the sink first: taken, the call goes on from a new frame; put
      off, nothing happens and no byte is taken; refused for good, the decoder is dead. */
  lemma {:induction false} HeldMessageIsPutToTheSink(p: Peer, c: Conn, data: seq<Byte>)
    requires Stalled(c) && WellFormed(c.d)
    ensures var answer := if c.answers == [] then Busy else c.answers[0];
      var rest := if c.answers == [] then [] else c.answers[1..];
      match answer
      case Accept => Feed(p, c, data) == Feed(p, Conn(Start(p), rest, c.delivered + [Msg(c.d.filled, c.d.more)]), data)
      case Busy => Feed(p, c, data) == (c.(answers := rest), 0)
      case Broken => Feed(p, c, data) == (Conn(Dead, rest, c.delivered), 0)
  {
    hide Feed;
    FeedUnfolds(p, c, data);
    if c.answers != [] && c.answers[0] == Accept {
      var next := Conn(Start(p), c.answers[1..], c.delivered + [Msg(c.d.filled, c.d.more)]);
      FeedUnfolds(p, next, data);
    }
  }
}

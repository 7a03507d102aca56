/** The encoders: batches of bytes for buffers of any size, from a source that may have no
    message ready. */
module EncoderSpec {
  import opened Basics
  import opened QueueSpec
  import opened Wire
  import opened Framing
  import opened DecoderSpec
  import opened CodecTheorems

  /** What happens next: a message is pulled and its header written, or its body is written. */
  datatype EncStep = PullMessage | WriteBody

  /** `toWrite` are the bytes scheduled for output, `cur` the message in progress, `source`
      what each pull will yield (None, or the end, means nothing is ready) and `pulled` the
      messages taken so far. */
  datatype Enc = Enc(step: EncStep, toWrite: seq<Byte>, cur: Msg, source: seq<Option<Msg>>, pulled: seq<Msg>)

  function NewEncoder(source: seq<Option<Msg>>): Enc {
    Enc(PullMessage, [], Msg([], false), source, [])
  }

  /** The state machine action that is due; false if there is no message to send. */
  function Next(v: Version, e: Enc): (Enc, bool) {
    match e.step
    case WriteBody => (e.(toWrite := e.cur.body, step := PullMessage), true)
    case PullMessage =>
      if e.source == [] then (e, false)
      else
        match e.source[0]
        case None => (e.(source := e.source[1..]), false)
        case Some(m) =>
          (Enc(WriteBody, Header(v, m), m, e.source[1..], e.pulled + [m]), true)
  }

  function Min(a: nat, b: nat): nat { if a <= b then a else b }

  /** Fill a buffer of `limit` bytes of which `pos` are in use. With its own buffer still
      empty, the encoder hands out a large enough piece as it is. */
  function Fill(v: Version, e: Enc, own: bool, limit: nat, pos: nat): (Enc, seq<Byte>)
    requires pos <= limit
    decreases limit - pos, if e.step == WriteBody then 1 else 0
  {
    if pos == limit then (e, [])
    else
      var (e1, ok) := if e.toWrite == [] then Next(v, e) else (e, true);
      if !ok then (e1, [])
      else if pos == 0 && own && |e1.toWrite| >= limit then (e1.(toWrite := []), e1.toWrite)
      else
        var k := Min(|e1.toWrite|, limit - pos);
        var (e2, rest) := Fill(v, e1.(toWrite := e1.toWrite[k..]), own, limit, pos + k);
        (e2, e1.toWrite[..k] + rest)
  }

  /** Bytes of the pulled messages that have not been output. */
  function Owing(e: Enc): seq<Byte> {
    e.toWrite + if e.step == WriteBody then e.cur.body else []
  }

  /** The output so far, completed by what is owed, is the stream of the pulled messages. */
  predicate Emits(v: Version, e: Enc, emitted: seq<Byte>) {
    emitted + Owing(e) == Encode(v, e.pulled)
  }

  lemma {:induction false} EncodeSnoc(v: Version, ms: seq<Msg>, m: Msg)
    ensures Encode(v, ms + [m]) == Encode(v, ms) + (Header(v, m) + m.body)
  {
    assert (ms + [m])[..|ms|] == ms;
  }

  lemma NextEmits(v: Version, e: Enc, emitted: seq<Byte>)
    requires Emits(v, e, emitted) && e.toWrite == []
    ensures Emits(v, Next(v, e).0, emitted)
    ensures !Next(v, e).1 ==> Owing(Next(v, e).0) == []
  {
    hide Encode, Header;
    if e.step == PullMessage && e.source != [] && e.source[0].Some? {
      EncodeSnoc(v, e.pulled, e.source[0].value);
    }
  }

  lemma NextProgresses(v: Version, e: Enc)
    requires e.toWrite == []
    ensures var (e', ok) := Next(v, e);
            ok ==> e'.toWrite != [] || (e.step == WriteBody && e'.step == PullMessage)
  {
  }

  lemma CopyEmits(v: Version, e: Enc, emitted: seq<Byte>, k: nat)
    requires Emits(v, e, emitted) && k <= |e.toWrite|
    ensures Emits(v, e.(toWrite := e.toWrite[k..]), emitted + e.toWrite[..k])
  {
    hide Encode;
    assert e.toWrite == e.toWrite[..k] + e.toWrite[k..];
  }

  /** A batch continues the stream; a batch smaller than its buffer means that nothing that
      was pulled is left to send. */
  lemma {:induction false} FillEmits(v: Version, e: Enc, own: bool, limit: nat, pos: nat, emitted: seq<Byte>)
    requires pos <= limit && Emits(v, e, emitted)
    ensures var (e', out) := Fill(v, e, own, limit, pos);
            && Emits(v, e', emitted + out)
            && (pos + |out| < limit ==> Owing(e') == [])
            && (!own ==> pos + |out| <= limit)
    decreases limit - pos, if e.step == WriteBody then 1 else 0
  {
    hide Emits, Owing, Next, Encode;
    if pos == limit {
      assert emitted + [] == emitted;
    } else {
      if e.toWrite == [] {
        NextEmits(v, e, emitted);
        NextProgresses(v, e);
      }
      var (e1, ok) := if e.toWrite == [] then Next(v, e) else (e, true);
      var n := |e1.toWrite|;
      if !ok {
        assert emitted + [] == emitted;
      } else if pos == 0 && own && n >= limit {
        CopyEmits(v, e1, emitted, n);
        assert e1.toWrite[n..] == [] && e1.toWrite[..n] == e1.toWrite;
      } else {
        var k := Min(n, limit - pos);
        CopyEmits(v, e1, emitted, k);
        var e2 := e1.(toWrite := e1.toWrite[k..]);
        FillEmits(v, e2, own, limit, pos + k, emitted + e1.toWrite[..k]);
        Regroup(emitted, e1.toWrite[..k], Fill(v, e2, own, limit, pos + k).1);
      }
    }
  }

  /** One request for data: into the encoder's own buffer or the caller's, of a given size. */
  datatype Request = Request(own: bool, limit: nat)

  function Send(v: Version, source: seq<Option<Msg>>, requests: seq<Request>): (Enc, seq<Byte>) {
    if requests == [] then (NewEncoder(source), [])
    else
      var (e, emitted) := Send(v, source, requests[..|requests| - 1]);
      var request := requests[|requests| - 1];
      var (e', out) := Fill(v, e, request.own, request.limit, 0);
      (e', emitted + out)
  }

  /** Whatever the buffer sizes and whenever the source is empty, the bytes sent are the
      stream of the messages pulled, up to what is still owed. */
  lemma {:induction false} EverySendingIsTheStream(v: Version, source: seq<Option<Msg>>, requests: seq<Request>)
    ensures var (e, emitted) := Send(v, source, requests);
            Emits(v, e, emitted) && emitted <= Encode(v, e.pulled)
  {
    hide Fill;
    if requests != [] {
      var init, request := requests[..|requests| - 1], requests[|requests| - 1];
      EverySendingIsTheStream(v, source, init);
      var (e, emitted) := Send(v, source, init);
      FillEmits(v, e, request.own, request.limit, 0, emitted);
    }
  }

  // ------------------------------------------------------------ what is pulled

  /** The messages among what the pulls yield. */
  function Yielded(pulls: seq<Option<Msg>>): seq<Msg> {
    if pulls == [] then []
    else Yielded(pulls[..|pulls| - 1]) + match pulls[|pulls| - 1] case None => [] case Some(m) => [m]
  }

  /** The encoder has pulled some of `source`, in order, and kept every message it got. */
  ghost predicate Pulls(source: seq<Option<Msg>>, e: Enc) {
    && |e.source| <= |source|
    && var k := |source| - |e.source|; e.source == source[k..] && e.pulled == Yielded(source[..k])
  }

  /** The last pull yielded nothing, or there is nothing left to pull. */
  ghost predicate Dry(source: seq<Option<Msg>>, e: Enc) {
    e.source == [] || (|e.source| < |source| && source[|source| - |e.source| - 1] == None)
  }

  lemma {:induction false} NextPulls(v: Version, source: seq<Option<Msg>>, e: Enc)
    requires Pulls(source, e)
    ensures Pulls(source, Next(v, e).0) && (!Next(v, e).1 ==> Dry(source, Next(v, e).0))
  {
    hide Header;
    if e.step == PullMessage && e.source != [] {
      var k := |source| - |e.source|;
      assert source[..k + 1][..k] == source[..k] && source[k..][0] == source[k] && source[k..][1..] == source[k + 1..];
      assert Yielded(source[..k]) + [] == Yielded(source[..k]);
    }
  }

  lemma {:induction false} FillPulls(v: Version, e: Enc, own: bool, limit: nat, pos: nat, source: seq<Option<Msg>>)
    requires pos <= limit && Pulls(source, e)
    ensures var (e', out) := Fill(v, e, own, limit, pos);
            Pulls(source, e') && (pos + |out| < limit ==> Dry(source, e'))
    decreases limit - pos, if e.step == WriteBody then 1 else 0
  {
    hide Next, Dry, Yielded;
    if pos < limit {
      if e.toWrite == [] {
        NextPulls(v, source, e);
        NextProgresses(v, e);
      }
      var (e1, ok) := if e.toWrite == [] then Next(v, e) else (e, true);
      if ok && !(pos == 0 && own && |e1.toWrite| >= limit) {
        var k := Min(|e1.toWrite|, limit - pos);
        FillPulls(v, e1.(toWrite := e1.toWrite[k..]), own, limit, pos + k, source);
      }
    }
  }

  /** Messages are sent in the order in which the source yields them, none is left out, and a batch is
      smaller than its buffer only if the source had nothing more to yield. */
  lemma {:induction false} EverySendingPullsInOrder(v: Version, source: seq<Option<Msg>>, requests: seq<Request>, request: Request)
    ensures var (e, _) := Send(v, source, requests);
            var (e', out) := Fill(v, e, request.own, request.limit, 0);
            && Pulls(source, e) && Pulls(source, e')
            && (|out| < request.limit ==> Dry(source, e') && Owing(e') == [])
            && (!request.own ==> |out| <= request.limit)
  {
    hide Fill, Pulls, Dry, Owing, Emits;
    var (e, emitted) := Send(v, source, requests);
    if requests == [] {
      NothingPulled(source);
    } else {
      EverySendingPullsInOrder(v, source, requests[..|requests| - 1], requests[|requests| - 1]);
    }
    FillPulls(v, e, request.own, request.limit, 0, source);
    EverySendingIsTheStream(v, source, requests);
    FillEmits(v, e, request.own, request.limit, 0, emitted);
  }

  lemma NothingPulled(source: seq<Option<Msg>>)
    ensures Pulls(source, NewEncoder(source))
  {
    assert source[..0] == [] && source[0..] == source;
  }

  /** End to end: what one side pulled the other side hands over in order, for any buffer sizes
      at the sender and any cutting and refusals at the receiver: every message whose bytes were
      sent and taken, and all of them exactly when nothing is owed, left behind or held up. */
  lemma {:induction false} EndToEnd(p: Peer, source: seq<Option<Msg>>, requests: seq<Request>, calls: seq<Call>)
    requires var (e, _) := Send(p.version, source, requests); AllFit(e.pulled, p.maxSize)
    requires forall i | 0 <= i < |calls| :: NeverBroken(calls[i].answers)
    ensures var (e, emitted) := Send(p.version, source, requests);
            var (c, n) := Receive(p, emitted, calls);
            && c.d.Dec? && n <= |emitted| && c.delivered <= e.pulled && HandedOver(p, e.pulled, n, c)
            && (Owing(e) == [] && n == |emitted| && !Stalled(c) <==> c.delivered == e.pulled)
  {
    hide Send, Receive, Encode, AllFit, Tracks, HandedOver;
    var (e, emitted) := Send(p.version, source, requests);
    EverySendingIsTheStream(p.version, source, requests);
    ReceiveTracks(p, e.pulled, emitted, calls);
    var (c, n) := Receive(p, emitted, calls);
    Tracked(p, e.pulled, n, c);
    TracksMeans(p, e.pulled, n, c);
    AllHandedOver(p, e.pulled, n, c);
    InOrder(p, e.pulled, n, c);
  }

  lemma InOrder(p: Peer, ms: seq<Msg>, n: nat, c: Conn)
    requires HandedOver(p, ms, n, c)
    ensures c.delivered <= ms
  {
  }
}

/** The two framings as formats: what the bytes of a list of messages are. */
module Framing {
  import opened Wire

  datatype Msg = Msg(body: seq<Byte>, more: bool)

  /** ZMTP 1.0 framing (V0) and ZMTP 2.0 framing (V1). */
  datatype Version = V0 | V1

  /** The flags byte: bit 0 for more parts to come, bit 1 (V1 only) for an eight-byte size. */
  function FlagsByte(more: bool, large: bool): Byte {
    (if more then 1 else 0) + (if large then 2 else 0)
  }

  function Header(v: Version, m: Msg): seq<Byte> {
    var size := |m.body|;
    match v
    case V0 =>
      if size + 1 < 255 then [size + 1, FlagsByte(m.more, false)]
      else [255] + PutUint64(size + 1) + [FlagsByte(m.more, false)]
    case V1 =>
      if size > 255 then [FlagsByte(m.more, true)] + PutUint64(size) else [FlagsByte(m.more, false), size]
  }

  function Frame(v: Version, m: Msg): seq<Byte> {
    Header(v, m) + m.body
  }

  function Encode(v: Version, ms: seq<Msg>): seq<Byte> {
    if ms == [] then [] else Encode(v, ms[..|ms| - 1]) + Frame(v, ms[|ms| - 1])
  }

  lemma {:induction false} EncodeStep(v: Version, ms: seq<Msg>, k: nat)
    requires k < |ms|
    ensures Encode(v, ms[..k + 1]) == Encode(v, ms[..k]) + Frame(v, ms[k])
  {
    assert ms[..k + 1][..k] == ms[..k];
  }

  lemma {:induction false} EncodePrefix(v: Version, ms: seq<Msg>, k: nat)
    requires k <= |ms|
    ensures Encode(v, ms[..k]) <= Encode(v, ms)
  {
    if k == |ms| {
      assert ms[..k] == ms;
    } else {
      EncodePrefix(v, ms[..|ms| - 1], k);
      assert ms[..|ms| - 1][..k] == ms[..k];
    }
  }

  /** A size that both framings and the peer's limit (none if negative) allow. */
  predicate Fits(m: Msg, maxSize: int) {
    |m.body| + 1 < UINT64_RANGE && (maxSize >= 0 ==> |m.body| <= maxSize)
  }

  predicate AllFit(ms: seq<Msg>, maxSize: int) { forall i | 0 <= i < |ms| :: Fits(ms[i], maxSize) }
}

/** The decoders as machines fed byte by byte, with a sink that may refuse a message. */
module DecoderSpec {
  import opened Wire
  import opened Framing

  datatype Step = OneByteSize | EightByteSize | FlagsReady | MessageReady

  /** `toRead` bytes are missing from the field being read, `filled` are there; `size` and
      `more` are what is known of the message. A decoder that met an error is Dead. */
  datatype Dec = Dead | Dec(step: Step, toRead: nat, filled: seq<Byte>, size: nat, more: bool)

  /** What the sink says to a message: taken, try again later, or a lasting error. */
  datatype Answer = Accept | Busy | Broken

  /** A decoder with the answers its sink will give, in order (Busy when they run out), and
      the messages the sink has taken. */
  datatype Conn = Conn(d: Dec, answers: seq<Answer>, delivered: seq<Msg>)

  datatype Peer = Peer(version: Version, maxSize: int)

  function Start(p: Peer): Dec {
    Dec(if p.version == V0 then OneByteSize else FlagsReady, 1, [], 0, false)
  }

  predicate WellFormed(d: Dec) {
    d.Dec? ==>
      match d.step
      case OneByteSize => d.toRead + |d.filled| == 1
      case EightByteSize => d.toRead + |d.filled| == 8
      case FlagsReady => d.toRead + |d.filled| == 1
      case MessageReady => d.toRead + |d.filled| == d.size
  }

  predicate Allowed(p: Peer, size: int) { p.maxSize < 0 || size <= p.maxSize }

  /** A state machine action other than handing over a message. */
  function Act(p: Peer, d: Dec): Dec
    requires d.Dec? && WellFormed(d) && d.toRead == 0 && d.step != MessageReady
  {
    match (p.version, d.step)
    case (V0, OneByteSize) =>
      if d.filled[0] == 255 then Dec(EightByteSize, 8, [], 0, false)
      else if d.filled[0] == 0 || !Allowed(p, d.filled[0] - 1) then Dead
      else Dec(FlagsReady, 1, [], d.filled[0] - 1, false)
    case (V0, EightByteSize) =>
      var length := GetUint64(d.filled);
      if length == 0 || !Allowed(p, length - 1) then Dead else Dec(FlagsReady, 1, [], length - 1, false)
    case (V0, FlagsReady) => Dec(MessageReady, d.size, [], d.size, d.filled[0] % 2 == 1)
    case (V1, FlagsReady) =>
      var more := d.filled[0] % 2 == 1;
      if (d.filled[0] / 2) % 2 == 1 then Dec(EightByteSize, 8, [], 0, more) else Dec(OneByteSize, 1, [], 0, more)
    case (V1, OneByteSize) =>
      if !Allowed(p, d.filled[0]) then Dead else Dec(MessageReady, d.filled[0], [], d.filled[0], d.more)
    case (V1, EightByteSize) =>
      var size := GetUint64(d.filled);
      if !Allowed(p, size) then Dead else Dec(MessageReady, size, [], size, d.more)
  }

  /** Hand over the finished message. */
  function Push(p: Peer, c: Conn): Conn
    requires c.d.Dec?
  {
    var answer := if c.answers == [] then Busy else c.answers[0];
    var rest := if c.answers == [] then [] else c.answers[1..];
    match answer
    case Accept => Conn(Start(p), rest, c.delivered + [Msg(c.d.filled, c.d.more)])
    case Busy => c.(answers := rest)
    case Broken => c.(answers := rest, d := Dead)
  }

  /** One run of the action that is due; it succeeds unless the sink refuses or the
      stream is in error. */
  function Due(p: Peer, c: Conn): (r: (Conn, bool))
    requires c.d.Dec? && WellFormed(c.d) && c.d.toRead == 0
    ensures WellFormed(r.0.d)
  {
    if c.d.step == MessageReady then
      var c' := Push(p, c);
      (c', |c'.delivered| > |c.delivered|)
    else
      var d := Act(p, c.d);
      (c.(d := d), d.Dec?)
  }

  /** Run actions until bytes are needed; false if one of them fails. */
  function Settle(p: Peer, c: Conn): (r: (Conn, bool))
    requires c.d.Dec? && WellFormed(c.d)
    ensures WellFormed(r.0.d) && (r.1 <==> r.0.d.Dec? && r.0.d.toRead > 0)
    decreases if c.d.toRead > 0 then 0 else if c.d.step == MessageReady then 1 else 2
  {
    if c.d.toRead > 0 then (c, true)
    else
      var (c', ok) := Due(p, c);
      if ok then Settle(p, c') else (c', false)
  }

  function Store(c: Conn, bytes: seq<Byte>): Conn
    requires c.d.Dec? && |bytes| <= c.d.toRead
  {
    c.(d := c.d.(toRead := c.d.toRead - |bytes|, filled := c.d.filled + bytes))
  }

  /** Feed a buffer; the result counts the bytes taken from it. */
  function Feed(p: Peer, c: Conn, data: seq<Byte>): (r: (Conn, nat))
    requires c.d.Dec? && WellFormed(c.d)
    ensures WellFormed(r.0.d) && r.1 <= |data|
    decreases |data|
  {
    var (c1, ok) := Settle(p, c);
    if !ok || data == [] then (c1, 0)
    else
      var (c2, n) := Feed(p, Store(c1, data[..1]), data[1..]);
      (c2, n + 1)
  }
}

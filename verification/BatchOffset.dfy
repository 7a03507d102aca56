/** Where in a batch of the encoder the first message begins. */
module BatchOffset {
  import opened QueueSpec
  import opened Wire
  import opened Framing
  import opened EncoderSpec

  /** The next byte pulled begins a message: its parts so far, if any, were followed by the last one. */
  predicate Beginning(e: Enc) { e.step == PullMessage && !e.cur.more }

  /** The offset reported for a batch that has `pos` bytes already. */
  function MessageOffset(v: Version, e: Enc, own: bool, limit: nat, pos: nat): Option<nat>
    requires pos <= limit
    decreases limit - pos, if e.step == WriteBody then 1 else 0
  {
    if pos == limit then None
    else if e.toWrite == [] && Beginning(e) then Some(pos)
    else
      var (e1, ok) := if e.toWrite == [] then Next(v, e) else (e, true);
      if !ok || (pos == 0 && own && |e1.toWrite| >= limit) then None
      else
        var k := Min(|e1.toWrite|, limit - pos);
        MessageOffset(v, e1.(toWrite := e1.toWrite[k..]), own, limit, pos + k)
  }

  /** One round of the loop. */
  lemma {:induction false} Unfolds(v: Version, e: Enc, own: bool, limit: nat, pos: nat)
    requires pos < limit
    ensures var (e1, ok) := if e.toWrite == [] then Next(v, e) else (e, true);
      var (batch, offset) := (Fill(v, e, own, limit, pos), MessageOffset(v, e, own, limit, pos));
      && (e.toWrite == [] && Beginning(e) ==> offset == Some(pos))
      && if !ok then batch == (e1, []) && (offset == None || (e.toWrite == [] && Beginning(e)))
         else if pos == 0 && own && |e1.toWrite| >= limit then
           batch == (e1.(toWrite := []), e1.toWrite) && (offset == None || (e.toWrite == [] && Beginning(e)))
         else
           var k := Min(|e1.toWrite|, limit - pos);
           var e2 := e1.(toWrite := e1.toWrite[k..]);
           && batch == (Fill(v, e2, own, limit, pos + k).0, e1.toWrite[..k] + Fill(v, e2, own, limit, pos + k).1)
           && (offset == MessageOffset(v, e2, own, limit, pos + k) || (e.toWrite == [] && Beginning(e)))
  {
  }

  lemma {:induction false} FullBatch(v: Version, e: Enc, own: bool, limit: nat, pos: nat)
    requires pos == limit
    ensures Fill(v, e, own, limit, pos) == (e, []) && MessageOffset(v, e, own, limit, pos) == None
  {
  }

  // ------------------------------------------------------------ where messages begin

  /** The position in the stream at which part `k` begins. */
  function At(v: Version, ms: seq<Msg>, k: nat): nat
    requires k <= |ms|
  {
    |Encode(v, ms[..k])|
  }

  /** Part `k` is the first one of a message. */
  predicate IsFirst(ms: seq<Msg>, k: nat)
    requires k <= |ms|
  {
    k == 0 || !ms[k - 1].more
  }

  lemma {:induction false} AtGrows(v: Version, ms: seq<Msg>, j: nat, k: nat)
    requires j <= k <= |ms|
    ensures At(v, ms, j) <= At(v, ms, k)
  {
    EncodePrefix(v, ms[..k], j);
    assert ms[..k][..j] == ms[..j];
  }

  /** No message begins at a position from `lo` up to `hi`. */
  ghost predicate NoneWithin(v: Version, ms: seq<Msg>, lo: nat, hi: nat) {
    forall k | 0 <= k < |ms| && IsFirst(ms, k) :: !(lo <= At(v, ms, k) < hi)
  }

  /** At `x` begins the first message from `lo` on, or, if that is not below `hi`, would begin the next one. */
  ghost predicate Names(v: Version, ms: seq<Msg>, lo: nat, hi: nat, x: nat) {
    && lo <= x <= hi && NoneWithin(v, ms, lo, x)
    && exists k | 0 <= k <= |ms| :: IsFirst(ms, k) && At(v, ms, k) == x && (k < |ms| <==> x < hi)
  }

  ghost predicate Right(v: Version, ms: seq<Msg>, lo: nat, hi: nat, offset: Option<nat>, pos: nat) {
    match offset
    case None => NoneWithin(v, ms, lo, hi)
    case Some(o) => o >= pos && Names(v, ms, lo, hi, lo + (o - pos))
  }

  lemma LaterIsRight(v: Version, ms: seq<Msg>, lo: nat, hi: nat, offset: Option<nat>, pos: nat, k: nat)
    requires NoneWithin(v, ms, lo, lo + k) && lo + k <= hi && Right(v, ms, lo + k, hi, offset, pos + k)
    ensures Right(v, ms, lo, hi, offset, pos)
  {
    hide At, IsFirst;
  }

  /** The output agrees with the stream, and the part in progress has begun in it. */
  ghost predicate Underway(v: Version, e: Enc, emitted: seq<Byte>) {
    && Emits(v, e, emitted)
    && if e.pulled == [] then e.step == PullMessage && e.toWrite == [] && !e.cur.more
       else e.cur == e.pulled[|e.pulled| - 1] && At(v, e.pulled, |e.pulled| - 1) < |emitted|
  }

  /** The parts that begin behind those pulled so far. */
  lemma {:induction false} OthersBegin(v: Version, e: Enc, emitted: seq<Byte>, ms: seq<Msg>, j: nat)
    requires Underway(v, e, emitted) && e.pulled <= ms && j < |ms|
    ensures if j < |e.pulled| then At(v, ms, j) < |emitted| else At(v, ms, j) >= |emitted| + |Owing(e)|
  {
    hide Encode;
    var n := |e.pulled|;
    assert ms[..n] == e.pulled;
    if j < n {
      AtGrows(v, ms, j, n - 1);
      assert ms[..n - 1] == e.pulled[..n - 1];
    } else {
      AtGrows(v, ms, n, j);
    }
  }

  lemma {:induction false} CopyMeetsNone(v: Version, e: Enc, emitted: seq<Byte>, ms: seq<Msg>, k: nat)
    requires Underway(v, e, emitted) && e.pulled <= ms && k <= |e.toWrite|
    ensures NoneWithin(v, ms, |emitted|, |emitted| + k)
  {
    hide At, IsFirst, Underway;
    forall j | 0 <= j < |ms| && IsFirst(ms, j) ensures !(|emitted| <= At(v, ms, j) < |emitted| + k) {
      OthersBegin(v, e, emitted, ms, j);
    }
  }

  lemma CopyUnderway(v: Version, e: Enc, emitted: seq<Byte>, k: nat)
    requires Underway(v, e, emitted) && k <= |e.toWrite|
    ensures Underway(v, e.(toWrite := e.toWrite[k..]), emitted + e.toWrite[..k])
  {
    hide Emits, At;
    CopyEmits(v, e, emitted, k);
  }

  lemma BodyUnderway(v: Version, e: Enc, emitted: seq<Byte>)
    requires Underway(v, e, emitted) && e.toWrite == [] && e.step == WriteBody
    ensures Underway(v, Next(v, e).0, emitted)
  {
    hide At;
    NextEmits(v, e, emitted);
  }

  lemma {:induction false} PullUnderway(v: Version, e: Enc, emitted: seq<Byte>, k: nat)
    requires Underway(v, e, emitted) && e.toWrite == [] && e.step == PullMessage && Next(v, e).1
    requires 0 < k <= |Next(v, e).0.toWrite|
    ensures var e1 := Next(v, e).0;
      && At(v, e1.pulled, |e.pulled|) == |emitted| && e.pulled < e1.pulled && |e1.pulled| == |e.pulled| + 1
      && Underway(v, e1.(toWrite := e1.toWrite[k..]), emitted + e1.toWrite[..k])
  {
    hide Encode;
    var e1 := Next(v, e).0;
    NextEmits(v, e, emitted);
    CopyEmits(v, e1, emitted, k);
    assert e1.pulled[..|e.pulled|] == e.pulled;
  }

  lemma {:induction false} DryUnderway(v: Version, e: Enc, emitted: seq<Byte>)
    requires Underway(v, e, emitted) && e.toWrite == [] && !Next(v, e).1
    ensures Underway(v, Next(v, e).0, emitted) && Next(v, e).0.pulled == e.pulled && At(v, e.pulled, |e.pulled|) == |emitted|
  {
    hide Encode;
    NextEmits(v, e, emitted);
    assert e.pulled[..|e.pulled|] == e.pulled;
  }

  // ------------------------------------------------------------ batches

  /** A part is pulled that does not begin a message. */
  lemma {:induction false} PullMeetsNone(v: Version, e: Enc, emitted: seq<Byte>, ms: seq<Msg>, k: nat)
    requires Underway(v, e, emitted) && e.toWrite == [] && e.step == PullMessage && e.cur.more
    requires Next(v, e).1 && 0 < k <= |Next(v, e).0.toWrite| && Next(v, e).0.pulled <= ms
    ensures NoneWithin(v, ms, |emitted|, |emitted| + k)
  {
    hide At, Underway;
    PullUnderway(v, e, emitted, k);
    var e1, n := Next(v, e).0, |e.pulled|;
    LastIsCurrent(v, e, emitted);
    forall j | 0 <= j < |ms| && IsFirst(ms, j) ensures !(|emitted| <= At(v, ms, j) < |emitted| + k) {
      OthersBegin(v, e, emitted, ms, j);
      OthersBegin(v, e1.(toWrite := e1.toWrite[k..]), emitted + e1.toWrite[..k], ms, j);
    }
  }

  lemma LastIsCurrent(v: Version, e: Enc, emitted: seq<Byte>)
    requires Underway(v, e, emitted)
    ensures e.cur.more ==> e.pulled != [] && e.pulled[|e.pulled| - 1] == e.cur
    ensures !e.cur.more ==> IsFirst(e.pulled, |e.pulled|)
  {
  }

  /** A message begins here, or would. */
  lemma {:induction false} BeginsHere(v: Version, e: Enc, emitted: seq<Byte>, ms: seq<Msg>, hi: nat)
    requires Underway(v, e, emitted) && e.toWrite == [] && Beginning(e) && e.pulled <= ms && |emitted| <= hi
    requires |e.pulled| < |ms| <==> |emitted| < hi
    ensures Names(v, ms, |emitted|, hi, |emitted|)
  {
    hide Encode;
    var n := |e.pulled|;
    assert ms[..n] == e.pulled;
    assert IsFirst(ms, n) && At(v, ms, n) == |emitted|;
  }

  /**
   * The offset reported with a batch is where the first message begins in it, and none is
   * reported exactly if no message begins in it; or, if the source ran dry where one was to
   * begin, it is the size of the batch.
   */
  lemma {:induction false} OffsetIsFirstMessage(v: Version, e: Enc, own: bool, limit: nat, pos: nat, emitted: seq<Byte>)
    requires pos <= limit && Underway(v, e, emitted)
    ensures var (e', out) := Fill(v, e, own, limit, pos);
      && Underway(v, e', emitted + out) && e.pulled <= e'.pulled
      && Right(v, e'.pulled, |emitted|, |emitted + out|, MessageOffset(v, e, own, limit, pos), pos)
    decreases limit - pos, if e.step == WriteBody then 1 else 0
  {
    hide Underway, Right, Names, NoneWithin, Next, Fill, MessageOffset;
    var (e', out) := Fill(v, e, own, limit, pos);
    var offset := MessageOffset(v, e, own, limit, pos);
    if pos == limit {
      FullBatch(v, e, own, limit, pos);
      assert emitted + [] == emitted;
      NothingWithin(v, e.pulled, |emitted|, pos);
    } else {
      Unfolds(v, e, own, limit, pos);
      var (e1, ok) := if e.toWrite == [] then Next(v, e) else (e, true);
      NextShape(v, e);
      if !ok {
        assert emitted + [] == emitted;
        DryUnderway(v, e, emitted);
        if Beginning(e) {
          BeginsHere(v, e, emitted, e'.pulled, |emitted|);
          FoundIsRight(v, e'.pulled, |emitted|, |emitted|, pos);
        } else {
          NothingWithin(v, e.pulled, |emitted|, pos);
        }
      } else {
        var zero := pos == 0 && own && |e1.toWrite| >= limit;
        var k := if zero then |e1.toWrite| else Min(|e1.toWrite|, limit - pos);
        var e2, copied := e1.(toWrite := e1.toWrite[k..]), emitted + e1.toWrite[..k];
        CopiedUnderway(v, e, emitted, k);
        var rest := [];
        if zero {
          assert e1.toWrite[k..] == [] && e1.toWrite[..k] == e1.toWrite;
          assert copied + [] == copied;
          NothingWithin(v, e2.pulled, |copied|, pos + k);
        } else {
          rest := Fill(v, e2, own, limit, pos + k).1;
          OffsetIsFirstMessage(v, e2, own, limit, pos + k, copied);
          assert emitted + (e1.toWrite[..k] + rest) == copied + rest;
        }
        if e.toWrite == [] && Beginning(e) {
          BeginsHere(v, e, emitted, e'.pulled, |emitted + out|);
          FoundIsRight(v, e'.pulled, |emitted|, |emitted + out|, pos);
        } else {
          CopiedMeetsNone(v, e, emitted, e'.pulled, k);
          LaterIsRight(v, e'.pulled, |emitted|, |emitted + out|, offset, pos, k);
        }
      }
    }
  }

  lemma NothingWithin(v: Version, ms: seq<Msg>, lo: nat, pos: nat)
    ensures Right(v, ms, lo, lo, None, pos)
  {
  }

  lemma FoundIsRight(v: Version, ms: seq<Msg>, lo: nat, hi: nat, pos: nat)
    requires Names(v, ms, lo, hi, lo)
    ensures Right(v, ms, lo, hi, Some(pos), pos)
  {
  }

  /** The action that is due, if it succeeds, yields the body, or the header of a part pulled. */
  lemma NextShape(v: Version, e: Enc)
    ensures var (e1, ok) := Next(v, e);
      && e1.step == (if e.step == WriteBody then PullMessage else if ok then WriteBody else PullMessage)
      && (e.step == WriteBody ==> ok && e1.pulled == e.pulled)
      && (e.step == PullMessage && ok ==> e1.toWrite != [] && |e1.pulled| == |e.pulled| + 1)
      && e.pulled <= e1.pulled
  {
  }

  /** Running the action that is due and copying `k` bytes. */
  lemma CopiedUnderway(v: Version, e: Enc, emitted: seq<Byte>, k: nat)
    requires Underway(v, e, emitted)
    requires var (e1, ok) := if e.toWrite == [] then Next(v, e) else (e, true); ok && k <= |e1.toWrite|
    requires e.toWrite == [] && e.step == PullMessage ==> k > 0
    ensures var e1 := if e.toWrite == [] then Next(v, e).0 else e;
      Underway(v, e1.(toWrite := e1.toWrite[k..]), emitted + e1.toWrite[..k])
  {
    hide Underway;
    if e.toWrite != [] {
      CopyUnderway(v, e, emitted, k);
    } else if e.step == WriteBody {
      BodyUnderway(v, e, emitted);
      CopyUnderway(v, Next(v, e).0, emitted, k);
    } else {
      PullUnderway(v, e, emitted, k);
    }
  }

  lemma CopiedMeetsNone(v: Version, e: Enc, emitted: seq<Byte>, ms: seq<Msg>, k: nat)
    requires Underway(v, e, emitted) && !(e.toWrite == [] && Beginning(e))
    requires var (e1, ok) := if e.toWrite == [] then Next(v, e) else (e, true); ok && k <= |e1.toWrite| && e1.pulled <= ms
    requires e.toWrite == [] && e.step == PullMessage ==> k > 0
    ensures NoneWithin(v, ms, |emitted|, |emitted| + k)
  {
    hide Underway, NoneWithin;
    if e.toWrite != [] {
      CopyMeetsNone(v, e, emitted, ms, k);
    } else if e.step == WriteBody {
      BodyUnderway(v, e, emitted);
      CopyMeetsNone(v, Next(v, e).0, emitted, ms, k);
    } else {
      PullMeetsNone(v, e, emitted, ms, k);
    }
  }

  /** In every sequence of requests, each batch is reported with the offset of the first message that begins in it. */
  lemma {:induction false} EveryOffsetIsFirstMessage(v: Version, source: seq<Option<Msg>>, requests: seq<Request>, request: Request)
    ensures var (e, emitted) := Send(v, source, requests);
      var (e', out) := Fill(v, e, request.own, request.limit, 0);
      && Underway(v, e, emitted)
      && Right(v, e'.pulled, |emitted|, |emitted + out|, MessageOffset(v, e, request.own, request.limit, 0), 0)
  {
    hide Fill, Right, MessageOffset;
    var (e, emitted) := Send(v, source, requests);
    if requests != [] {
      EveryOffsetIsFirstMessage(v, source, requests[..|requests| - 1], requests[|requests| - 1]);
      var (e0, emitted0) := Send(v, source, requests[..|requests| - 1]);
      var last := requests[|requests| - 1];
      OffsetIsFirstMessage(v, e0, last.own, last.limit, 0, emitted0);
    }
    OffsetIsFirstMessage(v, e, request.own, request.limit, 0, emitted);
  }

  /** An offset that is the size of its batch: a new encoder without a message reports 0 for an empty batch. */
  lemma {:induction false} DryOffset(v: Version, own: bool, limit: nat)
    requires limit > 0
    ensures Fill(v, NewEncoder([]), own, limit, 0).1 == [] && MessageOffset(v, NewEncoder([]), own, limit, 0) == Some(0)
  {
  }
}

/** Division facts the solver does not find by itself. */
module Arithmetic {

  lemma QuotientIs(n: nat, k: nat, q: nat, r: nat)
    requires k > 0 && n == k * q + r && r < k
    ensures n / k == q && n % k == r
  {
    var d := n / k - q;
    assert k * d == r - n % k by {
      assert n == k * (n / k) + n % k;
      assert k * d == k * (n / k) - k * q;
    }
    assert (d >= 1 ==> k * d >= k) && (d <= -1 ==> -(k * d) >= k);
  }

  lemma Reassociate(d: int, k: int, a: int, b: int, w: int)
    ensures d * (k * a + b) + w == (k * d) * a + (d * b + w)
  {
  }

  lemma AtMost(d: nat, b: nat, k: nat)
    requires b + 1 <= k
    ensures d * b + d <= k * d
  {
    assert d * (b + 1) <= d * k;
  }

  lemma DivideMod(v: nat, d: nat)
    requires d > 0
    ensures v == d * (v / d) + v % d
  {
  }

  lemma QuotientOfProduct(v: nat, d: nat, k: nat, m: nat, w: nat, a: nat, b: nat)
    requires v == d * m + w && w < d && m == k * a + b && b < k
    ensures k * d > 0 && v / (k * d) == a
  {
    Reassociate(d, k, a, b, w);
    AtMost(d, b, k);
    assert v == (k * d) * a + (d * b + w);
    QuotientIs(v, k * d, a, d * b + w);
  }

  lemma DivideTwice(v: nat, d: nat, k: nat)
    requires d > 0 && k > 0
    ensures k * d > 0 && v / (k * d) == (v / d) / k
  {
    DivideMod(v, d);
    DivideMod(v / d, k);
    QuotientOfProduct(v, d, k, v / d, v % d, (v / d) / k, (v / d) % k);
  }
}

/** Integers in network byte order. */
module Wire {
  import opened Arithmetic

  type Byte = x: int | 0 <= x < 256

  const UINT64_RANGE := 0x1_0000_0000_0000_0000

  /** The low byte of a value shifted right by a number of bits given as a divisor. */
  function ByteAt(v: nat, divisor: nat): Byte
    requires divisor > 0
  {
    (v / divisor) % 256
  }

  function PutUint64(v: nat): (r: seq<Byte>)
    ensures |r| == 8
  {
    [ByteAt(v, 0x100_0000_0000_0000), ByteAt(v, 0x1_0000_0000_0000), ByteAt(v, 0x100_0000_0000), ByteAt(v, 0x1_0000_0000),
     ByteAt(v, 0x100_0000), ByteAt(v, 0x1_0000), ByteAt(v, 0x100), ByteAt(v, 1)]
  }

  function Times(b: Byte, factor: nat): nat { (b as int) * factor }

  function GetUint64(b: seq<Byte>): (r: nat)
    requires |b| == 8
    ensures r < UINT64_RANGE
  {
    Times(b[0], 0x100_0000_0000_0000) + Times(b[1], 0x1_0000_0000_0000) + Times(b[2], 0x100_0000_0000) + Times(b[3], 0x1_0000_0000)
    + Times(b[4], 0x100_0000) + Times(b[5], 0x1_0000) + Times(b[6], 0x100) + b[7]
  }

  /** One byte further: what is left of the value above a byte and the byte itself. */
  lemma SplitByte(v: nat, d: nat)
    requires d > 0
    ensures v / d == 256 * (v / (256 * d)) + ByteAt(v, d)
  {
    DivideTwice(v, d, 256);
  }

  /** Reading what was written gives the value back. */
  lemma GetAfterPut(v: nat)
    requires v < UINT64_RANGE
    ensures GetUint64(PutUint64(v)) == v
  {
    SplitByte(v, 1);
    SplitByte(v, 0x100);
    SplitByte(v, 0x1_0000);
    SplitByte(v, 0x100_0000);
    SplitByte(v, 0x1_0000_0000);
    SplitByte(v, 0x100_0000_0000);
    SplitByte(v, 0x1_0000_0000_0000);
    SplitByte(v, 0x100_0000_0000_0000);
    hide ByteAt;
    assert v / UINT64_RANGE == 0;
  }
}

/** Numbers as bytes, the lowest byte first. */
module Octets {
  /** The byte of this value. */
  function ByteOf(n: nat): bv8
    requires n < 256
  {
    if n == 0 then 0 else ByteOf(n - 1) + 1
  }

  /** The bytes of a number, the lowest first, and no more than it takes. */
  function BytesOf(n: nat): (data: seq<bv8>)
    ensures data != []
  {
    if n < 256 then [ByteOf(n)] else [ByteOf(n % 256)] + BytesOf(n / 256)
  }

  function NumberOf(data: seq<bv8>): nat {
    if data == [] then 0 else data[0] as nat + 256 * NumberOf(data[1..])
  }

  lemma NextByte(b: bv8)
    requires b as int < 255
    ensures (b + 1) as int == b as int + 1
  {
    assert b != 255;
  }

  lemma {:induction false} ByteBack(n: nat)
    requires n < 256
    ensures ByteOf(n) as int == n
  {
    if n > 0 {
      ByteBack(n - 1);
      NextByte(ByteOf(n - 1));
    }
  }

  lemma NumberOfFirst(n: nat, low: bv8, high: seq<bv8>)
    requires low as int == n % 256 && NumberOf(high) == n / 256
    ensures NumberOf([low] + high) == n
  {
    assert ([low] + high)[1..] == high;
  }

  lemma {:induction false} NumberOfBytes(n: nat)
    ensures NumberOf(BytesOf(n)) == n
  {
    ByteBack(n % 256);
    var low := ByteOf(n % 256);
    if n < 256 {
      NumberOfFirst(n, low, []);
      assert [low] + [] == [low];
    } else {
      NumberOfBytes(n / 256);
      NumberOfFirst(n, low, BytesOf(n / 256));
    }
  }

  function Power256(k: nat): nat {
    if k == 0 then 1 else 256 * Power256(k - 1)
  }

  lemma {:induction false} BytesFit(n: nat, k: nat)
    requires k >= 1 && n < Power256(k)
    ensures |BytesOf(n)| <= k
  {
    if n >= 256 {
      assert k > 1 by { assert Power256(1) == 256 * Power256(0); }
      BytesFit(n / 256, k - 1);
    }
  }
}

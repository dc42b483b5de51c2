/** Bytes, and 32-bit numbers in either byte order. */
module Bytes {
  type Byte = n: nat | n < 0x100

  const LIMIT_32 := 0x1_0000_0000

  function Low(n: nat): Byte {
    n % 0x100
  }

  function High(n: nat): nat {
    n / 0x100
  }

  /** A low byte below the rest of a number. */
  function Join(low: Byte, rest: nat): (n: nat)
    ensures Low(n) == low && High(n) == rest
    ensures rest < 0x100_0000 ==> n < LIMIT_32
    ensures rest < 0x1_0000 ==> n < 0x100_0000
    ensures rest < 0x100 ==> n < 0x1_0000
  {
    low as int + 0x100 * rest
  }

  lemma Rejoin(n: nat)
    ensures Join(Low(n), High(n)) == n
  {}

  lemma TopByte(n: nat)
    requires n < LIMIT_32
    ensures High(High(High(n))) < 0x100
  {}

  function LittleEndian(n: nat): (r: seq<Byte>)
    requires n < LIMIT_32
    ensures |r| == 4
  {
    TopByte(n);
    [Low(n), Low(High(n)), Low(High(High(n))), High(High(High(n)))]
  }

  function FromLittleEndian(bytes: seq<Byte>): (n: nat)
    requires |bytes| == 4
    ensures n < LIMIT_32
  {
    Join(bytes[0], Join(bytes[1], Join(bytes[2], bytes[3])))
  }

  function BigEndian(n: nat): (r: seq<Byte>)
    requires n < LIMIT_32
    ensures |r| == 4
  {
    TopByte(n);
    [High(High(High(n))), Low(High(High(n))), Low(High(n)), Low(n)]
  }

  function FromBigEndian(bytes: seq<Byte>): (n: nat)
    requires |bytes| == 4
    ensures n < LIMIT_32
  {
    Join(bytes[3], Join(bytes[2], Join(bytes[1], bytes[0])))
  }

  /** Reading undoes writing, and writing undoes reading, low byte first. */
  lemma LittleEndianBothWays(n: nat, bytes: seq<Byte>)
    ensures n < LIMIT_32 ==> FromLittleEndian(LittleEndian(n)) == n
    ensures |bytes| == 4 ==> LittleEndian(FromLittleEndian(bytes)) == bytes
  {
    hide Join, Low, High;
    Rejoin(n);
    Rejoin(High(n));
    Rejoin(High(High(n)));
    if |bytes| == 4 {
      assert bytes == [bytes[0], bytes[1], bytes[2], bytes[3]];
    }
  }

  /** The same, high byte first. */
  lemma BigEndianBothWays(n: nat, bytes: seq<Byte>)
    ensures n < LIMIT_32 ==> FromBigEndian(BigEndian(n)) == n
    ensures |bytes| == 4 ==> BigEndian(FromBigEndian(bytes)) == bytes
  {
    hide Join, Low, High;
    Rejoin(n);
    Rejoin(High(n));
    Rejoin(High(High(n)));
    if |bytes| == 4 {
      assert bytes == [bytes[0], bytes[1], bytes[2], bytes[3]];
    }
  }
}

/** Fixed-width integers of the wire format and their big-endian byte layout
    (`u32::to_be_bytes` / `u32::from_be_bytes`). */
module Bytes {

  type byte = x: int | 0 <= x < 0x100

  const U32_LIMIT: int := 0x1_0000_0000
  type u32 = x: int | 0 <= x < 0x1_0000_0000

  /** `recv_from` into a fixed buffer keeps at most `cap` bytes of a datagram. */
  function Truncate(data: seq<byte>, cap: nat): (r: seq<byte>)
    ensures r <= data && |r| == (if |data| <= cap then |data| else cap)
  {
    if |data| <= cap then data else data[..cap]
  }

  /** `seq.to_be_bytes()`: most significant byte first. */
  function BigEndian(n: u32): (bs: seq<byte>)
    ensures |bs| == 4
    ensures ((bs[0] as int * 0x100 + bs[1]) * 0x100 + bs[2]) * 0x100 + bs[3] == n
  {
    var m1 := n / 0x100;
    var m2 := m1 / 0x100;
    assert n == m1 * 0x100 + n % 0x100;
    assert m1 == m2 * 0x100 + m1 % 0x100;
    assert m2 == (m2 / 0x100) * 0x100 + m2 % 0x100;
    assert m2 / 0x100 < 0x100;
    [m2 / 0x100, m2 % 0x100, m1 % 0x100, n % 0x100]
  }

  /** `u32::from_be_bytes([b0, b1, b2, b3])`. */
  function FromBigEndian(b0: byte, b1: byte, b2: byte, b3: byte): (n: u32)
  {
    ((b0 as int * 0x100 + b1) * 0x100 + b2) * 0x100 + b3
  }

  /** Reading back the four bytes written for `n` gives `n`. */
  lemma BigEndianRoundTrip(n: u32)
    ensures var bs := BigEndian(n); FromBigEndian(bs[0], bs[1], bs[2], bs[3]) == n
  {
  }

  /** Any four bytes are the big-endian image of the number they denote, so the layout is a bijection. */
  lemma BigEndianOfValue(b0: byte, b1: byte, b2: byte, b3: byte)
    ensures BigEndian(FromBigEndian(b0, b1, b2, b3)) == [b0, b1, b2, b3]
  {
    var m2 := b0 as int * 0x100 + b1;
    var m1 := m2 * 0x100 + b2;
    var n := m1 * 0x100 + b3;
    assert n / 0x100 == m1 && n % 0x100 == b3;
    assert m1 / 0x100 == m2 && m1 % 0x100 == b2;
    assert m2 / 0x100 == b0 && m2 % 0x100 == b1;
  }

  /** Two sequence numbers with the same encoding are equal. */
  lemma BigEndianInjective(m: u32, n: u32)
    requires BigEndian(m) == BigEndian(n)
    ensures m == n
  {
  }
}

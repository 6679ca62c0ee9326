/** Octets, fixed-width integers and their wire encodings. */
module Bytes {

  type byte = x: int | 0 <= x < 0x100
  type uint16 = x: int | 0 <= x < 0x1_0000
  type uint32 = x: int | 0 <= x < 0x1_0000_0000

  const U32_MAX: uint32 := 0xFFFF_FFFF

  /** The low eight bits of a number (`as u8`). */
  function Octet(n: nat): byte
  {
    n % 0x100
  }

  /** `u32::to_le_bytes`. */
  function Le32(n: uint32): (r: seq<byte>)
    ensures |r| == 4
  {
    [Octet(n), Octet(n / 0x100), Octet(n / 0x1_0000), Octet(n / 0x100_0000)]
  }

  /** `u32::from_le_bytes`. */
  function FromLe32(s: seq<byte>): uint32
    requires |s| == 4
  {
    s[0] as int + 0x100 * s[1] as int + 0x1_0000 * s[2] as int + 0x100_0000 * s[3] as int
  }

  /** A word survives encoding. */
  lemma Le32RoundTrip(n: uint32)
    ensures FromLe32(Le32(n)) == n
  {
    var q: int := n;
    assert q == q % 0x100 + 0x100 * (q / 0x100);
    assert q / 0x1_0000 == q / 0x100 / 0x100;
    assert q / 0x100_0000 == q / 0x1_0000 / 0x100;
  }

  /** Four bytes survive decoding. */
  lemma FromLe32RoundTrip(s: seq<byte>)
    requires |s| == 4
    ensures Le32(FromLe32(s)) == s
  {
    var a: int, b: int, c: int, d: int := s[0], s[1], s[2], s[3];
    var m: int := a + 0x100 * b + 0x1_0000 * c + 0x100_0000 * d;
    assert FromLe32(s) == m;
    assert m / 0x100 == b + 0x100 * c + 0x1_0000 * d;
    assert m / 0x1_0000 == c + 0x100 * d;
    assert m / 0x100_0000 == d;
    assert m % 0x100 == a && m / 0x100 % 0x100 == b && m / 0x1_0000 % 0x100 == c;
  }

  function Be16(n: uint16): (r: seq<byte>)
    ensures |r| == 2
  {
    [Octet(n / 0x100), Octet(n)]
  }

  function FromBe16(s: seq<byte>): uint16
    requires |s| == 2
  {
    0x100 * s[0] as int + s[1] as int
  }

  function Be32(n: uint32): (r: seq<byte>)
    ensures |r| == 4
  {
    [Octet(n / 0x100_0000), Octet(n / 0x1_0000), Octet(n / 0x100), Octet(n)]
  }

  function FromBe32(s: seq<byte>): uint32
    requires |s| == 4
  {
    0x100_0000 * s[0] as int + 0x1_0000 * s[1] as int + 0x100 * s[2] as int + s[3] as int
  }

  /** All chunks, end to end. */
  function Concat(chunks: seq<seq<byte>>): seq<byte>
  {
    if chunks == [] then [] else chunks[0] + Concat(chunks[1..])
  }

  lemma {:induction false} ConcatAppend(a: seq<seq<byte>>, b: seq<seq<byte>>)
    ensures Concat(a + b) == Concat(a) + Concat(b)
  {
    if a == [] {
      assert a + b == b;
    } else {
      assert (a + b)[1..] == a[1..] + b;
      ConcatAppend(a[1..], b);
    }
  }

  lemma ConcatPush(a: seq<seq<byte>>, x: seq<byte>)
    ensures Concat(a + [x]) == Concat(a) + x
  {
    ConcatAppend(a, [x]);
    assert [x][1..] == [];
  }

  /** Total length of all chunks. */
  function Size(chunks: seq<seq<byte>>): nat
  {
    if chunks == [] then 0 else |chunks[0]| + Size(chunks[1..])
  }

  lemma {:induction false} SizePush(a: seq<seq<byte>>, x: seq<byte>)
    ensures Size(a + [x]) == Size(a) + |x|
  {
    if a == [] {
      assert (a + [x])[1..] == [];
    } else {
      assert (a + [x])[1..] == a[1..] + [x];
      SizePush(a[1..], x);
    }
  }

  /** A byte prefix of `a + b` no longer than `a` is a prefix of `a`. */
  lemma TakeOfSum(a: seq<byte>, b: seq<byte>, n: nat)
    requires n <= |a|
    ensures (a + b)[..n] == a[..n]
    ensures (a + b)[n..] == a[n..] + b
  {
  }
}

/** Bytes, big-endian 16-bit numbers, and where a piece lies inside a buffer. */
module Bytes {
  type Byte = b: int | 0 <= b < 256

  type U16 = n: int | 0 <= n < 65536

  function Pack(n: U16): (r: seq<Byte>)
    ensures |r| == 2
  {
    [n / 256, n % 256]
  }

  /** Two bytes at `offset`, high byte first. */
  function Unpack(data: seq<Byte>, offset: nat): U16
    requires offset + 2 <= |data|
  {
    (data[offset] as int) * 256 + data[offset + 1]
  }

  /** `part` lies at `offset`. */
  predicate At(data: seq<Byte>, offset: nat, part: seq<Byte>) {
    offset + |part| <= |data| && data[offset..offset + |part|] == part
  }

  lemma {:induction false} AtSplit(data: seq<Byte>, offset: nat, a: seq<Byte>, b: seq<Byte>)
    requires At(data, offset, a + b)
    ensures At(data, offset, a) && At(data, offset + |a|, b)
  {
    assert data[offset..offset + |a|] == data[offset..offset + |a + b|][..|a|];
    assert data[offset + |a|..offset + |a + b|] == data[offset..offset + |a + b|][|a|..];
  }

  lemma {:induction false} PackUnpack(data: seq<Byte>, offset: nat, n: U16)
    requires At(data, offset, Pack(n))
    ensures Unpack(data, offset) == n
  {
    var part := data[offset..offset + 2];
    assert part[0] == data[offset] && part[1] == data[offset + 1];
  }
}

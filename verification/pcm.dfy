/** Sample encodings: Python's `round` (half to even), the 16-bit
    little-endian two's-complement `struct.pack("h", v)`, and writing four
    bytes into a buffer as `struct.pack_into` does.
 */
module Pcm {
  import opened Outcomes

  type byte = x: int | 0 <= x < 256

  /** Four bytes of a packed 32-bit float; the encoding itself is a parameter of the player. */
  type Float32Bytes = s: seq<byte> | |s| == 4 witness [0, 0, 0, 0]

  predicate IsEven(n: int)
  {
    n % 2 == 0
  }

  /** Python's `round(x)`: the nearest integer, ties going to the even one. */
  function RoundHalfEven(x: real): (r: int)
    ensures -0.5 <= r as real - x <= 0.5
    ensures (r as real - x == 0.5 || r as real - x == -0.5) ==> IsEven(r)
  {
    var f := x.Floor;
    var frac := x - f as real;
    if frac < 0.5 then f
    else if frac > 0.5 then f + 1
    else if IsEven(f) then f
    else f + 1
  }

  /** Exactly one integer meets `round`'s contract, so it characterises the result. */
  lemma RoundUnique(x: real, n: int)
    requires -0.5 <= n as real - x <= 0.5
    requires (n as real - x == 0.5 || n as real - x == -0.5) ==> IsEven(n)
    ensures n == RoundHalfEven(x)
  {
  }

  /** Rounding an integer gives it back. */
  lemma RoundIntegral(n: int)
    ensures RoundHalfEven(n as real) == n
  {
    RoundUnique(n as real, n);
  }

  /** Halves go to the even neighbour: `round(0.5) == 0`, `round(1.5) == 2`, `round(2.5) == 2`, `round(-0.5) == 0`. */
  lemma RoundHalves()
    ensures RoundHalfEven(0.5) == 0 && RoundHalfEven(1.5) == 2 && RoundHalfEven(2.5) == 2 && RoundHalfEven(-0.5) == 0
  {
    assert (0.5).Floor == 0;
    assert (1.5).Floor == 1;
    assert (2.5).Floor == 2;
    assert (-0.5).Floor == -1;
  }

  predicate InShortRange(v: int)
  {
    -32768 <= v <= 32767
  }

  /** `struct.pack("h", v)`: two's complement in two bytes, low byte first;
      a value outside the signed 16-bit range raises. */
  function PackShort(v: int): (r: Result<seq<byte>>)
    ensures r.Ok? <==> InShortRange(v)
    ensures r.Err? ==> r.error == StructRange
    ensures r.Ok? ==> |r.value| == 2
  {
    if !InShortRange(v) then Err(StructRange)
    else
      var u: int := if v < 0 then v + 65536 else v;
      Ok([u % 256, u / 256])
  }

  /** `struct.unpack("h", bs)`: the inverse reading of two little-endian bytes. */
  function UnpackShort(bs: seq<byte>): (v: int)
    requires |bs| == 2
    ensures InShortRange(v)
    ensures v < 0 <==> bs[1] >= 128
  {
    var u := bs[0] as int + 256 * (bs[1] as int);
    if u >= 32768 then u - 65536 else u
  }

  /** Packing then unpacking gives back every 16-bit value. */
  lemma UnpackPack(v: int)
    requires InShortRange(v)
    ensures UnpackShort(PackShort(v).value) == v
  {
  }

  /** Every two bytes are the packing of exactly one value. */
  lemma PackUnpack(bs: seq<byte>)
    requires |bs| == 2
    ensures PackShort(UnpackShort(bs)) == Ok(bs)
  {
    var u := bs[0] as int + 256 * (bs[1] as int);
    assert u % 256 == bs[0] as int && u / 256 == bs[1] as int;
    var bs' := PackShort(UnpackShort(bs)).value;
    assert bs'[0] == bs[0] && bs'[1] == bs[1];
    assert bs' == bs;
  }

  /** `struct.pack_into` of four bytes at `offset`: those four bytes are
      replaced and every other byte stays. */
  function PackInto(buf: seq<byte>, offset: nat, bytes: Float32Bytes): (r: seq<byte>)
    requires offset + 4 <= |buf|
    ensures |r| == |buf|
    ensures r[offset..offset + 4] == bytes
    ensures forall i :: 0 <= i < |buf| && !(offset <= i < offset + 4) ==> r[i] == buf[i]
  {
    buf[..offset] + bytes + buf[offset + 4..]
  }

  /** Packing the same bytes at the same offset again changes nothing. */
  lemma PackIntoIdempotent(buf: seq<byte>, offset: nat, bytes: Float32Bytes)
    requires offset + 4 <= |buf|
    ensures PackInto(PackInto(buf, offset, bytes), offset, bytes) == PackInto(buf, offset, bytes)
  {
    var once := PackInto(buf, offset, bytes);
    var twice := PackInto(once, offset, bytes);
    forall i | 0 <= i < |buf|
      ensures twice[i] == once[i]
    {
      if offset <= i < offset + 4 {
        assert twice[i] == twice[offset..offset + 4][i - offset];
        assert once[i] == once[offset..offset + 4][i - offset];
      }
    }
  }
}

/** The `struct` formats the tool uses: `'=i'` (a signed 32-bit integer,
    standard size, no padding) and `'=b'` (a signed byte), in the
    little-endian byte order of the hosts the tool runs on. */
module LittleEndian {

  type byte = x: int | 0 <= x < 256

  const TwoTo31: int := 0x8000_0000
  const TwoTo32: int := 0x1_0000_0000

  /** The values `struct.pack('=i', v)` accepts; any other raises `struct.error`. */
  predicate IsInt32(v: int) {
    -TwoTo31 <= v < TwoTo31
  }

  predicate AllInt32(s: seq<int>) {
    forall i :: 0 <= i < |s| ==> IsInt32(s[i])
  }

  /** `struct.unpack('=b', ...)`: a byte read as two's complement. */
  function Int8(b: byte): (v: int)
    ensures -128 <= v < 128
    ensures v >= 0 <==> b < 128
    ensures (v + 256) % 256 == b
  {
    if b < 128 then b else b - 256
  }

  /** `struct.pack('=i', v)`: two's complement, least significant byte first. */
  function EncodeI32(v: int): (r: seq<byte>)
    requires IsInt32(v)
    ensures |r| == 4
  {
    var u := if v < 0 then v + TwoTo32 else v;
    [u % 256, (u / 256) % 256, (u / 65536) % 256, u / 16777216]
  }

  /** `struct.unpack('=i', b)[0]`. */
  function DecodeI32(b: seq<byte>): (v: int)
    requires |b| == 4
    ensures IsInt32(v)
  {
    var u := b[0] as int + 256 * b[1] as int + 65536 * b[2] as int + 16777216 * b[3] as int;
    if u < TwoTo31 then u else u - TwoTo32
  }

  lemma DecodeEncodeI32(v: int)
    requires IsInt32(v)
    ensures DecodeI32(EncodeI32(v)) == v
  {
    var u := if v < 0 then v + TwoTo32 else v;
    var b := EncodeI32(v);
    assert 0 <= u < TwoTo32;
    assert u == b[0] as int + 256 * b[1] as int + 65536 * b[2] as int + 16777216 * b[3] as int by {
      DigitSplit(u);
    }
  }

  lemma DigitSplit(u: int)
    requires 0 <= u < TwoTo32
    ensures u == u % 256 + 256 * ((u / 256) % 256) + 65536 * ((u / 65536) % 256) + 16777216 * (u / 16777216)
    ensures 0 <= u / 16777216 < 256
  {
    var q1 := u / 256;
    var q2 := q1 / 256;
    var q3 := q2 / 256;
    assert u == u % 256 + 256 * q1;
    assert q1 == q1 % 256 + 256 * q2;
    assert q2 == q2 % 256 + 256 * q3;
    assert q2 == u / 65536 by { DivDiv(u); }
    assert q3 == u / 16777216 by { DivDiv(u); }
  }

  lemma DivDiv(u: int)
    requires u >= 0
    ensures u / 256 / 256 == u / 65536
    ensures u / 65536 / 256 == u / 16777216
  {
  }

  lemma EncodeDecodeI32(b: seq<byte>)
    requires |b| == 4
    ensures EncodeI32(DecodeI32(b)) == b
  {
    var hi := b[1] as int + 256 * b[2] as int + 65536 * b[3] as int;
    var u := b[0] as int + 256 * hi;
    assert (if DecodeI32(b) < 0 then DecodeI32(b) + TwoTo32 else DecodeI32(b)) == u;
    LowDigit(b[0], hi);
    var mid := b[2] as int + 256 * b[3] as int;
    LowDigit(b[1], mid);
    LowDigit(b[2], b[3]);
    DivDiv(u);
  }

  /** Splitting off the least significant base-256 digit. */
  lemma LowDigit(lo: int, hi: int)
    requires 0 <= lo < 256 && hi >= 0
    ensures (lo + 256 * hi) % 256 == lo && (lo + 256 * hi) / 256 == hi
  {
  }

  /** `struct.pack(f'={n}i', *s)`: the values one after the other. */
  function PackInts(s: seq<int>): (r: seq<byte>)
    requires AllInt32(s)
    ensures |r| == 4 * |s|
  {
    if s == [] then [] else EncodeI32(s[0]) + PackInts(s[1..])
  }

  /** `struct.unpack(f'={n}i', b)` with `len(b) == 4 * n`. */
  function UnpackInts(b: seq<byte>): (r: seq<int>)
    requires |b| % 4 == 0
    ensures |r| == |b| / 4
    ensures AllInt32(r)
  {
    if b == [] then [] else [DecodeI32(b[..4])] + UnpackInts(b[4..])
  }

  /** Value `i` of an unpacked payload is decoded from bytes `4i .. 4i+3`. */
  lemma {:induction false} UnpackIntsAt(b: seq<byte>, i: nat)
    requires |b| % 4 == 0 && i < |b| / 4
    ensures UnpackInts(b)[i] == DecodeI32(b[4 * i .. 4 * i + 4])
  {
    if i > 0 {
      UnpackIntsAt(b[4..], i - 1);
      assert b[4..][4 * (i - 1) .. 4 * (i - 1) + 4] == b[4 * i .. 4 * i + 4];
    }
  }

  lemma {:induction false} UnpackPackInts(s: seq<int>)
    requires AllInt32(s)
    ensures UnpackInts(PackInts(s)) == s
  {
    if s != [] {
      var b := PackInts(s);
      assert b[..4] == EncodeI32(s[0]);
      assert b[4..] == PackInts(s[1..]);
      DecodeEncodeI32(s[0]);
      UnpackPackInts(s[1..]);
    }
  }

  lemma {:induction false} PackUnpackInts(b: seq<byte>)
    requires |b| % 4 == 0
    ensures PackInts(UnpackInts(b)) == b
  {
    if b != [] {
      var s := UnpackInts(b);
      assert s[0] == DecodeI32(b[..4]) && s[1..] == UnpackInts(b[4..]);
      EncodeDecodeI32(b[..4]);
      PackUnpackInts(b[4..]);
      assert b == b[..4] + b[4..];
    }
  }
}

/**
 * Fixed-width big-endian integers, as the wire protocol lays them out:
 * Ruby's `pack("n")` (16 bits), `pack("N")` (32 bits) and
 * `pack("q").reverse` (64-bit two's complement, most significant byte first).
 * `pack("q")` is native-endian, so its reversal is big-endian only on a
 * little-endian host; the model fixes big-endian order for every host.
 */
module BigEndian {

  /** One octet on the wire. */
  type Byte = x: int | 0 <= x < 256

  /** 256^width: the number of distinct values a field of `width` bytes holds. */
  function Pow256(width: nat): (r: nat)
    ensures r >= 1
  {
    if width == 0 then 1 else 256 * Pow256(width - 1)
  }

  /** The `width` low-order bytes of `n`, most significant first. */
  function EncodeBE(n: nat, width: nat): (r: seq<Byte>)
    ensures |r| == width
  {
    if width == 0 then [] else EncodeBE(n / 256, width - 1) + [n % 256]
  }

  /** The unsigned value of a big-endian byte string: `unpack("n")` on 2 bytes, `unpack("N")` on 4. */
  function DecodeBE(s: seq<Byte>): (r: nat)
    ensures r < Pow256(|s|)
  {
    if s == [] then 0 else DecodeBE(s[..|s| - 1]) * 256 + s[|s| - 1]
  }

  /** Decoding undoes encoding for every value the field can hold. */
  lemma {:induction false} DecodeEncode(n: nat, width: nat)
    requires n < Pow256(width)
    ensures DecodeBE(EncodeBE(n, width)) == n
  {
    if width > 0 {
      var s := EncodeBE(n, width);
      assert s[..|s| - 1] == EncodeBE(n / 256, width - 1);
      DecodeEncode(n / 256, width - 1);
    }
  }

  /** Encoding undoes decoding: every byte string is the encoding of its value. */
  lemma {:induction false} EncodeDecode(s: seq<Byte>)
    ensures EncodeBE(DecodeBE(s), |s|) == s
  {
    if s != [] {
      var front, last := s[..|s| - 1], s[|s| - 1];
      var n := DecodeBE(s);
      assert n / 256 == DecodeBE(front) && n % 256 == last;
      EncodeDecode(front);
      assert s == front + [last];
    }
  }

  const TWO_16: int := 0x1_0000
  const TWO_32: int := 0x1_0000_0000
  const TWO_63: int := 0x8000_0000_0000_0000
  const TWO_64: int := 0x1_0000_0000_0000_0000

  /** `[n].pack("n")`: the low 16 bits of `n` (negative values wrap, as Ruby's pack does). */
  function BE16(n: int): (r: seq<Byte>)
    ensures |r| == 2
  {
    EncodeBE(n % TWO_16, 2)
  }

  /** `[n].pack("N")`: the low 32 bits of `n`. */
  function BE32(n: int): (r: seq<Byte>)
    ensures |r| == 4
  {
    EncodeBE(n % TWO_32, 4)
  }

  /** `[n].pack("q").reverse` on a little-endian host: `n` as a 64-bit two's-complement value, big-endian. */
  function BE64(n: int): (r: seq<Byte>)
    ensures |r| == 8
  {
    EncodeBE(n % TWO_64, 8)
  }

  /** `reverse.unpack("q")` on 8 bytes on a little-endian host: a signed 64-bit big-endian value. */
  function DecodeI64(s: seq<Byte>): (r: int)
    requires |s| == 8
    ensures -TWO_63 <= r < TWO_63
    ensures r % TWO_64 == DecodeBE(s)
  {
    assert Pow256(8) == TWO_64;
    var u := DecodeBE(s);
    if u >= TWO_63 then u - TWO_64 else u
  }

  lemma RoundTrip16(n: int)
    ensures DecodeBE(BE16(n)) == n % TWO_16
    ensures 0 <= n < TWO_16 ==> DecodeBE(BE16(n)) == n
  {
    assert Pow256(2) == TWO_16;
    DecodeEncode(n % TWO_16, 2);
  }

  lemma RoundTrip32(n: int)
    ensures DecodeBE(BE32(n)) == n % TWO_32
    ensures 0 <= n < TWO_32 ==> DecodeBE(BE32(n)) == n
  {
    assert Pow256(4) == TWO_32;
    DecodeEncode(n % TWO_32, 4);
  }

  /** Every offset in the signed 64-bit range, negative ones included, survives the round trip. */
  lemma RoundTrip64(n: int)
    requires -TWO_63 <= n < TWO_63
    ensures DecodeI64(BE64(n)) == n
  {
    assert Pow256(8) == TWO_64;
    DecodeEncode(n % TWO_64, 8);
  }

  /** A 16-bit field re-encodes to itself. */
  lemma Reencode16(s: seq<Byte>)
    requires |s| == 2
    ensures BE16(DecodeBE(s)) == s
  {
    assert Pow256(2) == TWO_16;
    var n := DecodeBE(s);
    assert n % TWO_16 == n;
    EncodeDecode(s);
  }

  /** A 32-bit field re-encodes to itself. */
  lemma Reencode32(s: seq<Byte>)
    requires |s| == 4
    ensures BE32(DecodeBE(s)) == s
  {
    assert Pow256(4) == TWO_32;
    var n := DecodeBE(s);
    assert n % TWO_32 == n;
    EncodeDecode(s);
  }

  /** A 64-bit field re-encodes to itself through its signed value. */
  lemma Reencode64(s: seq<Byte>)
    requires |s| == 8
    ensures BE64(DecodeI64(s)) == s
  {
    assert Pow256(8) == TWO_64;
    var u := DecodeBE(s);
    assert DecodeI64(s) % TWO_64 == u;
    EncodeDecode(s);
  }

  /** A value under 256 is its last byte, preceded by zero bytes. */
  lemma {:induction false} EncodeSmall(n: nat, width: nat)
    requires n < 256 && width >= 1
    ensures EncodeBE(n, width) == seq(width - 1, _ => 0) + [n]
  {
    if width > 1 {
      EncodeZero(width - 1);
    }
  }

  /** Zero is written as zero bytes. */
  lemma {:induction false} EncodeZero(width: nat)
    ensures EncodeBE(0, width) == seq(width, _ => 0)
  {
    if width > 0 {
      EncodeZero(width - 1);
      assert seq(width, _ => 0) == seq(width - 1, _ => 0) + [0];
    }
  }

  /** A 16-bit field holding a value under 256. */
  lemma BE16Small(n: int)
    requires 0 <= n < 256
    ensures BE16(n) == [0, n]
  {
    assert n % TWO_16 == n;
    EncodeSmall(n, 2);
    assert seq(1, _ => 0) == [0];
  }

  /** A 32-bit field holding a value under 256. */
  lemma BE32Small(n: int)
    requires 0 <= n < 256
    ensures BE32(n) == [0, 0, 0, n]
  {
    assert n % TWO_32 == n;
    EncodeSmall(n, 4);
    assert seq(3, _ => 0) == [0, 0, 0];
  }

  /** A 64-bit field holding a value under 2^16. */
  lemma BE64Small(n: int)
    requires 0 <= n < TWO_16
    ensures BE64(n) == [0, 0, 0, 0, 0, 0, n / 256, n % 256]
  {
    assert n % TWO_64 == n;
    assert EncodeBE(n, 8) == EncodeBE(n / 256, 7) + [n % 256];
    EncodeSmall(n / 256, 7);
    assert seq(6, _ => 0) == [0, 0, 0, 0, 0, 0];
  }

  /** The largest value a field holds is written as all-ones bytes. */
  lemma {:induction false} MaxIsAllOnes(width: nat)
    ensures EncodeBE(Pow256(width) - 1, width) == seq(width, _ => 255)
  {
    if width > 0 {
      var n := Pow256(width) - 1;
      assert n / 256 == Pow256(width - 1) - 1 && n % 256 == 255;
      MaxIsAllOnes(width - 1);
      assert seq(width, _ => 255) == seq(width - 1, _ => 255) + [255];
    }
  }

  /** -1 as a 64-bit field is eight 0xFF bytes (the "latest offset" sentinel). */
  lemma MinusOneIsAllOnes()
    ensures BE64(-1) == [255, 255, 255, 255, 255, 255, 255, 255]
  {
    assert Pow256(8) == TWO_64;
    MaxIsAllOnes(8);
  }
}

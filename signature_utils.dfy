/** The four-byte signature codec: 32-bit big-endian integer <-> 4 bytes <-> 4-character string. */
module SignatureUtils {
  import opened Wrappers
  import opened JavaNum

  /** Byte k (0 = most significant) of the low 32 bits of v: `(v >> (24 - 8k)) & 0xFF`. */
  function ByteOf(v: int, k: nat): byte
    requires k < 4
  {
    (v / Shift(k)) % 256
  }

  /** The weight of byte k of a big-endian 32-bit number: 2^24, 2^16, 2^8, 1. */
  function Shift(k: nat): int
    requires k < 4
  {
    if k == 0 then 0x100_0000 else if k == 1 then 0x1_0000 else if k == 2 then 0x100 else 1
  }

  /** BE of a four-byte sequence, written out. */
  lemma BEFour(s: seq<byte>)
    requires |s| == 4
    ensures BE(s) == s[0] as int * 0x100_0000 + s[1] as int * 0x1_0000 + s[2] as int * 0x100 + s[3] as int
  {
    assert s[..3][..2] == s[..2];
    assert s[..2][..1] == s[..1];
    assert s[..1][..0] == [];
  }

  /** The character the platform charset gives a byte (ISO-8859-1: the byte value itself). */
  function ByteToChar(b: byte): char
  {
    b as char
  }

  /** The byte `String.getBytes` gives a character (ISO-8859-1: unmappable characters become '?'). */
  function CharToByte(c: char): byte
  {
    if c as int < 256 then c as int else '?' as int
  }

  /** `byteToInt`: the four bytes at sourceOffset assembled big-endian into a Java int. */
  function ByteToInt(source: seq<byte>, sourceOffset: int): (r: Result<int32>)
    ensures r.Ok? <==> 0 <= sourceOffset && sourceOffset + 4 <= |source|
    ensures r.Ok? ==> U32(r.value) == BE(source[sourceOffset..sourceOffset + 4])
  {
    if 0 <= sourceOffset && sourceOffset + 4 <= |source| then
      var s := source[sourceOffset..sourceOffset + 4];
      BEFour(s);
      Ok(S32(s[0] as int * 0x100_0000 + s[1] as int * 0x1_0000 + s[2] as int * 0x100 + s[3] as int))
    else
      Err(IndexOutOfBounds)
  }

  /** `intToByte`: writes v into dest[0..3], most significant byte first, and returns 4;
      a shorter dest receives the bytes that fit before the index fails. */
  method IntToByte(v: int32, dest: array<byte>) returns (r: Result<int>)
    modifies dest
    ensures r.Ok? <==> dest.Length >= 4
    ensures r.Ok? ==> r.value == 4
    ensures forall k :: 0 <= k < 4 && k < dest.Length ==> dest[k] == ByteOf(v, k)
    ensures forall k :: 4 <= k < dest.Length ==> dest[k] == old(dest[k])
  {
    var destOffset := 0;
    while destOffset < 4
      invariant 0 <= destOffset <= 4
      invariant destOffset <= dest.Length
      invariant forall k :: 0 <= k < destOffset ==> dest[k] == ByteOf(v, k)
      invariant forall k :: destOffset <= k < dest.Length ==> dest[k] == old(dest[k])
    {
      if destOffset >= dest.Length {
        return Err(IndexOutOfBounds);
      }
      dest[destOffset] := (v / Shift(destOffset)) % 256;
      destOffset := destOffset + 1;
    }
    return Ok(destOffset);
  }

  /** The four characters `toString(value)` produces: the bytes of the low 32 bits, most significant first. */
  function SignatureString(value: int): (s: string)
    ensures |s| == 4
  {
    [ByteToChar(ByteOf(value, 0)), ByteToChar(ByteOf(value, 1)),
     ByteToChar(ByteOf(value, 2)), ByteToChar(ByteOf(value, 3))]
  }

  /** `toString(long)`: narrows to int, fills a fresh 4-byte array and decodes it. */
  method ToString(value: int) returns (s: string)
    ensures s == SignatureString(value)
  {
    var bytes := new byte[4];
    var narrowed := S32(value);
    var _ := IntToByte(narrowed, bytes);
    LowBitsOnly(value, narrowed);
    s := [ByteToChar(bytes[0]), ByteToChar(bytes[1]), ByteToChar(bytes[2]), ByteToChar(bytes[3])];
  }

  /** `toLong`: the first four bytes of the string's encoding, assembled big-endian and masked to 32 bits. */
  function ToLong(s: string): (r: Result<int>)
    ensures r.Ok? <==> |s| >= 4
    ensures r.Ok? ==> 0 <= r.value < TWO_32
    ensures r.Ok? ==> r.value == BE([CharToByte(s[0]), CharToByte(s[1]), CharToByte(s[2]), CharToByte(s[3])])
  {
    var bytes := seq(|s|, i requires 0 <= i < |s| => CharToByte(s[i]));
    var v :- ByteToInt(bytes, 0);
    assert bytes[0..4] == [CharToByte(s[0]), CharToByte(s[1]), CharToByte(s[2]), CharToByte(s[3])];
    Ok(U32(v))
  }

  /** Adding a multiple of 2^32 adds a multiple of 256 to each shifted value. */
  lemma ShiftAddMultiple(w: int, q: int)
    ensures (w + q * 0x1_0000_0000) / 0x100_0000 == w / 0x100_0000 + q * 0x100
    ensures (w + q * 0x1_0000_0000) / 0x1_0000 == w / 0x1_0000 + q * 0x1_0000
    ensures (w + q * 0x1_0000_0000) / 0x100 == w / 0x100 + q * 0x100_0000
  {
  }

  /** Adding a multiple of 256 does not change the low byte. */
  lemma LowByteAddMultiple(x: int, q: int)
    ensures (x + q * 0x100) % 0x100 == x % 0x100
  {
  }

  /** Two values that agree in their low 32 bits have the same four bytes. */
  lemma LowBitsOnly(v: int, w: int)
    requires (v - w) % TWO_32 == 0
    ensures forall k :: 0 <= k < 4 ==> ByteOf(v, k) == ByteOf(w, k)
  {
    var q := (v - w) / 0x1_0000_0000;
    assert v == w + q * 0x1_0000_0000;
    ShiftAddMultiple(w, q);
    LowByteAddMultiple(w / 0x100_0000, q);
    LowByteAddMultiple(w / 0x1_0000, q * 0x100);
    LowByteAddMultiple(w / 0x100, q * 0x1_0000);
    LowByteAddMultiple(w, q * 0x100_0000);
    assert ByteOf(v, 0) == ByteOf(w, 0);
    assert ByteOf(v, 1) == ByteOf(w, 1);
    assert ByteOf(v, 2) == ByteOf(w, 2);
    assert ByteOf(v, 3) == ByteOf(w, 3);
  }

  /** A 32-bit number is the weighted sum of its four bytes. */
  lemma Decompose(u: int)
    requires 0 <= u < 0x1_0000_0000
    ensures u == (u / 0x100_0000) * 0x100_0000 + (u / 0x1_0000) % 0x100 * 0x1_0000 + (u / 0x100) % 0x100 * 0x100 + u % 0x100
  {
    var a := u / 0x100;
    assert u == a * 0x100 + u % 0x100;
    var b := a / 0x100;
    assert a == b * 0x100 + a % 0x100;
    assert b == u / 0x1_0000;
    var c := b / 0x100;
    assert b == c * 0x100 + b % 0x100;
    assert c == u / 0x100_0000;
  }

  /** The bytes of a weighted sum of four bytes are those bytes. */
  lemma Compose(b0: byte, b1: byte, b2: byte, b3: byte)
    ensures var u := b0 as int * 0x100_0000 + b1 as int * 0x1_0000 + b2 as int * 0x100 + b3 as int;
      u / 0x100_0000 == b0 && (u / 0x1_0000) % 0x100 == b1 && (u / 0x100) % 0x100 == b2 && u % 0x100 == b3
  {
    var u := b0 as int * 0x100_0000 + b1 as int * 0x1_0000 + b2 as int * 0x100 + b3 as int;
    assert u / 0x100 == b0 as int * 0x1_0000 + b1 as int * 0x100 + b2 as int;
    assert u / 0x1_0000 == b0 as int * 0x100 + b1 as int;
  }

  /** The signature string of a value given by its four characters. */
  lemma SignatureOf(v: int, a: char, b: char, c: char, d: char)
    requires a as int < 256 && b as int < 256 && c as int < 256 && d as int < 256
    requires v == a as int * 0x100_0000 + b as int * 0x1_0000 + c as int * 0x100 + d as int
    ensures SignatureString(v) == [a, b, c, d]
  {
    Compose(a as int, b as int, c as int, d as int);
  }

  /** The four bytes of v, assembled big-endian, give back the low 32 bits of v. */
  lemma {:induction false} BytesOfRoundTrip(v: int)
    ensures BE([ByteOf(v, 0), ByteOf(v, 1), ByteOf(v, 2), ByteOf(v, 3)]) == U32(v)
  {
    var u := U32(v);
    LowBitsOnly(v, u);
    assert [ByteOf(v, 0), ByteOf(v, 1), ByteOf(v, 2), ByteOf(v, 3)] == [ByteOf(u, 0), ByteOf(u, 1), ByteOf(u, 2), ByteOf(u, 3)];
    BytesOfU32(u);
  }

  /** The four bytes of a 32-bit number, assembled big-endian, give back the number. */
  lemma BytesOfU32(u: int)
    requires 0 <= u < TWO_32
    ensures BE([ByteOf(u, 0), ByteOf(u, 1), ByteOf(u, 2), ByteOf(u, 3)]) == u
  {
    var s := [ByteOf(u, 0), ByteOf(u, 1), ByteOf(u, 2), ByteOf(u, 3)];
    BEFour(s);
    assert s[0] == u / 0x100_0000 && s[1] == (u / 0x1_0000) % 0x100 && s[2] == (u / 0x100) % 0x100 && s[3] == u % 0x100;
    Decompose(u);
  }

  /** byteToInt(intToByte(v)) == v for every Java int v. */
  lemma IntToByteRoundTrip(v: int32)
    ensures ByteToInt([ByteOf(v, 0), ByteOf(v, 1), ByteOf(v, 2), ByteOf(v, 3)], 0) == Ok(v)
  {
    var s := [ByteOf(v, 0), ByteOf(v, 1), ByteOf(v, 2), ByteOf(v, 3)];
    BytesOfRoundTrip(v);
    assert s[0..4] == s;
    var r := ByteToInt(s, 0);
    assert U32(r.value) == U32(v);
    U32OfInt32(r.value);
    U32OfInt32(v);
  }

  /** The low 32 bits of a Java int: itself when non-negative, otherwise itself plus 2^32. */
  lemma U32OfInt32(x: int32)
    ensures U32(x) == if x >= 0 then x else x + TWO_32
  {
    if x < 0 {
      assert (x + TWO_32) % TWO_32 == x % TWO_32;
    }
  }

  /** toString only looks at the low 32 bits of its argument (the `(int)` cast). */
  lemma ToStringLow32(value: int)
    ensures SignatureString(value) == SignatureString(U32(value))
    ensures SignatureString(value) == SignatureString(S32(value))
  {
    LowBitsOnly(value, U32(value));
    LowBitsOnly(value, S32(value));
  }

  /** toLong(toString(v)) == (v & 0xFFFFFFFF). */
  lemma ToStringToLong(value: int)
    ensures ToLong(SignatureString(value)) == Ok(U32(value))
  {
    var s := SignatureString(value);
    assert forall k :: 0 <= k < 4 ==> CharToByte(s[k]) == ByteOf(value, k);
    BytesOfRoundTrip(value);
  }

  /** toLong reads only the first four characters of its argument. */
  lemma ToLongFirstFour(s: string, t: string)
    requires |s| >= 4 && |t| >= 4 && s[..4] == t[..4]
    ensures ToLong(s) == ToLong(t)
  {
    assert s[0] == t[0] && s[1] == t[1] && s[2] == t[2] && s[3] == t[3];
  }

  /** toString(toLong(s)) == s for every four-character string of one-byte characters. */
  lemma ToLongToString(s: string)
    requires |s| == 4
    requires forall k :: 0 <= k < 4 ==> s[k] as int < 256
    ensures ToLong(s).Ok? && SignatureString(ToLong(s).value) == s
  {
    var u := ToLong(s).value;
    var b := [CharToByte(s[0]), CharToByte(s[1]), CharToByte(s[2]), CharToByte(s[3])];
    BEFour(b);
    Compose(b[0], b[1], b[2], b[3]);
    var t := SignatureString(u);
    assert forall k :: 0 <= k < 4 ==> t[k] == s[k];
  }
}

/**
 * `HashString` (pkg/hash/string.go): the hex encoding of what a fresh
 * SHA-256 state's `Sum` returns for the string's bytes. `Sum` appends the
 * digest of what was written (nothing) to its argument, so the result is
 * the base16 encoding (section 8 of RFC 4648, lower case) of the string's
 * UTF-8 bytes followed by the fixed digest of the empty message: an
 * encoding of the string, not a hash of it.
 */
module Hash {

  newtype Byte = x: int | 0 <= x < 256

  const HexDigits: string := "0123456789abcdef"

  predicate IsLowerHex(c: char) { '0' <= c <= '9' || 'a' <= c <= 'f' }

  /** The two hex digits of a byte, high nibble first. */
  function HexByte(b: Byte): (r: string)
    ensures |r| == 2 && IsLowerHex(r[0]) && IsLowerHex(r[1])
  {
    [HexDigits[b as int / 16], HexDigits[b as int % 16]]
  }

  /** `hex.EncodeToString`. */
  function Base16(bs: seq<Byte>): (r: string)
    ensures |r| == 2 * |bs|
    ensures forall i :: 0 <= i < |r| ==> IsLowerHex(r[i])
  {
    if bs == [] then [] else Base16(bs[..|bs| - 1]) + HexByte(bs[|bs| - 1])
  }

  /** The value of a lower-case hex digit. */
  function Nibble(c: char): (n: int)
    ensures 0 <= n < 16
  {
    if '0' <= c <= '9' then c as int - '0' as int
    else if 'a' <= c <= 'f' then c as int - 'a' as int + 10
    else 0
  }

  /** `hex.DecodeString` on well-formed lower-case input. */
  function Decode16(s: string): (bs: seq<Byte>)
    requires |s| % 2 == 0
  {
    if s == [] then []
    else Decode16(s[..|s| - 2]) + [(Nibble(s[|s| - 2]) * 16 + Nibble(s[|s| - 1])) as Byte]
  }

  lemma NibbleOfHexDigit(d: int)
    requires 0 <= d < 16
    ensures Nibble(HexDigits[d]) == d
  {
  }

  /** Decoding undoes the encoding. */
  lemma {:induction false} Decode16Base16(bs: seq<Byte>)
    ensures Decode16(Base16(bs)) == bs
  {
    if bs != [] {
      var r := Base16(bs);
      var b := bs[|bs| - 1];
      assert r[..|r| - 2] == Base16(bs[..|bs| - 1]);
      assert r[|r| - 2..] == HexByte(b);
      NibbleOfHexDigit(b as int / 16);
      NibbleOfHexDigit(b as int % 16);
      Decode16Base16(bs[..|bs| - 1]);
    }
  }

  /** Encoding a concatenation encodes the parts one after the other. */
  lemma {:induction false} Base16Append(a: seq<Byte>, b: seq<Byte>)
    ensures Base16(a + b) == Base16(a) + Base16(b)
    decreases |b|
  {
    if b != [] {
      var init := b[..|b| - 1];
      assert (a + b)[..|a + b| - 1] == a + init;
      Base16Append(a, init);
    } else {
      assert a + b == a;
    }
  }

  /** The SHA-256 digest of the empty message. */
  const EmptyDigest: seq<Byte> := [
    0xe3, 0xb0, 0xc4, 0x42, 0x98, 0xfc, 0x1c, 0x14, 0x9a, 0xfb, 0xf4, 0xc8, 0x99, 0x6f, 0xb9, 0x24,
    0x27, 0xae, 0x41, 0xe4, 0x64, 0x9b, 0x93, 0x4c, 0xa4, 0x95, 0x99, 0x1b, 0x78, 0x52, 0xb8, 0x55]

  /** A continuation byte carrying six bits of `cp`. */
  function Continuation(cp: int): Byte { (0x80 + cp % 64) as Byte }

  /** The UTF-8 bytes of one character. */
  function Utf8Char(c: char): (bs: seq<Byte>)
    ensures 1 <= |bs| <= 4
    ensures c as int < 0x80 <==> |bs| == 1
    ensures c as int < 0x80 ==> bs == [c as int as Byte]
  {
    var cp := c as int;
    if cp < 0x80 then [cp as Byte]
    else if cp < 0x800 then [(0xC0 + cp / 64) as Byte, Continuation(cp)]
    else if cp < 0x1_0000 then [(0xE0 + cp / 4096) as Byte, Continuation(cp / 64), Continuation(cp)]
    else
      assert cp < 0x11_0000;
      [(0xF0 + cp / 0x4_0000) as Byte, Continuation(cp / 4096), Continuation(cp / 64), Continuation(cp)]
  }

  /** `[]byte(s)`: a Go string's bytes. */
  function Utf8(s: string): (bs: seq<Byte>)
    ensures |bs| >= |s|
  {
    if s == [] then [] else Utf8(s[..|s| - 1]) + Utf8Char(s[|s| - 1])
  }

  /** The function on bytes. */
  function HashBytes(bs: seq<Byte>): (r: string) {
    Base16(bs + EmptyDigest)
  }

  /** `HashString`. */
  function HashString(s: string): (r: string) {
    HashBytes(Utf8(s))
  }

  /** The result has two lower-case hex digits per byte and 64 more for the digest. */
  lemma HashBytesShape(bs: seq<Byte>)
    ensures |HashBytes(bs)| == 2 * |bs| + 64
    ensures forall i :: 0 <= i < |HashBytes(bs)| ==> IsLowerHex(HashBytes(bs)[i])
    ensures HashBytes(bs)[2 * |bs|..] == Base16(EmptyDigest)
  {
    Base16Append(bs, EmptyDigest);
  }

  /** The bytes can be read back from the result's prefix. */
  lemma HashBytesRecovers(bs: seq<Byte>)
    ensures |HashBytes(bs)| >= 2 * |bs|
    ensures Decode16(HashBytes(bs)[..2 * |bs|]) == bs
  {
    Base16Append(bs, EmptyDigest);
    assert HashBytes(bs)[..2 * |bs|] == Base16(bs);
    Decode16Base16(bs);
  }

  /** Distinct byte strings give distinct results. */
  lemma HashBytesInjective(a: seq<Byte>, b: seq<Byte>)
    requires HashBytes(a) == HashBytes(b)
    ensures a == b
  {
    HashBytesShape(a);
    HashBytesShape(b);
    HashBytesRecovers(a);
    HashBytesRecovers(b);
  }

  predicate IsAscii(s: string) { forall i :: 0 <= i < |s| ==> s[i] as int < 0x80 }

  /** An ASCII string's bytes are its character codes. */
  lemma {:induction false} Utf8Ascii(s: string)
    requires IsAscii(s)
    ensures |Utf8(s)| == |s| && forall i :: 0 <= i < |s| ==> Utf8(s)[i] as int == s[i] as int
  {
    if s != [] {
      Utf8Ascii(s[..|s| - 1]);
    }
  }

  /** On ASCII strings, such as AWS resource ids, the result is `2·len(s) + 64` digits and determines the string. */
  lemma HashStringAscii(s: string, t: string)
    requires IsAscii(s) && IsAscii(t)
    ensures |HashString(s)| == 2 * |s| + 64
    ensures HashString(s) == HashString(t) ==> s == t
  {
    Utf8Ascii(s);
    Utf8Ascii(t);
    HashBytesShape(Utf8(s));
    if HashString(s) == HashString(t) {
      HashBytesInjective(Utf8(s), Utf8(t));
      assert forall i :: 0 <= i < |s| ==> s[i] == t[i] by {
        forall i | 0 <= i < |s| ensures s[i] == t[i] {
          assert Utf8(s)[i] as int == s[i] as int && Utf8(t)[i] as int == t[i] as int;
        }
      }
    }
  }
}

/**
 * Rendering of the MD5 digest of an image path as the cache key
 * (`byteToString`): each byte, read unsigned, is appended as
 * `Integer.toHexString`, which writes lower-case hex without leading zeros.
 * So a byte gives one character when it is below 16 and two otherwise, the
 * key has no fixed length, and different digests can give the same key.
 */
module HexKey {

  /** Java's signed `byte`. */
  type Byte = b: int | -128 <= b < 128

  /** `0xFF & b`: the byte's bits read as an unsigned value. */
  function Unsigned(b: Byte): (u: int)
    ensures 0 <= u < 256
    ensures (u - b) % 256 == 0
  {
    if b < 0 then b + 256 else b
  }

  predicate IsHexChar(c: char) {
    '0' <= c <= '9' || 'a' <= c <= 'f'
  }

  function HexDigit(d: int): (c: char)
    requires 0 <= d < 16
    ensures IsHexChar(c)
    ensures DigitValue(c) == d
  {
    if d < 10 then (48 + d) as char else (97 + d - 10) as char
  }

  function DigitValue(c: char): (d: int)
    requires IsHexChar(c)
    ensures 0 <= d < 16
  {
    if c <= '9' then c as int - 48 else c as int - 97 + 10
  }

  /** Reads a string of hex digits back as a number. */
  function ParseHex(s: string): (n: int)
    requires forall i :: 0 <= i < |s| ==> IsHexChar(s[i])
  {
    if s == [] then 0 else ParseHex(s[..|s| - 1]) * 16 + DigitValue(s[|s| - 1])
  }

  /**
   * `Integer.toHexString(u)` for an unsigned byte value: one or two lower-case
   * hex digits, no leading zero, and reading them back gives `u`.
   */
  function ToHexString(u: int): (s: string)
    requires 0 <= u < 256
    ensures |s| == (if u < 16 then 1 else 2)
    ensures forall i :: 0 <= i < |s| ==> IsHexChar(s[i])
    ensures |s| == 2 ==> s[0] != '0'
    ensures ParseHex(s) == u
  {
    if u < 16 then
      var s := [HexDigit(u)];
      assert s[..0] == [];
      s
    else
      var s := [HexDigit(u / 16), HexDigit(u % 16)];
      assert s[..1] == [HexDigit(u / 16)] && s[..1][..0] == [];
      assert ParseHex(s[..1]) == u / 16;
      assert ParseHex(s) == (u / 16) * 16 + u % 16;
      s
  }

  /** The key text for a digest: the bytes' hex strings one after the other. */
  function Render(bytes: seq<Byte>): string
  {
    if bytes == [] then ""
    else Render(bytes[..|bytes| - 1]) + ToHexString(Unsigned(bytes[|bytes| - 1]))
  }

  /** How many bytes of `bytes` need two hex digits. */
  function WideCount(bytes: seq<Byte>): (n: nat)
    ensures n <= |bytes|
  {
    if bytes == [] then 0
    else WideCount(bytes[..|bytes| - 1]) + (if Unsigned(bytes[|bytes| - 1]) < 16 then 0 else 1)
  }

  /** `byteToString`: a loop appending each byte's hex string to a buffer. */
  method ByteToString(bytes: seq<Byte>) returns (s: string)
    ensures s == Render(bytes)
    ensures |bytes| <= |s| <= 2 * |bytes|
    ensures forall i :: 0 <= i < |s| ==> IsHexChar(s[i])
  {
    s := "";
    for i := 0 to |bytes|
      invariant s == Render(bytes[..i])
    {
      assert bytes[..i + 1][..i] == bytes[..i];
      s := s + ToHexString(Unsigned(bytes[i]));
    }
    assert bytes[..|bytes|] == bytes;
    RenderLength(bytes);
    RenderHexChars(bytes);
  }

  /** Each byte contributes one character, plus one more when it is 16 or above. */
  lemma {:induction false} RenderLength(bytes: seq<Byte>)
    ensures |Render(bytes)| == |bytes| + WideCount(bytes)
    ensures |bytes| <= |Render(bytes)| <= 2 * |bytes|
  {
    if bytes != [] {
      RenderLength(bytes[..|bytes| - 1]);
    }
  }

  /** A key contains only lower-case hex digits. */
  lemma {:induction false} RenderHexChars(bytes: seq<Byte>)
    ensures forall i :: 0 <= i < |Render(bytes)| ==> IsHexChar(Render(bytes)[i])
  {
    if bytes != [] {
      RenderHexChars(bytes[..|bytes| - 1]);
    }
  }

  /** Rendering a concatenation renders the two parts one after the other. */
  lemma {:induction false} RenderAppend(a: seq<Byte>, b: seq<Byte>)
    ensures Render(a + b) == Render(a) + Render(b)
  {
    if b != [] {
      var b' := b[..|b| - 1];
      assert (a + b)[..|a + b| - 1] == a + b';
      RenderAppend(a, b');
    } else {
      assert a + b == a;
    }
  }

  /**
   * Distinct digests of the same length give the same key whenever they differ
   * by swapping the two-byte run `01 23` for `12 03`: both render as "123".
   */
  lemma DigestsCollide(p: seq<Byte>, q: seq<Byte>)
    ensures p + [1, 0x23] + q != p + [0x12, 3] + q
    ensures |p + [1, 0x23] + q| == |p + [0x12, 3] + q|
    ensures Render(p + [1, 0x23] + q) == Render(p + [0x12, 3] + q)
  {
    var x: seq<Byte>, y: seq<Byte> := [1, 0x23], [0x12, 3];
    assert (p + x + q)[|p|] != (p + y + q)[|p|];
    assert Render(x) == "123" by {
      assert x[..1] == [1] && x[..1][..0] == [];
    }
    assert Render(y) == "123" by {
      assert y[..1] == [0x12] && y[..1][..0] == [];
    }
    RenderAppend(p, x);
    RenderAppend(p + x, q);
    RenderAppend(p, y);
    RenderAppend(p + y, q);
  }
}

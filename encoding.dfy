/**
 * Byte-level encodings the route applies to text: UTF-8 (how `Buffer.from` and
 * `URLSearchParams` see a string), base64 as section 4 of RFC 4648 defines it (the
 * HTTP Basic credentials of RFC 7617 section 2), and the
 * application/x-www-form-urlencoded serializer of section 5.2 of the WHATWG URL
 * Standard, which `URLSearchParams.toString` uses.
 */
module Encoding {

  type byte = x: int | 0 <= x < 256

  /** The UTF-8 encoding of one Unicode scalar value. */
  function Utf8Char(c: char): (r: seq<byte>)
    ensures 1 <= |r| <= 4
    ensures (c as int) < 0x80 <==> |r| == 1
    ensures |r| == 1 ==> r[0] == c as int
  {
    var n := c as int;
    if n < 0x80 then [n]
    else if n < 0x800 then [0xC0 + n / 0x40, 0x80 + n % 0x40]
    else if n < 0x10000 then [0xE0 + n / 0x1000, 0x80 + (n / 0x40) % 0x40, 0x80 + n % 0x40]
    else [0xF0 + n / 0x40000, 0x80 + (n / 0x1000) % 0x40, 0x80 + (n / 0x40) % 0x40, 0x80 + n % 0x40]
  }

  function Utf8(s: string): (r: seq<byte>)
    ensures |r| >= |s|
  {
    if s == [] then [] else Utf8Char(s[0]) + Utf8(s[1..])
  }

  /* ---------- base64 (RFC 4648 section 4) ---------- */

  const Base64Alphabet: string := "ABCDEFGHIJKLMNOPQRSTUVWXYZabcdefghijklmnopqrstuvwxyz0123456789+/"

  function Sextet(d: nat): char
    requires d < 64
  {
    Base64Alphabet[d]
  }

  /** Base64 with `=` padding of the final group. */
  function Base64(b: seq<byte>): string
    decreases |b|
  {
    if |b| == 0 then ""
    else if |b| == 1 then
      [Sextet(b[0] / 4), Sextet((b[0] % 4) * 16), '=', '=']
    else if |b| == 2 then
      [Sextet(b[0] / 4), Sextet((b[0] % 4) * 16 + b[1] / 16), Sextet((b[1] % 16) * 4), '=']
    else
      [Sextet(b[0] / 4), Sextet((b[0] % 4) * 16 + b[1] / 16), Sextet((b[1] % 16) * 4 + b[2] / 64), Sextet(b[2] % 64)]
      + Base64(b[3..])
  }

  /** Every three input bytes, and a final partial group, become four characters. */
  lemma {:induction false} Base64Length(b: seq<byte>)
    ensures |Base64(b)| == 4 * ((|b| + 2) / 3)
    decreases |b|
  {
    var n := |b|;
    if n >= 3 {
      Base64Length(b[3..]);
      Base64GroupLength(b);
      GroupCount(n);
    } else {
      assert (n + 2) / 3 == (if n == 0 then 0 else 1);
    }
  }

  lemma Base64GroupLength(b: seq<byte>)
    requires |b| >= 3
    ensures |Base64(b)| == 4 + |Base64(b[3..])|
  {
  }

  lemma GroupCount(n: nat)
    requires n >= 3
    ensures (n + 2) / 3 == (n - 3 + 2) / 3 + 1
  {
  }

  /* ---------- application/x-www-form-urlencoded ---------- */

  /** Bytes the form-urlencoded serializer leaves as they are: ASCII letters, digits and `*-._`. */
  predicate Unreserved(b: byte) {
    b == 0x2A || b == 0x2D || b == 0x2E || b == 0x5F ||
    (0x30 <= b <= 0x39) || (0x41 <= b <= 0x5A) || (0x61 <= b <= 0x7A)
  }

  function UpperHex(d: nat): (c: char)
    requires d < 16
    ensures ('0' <= c <= '9') || ('A' <= c <= 'F')
  {
    "0123456789ABCDEF"[d]
  }

  /** One byte of the serialized name or value: kept, `+` for space, or `%XX`. */
  function EncodeByte(b: byte): string {
    if Unreserved(b) then [b as char]
    else if b == 0x20 then "+"
    else ['%', UpperHex(b / 16), UpperHex(b % 16)]
  }

  function EncodeBytes(bs: seq<byte>): string {
    if bs == [] then "" else EncodeByte(bs[0]) + EncodeBytes(bs[1..])
  }

  /** The percent-encoding URLSearchParams applies to a name or a value. */
  function FormEncode(s: string): string {
    EncodeBytes(Utf8(s))
  }

  /** Characters that can appear in serialized output. */
  predicate FormOutputChar(c: char) {
    c == '*' || c == '-' || c == '.' || c == '_' || c == '+' || c == '%' ||
    ('0' <= c <= '9') || ('A' <= c <= 'Z') || ('a' <= c <= 'z')
  }

  lemma {:induction false} EncodeBytesOutput(bs: seq<byte>)
    ensures forall i :: 0 <= i < |EncodeBytes(bs)| ==> FormOutputChar(EncodeBytes(bs)[i])
  {
    if bs != [] {
      EncodeBytesOutput(bs[1..]);
      var h, t := EncodeByte(bs[0]), EncodeBytes(bs[1..]);
      assert EncodeBytes(bs) == h + t;
      forall i | 0 <= i < |h + t| ensures FormOutputChar((h + t)[i]) {
        if i >= |h| { assert (h + t)[i] == t[i - |h|]; }
      }
    }
  }

  predicate HexDigit(c: char) {
    ('0' <= c <= '9') || ('A' <= c <= 'F')
  }

  /** Every `%` in `t` opens an escape: two upper-case hex digits follow it. */
  predicate WellEscaped(t: string) {
    forall i :: 0 <= i < |t| && t[i] == '%' ==> i + 2 < |t| && HexDigit(t[i + 1]) && HexDigit(t[i + 2])
  }

  lemma EncodeByteEscaped(b: byte)
    ensures WellEscaped(EncodeByte(b))
  {
  }

  lemma WellEscapedAppend(h: string, t: string)
    requires WellEscaped(h) && WellEscaped(t)
    ensures WellEscaped(h + t)
  {
    forall i | 0 <= i < |h + t| && (h + t)[i] == '%'
      ensures i + 2 < |h + t| && HexDigit((h + t)[i + 1]) && HexDigit((h + t)[i + 2])
    {
      if i < |h| {
        assert h[i] == '%';
      } else {
        assert t[i - |h|] == '%';
      }
    }
  }

  lemma {:induction false} EncodeBytesEscaped(bs: seq<byte>)
    ensures WellEscaped(EncodeBytes(bs))
  {
    if bs != [] {
      EncodeByteEscaped(bs[0]);
      EncodeBytesEscaped(bs[1..]);
      WellEscapedAppend(EncodeByte(bs[0]), EncodeBytes(bs[1..]));
    }
  }

  /**
   * An encoded name or value holds only unreserved characters, `+` and `%XX`
   * escapes, so it never holds `&`, `=`, `?`, `#`, `/`, a quote or a space: the
   * query string splits back into exactly the pairs that were set and cannot
   * break out of the quoted URL in a shell command.
   */
  lemma FormEncodeIsQuerySafe(s: string)
    ensures forall i :: 0 <= i < |FormEncode(s)| ==> FormOutputChar(FormEncode(s)[i])
    ensures WellEscaped(FormEncode(s))
  {
    EncodeBytesOutput(Utf8(s));
    EncodeBytesEscaped(Utf8(s));
  }

  /** ASCII text made only of unreserved characters. */
  predicate UnreservedText(s: string) {
    forall i :: 0 <= i < |s| ==> (s[i] as int) < 0x80 && Unreserved(s[i] as int)
  }

  /** Unreserved ASCII text is serialized verbatim. */
  lemma {:induction false} FormEncodeUnreservedVerbatim(s: string)
    requires UnreservedText(s)
    ensures FormEncode(s) == s
  {
    if s != [] {
      FormEncodeUnreservedVerbatim(s[1..]);
      assert Utf8(s) == [s[0] as int] + Utf8(s[1..]);
      assert EncodeBytes(Utf8(s)) == EncodeByte(s[0] as int) + EncodeBytes(Utf8(s[1..]));
    }
  }

  lemma {:induction false} Utf8Append(a: string, b: string)
    ensures Utf8(a + b) == Utf8(a) + Utf8(b)
  {
    if a != [] {
      Utf8Append(a[1..], b);
      assert (a + b)[0] == a[0] && (a + b)[1..] == a[1..] + b;
      calc {
        Utf8(a + b);
        Utf8Char(a[0]) + Utf8(a[1..] + b);
        Utf8Char(a[0]) + (Utf8(a[1..]) + Utf8(b));
      }
    } else {
      assert a + b == b;
    }
  }

  lemma {:induction false} EncodeBytesAppend(a: seq<byte>, b: seq<byte>)
    ensures EncodeBytes(a + b) == EncodeBytes(a) + EncodeBytes(b)
  {
    if a != [] {
      EncodeBytesAppend(a[1..], b);
      assert (a + b)[0] == a[0] && (a + b)[1..] == a[1..] + b;
      calc {
        EncodeBytes(a + b);
        EncodeByte(a[0]) + EncodeBytes(a[1..] + b);
        EncodeByte(a[0]) + (EncodeBytes(a[1..]) + EncodeBytes(b));
      }
    } else {
      assert a + b == b;
    }
  }

  /** Encoding works character by character: it distributes over concatenation. */
  lemma FormEncodeAppend(a: string, b: string)
    ensures FormEncode(a + b) == FormEncode(a) + FormEncode(b)
  {
    Utf8Append(a, b);
    EncodeBytesAppend(Utf8(a), Utf8(b));
  }
}

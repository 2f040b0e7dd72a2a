/**
 * The base64 helpers of the lobby: `arrayBufferToBase64` (bytes -> binary
 * string -> `btoa`) and `base64ToArrayBuffer` (`atob` -> char codes -> bytes).
 * `btoa` is the encoding of section 4 of RFC 4648 (with padding); `atob` is the
 * "forgiving-base64 decode" of the WHATWG Infra standard, which strips ASCII
 * whitespace, accepts a missing padding, and rejects everything else.
 */
module Base64 {
  import opened Wrappers

  type byte = x: int | 0 <= x < 256
  type Bytes = seq<byte>
  type sextet = x: int | 0 <= x < 64

  /** Table 1 of RFC 4648: the character that encodes a 6-bit value. */
  function SextetChar(v: sextet): (c: char)
    ensures c != '='
  {
    if v < 26 then ('A' as int + v) as char
    else if v < 52 then ('a' as int + (v - 26)) as char
    else if v < 62 then ('0' as int + (v - 52)) as char
    else if v == 62 then '+'
    else '/'
  }

  /** The inverse of Table 1; `None` for a character outside the alphabet (including `=`). */
  function CharSextet(c: char): (r: Option<sextet>)
    ensures r.Some? ==> SextetChar(r.value) == c
  {
    if 'A' <= c <= 'Z' then Some(c as int - 'A' as int)
    else if 'a' <= c <= 'z' then Some(c as int - 'a' as int + 26)
    else if '0' <= c <= '9' then Some(c as int - '0' as int + 52)
    else if c == '+' then Some(62)
    else if c == '/' then Some(63)
    else None
  }

  lemma CharOfSextet(v: sextet)
    ensures CharSextet(SextetChar(v)) == Some(v)
  {}

  /** The 6-bit groups of section 4 of RFC 4648: 4 per full 3-byte group, 2 or 3 for a final partial group. */
  function Sextets(b: Bytes): seq<sextet>
    decreases |b|
  {
    if |b| == 0 then []
    else if |b| == 1 then [b[0] / 4, (b[0] % 4) * 16]
    else if |b| == 2 then [b[0] / 4, (b[0] % 4) * 16 + b[1] / 16, (b[1] % 16) * 4]
    else Quad(b[0], b[1], b[2]) + Sextets(b[3..])
  }

  /** The four 6-bit groups of three bytes. */
  function Quad(x: byte, y: byte, z: byte): (q: seq<sextet>)
    ensures |q| == 4
  {
    [x / 4, (x % 4) * 16 + y / 16, (y % 16) * 4 + z / 64, z % 64]
  }

  /** Number of 6-bit groups produced for `n` input bytes. */
  function SextetCount(n: nat): nat {
    4 * (n / 3) + (if n % 3 == 0 then 0 else n % 3 + 1)
  }

  lemma {:induction false} SextetsLength(b: Bytes)
    ensures |Sextets(b)| == SextetCount(|b|)
    decreases |b|
  {
    if |b| >= 3 {
      SextetsLength(b[3..]);
    }
  }

  function Chars(v: seq<sextet>): (s: string)
    ensures |s| == |v|
  {
    seq(|v|, i requires 0 <= i < |v| => SextetChar(v[i]))
  }

  /** The `=` padding that completes the last 4-character quantum. */
  function Padding(n: nat): string {
    if n % 3 == 1 then "==" else if n % 3 == 2 then "=" else ""
  }

  /** Base64 encoding of section 4 of RFC 4648, padded to a multiple of 4 characters. */
  function Encode(b: Bytes): (s: string)
    ensures |s| == 4 * ((|b| + 2) / 3)
    ensures |b| % 3 == 0 ==> '=' !in s
  {
    SextetsLength(b);
    Chars(Sextets(b)) + Padding(|b|)
  }

  /** A JavaScript "binary string": every code unit is below 256. */
  predicate IsBinary(s: string) {
    forall i :: 0 <= i < |s| ==> s[i] as int < 256
  }

  /** `String.fromCharCode` on each byte, joined. */
  function BinaryString(b: Bytes): (s: string)
    ensures |s| == |b| && IsBinary(s)
  {
    seq(|b|, i requires 0 <= i < |b| => b[i] as char)
  }

  /** `charCodeAt(0)` on each character of a binary string. */
  function CharCodes(s: string): (b: Bytes)
    requires IsBinary(s)
    ensures |b| == |s|
  {
    seq(|s|, i requires 0 <= i < |s| => s[i] as int)
  }

  lemma CharCodesOfBinaryString(b: Bytes)
    ensures CharCodes(BinaryString(b)) == b
  {}

  /** `btoa`: throws (None) on a character above U+00FF, otherwise encodes the char codes. */
  function Btoa(s: string): (r: Option<string>)
    ensures r.Some? <==> IsBinary(s)
  {
    if IsBinary(s) then Some(Encode(CharCodes(s))) else None
  }

  /** `arrayBufferToBase64` (src/Javascript/Main.js:344-351): `btoa` never throws on a binary string. */
  function ArrayBufferToBase64(b: Bytes): (s: string)
    ensures s == Encode(b)
  {
    CharCodesOfBinaryString(b);
    Btoa(BinaryString(b)).value
  }

  /** The ASCII whitespace that forgiving-base64 decoding removes first. */
  predicate IsAsciiWhitespace(c: char) {
    c == '\t' || c == '\n' || c == '\U{000C}' || c == '\r' || c == ' '
  }

  function StripWhitespace(s: string): (r: string)
    ensures |r| <= |s|
  {
    if s == [] then []
    else if IsAsciiWhitespace(s[0]) then StripWhitespace(s[1..])
    else [s[0]] + StripWhitespace(s[1..])
  }

  /** Removes one or two trailing `=` characters, if present. */
  function DropPadding(s: string): (r: string)
    ensures |r| <= |s|
  {
    if |s| >= 2 && s[|s| - 2] == '=' && s[|s| - 1] == '=' then s[..|s| - 2]
    else if |s| >= 1 && s[|s| - 1] == '=' then s[..|s| - 1]
    else s
  }

  function DecodeChars(s: string): (r: Option<seq<sextet>>)
    ensures r.Some? ==> |r.value| == |s|
  {
    if s == [] then Some([])
    else
      match CharSextet(s[0])
      case None => None
      case Some(v) =>
        match DecodeChars(s[1..])
        case None => None
        case Some(rest) => Some([v] + rest)
  }

  /** Regroups 6-bit values into bytes, discarding the leftover bits of a final partial group. */
  function Unsextets(v: seq<sextet>): (b: Bytes)
    requires |v| % 4 != 1
    decreases |v|
  {
    if |v| == 0 then []
    else if |v| == 2 then [FirstByte(v[0], v[1])]
    else if |v| == 3 then [FirstByte(v[0], v[1]), SecondByte(v[1], v[2])]
    else [FirstByte(v[0], v[1]), SecondByte(v[1], v[2]), ThirdByte(v[2], v[3])] + Unsextets(v[4..])
  }

  /** The byte made of all 6 bits of `p` and the top 2 bits of `q`. */
  function FirstByte(p: sextet, q: sextet): byte { p * 4 + q / 16 }

  /** The byte made of the low 4 bits of `p` and the top 4 bits of `q`. */
  function SecondByte(p: sextet, q: sextet): byte { (p % 16) * 16 + q / 4 }

  /** The byte made of the low 2 bits of `p` and all 6 bits of `q`. */
  function ThirdByte(p: sextet, q: sextet): byte { (p % 4) * 64 + q }

  /** `atob`: forgiving-base64 decode; None where the browser throws InvalidCharacterError. */
  function Atob(s: string): (r: Option<string>)
    ensures r.Some? ==> IsBinary(r.value)
  {
    var t := StripWhitespace(s);
    DecodeUnpadded(if |t| % 4 == 0 then DropPadding(t) else t)
  }

  /** The last steps of `atob`, once whitespace and padding are gone. */
  function DecodeUnpadded(u: string): (r: Option<string>)
    ensures r.Some? ==> IsBinary(r.value)
  {
    if |u| % 4 == 1 then None
    else
      match DecodeChars(u)
      case None => None
      case Some(v) => Some(BinaryString(Unsextets(v)))
  }

  /** `base64ToArrayBuffer` (src/Javascript/Main.js:359-365); None when `atob` throws. */
  function Base64ToArrayBuffer(s: string): (r: Option<Bytes>)
  {
    match Atob(s)
    case None => None
    case Some(bin) => Some(CharCodes(bin))
  }

  // ---------------------------------------------------------------------------
  // Round trip

  lemma {:induction false} DecodeChars_Chars(v: seq<sextet>)
    ensures DecodeChars(Chars(v)) == Some(v)
    decreases |v|
  {
    if v != [] {
      var s := Chars(v);
      assert s[0] == SextetChar(v[0]);
      CharOfSextet(v[0]);
      assert s[1..] == Chars(v[1..]);
      DecodeChars_Chars(v[1..]);
      assert v == [v[0]] + v[1..];
    }
  }

  /** Encoding never leaves a lone character in the last group, which forgiving decoding would reject. */
  lemma {:induction false} SextetsNoLoneChar(b: Bytes)
    ensures |Sextets(b)| % 4 != 1
    decreases |b|
  {
    if |b| >= 3 {
      assert |Sextets(b)| == 4 + |Sextets(b[3..])|;
      SextetsNoLoneChar(b[3..]);
    }
  }

  lemma {:induction false} Unsextets_Sextets(b: Bytes)
    ensures |Sextets(b)| % 4 != 1
    ensures Unsextets(Sextets(b)) == b
    decreases |b|
  {
    SextetsNoLoneChar(b);
    if |b| >= 3 {
      var q := Quad(b[0], b[1], b[2]);
      var v := q + Sextets(b[3..]);
      assert v == Sextets(b);
      assert v[4..] == Sextets(b[3..]);
      Unsextets_Sextets(b[3..]);
      QuadBytes(b[0], b[1], b[2]);
      assert Unsextets(v) == [b[0], b[1], b[2]] + Unsextets(v[4..]);
      assert b == [b[0], b[1], b[2]] + b[3..];
    } else {
      ShortGroup(b);
    }
  }

  /** A final group of one or two bytes decodes back. */
  lemma ShortGroup(b: Bytes)
    requires |b| < 3
    ensures |Sextets(b)| % 4 != 1
    ensures Unsextets(Sextets(b)) == b
  {
    if |b| == 2 {
      GroupOfTwo(b[0], b[1]);
    } else if |b| == 1 {
      assert (b[0] / 4) * 4 + ((b[0] % 4) * 16) / 16 == b[0];
    }
  }

  lemma QuadBytes(x: byte, y: byte, z: byte)
    ensures var q := Quad(x, y, z);
      FirstByte(q[0], q[1]) == x && SecondByte(q[1], q[2]) == y && ThirdByte(q[2], q[3]) == z
  {
    GroupOfTwo(x, y);
    assert ((y % 16) * 4 + z / 64) / 4 == y % 16;
    assert ((y % 16) * 4 + z / 64) % 4 == z / 64;
  }

  lemma GroupOfTwo(x: byte, y: byte)
    ensures (x / 4) * 4 + ((x % 4) * 16 + y / 16) / 16 == x
    ensures (((x % 4) * 16 + y / 16) % 16) * 16 + ((y % 16) * 4) / 4 == y
  {
    assert ((x % 4) * 16 + y / 16) / 16 == x % 4;
    assert ((x % 4) * 16 + y / 16) % 16 == y / 16;
  }

  lemma {:induction false} StripWhitespaceNone(s: string)
    requires forall i :: 0 <= i < |s| ==> !IsAsciiWhitespace(s[i])
    ensures StripWhitespace(s) == s
    decreases |s|
  {
    if s != [] {
      StripWhitespaceNone(s[1..]);
    }
  }

  /** Forgiving decoding drops exactly a padding of zero, one or two `=` after unpadded text. */
  lemma DropPaddingAppend(c: string, p: string)
    requires '=' !in c
    requires p == "" || p == "=" || p == "=="
    ensures DropPadding(c + p) == c
  {
    var s := c + p;
    if p == "" {
      assert s == c;
      assert |c| > 0 ==> c[|c| - 1] in c;
    } else if p == "=" {
      assert |c| > 0 ==> s[|s| - 2] == c[|c| - 1] && c[|c| - 1] in c;
      assert s[..|s| - 1] == c;
    } else {
      assert s[..|s| - 2] == c;
    }
  }

  /** The padding of an encoding is exactly what forgiving decoding drops. */
  lemma DropPaddingOfEncode(b: Bytes)
    ensures DropPadding(Encode(b)) == Chars(Sextets(b))
  {
    var c := Chars(Sextets(b));
    assert Encode(b) == c + Padding(|b|);
    assert '=' !in c by {
      forall i | 0 <= i < |c| ensures c[i] != '=' {
        assert c[i] == SextetChar(Sextets(b)[i]);
      }
    }
    DropPaddingAppend(c, Padding(|b|));
  }

  lemma EncodeHasNoWhitespace(b: Bytes)
    ensures StripWhitespace(Encode(b)) == Encode(b)
  {
    var e := Encode(b);
    SextetsLength(b);
    forall i | 0 <= i < |e| ensures !IsAsciiWhitespace(e[i]) {
      if i < |Sextets(b)| {
        assert e[i] == SextetChar(Sextets(b)[i]);
      }
    }
    StripWhitespaceNone(e);
  }

  lemma EncodeLengthQuanta(b: Bytes)
    ensures |Encode(b)| % 4 == 0
  {
    var q := (|b| + 2) / 3;
    assert |Encode(b)| == 4 * q;
  }

  /** Forgiving decoding of the unpadded sextet characters of `b` gives back the binary string of `b`. */
  lemma DecodeUnpaddedSextets(b: Bytes)
    ensures DecodeUnpadded(Chars(Sextets(b))) == Some(BinaryString(b))
  {
    DecodeChars_Chars(Sextets(b));
    Unsextets_Sextets(b);
  }

  /** `atob` inverts `btoa` on the binary string of any byte sequence. */
  lemma AtobOfEncode(b: Bytes)
    ensures Atob(Encode(b)) == Some(BinaryString(b))
  {
    var e := Encode(b);
    EncodeHasNoWhitespace(b);
    EncodeLengthQuanta(b);
    DropPaddingOfEncode(b);
    assert Atob(e) == DecodeUnpadded(DropPadding(e));
    DecodeUnpaddedSextets(b);
  }

  /** `base64ToArrayBuffer(arrayBufferToBase64(b))` gives back `b`, for every byte sequence. */
  lemma RoundTrip(b: Bytes)
    ensures Base64ToArrayBuffer(ArrayBufferToBase64(b)) == Some(b)
  {
    AtobOfEncode(b);
    CharCodesOfBinaryString(b);
  }

  /** A character that is neither base64, whitespace nor padding. */
  predicate IsForeign(c: char) {
    CharSextet(c).None? && !IsAsciiWhitespace(c) && c != '='
  }

  lemma {:induction false} StripWhitespaceKeeps(s: string, c: char)
    requires c in s && !IsAsciiWhitespace(c)
    ensures c in StripWhitespace(s)
    decreases |s|
  {
    if s[0] != c {
      assert c in s[1..];
      StripWhitespaceKeeps(s[1..], c);
    }
  }

  lemma {:induction false} DecodeCharsRejects(s: string, c: char)
    requires c in s && CharSextet(c).None?
    ensures DecodeChars(s).None?
    decreases |s|
  {
    if s[0] != c {
      assert c in s[1..];
      DecodeCharsRejects(s[1..], c);
    }
  }

  /** `atob` throws on any character outside the alphabet, whitespace and padding. */
  lemma AtobRejectsForeign(s: string, c: char)
    requires c in s && IsForeign(c)
    ensures Atob(s).None?
    ensures Base64ToArrayBuffer(s).None?
  {
    StripWhitespaceKeeps(s, c);
    var t := StripWhitespace(s);
    var u := if |t| % 4 == 0 then DropPadding(t) else t;
    var k :| 0 <= k < |t| && t[k] == c;
    assert k < |u| && u[k] == c;
    if |u| % 4 != 1 {
      DecodeCharsRejects(u, c);
    }
  }

  /** A 12-byte initialisation vector encodes to exactly 16 characters, none of them padding. */
  lemma IvEncoding(iv: Bytes)
    requires |iv| == 12
    ensures |ArrayBufferToBase64(iv)| == 16
    ensures '=' !in ArrayBufferToBase64(iv)
  {}
}

/** The browser's btoa and atob: base 64 encoding with the alphabet and padding of
    section 4 of RFC 4648, and the "forgiving-base64 decode" algorithm of the WHATWG
    Infra standard that atob runs. Both work on binary strings (one character per byte). */
module Base64 {
  import opened Wrappers

  type byte = x: int | 0 <= x < 256

  type sextet = x: int | 0 <= x < 64

  /** The 64 characters of the alphabet (Table 1 of RFC 4648); '=' is not one of them. */
  predicate IsAlphabetChar(c: char) {
    ('A' <= c <= 'Z') || ('a' <= c <= 'z') || ('0' <= c <= '9') || c == '+' || c == '/'
  }

  predicate AllAlphabet(s: string) {
    forall i :: 0 <= i < |s| ==> IsAlphabetChar(s[i])
  }

  function SextetChar(v: sextet): (c: char)
    ensures IsAlphabetChar(c)
  {
    if v < 26 then (65 + v) as char        // 'A'..'Z'
    else if v < 52 then (71 + v) as char   // 'a'..'z'
    else if v < 62 then (v - 4) as char    // '0'..'9'
    else if v == 62 then '+'
    else '/'
  }

  function CharSextet(c: char): (v: sextet)
    requires IsAlphabetChar(c)
    ensures SextetChar(v) == c
  {
    if 'A' <= c <= 'Z' then c as int - 65
    else if 'a' <= c <= 'z' then c as int - 71
    else if '0' <= c <= '9' then c as int + 4
    else if c == '+' then 62
    else 63
  }

  lemma SextetCharInverse(v: sextet)
    ensures CharSextet(SextetChar(v)) == v
  {
  }

  /** Splits bytes into 6-bit groups, most significant bits first; a final group of one
      or two bytes is filled with zero bits up to a whole number of sextets. */
  function ToSextets(b: seq<byte>): (s: seq<sextet>)
    ensures |s| % 4 != 1
    decreases |b|
  {
    if |b| == 0 then []
    else if |b| == 1 then [b[0] / 4, b[0] % 4 * 16]
    else if |b| == 2 then [b[0] / 4, b[0] % 4 * 16 + b[1] / 16, b[1] % 16 * 4]
    else [b[0] / 4, b[0] % 4 * 16 + b[1] / 16, b[1] % 16 * 4 + b[2] / 64, b[2] % 64] + ToSextets(b[3..])
  }

  function Byte0(s0: sextet, s1: sextet): byte { s0 as int * 4 + s1 as int / 16 }

  function Byte1(s1: sextet, s2: sextet): byte { s1 as int % 16 * 16 + s2 as int / 4 }

  function Byte2(s2: sextet, s3: sextet): byte { s2 as int % 4 * 64 + s3 as int }

  /** Steps 5 to 8 of forgiving-base64 decode: 24 bits give three bytes, and a trailing
      12 or 18 bits give one or two bytes, the 4 or 2 bits left over being discarded. */
  function FromSextets(s: seq<sextet>): seq<byte>
    requires |s| % 4 != 1
    decreases |s|
  {
    if |s| <= 1 then []
    else if |s| == 2 then [Byte0(s[0], s[1])]
    else if |s| == 3 then [Byte0(s[0], s[1]), Byte1(s[1], s[2])]
    else [Byte0(s[0], s[1]), Byte1(s[1], s[2]), Byte2(s[2], s[3])] + FromSextets(s[4..])
  }

  /** n bytes give 4 sextets per full group of 3, and 2 or 3 for a final group of 1 or 2. */
  lemma {:induction false} ToSextetsLength(b: seq<byte>)
    ensures |ToSextets(b)| == |b| / 3 * 4 + (if |b| % 3 == 0 then 0 else |b| % 3 + 1)
    decreases |b|
  {
    if |b| >= 3 {
      ToSextetsLength(b[3..]);
    }
  }

  /** Sextets give 3 bytes per full group of 4, and 1 or 2 for a final group of 2 or 3. */
  lemma {:induction false} FromSextetsLength(s: seq<sextet>)
    requires |s| % 4 != 1
    ensures |FromSextets(s)| == |s| / 4 * 3 + (if |s| % 4 == 0 then 0 else |s| % 4 - 1)
    decreases |s|
  {
    if |s| >= 4 {
      FromSextetsLength(s[4..]);
    }
  }

  function SextetsChars(s: seq<sextet>): string {
    seq(|s|, i requires 0 <= i < |s| => SextetChar(s[i]))
  }

  function CharsSextets(s: string): seq<sextet>
    requires AllAlphabet(s)
  {
    seq(|s|, i requires 0 <= i < |s| => CharSextet(s[i]))
  }

  /** The '=' characters that complete the last 4-character group. */
  function Padding(byteCount: nat): string {
    if byteCount % 3 == 1 then "==" else if byteCount % 3 == 2 then "=" else ""
  }

  /** The sextets and the padding of n bytes fill whole 4-character groups. */
  lemma PaddedLength(n: nat)
    ensures n / 3 * 4 + (if n % 3 == 0 then 0 else n % 3 + 1) + |Padding(n)| == (n + 2) / 3 * 4
  {
    var q, m := n / 3, n % 3;
    assert n == 3 * q + m;
    assert (n + 2) / 3 == q + (if m == 0 then 0 else 1) by {
      assert n + 2 == 3 * (q + (if m == 0 then 0 else 1)) + (if m == 0 then 2 else m - 1);
    }
  }

  /** Base 64 encoding of section 4 of RFC 4648. */
  function EncodeBytes(b: seq<byte>): (r: string)
    ensures |r| == (|b| + 2) / 3 * 4
    ensures |r| % 4 == 0
    ensures forall i :: 0 <= i < |r| ==> IsAlphabetChar(r[i]) || r[i] == '='
  {
    ToSextetsLength(b);
    PaddedLength(|b|);
    SextetsChars(ToSextets(b)) + Padding(|b|)
  }

  /** A string whose every character is a byte value, as atob produces and btoa accepts. */
  predicate IsBinaryString(s: string) {
    forall i :: 0 <= i < |s| ==> s[i] as int < 256
  }

  function CharCodes(s: string): seq<byte>
    requires IsBinaryString(s)
  {
    seq(|s|, i requires 0 <= i < |s| => s[i] as int)
  }

  function BinaryString(b: seq<byte>): (s: string)
    ensures IsBinaryString(s)
  {
    seq(|b|, i requires 0 <= i < |b| => b[i] as char)
  }

  /** btoa: fails on a character above U+00FF, otherwise encodes the character codes. */
  function Btoa(s: string): (r: Result<string, Exception>)
    ensures r.Ok? <==> IsBinaryString(s)
    ensures r.Ok? ==> |r.value| == (|s| + 2) / 3 * 4
  {
    if IsBinaryString(s) then Ok(EncodeBytes(CharCodes(s))) else Err(InvalidCharacterError)
  }

  /** ASCII whitespace of the Infra standard: TAB, LF, FF, CR and SPACE. */
  predicate IsAsciiWhitespace(c: char) {
    c == '\t' || c == '\n' || c as int == 0x0C || c == '\r' || c == ' '
  }

  function RemoveAsciiWhitespace(s: string): (r: string)
    ensures forall i :: 0 <= i < |r| ==> !IsAsciiWhitespace(r[i])
    decreases |s|
  {
    if s == [] then []
    else (if IsAsciiWhitespace(s[0]) then [] else [s[0]]) + RemoveAsciiWhitespace(s[1..])
  }

  /** Step 2 of forgiving-base64 decode: when the length is a multiple of 4, one or two
      trailing '=' are removed. */
  function StripPadding(s: string): string {
    if |s| % 4 != 0 then s
    else if |s| >= 2 && s[|s| - 2] == '=' && s[|s| - 1] == '=' then s[..|s| - 2]
    else if |s| >= 1 && s[|s| - 1] == '=' then s[..|s| - 1]
    else s
  }

  /** atob: forgiving-base64 decode, failing with InvalidCharacterError. */
  function Atob(s: string): (r: Result<string, Exception>)
    ensures r.Ok? ==> IsBinaryString(r.value)
    ensures r.Err? ==> r.error == InvalidCharacterError
  {
    var d := StripPadding(RemoveAsciiWhitespace(s));
    if |d| % 4 == 1 || !AllAlphabet(d) then Err(InvalidCharacterError)
    else Ok(BinaryString(FromSextets(CharsSextets(d))))
  }

  /** The first byte of a group is rebuilt from its top six and bottom two bits. */
  lemma FirstByteRoundTrip(b0: byte, low: int)
    requires 0 <= low < 16
    ensures Byte0(b0 / 4, b0 % 4 * 16 + low) == b0
  {
  }

  /** The second byte of a group is rebuilt from its top four and bottom four bits. */
  lemma SecondByteRoundTrip(high: int, b1: byte, low: int)
    requires 0 <= high < 4 && 0 <= low < 4
    ensures Byte1(high * 16 + b1 / 16, b1 % 16 * 4 + low) == b1
  {
  }

  /** The third byte of a group is rebuilt from its top two and bottom six bits. */
  lemma ThirdByteRoundTrip(high: int, b2: byte)
    requires 0 <= high < 16
    ensures Byte2(high * 4 + b2 / 64, b2 % 64) == b2
  {
  }

  /** A byte sequence of three or more starts with one full group of four sextets. */
  lemma ToSextetsGroup(b: seq<byte>)
    requires |b| >= 3
    ensures ToSextets(b) == [b[0] / 4, b[0] % 4 * 16 + b[1] / 16, b[1] % 16 * 4 + b[2] / 64, b[2] % 64] + ToSextets(b[3..])
  {
  }

  /** Four sextets followed by more decode to three bytes followed by the rest. */
  lemma FromSextetsGroup(s0: sextet, s1: sextet, s2: sextet, s3: sextet, rest: seq<sextet>)
    requires |rest| % 4 != 1
    ensures FromSextets([s0, s1, s2, s3] + rest) == [Byte0(s0, s1), Byte1(s1, s2), Byte2(s2, s3)] + FromSextets(rest)
  {
    var s := [s0, s1, s2, s3] + rest;
    assert s[4..] == rest;
  }

  lemma {:induction false} SextetsRoundTrip(b: seq<byte>)
    ensures FromSextets(ToSextets(b)) == b
    decreases |b|
  {
    if |b| == 1 {
      FirstByteRoundTrip(b[0], 0);
    } else if |b| == 2 {
      FirstByteRoundTrip(b[0], b[1] / 16);
      SecondByteRoundTrip(b[0] % 4, b[1], 0);
    } else if |b| >= 3 {
      ToSextetsGroup(b);
      var rest := ToSextets(b[3..]);
      FromSextetsGroup(b[0] / 4, b[0] % 4 * 16 + b[1] / 16, b[1] % 16 * 4 + b[2] / 64, b[2] % 64, rest);
      FirstByteRoundTrip(b[0], b[1] / 16);
      SecondByteRoundTrip(b[0] % 4, b[1], b[2] / 64);
      ThirdByteRoundTrip(b[1] % 16, b[2]);
      SextetsRoundTrip(b[3..]);
      assert b == [b[0], b[1], b[2]] + b[3..];
    }
  }

  lemma {:induction false} NoWhitespaceKept(s: string)
    requires forall i :: 0 <= i < |s| ==> !IsAsciiWhitespace(s[i])
    ensures RemoveAsciiWhitespace(s) == s
    decreases |s|
  {
    if s != [] {
      NoWhitespaceKept(s[1..]);
      assert s == [s[0]] + s[1..];
    }
  }

  /** atob ignores ASCII whitespace anywhere in its input. */
  lemma AtobIgnoresWhitespace(s: string)
    ensures Atob(RemoveAsciiWhitespace(s)) == Atob(s)
  {
    NoWhitespaceKept(RemoveAsciiWhitespace(s));
  }

  /** The padding that btoa appends is exactly what atob strips again. */
  lemma StripEncodedPadding(b: seq<byte>)
    ensures StripPadding(EncodeBytes(b)) == SextetsChars(ToSextets(b))
  {
    var c := SextetsChars(ToSextets(b));
    var e := EncodeBytes(b);
    assert e == c + Padding(|b|);
    if |b| % 3 == 1 {
      assert e[..|e| - 2] == c;
    } else if |b| % 3 == 2 {
      assert e[|e| - 2] == c[|c| - 1];
      assert e[..|e| - 1] == c;
    } else if |c| > 0 {
      assert e == c;
      assert e[|e| - 1] == SextetChar(ToSextets(b)[|c| - 1]);
    }
  }

  /** atob undoes btoa on every binary string. */
  lemma AtobBtoa(s: string)
    requires IsBinaryString(s)
    ensures Btoa(s).Ok?
    ensures Atob(Btoa(s).value) == Ok(s)
  {
    var b := CharCodes(s);
    var e := EncodeBytes(b);
    var c := SextetsChars(ToSextets(b));
    NoWhitespaceKept(e);
    StripEncodedPadding(b);
    assert AllAlphabet(c);
    forall i | 0 <= i < |c| ensures CharsSextets(c)[i] == ToSextets(b)[i] {
      SextetCharInverse(ToSextets(b)[i]);
    }
    assert CharsSextets(c) == ToSextets(b);
    SextetsRoundTrip(b);
    assert BinaryString(b) == s;
  }
}

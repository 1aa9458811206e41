/**
 * Percent-encoding (section 2.1 of RFC 3986) as `encodeURIComponent` and
 * `decodeURIComponent` do it, over strings of Unicode scalar values: a character
 * outside the unreserved set becomes the `%XX` octets of its UTF-8 form, and decoding
 * refuses malformed octets, overlong forms, surrogates and out-of-range code points.
 */
module Percent {
  import opened Text

  predicate Unreserved(c: char) {
    'a' <= c <= 'z' || 'A' <= c <= 'Z' || '0' <= c <= '9' || c in "-_.!~*'()"
  }

  function HexDigit(n: int): char
    requires 0 <= n < 16
  {
    if n < 10 then '0' + (n as char) else 'A' + ((n - 10) as char)
  }

  /** The value of a hexadecimal digit of either case, or -1. */
  function HexValue(c: char): (n: int)
    ensures -1 <= n < 16
  {
    if '0' <= c <= '9' then c as int - '0' as int
    else if 'A' <= c <= 'F' then c as int - 'A' as int + 10
    else if 'a' <= c <= 'f' then c as int - 'a' as int + 10
    else -1
  }

  function Utf8(c: char): (bytes: seq<int>)
    ensures forall i :: 0 <= i < |bytes| ==> 0 <= bytes[i] < 256
  {
    var n := c as int;
    if n < 0x80 then [n]
    else if n < 0x800 then [0xC0 + n / 64, 0x80 + n % 64]
    else if n < 0x10000 then [0xE0 + n / 4096, 0x80 + n / 64 % 64, 0x80 + n % 64]
    else [0xF0 + n / 262144, 0x80 + n / 4096 % 64, 0x80 + n / 64 % 64, 0x80 + n % 64]
  }

  function Octets(bytes: seq<int>): string
    requires forall i :: 0 <= i < |bytes| ==> 0 <= bytes[i] < 256
  {
    if bytes == [] then ""
    else ['%', HexDigit(bytes[0] / 16), HexDigit(bytes[0] % 16)] + Octets(bytes[1..])
  }

  function EncodeChar(c: char): string {
    if Unreserved(c) then [c] else Octets(Utf8(c))
  }

  function Encode(s: string): string {
    if s == "" then "" else EncodeChar(s[0]) + Encode(s[1..])
  }

  /** The octet written as `%XX` at position `i`, or -1. */
  function OctetAt(s: string, i: nat): (b: int)
    ensures -1 <= b < 256
  {
    if i + 3 <= |s| && s[i] == '%' && HexValue(s[i + 1]) >= 0 && HexValue(s[i + 2]) >= 0
    then HexValue(s[i + 1]) * 16 + HexValue(s[i + 2])
    else -1
  }

  predicate Continuation(b: int) { 0x80 <= b < 0xC0 }

  /** A decoded code point, refused when overlong, a surrogate or beyond Unicode. */
  function Scalar(n: int, least: int): Option<char>
    requires 0 <= least
  {
    if n < least || 0xD800 <= n < 0xE000 || n >= 0x110000 then None else Some(n as char)
  }

  /** How many octets a lead octet announces; 0 when it cannot lead. */
  function Announced(b: int): nat {
    if 0 <= b < 0x80 then 1
    else if 0xC0 <= b < 0xE0 then 2
    else if 0xE0 <= b < 0xF0 then 3
    else if 0xF0 <= b < 0xF8 then 4
    else 0
  }

  /** The scalar spelled by `Announced(b)` octets; later octets beyond that are ignored. */
  function FromOctets(b: int, b1: int, b2: int, b3: int): Option<char> {
    match Announced(b)
    case 1 => Scalar(b, 0)
    case 2 =>
      if Continuation(b1) then Scalar((b - 0xC0) * 64 + (b1 - 0x80), 0x80) else None
    case 3 =>
      if Continuation(b1) && Continuation(b2)
      then Scalar((b - 0xE0) * 4096 + (b1 - 0x80) * 64 + (b2 - 0x80), 0x800) else None
    case 4 =>
      if Continuation(b1) && Continuation(b2) && Continuation(b3)
      then Scalar((b - 0xF0) * 262144 + (b1 - 0x80) * 4096 + (b2 - 0x80) * 64 + (b3 - 0x80), 0x10000) else None
    case _ => None
  }

  /** The first character of `s` and how many characters of `s` spell it; `None` is `URIError`. */
  function DecodeHead(s: string): (r: Option<(char, nat)>)
    requires s != ""
    ensures r.Some? ==> 1 <= r.value.1 <= |s|
  {
    if s[0] != '%' then Some((s[0], 1))
    else
      var b := OctetAt(s, 0);
      match FromOctets(b, OctetAt(s, 3), OctetAt(s, 6), OctetAt(s, 9))
      case None => None
      case Some(c) => Some((c, 3 * Announced(b)))
  }

  function Decode(s: string): Option<string>
    decreases |s|
  {
    if s == "" then Some("")
    else
      match DecodeHead(s)
      case None => None
      case Some((c, n)) =>
        match Decode(s[n..])
        case None => None
        case Some(rest) => Some([c] + rest)
  }

  // ----- Round trip -----

  lemma HexRoundTrip(n: int)
    requires 0 <= n < 16
    ensures HexValue(HexDigit(n)) == n
  {
  }

  lemma OctetOfTriple(pre: string, b: int, rest: string)
    requires 0 <= b < 256
    ensures OctetAt(pre + ['%', HexDigit(b / 16), HexDigit(b % 16)] + rest, |pre|) == b
  {
    HexRoundTrip(b / 16);
    HexRoundTrip(b % 16);
  }

  lemma {:induction false} OctetsAt(bytes: seq<int>, rest: string, i: nat)
    requires forall k :: 0 <= k < |bytes| ==> 0 <= bytes[k] < 256
    requires i < |bytes|
    ensures |Octets(bytes)| == 3 * |bytes|
    ensures OctetAt(Octets(bytes) + rest, 3 * i) == bytes[i]
  {
    var head := ['%', HexDigit(bytes[0] / 16), HexDigit(bytes[0] % 16)];
    var tail := Octets(bytes[1..]);
    assert Octets(bytes) + rest == "" + head + (tail + rest);
    if |bytes| > 1 {
      OctetsAt(bytes[1..], rest, if i == 0 then 0 else i - 1);
    }
    if i == 0 {
      OctetOfTriple("", bytes[0], tail + rest);
    } else {
      var s := Octets(bytes) + rest;
      assert s == head + (tail + rest);
      assert forall k :: 3 <= k < |s| ==> s[k] == (tail + rest)[k - 3];
      assert OctetAt(s, 3 * i) == OctetAt(tail + rest, 3 * (i - 1));
    }
  }

  /** UTF-8 is undone by its decoder, whatever follows the announced octets. */
  lemma Utf8RoundTrip(c: char, b1: int, b2: int, b3: int)
    ensures var u := Utf8(c);
            && |u| == Announced(u[0]) >= 1
            && ((|u| > 1 ==> b1 == u[1]) && (|u| > 2 ==> b2 == u[2]) && (|u| > 3 ==> b3 == u[3])
                ==> FromOctets(u[0], b1, b2, b3) == Some(c))
  {
    var n := c as int;
    assert 0 <= n < 0x110000 && !(0xD800 <= n < 0xE000);
    assert n == n / 64 * 64 + n % 64;
    assert n / 64 == n / 4096 * 64 + n / 64 % 64;
    assert n / 4096 == n / 262144 * 64 + n / 4096 % 64;
  }

  lemma DecodeHeadOfEncoded(c: char, rest: string)
    ensures EncodeChar(c) != ""
    ensures DecodeHead(EncodeChar(c) + rest) == Some((c, |EncodeChar(c)|))
  {
    if !Unreserved(c) {
      var u := Utf8(c);
      var s := Octets(u) + rest;
      Utf8RoundTrip(c, OctetAt(s, 3), OctetAt(s, 6), OctetAt(s, 9));
      OctetsAt(u, rest, 0);
      if |u| > 1 { OctetsAt(u, rest, 1); }
      if |u| > 2 { OctetsAt(u, rest, 2); }
      if |u| > 3 { OctetsAt(u, rest, 3); }
    }
  }

  /** Decoding undoes encoding on every string. */
  lemma {:induction false} DecodeEncode(s: string)
    ensures Decode(Encode(s)) == Some(s)
  {
    if s != "" {
      var rest := Encode(s[1..]);
      DecodeHeadOfEncoded(s[0], rest);
      assert Encode(s)[|EncodeChar(s[0])|..] == rest;
      DecodeEncode(s[1..]);
      assert [s[0]] + s[1..] == s;
    }
  }

  /** Encoded text is made of unreserved characters, `%` and hexadecimal digits only. */
  lemma {:induction false} EncodeAlphabet(s: string)
    ensures forall i :: 0 <= i < |Encode(s)| ==> Unreserved(Encode(s)[i]) || Encode(s)[i] == '%'
  {
    if s != "" {
      EncodeAlphabet(s[1..]);
      if !Unreserved(s[0]) { OctetsAlphabet(Utf8(s[0])); }
    }
  }

  lemma {:induction false} OctetsAlphabet(bytes: seq<int>)
    requires forall k :: 0 <= k < |bytes| ==> 0 <= bytes[k] < 256
    ensures forall i :: 0 <= i < |Octets(bytes)| ==> Unreserved(Octets(bytes)[i]) || Octets(bytes)[i] == '%'
  {
    if bytes != [] {
      OctetsAlphabet(bytes[1..]);
    }
  }

  /** Text without a percent sign decodes to itself. */
  lemma {:induction false} DecodePlain(s: string)
    requires Lacks(s, '%')
    ensures Decode(s) == Some(s)
  {
    if s != "" {
      assert Lacks(s[1..], '%');
      DecodePlain(s[1..]);
      assert [s[0]] + s[1..] == s;
    }
  }

  // ----- Exactly what is written and what is read -----

  /** Letters, digits and the nine marks of `encodeURIComponent` stand for themselves; the rest is escaped octets. */
  lemma EncodedExactly(c: char)
    ensures var n := c as int;
            EncodeChar(c) ==
            if 97 <= n <= 122 || 65 <= n <= 90 || 48 <= n <= 57 ||
               c == '-' || c == '_' || c == '.' || c == '!' || c == '~' || c == '*' || c == '\'' || c == '(' || c == ')'
            then [c] else Octets(Utf8(c))
  {
  }

  /** Octets are written with upper-case digits. */
  lemma OctetText(b: int, rest: seq<int>)
    requires 0 <= b < 256 && forall i :: 0 <= i < |rest| ==> 0 <= rest[i] < 256
    ensures Octets([b] + rest) == ['%', "0123456789ABCDEF"[b / 16], "0123456789ABCDEF"[b % 16]] + Octets(rest)
  {
    assert ([b] + rest)[1..] == rest;
    DigitIs(b / 16);
    DigitIs(b % 16);
    hide HexDigit;
  }

  lemma DigitIs(n: int)
    requires 0 <= n < 16
    ensures HexDigit(n) == "0123456789ABCDEF"[n]
  {
  }

  /** A character spells itself, or its UTF-8 octets do, in digits of either case; the percent sign only the latter. */
  ghost predicate SpellsChar(p: string, c: char) {
    || (p == [c] && c != '%')
    || (|p| == 3 * |Utf8(c)| && forall k :: 0 <= k < |Utf8(c)| ==> OctetAt(p, 3 * k) == Utf8(c)[k])
  }

  /** `s` is `t`, character by character, in some spelling. */
  ghost predicate Spelled(s: string, t: string)
    decreases |t|
  {
    if t == "" then s == "" else exists n :: 1 <= n <= |s| && SpellsChar(s[..n], t[0]) && Spelled(s[n..], t[1..])
  }

  /** Only the shortest form of a scalar value is read: the octets are its UTF-8. */
  lemma OnlyUtf8(b: int, b1: int, b2: int, b3: int, c: char)
    requires FromOctets(b, b1, b2, b3) == Some(c)
    ensures Utf8(c) == [b, b1, b2, b3][..Announced(b)]
  {
    var n := c as int;
    if Announced(b) == 2 {
      Base64(n, b - 0xC0, b1 - 0x80);
    } else if Announced(b) == 3 {
      Base64(n, (b - 0xE0) * 64 + (b1 - 0x80), b2 - 0x80);
      Base64(n / 64, b - 0xE0, b1 - 0x80);
      assert n / 64 / 64 == n / 4096;
    } else if Announced(b) == 4 {
      Base64(n, (b - 0xF0) * 4096 + (b1 - 0x80) * 64 + (b2 - 0x80), b3 - 0x80);
      Base64(n / 64, (b - 0xF0) * 64 + (b1 - 0x80), b2 - 0x80);
      Base64(n / 4096, b - 0xF0, b1 - 0x80);
      assert n / 64 / 64 == n / 4096 && n / 4096 / 64 == n / 262144;
    }
  }

  lemma Base64(n: int, q: int, r: int)
    requires n == q * 64 + r && 0 <= r < 64 && q >= 0
    ensures n / 64 == q && n % 64 == r
  {
  }

  lemma HeadExactly(s: string, c: char, n: nat)
    requires s != ""
    ensures DecodeHead(s) == Some((c, n)) <==> 1 <= n <= |s| && SpellsChar(s[..n], c)
  {
    if DecodeHead(s) == Some((c, n)) {
      HeadSpells(s, c, n);
    } else if 1 <= n <= |s| && SpellsChar(s[..n], c) {
      SpelledHead(s, c, n);
      assert false;
    }
  }

  lemma HeadSpells(s: string, c: char, n: nat)
    requires s != "" && DecodeHead(s) == Some((c, n))
    ensures SpellsChar(s[..n], c)
  {
    if s[0] == '%' {
      var b, b1, b2, b3 := OctetAt(s, 0), OctetAt(s, 3), OctetAt(s, 6), OctetAt(s, 9);
      OnlyUtf8(b, b1, b2, b3, c);
      forall k | 0 <= k < |Utf8(c)| ensures OctetAt(s[..n], 3 * k) == Utf8(c)[k] {
        assert Utf8(c)[k] == OctetAt(s, 3 * k);
      }
    }
  }

  lemma SpelledHead(s: string, c: char, n: nat)
    requires 1 <= n <= |s| && SpellsChar(s[..n], c)
    ensures DecodeHead(s) == Some((c, n))
  {
    var u := Utf8(c);
    if s[..n] == [c] && c != '%' {
    } else {
      forall k | 0 <= k < |u| ensures OctetAt(s, 3 * k) == u[k] { assert OctetAt(s[..n], 3 * k) == u[k]; }
      assert OctetAt(s, 3 * 0) == u[0];
      Utf8RoundTrip(c, OctetAt(s, 3), OctetAt(s, 6), OctetAt(s, 9));
      assert |u| > 1 ==> OctetAt(s, 3 * 1) == u[1];
      assert |u| > 2 ==> OctetAt(s, 3 * 2) == u[2];
      assert |u| > 3 ==> OctetAt(s, 3 * 3) == u[3];
    }
  }

  /**
   * `decodeURIComponent` accepts exactly the spellings of a string and returns that string: no
   * stray percent sign, no overlong form, no surrogate, no broken or foreign octet sequence.
   */
  lemma {:induction false} DecodeExactly(s: string, t: string)
    ensures Decode(s) == Some(t) <==> Spelled(s, t)
    decreases |s|
  {
    hide DecodeHead, SpellsChar;
    if s != "" {
      if Decode(s) == Some(t) {
        var (c, n) := DecodeHead(s).value;
        HeadExactly(s, c, n);
        var rest := Decode(s[n..]).value;
        assert t == [c] + rest && t[1..] == rest;
        DecodeExactly(s[n..], rest);
      }
      if t != "" && Spelled(s, t) {
        var n :| 1 <= n <= |s| && SpellsChar(s[..n], t[0]) && Spelled(s[n..], t[1..]);
        HeadExactly(s, t[0], n);
        DecodeExactly(s[n..], t[1..]);
        assert [t[0]] + t[1..] == t;
      }
    }
  }
}

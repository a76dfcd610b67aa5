/** Percent-encoding of a query string the way `urllib.parse.quote` does it with its
    default arguments: the characters RFC 3986 (section 2.3) calls unreserved, and `/`,
    stay as they are; every other character is written as the UTF-8 bytes that encode it,
    each as `%` and two upper-case hexadecimal digits (section 2.1). `Unquote` is the
    strict inverse, used to state the round trip. */
module Url {
  import opened Wrappers
  import opened Seqs

  newtype byte = x: int | 0 <= x < 256

  /** A character `quote` leaves alone. */
  predicate Safe(c: char)
  {
    ('A' <= c <= 'Z') || ('a' <= c <= 'z') || ('0' <= c <= '9') ||
    c == '_' || c == '.' || c == '-' || c == '~' || c == '/'
  }

  /** The upper-case hexadecimal digit for a number below 16. */
  function HexDigit(d: nat): char
    requires d < 16
  {
    if d < 10 then ('0' as int + d) as char else ('A' as int + d - 10) as char
  }

  predicate IsHexDigit(c: char)
  {
    ('0' <= c <= '9') || ('A' <= c <= 'F')
  }

  /** The UTF-8 encoding of one Unicode scalar value (RFC 3629, section 3). */
  function Utf8(c: char): (r: seq<byte>)
    ensures 1 <= |r| <= 4
    ensures (|r| == 1) <==> (c as int) < 0x80
  {
    var n := c as int;
    if n < 0x80 then [n as byte]
    else if n < 0x800 then [(0xC0 + n / 64) as byte, (0x80 + n % 64) as byte]
    else if n < 0x10000 then
      var q := n / 64;
      [(0xE0 + q / 64) as byte, (0x80 + q % 64) as byte, (0x80 + n % 64) as byte]
    else
      var q := n / 64;
      var q2 := q / 64;
      [(0xF0 + q2 / 64) as byte, (0x80 + q2 % 64) as byte, (0x80 + q % 64) as byte, (0x80 + n % 64) as byte]
  }

  /** `%` and the two hexadecimal digits of one byte. */
  function Escape(b: byte): (r: string)
    ensures |r| == 3
  {
    ['%', HexDigit(b as int / 16), HexDigit(b as int % 16)]
  }

  function Escapes(bs: seq<byte>): (r: string)
    ensures |r| == 3 * |bs|
  {
    if bs == [] then [] else Escape(bs[0]) + Escapes(bs[1..])
  }

  /** `urllib.parse.quote(s)`. */
  function Quote(s: string): string
  {
    if s == [] then []
    else (if Safe(s[0]) then [s[0]] else Escapes(Utf8(s[0]))) + Quote(s[1..])
  }

  /** The value of a hexadecimal digit, either case. */
  function HexValue(c: char): Option<nat>
  {
    if '0' <= c <= '9' then Some(c as int - '0' as int)
    else if 'A' <= c <= 'F' then Some(c as int - 'A' as int + 10)
    else if 'a' <= c <= 'f' then Some(c as int - 'a' as int + 10)
    else None
  }

  /** The bytes a percent-encoded string stands for: `%XY` is one byte, any other character
      its own UTF-8 encoding. */
  function Bytes(s: string): seq<byte>
  {
    if s == [] then []
    else if s[0] == '%' && |s| >= 3 && HexValue(s[1]).Some? && HexValue(s[2]).Some? then
      var v := HexValue(s[1]).value * 16 + HexValue(s[2]).value;
      [v as byte] + Bytes(s[3..])
    else Utf8(s[0]) + Bytes(s[1..])
  }

  predicate Continuation(b: byte)
  {
    0x80 <= b < 0xC0
  }

  /** How many bytes a sequence starting with this lead byte has; 0 for a byte that cannot lead. */
  function Width(b: byte): nat
  {
    if b < 0x80 then 1
    else if 0xC0 <= b < 0xE0 then 2
    else if 0xE0 <= b < 0xF0 then 3
    else if 0xF0 <= b < 0xF8 then 4
    else 0
  }

  /** The number a well-formed sequence of `w` bytes carries. */
  function CodePoint(bs: seq<byte>, w: nat): int
    requires 1 <= w <= 4 && |bs| >= w
  {
    if w == 1 then bs[0] as int
    else if w == 2 then (bs[0] as int - 0xC0) * 64 + (bs[1] as int - 0x80)
    else if w == 3 then ((bs[0] as int - 0xE0) * 64 + (bs[1] as int - 0x80)) * 64 + (bs[2] as int - 0x80)
    else (((bs[0] as int - 0xF0) * 64 + (bs[1] as int - 0x80)) * 64 + (bs[2] as int - 0x80)) * 64 + (bs[3] as int - 0x80)
  }

  /** A number a `w`-byte sequence may carry: the shortest form, and a scalar value. */
  predicate Scalar(n: int, w: nat)
  {
    if w == 1 then 0 <= n < 0x80
    else if w == 2 then 0x80 <= n < 0x800
    else if w == 3 then 0x800 <= n < 0x10000 && !(0xD800 <= n < 0xE000)
    else 0x10000 <= n < 0x110000
  }

  /** Strict UTF-8 decoding; None for a malformed sequence. */
  function Decode(bs: seq<byte>): Option<string>
    decreases |bs|
  {
    if bs == [] then Some([])
    else
      var w := Width(bs[0]);
      if w == 0 || |bs| < w || !(forall i :: 1 <= i < w ==> Continuation(bs[i])) then None
      else
        var n := CodePoint(bs, w);
        if !Scalar(n, w) then None
        else match Decode(bs[w..])
          case None => None
          case Some(t) => Some([n as char] + t)
  }

  /** The inverse of `Quote`: the text whose UTF-8 bytes the percent-encoding carries. */
  function Unquote(s: string): Option<string>
  {
    Decode(Bytes(s))
  }

  function Utf8All(s: string): seq<byte>
  {
    if s == [] then [] else Utf8(s[0]) + Utf8All(s[1..])
  }

  /** Every character of the output is safe, a `%`, or a hexadecimal digit. */
  lemma {:induction false} QuoteAlphabet(s: string)
    ensures forall c :: c in Quote(s) ==> Safe(c) || c == '%' || IsHexDigit(c)
  {
    if s != [] {
      QuoteAlphabet(s[1..]);
      if !Safe(s[0]) {
        EscapesAlphabet(Utf8(s[0]));
      }
    }
  }

  lemma {:induction false} EscapesAlphabet(bs: seq<byte>)
    ensures forall c :: c in Escapes(bs) ==> c == '%' || IsHexDigit(c)
  {
    if bs != [] {
      EscapesAlphabet(bs[1..]);
    }
  }

  /** Quoting changes nothing exactly when every character is safe; otherwise it lengthens the text. */
  lemma {:induction false} QuoteIdentity(s: string)
    ensures |Quote(s)| >= |s|
    ensures Quote(s) == s <==> forall i :: 0 <= i < |s| ==> Safe(s[i])
  {
    if s != [] {
      QuoteIdentity(s[1..]);
      if Safe(s[0]) {
        assert Quote(s) == [s[0]] + Quote(s[1..]);
        assert s == [s[0]] + s[1..];
        if forall i :: 0 <= i < |s| ==> Safe(s[i]) {
          assert forall i :: 0 <= i < |s[1..]| ==> Safe(s[1..][i]) by {
            forall i | 0 <= i < |s[1..]| ensures Safe(s[1..][i]) {
              assert s[1..][i] == s[i + 1];
            }
          }
        }
        if Quote(s) == s {
          assert Quote(s[1..]) == s[1..];
          forall i | 0 <= i < |s| ensures Safe(s[i]) {
            if i > 0 {
              assert s[i] == s[1..][i - 1];
            }
          }
        }
      } else {
        assert |Escapes(Utf8(s[0]))| >= 3;
        assert |Quote(s)| > |s|;
      }
    }
  }

  /** Reading back the byte of one escape. */
  lemma BytesEscape(e: string, b: byte, tail: string)
    requires e == Escape(b) + tail
    ensures Bytes(e) == [b] + Bytes(tail)
  {
    HexDigitValue(b as int / 16);
    HexDigitValue(b as int % 16);
    assert e[3..] == tail;
  }

  /** Reading back the bytes of an escape sequence. */
  lemma {:induction false} BytesEscapes(bs: seq<byte>, rest: string)
    ensures Bytes(Escapes(bs) + rest) == bs + Bytes(rest)
  {
    if bs == [] {
      assert Escapes(bs) + rest == rest;
    } else {
      var t := Escapes(bs[1..]) + rest;
      EscapesCons(bs, rest);
      BytesEscape(Escapes(bs) + rest, bs[0], t);
      BytesEscapes(bs[1..], rest);
      assert bs == [bs[0]] + bs[1..];
    }
  }

  lemma EscapesCons(bs: seq<byte>, rest: string)
    requires bs != []
    ensures Escapes(bs) + rest == Escape(bs[0]) + (Escapes(bs[1..]) + rest)
  {
  }

  lemma HexDigitValue(d: nat)
    requires d < 16
    ensures HexValue(HexDigit(d)) == Some(d)
  {
  }

  /** The bytes a quoted text stands for are the UTF-8 encoding of the text. */
  lemma {:induction false} BytesOfQuote(s: string)
    ensures Bytes(Quote(s)) == Utf8All(s)
  {
    if s != [] {
      BytesOfQuote(s[1..]);
      if Safe(s[0]) {
        var q := [s[0]] + Quote(s[1..]);
        assert q[1..] == Quote(s[1..]);
        assert (s[0] as int) < 0x80;
      } else {
        BytesEscapes(Utf8(s[0]), Quote(s[1..]));
      }
    }
  }

  /** The bytes of one character form a well-formed sequence that carries the character. */
  lemma Utf8WellFormed(c: char, bs: seq<byte>)
    requires IsPrefix(Utf8(c), bs)
    ensures Width(bs[0]) == |Utf8(c)|
    ensures forall i :: 1 <= i < |Utf8(c)| ==> Continuation(bs[i])
    ensures CodePoint(bs, |Utf8(c)|) == c as int && Scalar(c as int, |Utf8(c)|)
  {
    var n := c as int;
    assert bs[..|Utf8(c)|] == Utf8(c);
    if n < 0x80 {
    } else if n < 0x800 {
      assert n == 64 * (n / 64) + n % 64;
    } else if n < 0x10000 {
      Utf8Three(c, bs);
    } else {
      Utf8Four(c, bs);
    }
  }

  lemma Utf8Three(c: char, bs: seq<byte>)
    requires 0x800 <= c as int < 0x10000 && IsPrefix(Utf8(c), bs)
    ensures Width(bs[0]) == 3 && Continuation(bs[1]) && Continuation(bs[2])
    ensures CodePoint(bs, 3) == c as int
  {
    var n := c as int;
    var q := n / 64;
    assert bs[..3] == Utf8(c);
    assert n == 64 * q + n % 64;
    assert q == 64 * (q / 64) + q % 64;
  }

  lemma Utf8Four(c: char, bs: seq<byte>)
    requires 0x10000 <= c as int && IsPrefix(Utf8(c), bs)
    ensures Width(bs[0]) == 4 && Continuation(bs[1]) && Continuation(bs[2]) && Continuation(bs[3])
    ensures CodePoint(bs, 4) == c as int
  {
    var n := c as int;
    var q := n / 64;
    var q2 := q / 64;
    assert bs[..4] == Utf8(c);
    assert n == 64 * q + n % 64;
    assert q == 64 * q2 + q % 64;
    assert q2 == 64 * (q2 / 64) + q2 % 64;
  }

  /** Decoding the bytes of one character and more gives that character first. */
  lemma DecodeChar(c: char, rest: seq<byte>)
    ensures Decode(Utf8(c) + rest) ==
              match Decode(rest) case None => None case Some(t) => Some([c] + t)
  {
    var bs := Utf8(c) + rest;
    var w := |Utf8(c)|;
    assert bs[..w] == Utf8(c);
    Utf8WellFormed(c, bs);
    assert bs[w..] == rest;
    assert (c as int) as char == c;
  }

  lemma {:induction false} DecodeUtf8All(s: string)
    ensures Decode(Utf8All(s)) == Some(s)
  {
    if s != [] {
      DecodeUtf8All(s[1..]);
      DecodeChar(s[0], Utf8All(s[1..]));
      assert s == [s[0]] + s[1..];
    }
  }

  /** Round trip: unquoting a quoted text gives the text back. */
  lemma QuoteRoundTrip(s: string)
    ensures Unquote(Quote(s)) == Some(s)
  {
    BytesOfQuote(s);
    DecodeUtf8All(s);
  }
}

/**
 * Go's url.QueryEscape, which url.Values.Encode applies to the query string
 * before it is put into the query URL: the UTF-8 bytes of the string, with
 * ASCII letters, digits and '-', '_', '.', '~' kept, a space written as '+',
 * and every other byte written as '%' and two upper-case hex digits (section
 * 2.1 of RFC 3986). Its partners are UTF-8 decoding and url.QueryUnescape.
 */
module FormEncoding {
  import opened Wrappers

  type byte = b: int | 0 <= b < 256

  // ---------------------------------------------------------------------
  // UTF-8: how a Go string holds the text
  // ---------------------------------------------------------------------

  predicate IsContinuation(b: byte)
  {
    0x80 <= b < 0xC0
  }

  /** The UTF-8 encoding of one Unicode scalar value, as utf8.EncodeRune writes it. */
  function EncodeRune(c: char): (bs: seq<byte>)
    ensures 1 <= |bs| <= 4
    ensures bs[0] < 0x80 <==> |bs| == 1
    ensures forall i :: 1 <= i < |bs| ==> IsContinuation(bs[i])
  {
    var n := c as int;
    if n < 0x80 then
      [n]
    else if n < 0x800 then
      [0xC0 + n / 0x40, 0x80 + n % 0x40]
    else if n < 0x10000 then
      [0xE0 + n / 0x40 / 0x40, 0x80 + n / 0x40 % 0x40, 0x80 + n % 0x40]
    else
      [0xF0 + n / 0x40 / 0x40 / 0x40, 0x80 + n / 0x40 / 0x40 % 0x40, 0x80 + n / 0x40 % 0x40, 0x80 + n % 0x40]
  }

  /** The bytes of the Go string that holds `s`. */
  function Utf8(s: string): seq<byte>
  {
    if s == [] then [] else EncodeRune(s[0]) + Utf8(s[1..])
  }

  /**
   * The first scalar value of a UTF-8 byte sequence and the number of bytes
   * it takes; None for a malformed, overlong or surrogate encoding.
   */
  function DecodeRune(bs: seq<byte>): (r: Option<(char, nat)>)
    ensures r.Some? ==> 1 <= r.value.1 <= |bs|
  {
    if |bs| == 0 then None
    else
      var b0: int := bs[0];
      if b0 < 0x80 then
        Some((b0 as char, 1))
      else if 0xC0 <= b0 < 0xE0 && |bs| >= 2 && IsContinuation(bs[1]) then
        var n := (b0 - 0xC0) * 0x40 + (bs[1] as int - 0x80);
        if 0x80 <= n then Some((n as char, 2)) else None
      else if 0xE0 <= b0 < 0xF0 && |bs| >= 3 && IsContinuation(bs[1]) && IsContinuation(bs[2]) then
        var n := ((b0 - 0xE0) * 0x40 + (bs[1] as int - 0x80)) * 0x40 + (bs[2] as int - 0x80);
        if 0x800 <= n && (n < 0xD800 || 0xE000 <= n) then Some((n as char, 3)) else None
      else if 0xF0 <= b0 < 0xF8 && |bs| >= 4 && IsContinuation(bs[1]) && IsContinuation(bs[2])
              && IsContinuation(bs[3]) then
        var n := (((b0 - 0xF0) * 0x40 + (bs[1] as int - 0x80)) * 0x40 + (bs[2] as int - 0x80)) * 0x40 + (bs[3] as int - 0x80);
        if 0x10000 <= n < 0x110000 then Some((n as char, 4)) else None
      else
        None
  }

  /** The text a UTF-8 byte sequence holds; None when it is not valid UTF-8. */
  function Utf8Decode(bs: seq<byte>): Option<string>
    decreases |bs|
  {
    if bs == [] then Some([])
    else
      match DecodeRune(bs)
      case None => None
      case Some((c, size)) =>
        match Utf8Decode(bs[size..])
        case None => None
        case Some(rest) => Some([c] + rest)
  }

  /** Decoding reads back the scalar value that EncodeRune wrote, whatever follows it. */
  lemma DecodeEncodeRune(c: char, rest: seq<byte>)
    ensures DecodeRune(EncodeRune(c) + rest) == Some((c, |EncodeRune(c)|))
  {
    var n := c as int;
    var bs := EncodeRune(c) + rest;
    if n < 0x80 {
    } else if n < 0x800 {
      assert (n / 0x40) * 0x40 + n % 0x40 == n;
    } else if n < 0x10000 {
      var a := n / 0x40;
      assert a * 0x40 + n % 0x40 == n;
      assert (a / 0x40) * 0x40 + a % 0x40 == a;
    } else {
      var a := n / 0x40;
      var b := a / 0x40;
      assert a * 0x40 + n % 0x40 == n;
      assert b * 0x40 + a % 0x40 == a;
      assert (b / 0x40) * 0x40 + b % 0x40 == b;
    }
  }

  /** Decoding the bytes of a string gives the string back. */
  lemma {:induction false} Utf8RoundTrip(s: string)
    ensures Utf8Decode(Utf8(s)) == Some(s)
  {
    if s != [] {
      var e := EncodeRune(s[0]);
      var rest := Utf8(s[1..]);
      DecodeEncodeRune(s[0], rest);
      assert (e + rest)[|e|..] == rest;
      Utf8RoundTrip(s[1..]);
      assert [s[0]] + s[1..] == s;
    }
  }

  // ---------------------------------------------------------------------
  // url.QueryEscape and url.QueryUnescape
  // ---------------------------------------------------------------------

  /** Bytes that url.QueryEscape writes as they are: RFC 3986's unreserved characters. */
  predicate Unreserved(b: byte)
  {
    || 'a' as int <= b <= 'z' as int
    || 'A' as int <= b <= 'Z' as int
    || '0' as int <= b <= '9' as int
    || b == '-' as int || b == '_' as int || b == '.' as int || b == '~' as int
  }

  /** The characters an escaped string is made of. */
  predicate EscapedChar(c: char)
  {
    || 'a' <= c <= 'z' || 'A' <= c <= 'Z' || '0' <= c <= '9'
    || c == '-' || c == '_' || c == '.' || c == '~'
    || c == '+' || c == '%'
  }

  /** An upper-case hex digit, as Go's upperhex table holds them. */
  function HexChar(n: int): (c: char)
    requires 0 <= n < 16
    ensures '0' <= c <= '9' || 'A' <= c <= 'F'
  {
    if n < 10 then ('0' as int + n) as char else ('A' as int + n - 10) as char
  }

  /** The value of a hex digit of either case; None for any other character. */
  function HexValue(c: char): (r: Option<int>)
    ensures r.Some? ==> 0 <= r.value < 16
  {
    if '0' <= c <= '9' then Some(c as int - '0' as int)
    else if 'A' <= c <= 'F' then Some(c as int - 'A' as int + 10)
    else if 'a' <= c <= 'f' then Some(c as int - 'a' as int + 10)
    else None
  }

  /** How url.QueryEscape writes one byte. */
  function EscapeByte(b: byte): (s: string)
    ensures forall i :: 0 <= i < |s| ==> EscapedChar(s[i])
  {
    if Unreserved(b) then [b as char]
    else if b == ' ' as int then "+"
    else ['%', HexChar(b / 16), HexChar(b % 16)]
  }

  function EscapeBytes(bs: seq<byte>): string
  {
    if bs == [] then "" else EscapeByte(bs[0]) + EscapeBytes(bs[1..])
  }

  /** url.QueryEscape. */
  function QueryEscape(s: string): string
  {
    EscapeBytes(Utf8(s))
  }

  /**
   * url.QueryUnescape on ASCII text: '+' is a space, '%' and two hex digits
   * of either case are one byte, any other ASCII character stands for
   * itself; None for a '%' without two hex digits or a non-ASCII character.
   */
  function QueryUnescape(s: string): Option<seq<byte>>
    decreases |s|
  {
    if s == [] then Some([])
    else if s[0] == '%' then
      if |s| < 3 then None
      else
        match (HexValue(s[1]), HexValue(s[2]), QueryUnescape(s[3..]))
        case (Some(hi), Some(lo), Some(rest)) => Some([hi * 16 + lo] + rest)
        case _ => None
    else if s[0] == '+' then
      match QueryUnescape(s[1..])
      case Some(rest) => Some([' ' as int] + rest)
      case None => None
    else if (s[0] as int) < 0x80 then
      match QueryUnescape(s[1..])
      case Some(rest) => Some([s[0] as int] + rest)
      case None => None
    else
      None
  }

  /** Unescaping reads back the byte that EscapeByte wrote, whatever follows it. */
  lemma UnescapeEscapeByte(b: byte, t: string)
    ensures QueryUnescape(EscapeByte(b) + t) ==
            match QueryUnescape(t)
            case Some(rest) => Some([b] + rest)
            case None => None
  {
    var s := EscapeByte(b) + t;
    if Unreserved(b) {
      assert s[0] == b as char && s[1..] == t;
    } else if b == ' ' as int {
      assert s[0] == '+' && s[1..] == t;
    } else {
      assert s[0] == '%' && s[3..] == t;
      assert HexValue(s[1]) == Some(b / 16);
      assert HexValue(s[2]) == Some(b % 16);
    }
  }

  /** url.QueryUnescape undoes the escaping of any byte string. */
  lemma {:induction false} EscapeBytesRoundTrip(bs: seq<byte>)
    ensures QueryUnescape(EscapeBytes(bs)) == Some(bs)
  {
    if bs != [] {
      UnescapeEscapeByte(bs[0], EscapeBytes(bs[1..]));
      EscapeBytesRoundTrip(bs[1..]);
      assert [bs[0]] + bs[1..] == bs;
    }
  }

  /** Every character of an escaped byte string is unreserved, '+' or '%'. */
  lemma {:induction false} EscapeBytesAlphabet(bs: seq<byte>)
    ensures forall i :: 0 <= i < |EscapeBytes(bs)| ==> EscapedChar(EscapeBytes(bs)[i])
  {
    if bs != [] {
      EscapeBytesAlphabet(bs[1..]);
      var head, tail := EscapeByte(bs[0]), EscapeBytes(bs[1..]);
      assert EscapeBytes(bs) == head + tail;
      forall i | 0 <= i < |head + tail|
        ensures EscapedChar((head + tail)[i])
      {
        if i >= |head| {
          assert (head + tail)[i] == tail[i - |head|];
        }
      }
    }
  }

  lemma {:induction false} Utf8Append(s: string, t: string)
    ensures Utf8(s + t) == Utf8(s) + Utf8(t)
  {
    if s == [] {
      assert s + t == t;
    } else {
      assert (s + t)[0] == s[0];
      assert (s + t)[1..] == s[1..] + t;
      Utf8Append(s[1..], t);
      calc {
        Utf8(s + t);
        EncodeRune(s[0]) + Utf8(s[1..] + t);
        EncodeRune(s[0]) + (Utf8(s[1..]) + Utf8(t));
        (EncodeRune(s[0]) + Utf8(s[1..])) + Utf8(t);
      }
    }
  }

  lemma {:induction false} EscapeBytesAppend(a: seq<byte>, b: seq<byte>)
    ensures EscapeBytes(a + b) == EscapeBytes(a) + EscapeBytes(b)
  {
    if a == [] {
      assert a + b == b;
    } else {
      assert (a + b)[0] == a[0];
      assert (a + b)[1..] == a[1..] + b;
      EscapeBytesAppend(a[1..], b);
      calc {
        EscapeBytes(a + b);
        EscapeByte(a[0]) + EscapeBytes(a[1..] + b);
        EscapeByte(a[0]) + (EscapeBytes(a[1..]) + EscapeBytes(b));
        (EscapeByte(a[0]) + EscapeBytes(a[1..])) + EscapeBytes(b);
      }
    }
  }

  /** Escaping works character by character: it distributes over concatenation. */
  lemma QueryEscapeAppend(s: string, t: string)
    ensures QueryEscape(s + t) == QueryEscape(s) + QueryEscape(t)
  {
    Utf8Append(s, t);
    EscapeBytesAppend(Utf8(s), Utf8(t));
  }

  /** A string of unreserved ASCII characters is its own escaped form. */
  lemma {:induction false} QueryEscapeUnreserved(s: string)
    requires forall i :: 0 <= i < |s| ==> (s[i] as int) < 0x80 && Unreserved(s[i] as int)
    ensures QueryEscape(s) == s
  {
    if s != [] {
      QueryEscapeAppend([s[0]], s[1..]);
      assert [s[0]] + s[1..] == s;
      assert Utf8([s[0]]) == [s[0] as int];
      assert EscapeBytes([s[0] as int]) == [s[0]];
      QueryEscapeUnreserved(s[1..]);
    }
  }

  /**
   * The query string can be recovered from its escaped form, and the escaped
   * form contains none of the characters that delimit a URL's parts.
   */
  lemma QueryEscapeRoundTrip(s: string)
    ensures QueryUnescape(QueryEscape(s)) == Some(Utf8(s))
    ensures Utf8Decode(Utf8(s)) == Some(s)
    ensures forall i :: 0 <= i < |QueryEscape(s)| ==> EscapedChar(QueryEscape(s)[i])
  {
    EscapeBytesRoundTrip(Utf8(s));
    Utf8RoundTrip(s);
    EscapeBytesAlphabet(Utf8(s));
  }
}

/**
  The percent-encoding of ECMA-262 `encodeURIComponent` and `decodeURIComponent`
  (RFC 3986 section 2.1), restricted to ASCII text. `encodeURIComponent` leaves
  the letters, the digits and `- _ . ! ~ * ' ( )` as they are and writes every
  other character as `%` followed by two upper-case hexadecimal digits.
  `decodeURIComponent` turns every `%XY` back into its character and fails
  (a URIError in JavaScript) on a `%` that is not followed by two hex digits.
 */
module UriComponent {
  import opened Wrappers

  predicate IsAsciiChar(c: char) {
    c as int < 128
  }

  predicate IsAscii(s: string) {
    forall i :: 0 <= i < |s| ==> IsAsciiChar(s[i])
  }

  /** The characters `encodeURIComponent` does not escape. */
  predicate IsUnescaped(c: char) {
    ('A' <= c <= 'Z') || ('a' <= c <= 'z') || ('0' <= c <= '9') ||
    c == '-' || c == '_' || c == '.' || c == '!' || c == '~' ||
    c == '*' || c == '\'' || c == '(' || c == ')'
  }

  predicate IsHexDigit(c: char) {
    ('0' <= c <= '9') || ('A' <= c <= 'F') || ('a' <= c <= 'f')
  }

  function HexValue(c: char): (n: nat)
    requires IsHexDigit(c)
    ensures n < 16
  {
    if '0' <= c <= '9' then c as int - '0' as int
    else if 'A' <= c <= 'F' then c as int - 'A' as int + 10
    else c as int - 'a' as int + 10
  }

  /** The upper-case hex digit for `n`; `HexValue` reads it back. */
  function HexDigit(n: nat): (c: char)
    requires n < 16
    ensures IsHexDigit(c) && HexValue(c) == n
    ensures c != '%'
  {
    if n < 10 then ('0' as int + n) as char else ('A' as int + n - 10) as char
  }

  /** One character as `encodeURIComponent` writes it. */
  function EncodeChar(c: char): (r: string)
    requires IsAsciiChar(c)
    ensures IsUnescaped(c) ==> r == [c]
    ensures !IsUnescaped(c) ==>
      |r| == 3 && r[0] == '%' && IsHexDigit(r[1]) && IsHexDigit(r[2]) &&
      16 * HexValue(r[1]) + HexValue(r[2]) == c as int
  {
    if IsUnescaped(c) then [c]
    else ['%', HexDigit(c as int / 16), HexDigit(c as int % 16)]
  }

  function Encode(s: string): (r: string)
    requires IsAscii(s)
  {
    if s == [] then [] else EncodeChar(s[0]) + Encode(s[1..])
  }

  /**
    `decodeURIComponent`: `None` where JavaScript throws a URIError. An escape of
    a byte at or above 0x80 starts a UTF-8 sequence, which is outside this ASCII
    model; it is read as `None` too.
   */
  function Decode(s: string): (r: Option<string>)
    decreases |s|
  {
    if s == [] then Some([])
    else if s[0] == '%' then
      if |s| >= 3 && IsHexDigit(s[1]) && IsHexDigit(s[2]) && 16 * HexValue(s[1]) + HexValue(s[2]) < 128 then
        match Decode(s[3..])
        case None => None
        case Some(t) => Some([(16 * HexValue(s[1]) + HexValue(s[2])) as char] + t)
      else None
    else
      match Decode(s[1..])
      case None => None
      case Some(t) => Some([s[0]] + t)
  }

  /** Encoding distributes over concatenation: it works character by character. */
  lemma {:induction false} EncodeAppend(a: string, b: string)
    requires IsAscii(a) && IsAscii(b)
    ensures IsAscii(a + b) && Encode(a + b) == Encode(a) + Encode(b)
  {
    assert IsAscii(a + b) by {
      forall i | 0 <= i < |a + b| ensures IsAsciiChar((a + b)[i]) {
        if i < |a| { assert (a + b)[i] == a[i]; } else { assert (a + b)[i] == b[i - |a|]; }
      }
    }
    if a == [] {
      assert a + b == b;
    } else {
      assert (a + b)[0] == a[0];
      assert (a + b)[1..] == a[1..] + b;
      EncodeAppend(a[1..], b);
    }
  }

  /** Round trip: decoding what `Encode` produced gives back the original text. */
  lemma {:induction false} DecodeEncode(s: string)
    requires IsAscii(s)
    ensures Decode(Encode(s)) == Some(s)
  {
    if s != [] {
      var head := EncodeChar(s[0]);
      var tail := Encode(s[1..]);
      assert Encode(s) == head + tail;
      DecodeEncode(s[1..]);
      if IsUnescaped(s[0]) {
        assert (head + tail)[0] == s[0] && s[0] != '%';
        assert (head + tail)[1..] == tail;
      } else {
        var e := head + tail;
        assert e[0] == '%' && e[1] == head[1] && e[2] == head[2];
        assert e[3..] == tail;
        assert ((16 * HexValue(e[1]) + HexValue(e[2])) as char) == s[0];
      }
      assert [s[0]] + s[1..] == s;
    }
  }
}

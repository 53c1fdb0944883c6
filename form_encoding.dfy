/** Python's `urllib.parse.quote_plus` with its default arguments: the text
    is encoded as UTF-8, every byte outside the unreserved set of section
    2.3 of RFC 3986 (ALPHA, DIGIT, `-`, `.`, `_`, `~`) becomes `%XX` with
    upper-case hexadecimal digits (section 2.1 of RFC 3986), and the space
    becomes `+`, as in application/x-www-form-urlencoded bodies.  The
    decoder below is the reference the encoder is proved against. */
module FormEncoding {

  import opened Wrappers

  type Byte = b: int | 0 <= b < 256

  // ---------------------------------------------------------------------
  // UTF-8

  /** UTF-8 encoding of one Unicode scalar value. */
  function Utf8Char(c: char): (bs: seq<Byte>)
    ensures 1 <= |bs| <= 4
    ensures c as int < 0x80 ==> bs == [c as int]
    ensures c as int >= 0x80 ==> forall i :: 0 <= i < |bs| ==> bs[i] >= 0x80
  {
    var n := c as int;
    if n < 0x80 then [n]
    else if n < 0x800 then [0xC0 + n / 0x40, 0x80 + n % 0x40]
    else if n < 0x1_0000 then [0xE0 + n / 0x1000, 0x80 + (n / 0x40) % 0x40, 0x80 + n % 0x40]
    else [0xF0 + n / 0x4_0000, 0x80 + (n / 0x1000) % 0x40, 0x80 + (n / 0x40) % 0x40, 0x80 + n % 0x40]
  }

  /** Python's `s.encode('utf-8')`. */
  function Utf8Encode(s: string): seq<Byte> {
    if s == [] then [] else Utf8Char(s[0]) + Utf8Encode(s[1..])
  }

  /** A continuation byte `10xxxxxx`. */
  predicate IsContinuation(b: Byte) {
    0x80 <= b < 0xC0
  }

  /** The code point a scalar value stands for, if `n` is one. */
  function ToChar(n: int): Option<char> {
    if 0 <= n < 0xD800 || 0xE000 <= n < 0x11_0000 then Some(n as char) else None
  }

  /** Length of the UTF-8 sequence a leading byte starts, or 0 if it starts none. */
  function SequenceLength(b: Byte): nat {
    if b < 0x80 then 1
    else if 0xC0 <= b < 0xE0 then 2
    else if 0xE0 <= b < 0xF0 then 3
    else if 0xF0 <= b < 0xF8 then 4
    else 0
  }

  /** The scalar value encoded by `bs`, whose length SequenceLength(bs[0]) gives. */
  function SequenceValue(bs: seq<Byte>): int
    requires 1 <= |bs| <= 4
  {
    var b0: int := bs[0];
    if |bs| == 1 then b0
    else
      var b1: int := bs[1];
      if |bs| == 2 then (b0 - 0xC0) * 0x40 + (b1 - 0x80)
      else
        var b2: int := bs[2];
        if |bs| == 3 then (b0 - 0xE0) * 0x1000 + (b1 - 0x80) * 0x40 + (b2 - 0x80)
        else
          var b3: int := bs[3];
          (b0 - 0xF0) * 0x4_0000 + (b1 - 0x80) * 0x1000 + (b2 - 0x80) * 0x40 + (b3 - 0x80)
  }

  /** Strict UTF-8 decoding; None on any malformed input. */
  function Utf8Decode(bs: seq<Byte>): (r: Option<string>)
    decreases |bs|
  {
    if bs == [] then Some([])
    else
      var n := SequenceLength(bs[0]);
      if n == 0 || |bs| < n || exists i :: 1 <= i < n && !IsContinuation(bs[i]) then None
      else match ToChar(SequenceValue(bs[..n])) {
        case None => None
        case Some(c) =>
          if Utf8Char(c) != bs[..n] then None  // overlong forms are refused
          else match Utf8Decode(bs[n..]) {
            case None => None
            case Some(rest) => Some([c] + rest)
          }
      }
  }

  /** The leading byte of a character's encoding announces its length, the
      others are continuation bytes, and they carry the character's value. */
  lemma Utf8CharShape(c: char)
    ensures SequenceLength(Utf8Char(c)[0]) == |Utf8Char(c)|
    ensures forall i :: 1 <= i < |Utf8Char(c)| ==> IsContinuation(Utf8Char(c)[i])
    ensures SequenceValue(Utf8Char(c)) == c as int
  {
    var n := c as int;
    if n < 0x80 {
    } else if n < 0x800 {
      TwoByteShape(c);
    } else if n < 0x1_0000 {
      ThreeByteShape(c);
    } else {
      FourByteShape(c);
    }
  }

  lemma TwoByteShape(c: char)
    requires 0x80 <= c as int < 0x800
    ensures Utf8Char(c) == [0xC0 + c as int / 0x40, 0x80 + c as int % 0x40]
    ensures SequenceValue(Utf8Char(c)) == c as int
  {
    var n := c as int;
    assert n == (n / 0x40) * 0x40 + n % 0x40;
  }

  lemma ThreeByteShape(c: char)
    requires 0x800 <= c as int < 0x1_0000
    ensures var n := c as int;
            Utf8Char(c) == [0xE0 + n / 0x1000, 0x80 + (n / 0x40) % 0x40, 0x80 + n % 0x40]
    ensures SequenceValue(Utf8Char(c)) == c as int
  {
    var n := c as int;
    var hi, mid, lo := n / 0x1000, (n / 0x40) % 0x40, n % 0x40;
    assert n / 0x40 == hi * 0x40 + mid;
    assert n == (n / 0x40) * 0x40 + lo;
    assert SequenceValue(Utf8Char(c)) == hi * 0x1000 + mid * 0x40 + lo;
  }

  lemma FourByteShape(c: char)
    requires 0x1_0000 <= c as int
    ensures var n := c as int;
            Utf8Char(c) == [0xF0 + n / 0x4_0000, 0x80 + (n / 0x1000) % 0x40, 0x80 + (n / 0x40) % 0x40, 0x80 + n % 0x40]
    ensures SequenceValue(Utf8Char(c)) == c as int
  {
    var n := c as int;
    var top, hi, mid, lo := n / 0x4_0000, (n / 0x1000) % 0x40, (n / 0x40) % 0x40, n % 0x40;
    assert n / 0x1000 == top * 0x40 + hi;
    assert n / 0x40 == (n / 0x1000) * 0x40 + mid;
    assert n == (n / 0x40) * 0x40 + lo;
    assert SequenceValue(Utf8Char(c)) == top * 0x4_0000 + hi * 0x1000 + mid * 0x40 + lo;
  }

  lemma {:induction false} Utf8DecodeChar(c: char, rest: seq<Byte>)
    ensures Utf8Decode(Utf8Char(c) + rest) ==
            match Utf8Decode(rest) { case None => None case Some(t) => Some([c] + t) }
  {
    var bs := Utf8Char(c) + rest;
    var n := |Utf8Char(c)|;
    Utf8CharShape(c);
    assert bs[..n] == Utf8Char(c);
    assert bs[n..] == rest;
    assert SequenceLength(bs[0]) == n;
    assert ToChar(c as int) == Some(c);
  }

  /** Decoding the UTF-8 encoding of any string gives the string back. */
  lemma {:induction false} Utf8RoundTrip(s: string)
    ensures Utf8Decode(Utf8Encode(s)) == Some(s)
    decreases |s|
  {
    if s != [] {
      Utf8RoundTrip(s[1..]);
      Utf8DecodeChar(s[0], Utf8Encode(s[1..]));
      assert [s[0]] + s[1..] == s;
    }
  }

  // ---------------------------------------------------------------------
  // Percent-encoding

  /** Letters, digits and `_.-~`: the bytes `quote` never escapes. */
  predicate IsUnreserved(b: Byte) {
    ('A' as int <= b <= 'Z' as int) || ('a' as int <= b <= 'z' as int) ||
    ('0' as int <= b <= '9' as int) ||
    b == '_' as int || b == '.' as int || b == '-' as int || b == '~' as int
  }

  predicate IsUnreservedChar(c: char) {
    c as int < 0x80 && IsUnreserved(c as int)
  }

  /** `0`-`9` and `A`-`F`. */
  predicate IsUpperHex(c: char) {
    ('0' <= c <= '9') || ('A' <= c <= 'F')
  }

  /** Any hexadecimal digit, as `unquote` accepts. */
  predicate IsHex(c: char) {
    IsUpperHex(c) || ('a' <= c <= 'f')
  }

  function HexDigit(d: nat): (c: char)
    requires d < 16
    ensures IsUpperHex(c)
  {
    "0123456789ABCDEF"[d]
  }

  function HexValue(c: char): (d: nat)
    requires IsHex(c)
    ensures d < 16
  {
    if '0' <= c <= '9' then (c as int) - ('0' as int)
    else if 'A' <= c <= 'F' then (c as int) - ('A' as int) + 10
    else (c as int) - ('a' as int) + 10
  }

  lemma HexValueOfDigit(d: nat)
    requires d < 16
    ensures HexValue(HexDigit(d)) == d
  {
  }

  /** What `quote_plus` turns one byte into. */
  function EncodeByte(b: Byte): string {
    if b == ' ' as int then "+"
    else if IsUnreserved(b) then [b as char]
    else ['%', HexDigit(b / 16), HexDigit(b % 16)]
  }

  function QuoteFromBytes(bs: seq<Byte>): string {
    if bs == [] then "" else EncodeByte(bs[0]) + QuoteFromBytes(bs[1..])
  }

  /** Python's `urllib.parse.quote_plus(s)`. */
  function QuotePlus(s: string): string {
    QuoteFromBytes(Utf8Encode(s))
  }

  /** Reference decoder: `+` is a space, `%XX` a byte, any other ASCII
      character its own byte; anything else is refused. */
  function UnquotePlusBytes(s: string): Option<seq<Byte>>
    decreases |s|
  {
    if s == [] then Some([])
    else
      var b: Option<Byte> :=
        if s[0] == '%' then
          if |s| >= 3 && IsHex(s[1]) && IsHex(s[2]) then Some(HexValue(s[1]) * 16 + HexValue(s[2])) else None
        else if s[0] == '+' then Some(' ' as int)
        else if s[0] as int < 0x80 then Some(s[0] as int)
        else None;
      var width := if s[0] == '%' then 3 else 1;
      match b {
        case None => None
        case Some(v) =>
          match UnquotePlusBytes(s[width..]) {
            case None => None
            case Some(rest) => Some([v] + rest)
          }
      }
  }

  /** Python's `urllib.parse.unquote_plus(s)` on well-formed input. */
  function UnquotePlus(s: string): Option<string> {
    match UnquotePlusBytes(s) {
      case None => None
      case Some(bs) => Utf8Decode(bs)
    }
  }

  lemma {:induction false} UnquoteEncodedByte(b: Byte, rest: string)
    ensures UnquotePlusBytes(EncodeByte(b) + rest) ==
            match UnquotePlusBytes(rest) { case None => None case Some(t) => Some([b] + t) }
  {
    var s := EncodeByte(b) + rest;
    if b == ' ' as int {
      assert s[1..] == rest;
    } else if IsUnreserved(b) {
      assert s[1..] == rest;
    } else {
      assert s[3..] == rest;
      HexValueOfDigit(b / 16);
      HexValueOfDigit(b % 16);
    }
  }

  lemma {:induction false} UnquoteQuoteFromBytes(bs: seq<Byte>)
    ensures UnquotePlusBytes(QuoteFromBytes(bs)) == Some(bs)
    decreases |bs|
  {
    if bs != [] {
      UnquoteQuoteFromBytes(bs[1..]);
      UnquoteEncodedByte(bs[0], QuoteFromBytes(bs[1..]));
      assert [bs[0]] + bs[1..] == bs;
    }
  }

  /** Decoding what `quote_plus` produced recovers the original text. */
  lemma QuotePlusRoundTrip(s: string)
    ensures UnquotePlus(QuotePlus(s)) == Some(s)
  {
    UnquoteQuoteFromBytes(Utf8Encode(s));
    Utf8RoundTrip(s);
  }

  /** The shape of form-encoded text: unreserved characters, `+`, and `%`
      followed by two upper-case hexadecimal digits, nothing else. */
  predicate IsFormEncoded(s: string)
    decreases |s|
  {
    if s == [] then true
    else if s[0] == '%' then |s| >= 3 && IsUpperHex(s[1]) && IsUpperHex(s[2]) && IsFormEncoded(s[3..])
    else (IsUnreservedChar(s[0]) || s[0] == '+') && IsFormEncoded(s[1..])
  }

  lemma {:induction false} FormEncodedAppend(b: Byte, rest: string)
    requires IsFormEncoded(rest)
    ensures IsFormEncoded(EncodeByte(b) + rest)
  {
    var s := EncodeByte(b) + rest;
    if b == ' ' as int || IsUnreserved(b) {
      assert s[1..] == rest;
    } else {
      assert s[3..] == rest;
    }
  }

  lemma {:induction false} QuoteFromBytesFormEncoded(bs: seq<Byte>)
    ensures IsFormEncoded(QuoteFromBytes(bs))
    decreases |bs|
  {
    if bs != [] {
      QuoteFromBytesFormEncoded(bs[1..]);
      FormEncodedAppend(bs[0], QuoteFromBytes(bs[1..]));
    }
  }

  /** Everything `quote_plus` produces is well-formed form-encoded text. */
  lemma QuotePlusFormEncoded(s: string)
    ensures IsFormEncoded(QuotePlus(s))
  {
    QuoteFromBytesFormEncoded(Utf8Encode(s));
  }

  /** Form-encoded text holds only unreserved characters, `+` and `%`: in
      particular no `&`, `=`, `?`, `#`, `/` or space. */
  lemma {:induction false} FormEncodedCharacters(s: string)
    requires IsFormEncoded(s)
    ensures forall i :: 0 <= i < |s| ==> IsUnreservedChar(s[i]) || s[i] == '+' || s[i] == '%'
    decreases |s|
  {
    if s != [] {
      if s[0] == '%' {
        FormEncodedCharacters(s[3..]);
        forall i | 0 <= i < |s| ensures IsUnreservedChar(s[i]) || s[i] == '+' || s[i] == '%' {
          if i >= 3 { assert s[i] == s[3..][i - 3]; }
        }
      } else {
        FormEncodedCharacters(s[1..]);
        forall i | 1 <= i < |s| ensures IsUnreservedChar(s[i]) || s[i] == '+' || s[i] == '%' {
          assert s[i] == s[1..][i - 1];
        }
      }
    }
  }

  /** `quote_plus` distributes over concatenation. */
  lemma {:induction false} QuotePlusAppend(a: string, b: string)
    ensures QuotePlus(a + b) == QuotePlus(a) + QuotePlus(b)
    decreases |a|
  {
    Utf8EncodeAppend(a, b);
    QuoteFromBytesAppend(Utf8Encode(a), Utf8Encode(b));
  }

  lemma {:induction false} Utf8EncodeAppend(a: string, b: string)
    ensures Utf8Encode(a + b) == Utf8Encode(a) + Utf8Encode(b)
    decreases |a|
  {
    if a != [] {
      assert (a + b)[1..] == a[1..] + b;
      Utf8EncodeAppend(a[1..], b);
    } else {
      assert a + b == b;
    }
  }

  lemma {:induction false} QuoteFromBytesAppend(a: seq<Byte>, b: seq<Byte>)
    ensures QuoteFromBytes(a + b) == QuoteFromBytes(a) + QuoteFromBytes(b)
    decreases |a|
  {
    if a != [] {
      assert (a + b)[1..] == a[1..] + b;
      QuoteFromBytesAppend(a[1..], b);
    } else {
      assert a + b == b;
    }
  }

  /** Unreserved text passes through unchanged. */
  lemma {:induction false} QuotePlusUnreserved(s: string)
    requires forall i :: 0 <= i < |s| ==> IsUnreservedChar(s[i])
    ensures QuotePlus(s) == s
    decreases |s|
  {
    if s != [] {
      QuotePlusUnreserved(s[1..]);
      QuotePlusAppend([s[0]], s[1..]);
      assert [s[0]] + s[1..] == s;
    }
  }

  /** The escapes the query strings and filter formulas rely on: space
      becomes `+`; query delimiters and the punctuation of Airtable's
      formula language become `%XX`. */
  lemma SpecialCharacters()
    ensures QuotePlus(" ") == "+"
    ensures QuotePlus("+") == "%2B"
    ensures QuotePlus("%") == "%25"
    ensures QuotePlus("&") == "%26"
    ensures QuotePlus("=") == "%3D"
    ensures QuotePlus("/") == "%2F"
    ensures QuotePlus(":") == "%3A"
    ensures QuotePlus("!") == "%21"
    ensures QuotePlus("(") == "%28"
    ensures QuotePlus(")") == "%29"
    ensures QuotePlus("{") == "%7B"
    ensures QuotePlus("}") == "%7D"
    ensures QuotePlus("[") == "%5B"
    ensures QuotePlus("]") == "%5D"
    ensures QuotePlus("'") == "%27"
    ensures QuotePlus(",") == "%2C"
  {
    QuotePlusAscii(' ');
    EscapedAscii('+');
    EscapedAscii('%');
    EscapedAscii('&');
    EscapedAscii('=');
    EscapedAscii('/');
    EscapedAscii(':');
    EscapedAscii('!');
    EscapedAscii('(');
    EscapedAscii(')');
    EscapedAscii('{');
    EscapedAscii('}');
    EscapedAscii('[');
    EscapedAscii(']');
    EscapedAscii('\'');
    EscapedAscii(',');
  }

  /** Any ASCII character outside the unreserved set, other than space,
      becomes `%` and its two upper-case hexadecimal digits. */
  lemma EscapedAscii(c: char)
    requires c as int < 0x80 && c != ' ' && !IsUnreservedChar(c)
    ensures QuotePlus([c]) == ['%', HexDigit(c as int / 16), HexDigit(c as int % 16)]
  {
    QuotePlusAscii(c);
  }

  lemma QuotePlusAscii(c: char)
    requires c as int < 0x80
    ensures QuotePlus([c]) == EncodeByte(c as int)
  {
    assert Utf8Encode([c]) == [c as int] by {
      assert [c][1..] == [];
    }
    var bs: seq<Byte> := [c as int];
    assert bs[1..] == [];
    assert QuoteFromBytes(bs) == EncodeByte(c as int) + QuoteFromBytes([]);
  }
}

/** The JSON text `json.dump(..., indent=2)` writes for a flat object, with strings escaped the
    way Python's encoder does by default (`ensure_ascii`): only printable ASCII is written as
    itself. A decoder for string bodies, following section 7 of RFC 8259, is its partner. */
module Json {
  import opened Common

  /** A hexadecimal digit, in lower case as the encoder writes it. */
  function HexDigit(d: nat): (c: char)
    requires d < 16
    ensures HexValue(c) == Some(d)
  {
    if d < 10 then ('0' as int + d) as char else ('a' as int + d - 10) as char
  }

  function HexValue(c: char): (r: Option<nat>)
    ensures r.Some? ==> r.value < 16
  {
    if '0' <= c <= '9' then Some(c as int - '0' as int)
    else if 'a' <= c <= 'f' then Some(c as int - 'a' as int + 10)
    else if 'A' <= c <= 'F' then Some(c as int - 'A' as int + 10)
    else None
  }

  function Hex2(b: nat): (r: string)
    requires b < 0x100
    ensures |r| == 2
  {
    [HexDigit(b / 16), HexDigit(b % 16)]
  }

  /** Four hexadecimal digits, as `'{0:04x}'` formats a code unit. */
  function Hex4(n: nat): (r: string)
    requires n < 0x10000
    ensures |r| == 4
  {
    Hex2(n / 0x100) + Hex2(n % 0x100)
  }

  function ParseHex4(s: string): (r: Option<nat>)
    requires |s| == 4
    ensures r.Some? ==> r.value < 0x10000
  {
    match (HexValue(s[0]), HexValue(s[1]), HexValue(s[2]), HexValue(s[3]))
    case (Some(a), Some(b), Some(c), Some(d)) => Some(a * 0x1000 + b * 0x100 + c * 0x10 + d)
    case _ => None
  }

  lemma Hex4RoundTrip(n: nat)
    requires n < 0x10000
    ensures ParseHex4(Hex4(n)) == Some(n)
  {
    var hi, lo := n / 0x100, n % 0x100;
    assert n == hi * 0x100 + lo;
    assert hi == (hi / 16) * 16 + hi % 16;
    assert lo == (lo / 16) * 16 + lo % 16;
  }

  const HighSurrogateBase: int := 0xD800
  const LowSurrogateBase: int := 0xDC00

  /** The escape `\\uXXXX` of one UTF-16 code unit. */
  function UnicodeEscape(n: nat): (e: string)
    requires n < 0x10000
    ensures |e| == 6
  {
    "\\u" + Hex4(n)
  }

  /** The high surrogate of the UTF-16 pair for a character outside the basic plane. */
  function HighSurrogate(c: char): (n: nat)
    requires c as int >= 0x10000
    ensures HighSurrogateBase <= n < LowSurrogateBase
  {
    HighSurrogateBase + (c as int - 0x10000) / 0x400
  }

  /** The low surrogate of that pair. */
  function LowSurrogate(c: char): (n: nat)
    requires c as int >= 0x10000
    ensures LowSurrogateBase <= n < 0xE000
  {
    LowSurrogateBase + (c as int - 0x10000) % 0x400
  }

  /** One character as the encoder writes it inside a string literal. */
  function EscapeChar(c: char): (r: string)
    ensures |r| > 0
  {
    if c == '"' then "\\\""
    else if c == '\\' then "\\\\"
    else if c == '\n' then "\\n"
    else if c == '\r' then "\\r"
    else if c == '\t' then "\\t"
    else if c == '\U{8}' then "\\b"
    else if c == '\U{c}' then "\\f"
    else if ' ' <= c <= '~' then [c]
    else if c as int < 0x10000 then UnicodeEscape(c as int)
    else
      UnicodeEscape(HighSurrogate(c)) + UnicodeEscape(LowSurrogate(c))
  }

  /** Every character is printable ASCII. */
  predicate PrintableAscii(s: string)
  {
    forall k :: 0 <= k < |s| ==> ' ' <= s[k] <= '~'
  }

  /** What the encoder writes is printable ASCII only. */
  lemma EscapeCharAscii(c: char)
    ensures PrintableAscii(EscapeChar(c))
  {
    if ' ' <= c <= '~' || c == '\n' || c == '\r' || c == '\t' || c == '\U{8}' || c == '\U{c}' {
    } else if c as int < 0x10000 {
      AsciiEscape4(c as int);
    } else {
      var hi, lo := HighSurrogate(c), LowSurrogate(c);
      AsciiEscape4(hi);
      AsciiEscape4(lo);
      AsciiConcat(UnicodeEscape(hi), UnicodeEscape(lo));
    }
  }

  /** A `\\uXXXX` escape is printable ASCII. */
  lemma AsciiEscape4(n: nat)
    requires n < 0x10000
    ensures PrintableAscii(UnicodeEscape(n))
  {
  }

  lemma AsciiConcat(a: string, b: string)
    requires PrintableAscii(a) && PrintableAscii(b)
    ensures PrintableAscii(a + b)
  {
  }

  function Escape(s: string): (r: string)
    ensures |r| >= |s|
  {
    if s == [] then [] else EscapeChar(s[0]) + Escape(s[1..])
  }

  /** A string literal. */
  function Quote(s: string): string
  {
    "\"" + Escape(s) + "\""
  }

  function Prepend(c: char, rest: Option<string>): Option<string>
  {
    match rest
    case None => None
    case Some(t) => Some([c] + t)
  }

  /** The body of a string literal read back: escapes resolved, surrogate pairs joined, and
      `None` for a body that is not well formed. */
  function Unescape(t: string): Option<string>
    decreases |t|
  {
    if t == [] then Some([])
    else if t[0] != '\\' then
      if t[0] == '"' || t[0] < ' ' then None else Prepend(t[0], Unescape(t[1..]))
    else if |t| < 2 then None
    else if t[1] == '"' then Prepend('"', Unescape(t[2..]))
    else if t[1] == '\\' then Prepend('\\', Unescape(t[2..]))
    else if t[1] == '/' then Prepend('/', Unescape(t[2..]))
    else if t[1] == 'b' then Prepend('\U{8}', Unescape(t[2..]))
    else if t[1] == 'f' then Prepend('\U{c}', Unescape(t[2..]))
    else if t[1] == 'n' then Prepend('\n', Unescape(t[2..]))
    else if t[1] == 'r' then Prepend('\r', Unescape(t[2..]))
    else if t[1] == 't' then Prepend('\t', Unescape(t[2..]))
    else if t[1] != 'u' || |t| < 6 then None
    else
      match ParseHex4(t[2..6])
      case None => None
      case Some(n) =>
        if n < HighSurrogateBase || n >= 0xE000 then Prepend(n as char, Unescape(t[6..]))
        else if n >= LowSurrogateBase || |t| < 12 || t[6] != '\\' || t[7] != 'u' then None
        else
          match ParseHex4(t[8..12])
          case None => None
          case Some(m) =>
            if m < LowSurrogateBase || m >= 0xE000 then None
            else
              Prepend((0x10000 + (n - HighSurrogateBase) * 0x400 + (m - LowSurrogateBase)) as char,
                      Unescape(t[12..]))
  }

  /** Reading back one written character gives that character in front of what follows. */
  lemma UnescapeEscapeChar(c: char, t: string)
    ensures Unescape(EscapeChar(c) + t) == Prepend(c, Unescape(t))
  {
    if c == '"' || c == '\\' || c == '\n' || c == '\r' || c == '\t' || c == '\U{8}' || c == '\U{c}' {
      UnescapeShort(c, t);
    } else if ' ' <= c <= '~' {
      assert (EscapeChar(c) + t)[1..] == t;
    } else if c as int < 0x10000 {
      UnescapeBasic(c, t);
    } else {
      UnescapePair(c, t);
    }
  }

  lemma UnescapeShort(c: char, t: string)
    requires c == '"' || c == '\\' || c == '\n' || c == '\r' || c == '\t' || c == '\U{8}' || c == '\U{c}'
    ensures Unescape(EscapeChar(c) + t) == Prepend(c, Unescape(t))
  {
    var s := EscapeChar(c) + t;
    assert |EscapeChar(c)| == 2 && s[0] == '\\';
    assert s[2..] == t;
  }

  lemma UnescapeBasic(c: char, t: string)
    requires !(' ' <= c <= '~') && c != '\n' && c != '\r' && c != '\t' && c != '\U{8}' && c != '\U{c}'
    requires c as int < 0x10000
    ensures Unescape(EscapeChar(c) + t) == Prepend(c, Unescape(t))
  {
    var h := Hex4(c as int);
    var s := EscapeChar(c) + t;
    assert EscapeChar(c) == UnicodeEscape(c as int) == "\\u" + h;
    assert s[0] == '\\' && s[1] == 'u';
    assert s[2..6] == h;
    assert s[6..] == t;
    Hex4RoundTrip(c as int);
  }

  lemma UnescapePair(c: char, t: string)
    requires c as int >= 0x10000
    ensures Unescape(EscapeChar(c) + t) == Prepend(c, Unescape(t))
  {
    var hi, lo := HighSurrogate(c), LowSurrogate(c);
    SurrogatesRecombine(c);
    assert EscapeChar(c) == UnicodeEscape(hi) + UnicodeEscape(lo);
    var s := EscapeChar(c) + t;
    ConcatAssoc(UnicodeEscape(hi), UnicodeEscape(lo), t);
    EscapeParts(hi, UnicodeEscape(lo) + t);
    EscapeParts(lo, t);
    assert s[8..12] == s[6..][2..6];
    assert s[12..] == s[6..][6..];
    Hex4RoundTrip(hi);
    Hex4RoundTrip(lo);
    UnescapeSurrogates(s, hi, lo);
  }

  /** Where the parts of a `\\uXXXX` escape lie in front of what follows it. */
  lemma EscapeParts(n: nat, rest: string)
    requires n < 0x10000
    ensures var s := UnicodeEscape(n) + rest;
            s[0] == '\\' && s[1] == 'u' && s[2..6] == Hex4(n) && s[6..] == rest
  {
    var s := UnicodeEscape(n) + rest;
    assert s[..6] == UnicodeEscape(n);
  }

  /** The two code units written for a character outside the basic plane combine back into
      that character. */
  lemma SurrogatesRecombine(c: char)
    requires c as int >= 0x10000
    ensures 0x10000 + (HighSurrogate(c) - HighSurrogateBase) * 0x400 + (LowSurrogate(c) - LowSurrogateBase) == c as int
  {
  }

  /** One step of `Unescape` over a surrogate pair. */
  lemma UnescapeSurrogates(s: string, n: nat, m: nat)
    requires |s| >= 12 && s[0] == '\\' && s[1] == 'u' && s[6] == '\\' && s[7] == 'u'
    requires ParseHex4(s[2..6]) == Some(n) && HighSurrogateBase <= n < LowSurrogateBase
    requires ParseHex4(s[8..12]) == Some(m) && LowSurrogateBase <= m < 0xE000
    ensures Unescape(s) == Prepend((0x10000 + (n - HighSurrogateBase) * 0x400 + (m - LowSurrogateBase)) as char,
                                   Unescape(s[12..]))
  {
  }

  /** The encoder loses nothing: every string is read back from its escaped form. */
  lemma {:induction false} UnescapeEscape(s: string)
    ensures Unescape(Escape(s)) == Some(s)
  {
    if s != [] {
      UnescapeEscape(s[1..]);
      UnescapeEscapeChar(s[0], Escape(s[1..]));
      assert [s[0]] + s[1..] == s;
    }
  }

  /** Distinct strings are written as distinct literals. */
  lemma QuoteInjective(a: string, b: string)
    requires Quote(a) == Quote(b)
    ensures a == b
  {
    assert Escape(a) == Quote(a)[1..|Quote(a)| - 1];
    assert Escape(b) == Quote(b)[1..|Quote(b)| - 1];
    UnescapeEscape(a);
    UnescapeEscape(b);
  }

  function BoolText(b: bool): string
  {
    if b then "true" else "false"
  }

  /** One member of an object written with `indent=2`: two spaces, the quoted key, ": ", and
      the already rendered value. */
  function Member(key: string, value: string): string
  {
    "  " + Quote(key) + ": " + value
  }

  function Members(members: seq<(string, string)>): string
    requires members != []
  {
    if |members| == 1 then Member(members[0].0, members[0].1)
    else Member(members[0].0, members[0].1) + ",\n" + Members(members[1..])
  }

  /** A flat object written with `indent=2`: one member per line between braces, and "{}" when
      there are no members. */
  function Object(members: seq<(string, string)>): (r: string)
    ensures StartsWith(r, "{") && EndsWith(r, "}")
  {
    if members == [] then "{}" else "{\n" + Members(members) + "\n}"
  }
}

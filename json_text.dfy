/** JSON string literals as `JSON.stringify` writes them, and a reader for
    them, so that what the pipeline serialises can be shown to read back. */
module JsonText {
  import opened Common
  import opened Strings

  function HexDigit(d: nat): (c: char)
    requires d < 16
  {
    if d < 10 then DigitChar(d) else (('a' as int) + d - 10) as char
  }

  function HexValue(c: char): Option<nat>
  {
    if '0' <= c <= '9' then Some((c as int) - ('0' as int))
    else if 'a' <= c <= 'f' then Some((c as int) - ('a' as int) + 10)
    else if 'A' <= c <= 'F' then Some((c as int) - ('A' as int) + 10)
    else None
  }

  lemma HexRoundTrip(d: nat)
    requires d < 16
    ensures HexValue(HexDigit(d)) == Some(d)
  {
  }

  /** How `JSON.stringify` writes one character inside a string literal:
      quote and backslash are escaped, the control characters with a short
      form use it, the other control characters become `\u00xx` with
      lower-case hex digits, everything else is written as is. */
  function EscapeChar(c: char): (r: string)
  {
    if c == '"' then "\\\""
    else if c == '\\' then "\\\\"
    else if c == '\U{0008}' then "\\b"
    else if c == '\U{000C}' then "\\f"
    else if c == '\n' then "\\n"
    else if c == '\r' then "\\r"
    else if c == '\t' then "\\t"
    else if c < ' ' then "\\u00" + [HexDigit(c as int / 16), HexDigit(c as int % 16)]
    else [c]
  }

  function Escape(s: string): string
    decreases |s|
  {
    if |s| == 0 then "" else EscapeChar(s[0]) + Escape(s[1..])
  }

  /** `JSON.stringify(s)` for a string `s`. */
  function Quote(s: string): string
  {
    "\"" + Escape(s) + "\""
  }

  /** An escaped character is written with at least one character, none
      of them below the space. */
  lemma EscapeCharPrintable(c: char)
    ensures |EscapeChar(c)| >= 1
    ensures forall i :: 0 <= i < |EscapeChar(c)| ==> EscapeChar(c)[i] >= ' '
  {
    if c < ' ' && c != '\U{0008}' && c != '\U{000C}' && c != '\n' && c != '\r' && c != '\t' {
      var e := EscapeChar(c);
      assert e == "\\u00" + [HexDigit(c as int / 16), HexDigit(c as int % 16)];
      assert e[4] == HexDigit(c as int / 16) && e[5] == HexDigit(c as int % 16);
    }
  }

  /** The body of the literal holds no raw character below the space, as
      JSON requires of a string (section 7 of RFC 8259). */
  lemma {:induction false} EscapePrintable(s: string)
    ensures |Escape(s)| >= |s|
    ensures forall i :: 0 <= i < |Escape(s)| ==> Escape(s)[i] >= ' '
    decreases |s|
  {
    if |s| > 0 {
      EscapeCharPrintable(s[0]);
      EscapePrintable(s[1..]);
      var a, b := EscapeChar(s[0]), Escape(s[1..]);
      assert Escape(s) == a + b;
      forall i | 0 <= i < |a + b| ensures (a + b)[i] >= ' ' {
        if i >= |a| {
          assert (a + b)[i] == b[i - |a|];
        }
      }
    }
  }

  /** `JSON.stringify(s)` is a literal between two quotes with no raw
      control character in it. */
  lemma QuoteIsLiteral(s: string)
    ensures var q := Quote(s);
      |q| >= |s| + 2 && q[0] == '"' && q[|q| - 1] == '"' && forall i :: 0 <= i < |q| ==> q[i] >= ' '
  {
    EscapePrintable(s);
    var e := Escape(s);
    var q := Quote(s);
    forall i | 0 <= i < |q| ensures q[i] >= ' ' {
      if 0 < i < |q| - 1 {
        assert q[i] == e[i - 1];
      }
    }
  }

  /** The character an escape sequence stands for, given the text after the
      backslash, and how many characters of that text the sequence uses. */
  function DecodeEscape(t: string): (r: Option<(char, nat)>)
    ensures r.Some? ==> 1 <= r.value.1 <= |t|
  {
    if |t| == 0 then None
    else if t[0] == '"' || t[0] == '\\' || t[0] == '/' then Some((t[0], 1))
    else if t[0] == 'b' then Some(('\U{0008}', 1))
    else if t[0] == 'f' then Some(('\U{000C}', 1))
    else if t[0] == 'n' then Some(('\n', 1))
    else if t[0] == 'r' then Some(('\r', 1))
    else if t[0] == 't' then Some(('\t', 1))
    else if t[0] == 'u' && |t| >= 5 then
      match (HexValue(t[1]), HexValue(t[2]), HexValue(t[3]), HexValue(t[4]))
      case (Some(a), Some(b), Some(c), Some(d)) =>
        var v := ((a * 16 + b) * 16 + c) * 16 + d;
        // a lone surrogate escape names no character of its own
        if v < 0xD800 || 0xE000 <= v < 0x11_0000 then Some((v as char, 5)) else None
      case _ => None
    else None
  }

  /** Reads the rest of a JSON string literal after its opening quote:
      the characters it denotes and the text after its closing quote. */
  function ReadStringBody(s: string): (r: Option<(string, string)>)
    ensures r.Some? ==> |r.value.1| < |s|
    decreases |s|
  {
    if |s| == 0 then None
    else if s[0] == '"' then Some(("", s[1..]))
    else if s[0] == '\\' then
      match DecodeEscape(s[1..])
      case None => None
      case Some((c, n)) =>
        match ReadStringBody(s[1 + n..])
        case None => None
        case Some((body, rest)) => Some(([c] + body, rest))
    else if s[0] < ' ' then None
    else
      match ReadStringBody(s[1..])
      case None => None
      case Some((body, rest)) => Some(([s[0]] + body, rest))
  }

  /** Reads one JSON string literal at the start of `s`. */
  function ReadString(s: string): (r: Option<(string, string)>)
    ensures r.Some? ==> |r.value.1| < |s|
  {
    if |s| > 0 && s[0] == '"' then ReadStringBody(s[1..]) else None
  }

  /** One escaped character is read back as that character. */
  lemma ReadEscapedChar(c: char, tail: string)
    ensures ReadStringBody(EscapeChar(c) + tail) ==
      match ReadStringBody(tail)
      case None => None
      case Some((body, rest)) => Some(([c] + body, rest))
  {
    var e := EscapeChar(c);
    var s := e + tail;
    if c == '"' || c == '\\' || c == '\U{0008}' || c == '\U{000C}' || c == '\n' || c == '\r' || c == '\t' {
      assert |e| == 2 && s[0] == '\\' && s[1..] == [e[1]] + tail;
      assert DecodeEscape(s[1..]) == Some((c, 1));
      assert s[2..] == tail;
    } else if c < ' ' {
      var hi, lo := c as int / 16, c as int % 16;
      HexRoundTrip(hi);
      HexRoundTrip(lo);
      assert s[0] == '\\';
      assert s[1..] == ['u', '0', '0', HexDigit(hi), HexDigit(lo)] + tail;
      assert DecodeEscape(s[1..]) == Some((c, 5));
      assert s[6..] == tail;
    } else {
      assert s[0] == c && s[1..] == tail;
    }
  }

  /** Reading back an escaped string stops exactly at its closing quote. */
  lemma {:induction false} ReadEscape(s: string, rest: string)
    ensures ReadStringBody(Escape(s) + "\"" + rest) == Some((s, rest))
    decreases |s|
  {
    if |s| == 0 {
      assert Escape(s) + "\"" + rest == "\"" + rest;
    } else {
      var tail := Escape(s[1..]) + "\"" + rest;
      ReadEscape(s[1..], rest);
      ReadEscapedChar(s[0], tail);
      assert Escape(s) + "\"" + rest == EscapeChar(s[0]) + tail;
      assert [s[0]] + s[1..] == s;
    }
  }

  /** `JSON.stringify` of a string reads back as that string. */
  lemma ReadQuote(s: string, rest: string)
    ensures ReadString(Quote(s) + rest) == Some((s, rest))
  {
    var text := Quote(s) + rest;
    assert text[1..] == Escape(s) + "\"" + rest;
    ReadEscape(s, rest);
  }
}

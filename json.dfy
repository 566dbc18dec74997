/**
 * The part of Python's `json.dumps(..., ensure_ascii=False)` the chat stream
 * uses: a one-key object whose value is a string. Non-ASCII characters are
 * kept as they are; the quote, the backslash and the control characters
 * below U+0020 are escaped, the latter as `\uXXXX` with lower-case hex.
 */
module Json {
  import opened Wrappers

  function HexDigit(d: nat): (c: char)
    requires d < 16
  {
    if d < 10 then ('0' as int + d) as char else ('a' as int + d - 10) as char
  }

  function HexValue(c: char): Option<nat> {
    if '0' <= c <= '9' then Some(c as int - '0' as int)
    else if 'a' <= c <= 'f' then Some(c as int - 'a' as int + 10)
    else None
  }

  lemma HexDigitValue(d: nat)
    requires d < 16
    ensures HexValue(HexDigit(d)) == Some(d)
  {
  }

  /** The escape `json.dumps` writes for one character. */
  function EscapeChar(c: char): (r: string)
    ensures |r| >= 1
    ensures '\n' !in r && '\r' !in r
    ensures |r| == 1 <==> r == [c]
  {
    if c == '"' then "\\\""
    else if c == '\\' then "\\\\"
    else if c == '\n' then "\\n"
    else if c == '\r' then "\\r"
    else if c == '\t' then "\\t"
    else if c == '\U{8}' then "\\b"
    else if c == '\U{C}' then "\\f"
    else if (c as int) < 0x20 then
      "\\u00" + [HexDigit(c as int / 16), HexDigit(c as int % 16)]
    else [c]
  }

  /** The characters between the quotes of an encoded string. */
  function EscapeString(s: string): (r: string)
    ensures '\n' !in r && '\r' !in r
  {
    if s == [] then [] else EscapeChar(s[0]) + EscapeString(s[1..])
  }

  /** `json.dumps(s)` for a string `s`. */
  function Quote(s: string): (r: string)
    ensures |r| >= 2 && r[0] == '"' && r[|r| - 1] == '"'
    ensures '\n' !in r && '\r' !in r
  {
    "\"" + EscapeString(s) + "\""
  }

  /** A character `json.dumps` writes as it is. */
  predicate Plain(c: char) {
    c as int >= 0x20 && c != '"' && c != '\\'
  }

  /** Text made of plain characters is written unchanged. */
  lemma {:induction false} EscapePlain(s: string)
    requires PlainText(s)
    ensures EscapeString(s) == s
  {
    if s != [] {
      EscapePlain(s[1..]);
      assert s == [s[0]] + s[1..];
    }
  }

  predicate PlainText(s: string) {
    forall i :: 0 <= i < |s| ==> Plain(s[i])
  }

  /**
   * `json.dumps({key: value})` for a one-key object with a string value; the
   * key is one the program spells out, made of plain characters.
   */
  function Object1(key: string, value: string): (r: string)
    requires PlainText(key)
    ensures '\n' !in r && '\r' !in r
    ensures |r| >= 6
  {
    "{\"" + key + "\": " + Quote(value) + "}"
  }

  /** It is the general encoding: the key quoted like any string. */
  lemma Object1IsDumps(key: string, value: string)
    requires PlainText(key)
    ensures Object1(key, value) == "{" + Quote(key) + ": " + Quote(value) + "}"
  {
    EscapePlain(key);
  }

  function Prepend(c: char, rest: Option<string>): Option<string> {
    match rest
    case Some(t) => Some([c] + t)
    case None => None
  }

  /** The character a backslash and this letter stand for. */
  function ShortUnescape(letter: char): Option<char> {
    if letter == '"' then Some('"')
    else if letter == '\\' then Some('\\')
    else if letter == 'n' then Some('\n')
    else if letter == 'r' then Some('\r')
    else if letter == 't' then Some('\t')
    else if letter == 'b' then Some('\U{8}')
    else if letter == 'f' then Some('\U{C}')
    else None
  }

  /** Decodes the escapes `EscapeString` writes; `None` for anything else. */
  function Unescape(s: string): (r: Option<string>)
    ensures r.Some? ==> |r.value| <= |s|
    ensures '\\' !in s ==> r == Some(s)
    decreases |s|
  {
    if s == [] then Some([])
    else if s[0] != '\\' then (assert s == [s[0]] + s[1..]; Prepend(s[0], Unescape(s[1..])))
    else if |s| < 2 then None
    else if ShortUnescape(s[1]).Some? then Prepend(ShortUnescape(s[1]).value, Unescape(s[2..]))
    else if s[1] == 'u' && |s| >= 6 && s[2] == '0' && s[3] == '0'
            && HexValue(s[4]).Some? && HexValue(s[5]).Some?
            && HexValue(s[4]).value < 2 then
      Prepend((HexValue(s[4]).value * 16 + HexValue(s[5]).value) as char, Unescape(s[6..]))
    else None
  }

  /** Decoding one escape in front of any text gives back its character. */
  lemma UnescapeChar(c: char, rest: string)
    ensures Unescape(EscapeChar(c) + rest) == Prepend(c, Unescape(rest))
  {
    if Plain(c) {
      UnescapePlainChar(c, rest);
    } else if c in ShortEscaped {
      UnescapeShort(c, rest);
    } else {
      UnescapeControl(c, rest);
    }
  }

  /** The characters written as a backslash and one letter. */
  const ShortEscaped := {'"', '\\', '\n', '\r', '\t', '\U{8}', '\U{C}'}

  /** A plain character is decoded as itself. */
  lemma UnescapePlainChar(c: char, rest: string)
    requires Plain(c)
    ensures Unescape(EscapeChar(c) + rest) == Prepend(c, Unescape(rest))
  {
    assert EscapeChar(c) == [c];
    assert ([c] + rest)[0] == c && ([c] + rest)[1..] == rest;
  }

  /** A two-character escape is decoded to the character it stands for. */
  lemma UnescapeShort(c: char, rest: string)
    requires c in ShortEscaped
    ensures Unescape(EscapeChar(c) + rest) == Prepend(c, Unescape(rest))
  {
    var e := EscapeChar(c);
    assert |e| == 2 && e[0] == '\\' && ShortUnescape(e[1]) == Some(c);
    var s := e + rest;
    assert s[0] == '\\' && s[1] == e[1] && s[2..] == rest;
  }

  /** A `\u00XX` escape is decoded to the control character it numbers. */
  lemma UnescapeControl(c: char, rest: string)
    requires !Plain(c) && c !in ShortEscaped
    ensures Unescape(EscapeChar(c) + rest) == Prepend(c, Unescape(rest))
  {
    var hi, lo := c as int / 16, c as int % 16;
    assert EscapeChar(c) == "\\u00" + [HexDigit(hi), HexDigit(lo)];
    assert (hi * 16 + lo) as char == c;
    UnescapeHex(hi, lo, rest);
  }

  /** Decoding `\u00` followed by two hex digits below 0x20. */
  lemma UnescapeHex(hi: nat, lo: nat, rest: string)
    requires hi < 2 && lo < 16
    ensures Unescape("\\u00" + [HexDigit(hi), HexDigit(lo)] + rest) == Prepend((hi * 16 + lo) as char, Unescape(rest))
  {
    var s := "\\u00" + [HexDigit(hi), HexDigit(lo)] + rest;
    HexDigitValue(hi);
    HexDigitValue(lo);
    assert s[0] == '\\' && s[1] == 'u' && s[2] == '0' && s[3] == '0';
    assert s[4] == HexDigit(hi) && s[5] == HexDigit(lo);
    assert s[6..] == rest;
    assert ShortUnescape(s[1]).None?;
  }

  /** Escaping loses nothing: decoding the escaped text gives the string back. */
  lemma {:induction false} UnescapeEscape(s: string)
    ensures Unescape(EscapeString(s)) == Some(s)
  {
    if s != [] {
      UnescapeChar(s[0], EscapeString(s[1..]));
      UnescapeEscape(s[1..]);
      assert [s[0]] + s[1..] == s;
    }
  }

  /** Two different strings are never encoded alike. */
  lemma QuoteInjective(a: string, b: string)
    requires Quote(a) == Quote(b)
    ensures a == b
  {
    assert EscapeString(a) == Quote(a)[1..|Quote(a)| - 1];
    assert EscapeString(b) == Quote(b)[1..|Quote(b)| - 1];
    UnescapeEscape(a);
    UnescapeEscape(b);
  }
}

/**
 * The text the provider stores under "user": the session written as a JSON
 * object with the keys token, role and email in that order, and the reading
 * of such a text back. Writing escapes a string as JSON does; reading accepts
 * the escapes JSON allows.
 */
module SessionCodec {
  import opened Outcomes
  import opened Sessions

  // ---------------------------------------------------------------------
  // Writing
  // ---------------------------------------------------------------------

  /** The lower-case hexadecimal digit of a value below 16. */
  function HexDigit(n: nat): char
    requires n < 16
  {
    "0123456789abcdef"[n]
  }

  /** One character inside a JSON string literal, escaped where JSON requires it. */
  function EscapeChar(c: char): string {
    if c == '"' then ['\\', '"']
    else if c == '\\' then ['\\', '\\']
    else if c as int == 8 then ['\\', 'b']
    else if c as int == 12 then ['\\', 'f']
    else if c == '\n' then ['\\', 'n']
    else if c == '\r' then ['\\', 'r']
    else if c == '\t' then ['\\', 't']
    else if c as int < 0x20 then ['\\', 'u', '0', '0', HexDigit(c as int / 16), HexDigit(c as int % 16)]
    else [c]
  }

  /** The body of a JSON string literal for `s`, without its quotes. */
  function EscapeString(s: string): string {
    if s == [] then [] else EscapeChar(s[0]) + EscapeString(s[1..])
  }

  const TokenKey: string := "{\"token\":\""
  const RoleKey: string := ",\"role\":\""
  const EmailKey: string := ",\"email\":\""
  const Quote: string := "\""
  const End: string := "}"

  /** The session as the JSON text the provider stores. */
  function Stringify(u: Session): (text: string)
    ensures |text| > 0 && text[0] == '{'
  {
    TokenKey + (EscapeString(u.token) + (Quote + (RoleKey + (EscapeString(u.role) + (Quote + (EmailKey +
      (EscapeString(u.email) + (Quote + End))))))))
  }

  // ---------------------------------------------------------------------
  // Reading
  // ---------------------------------------------------------------------

  /** The value of a hexadecimal digit of either case. */
  function HexValue(c: char): Option<nat> {
    if '0' <= c <= '9' then Some(c as int - '0' as int)
    else if 'a' <= c <= 'f' then Some(c as int - 'a' as int + 10)
    else if 'A' <= c <= 'F' then Some(c as int - 'A' as int + 10)
    else None
  }

  /** The value of four hexadecimal digits. */
  function Hex4(t: string): (r: Option<nat>)
    requires |t| == 4
    ensures r.Some? ==> r.value < 0x1_0000
  {
    match (HexValue(t[0]), HexValue(t[1]), HexValue(t[2]), HexValue(t[3]))
    case (Some(a), Some(b), Some(c), Some(d)) =>
      assert a < 16 && b < 16 && c < 16 && d < 16;
      Some(((a * 16 + b) * 16 + c) * 16 + d)
    case _ => None
  }

  /**
   * The character an escape stands for, read just after its backslash, with the
   * rest of the text. A `\u` escape of a lone surrogate is refused.
   */
  function Unescape(t: string): (r: Option<(char, string)>)
    ensures r.Some? ==> |r.value.1| < |t| && r.value.1 == t[|t| - |r.value.1|..]
  {
    if t == [] then None
    else if t[0] == '"' then Some(('"', t[1..]))
    else if t[0] == '\\' then Some(('\\', t[1..]))
    else if t[0] == '/' then Some(('/', t[1..]))
    else if t[0] == 'b' then Some((8 as char, t[1..]))
    else if t[0] == 'f' then Some((12 as char, t[1..]))
    else if t[0] == 'n' then Some(('\n', t[1..]))
    else if t[0] == 'r' then Some(('\r', t[1..]))
    else if t[0] == 't' then Some(('\t', t[1..]))
    else if t[0] == 'u' && |t| >= 5 then
      match Hex4(t[1..5])
      case Some(v) => if v < 0xD800 || 0xE000 <= v then Some((v as char, t[5..])) else None
      case None => None
    else None
  }

  /**
   * A JSON string literal read from just after its opening quote: its value and
   * the text after its closing quote. Raw control characters are refused.
   */
  function ReadString(s: string): Option<(string, string)>
    decreases |s|
  {
    if s == [] then None
    else if s[0] == '"' then Some(([], s[1..]))
    else if s[0] == '\\' then
      match Unescape(s[1..])
      case None => None
      case Some((c, rest)) =>
        match ReadString(rest)
        case None => None
        case Some((body, after)) => Some(([c] + body, after))
    else if s[0] as int < 0x20 then None
    else
      match ReadString(s[1..])
      case None => None
      case Some((body, after)) => Some(([s[0]] + body, after))
  }

  /** The text after a fixed prefix, if the text starts with it. */
  function Expect(s: string, prefix: string): (r: Option<string>)
    ensures r.Some? ==> s == prefix + r.value
  {
    if |prefix| <= |s| && s[..|prefix|] == prefix then
      assert s == s[..|prefix|] + s[|prefix|..];
      Some(s[|prefix|..])
    else None
  }

  /** The session a stored text encodes; None for any other text. */
  /**
   * Only a text that opens with the token key and ends with the closing brace
   * reads as a session.
   */
  function Parse(text: string): (r: Option<Session>)
    ensures r.Some? ==> |TokenKey| < |text| && text[..|TokenKey|] == TokenKey && text[|text| - 1] == '}'
  {
    match Expect(text, TokenKey)
    case None => None
    case Some(r1) =>
      ReadStringLeavesSuffix(r1);
      match ReadString(r1)
      case None => None
      case Some((token, r2)) =>
        match Expect(r2, RoleKey)
        case None => None
        case Some(r3) =>
          ReadStringLeavesSuffix(r3);
          match ReadString(r3)
          case None => None
          case Some((role, r4)) =>
            match Expect(r4, EmailKey)
            case None => None
            case Some(r5) =>
              ReadStringLeavesSuffix(r5);
              match ReadString(r5)
              case None => None
              case Some((email, r6)) =>
                if r6 == End then Some(Session(token, role, email)) else None
  }

  /** Reading a string literal consumes at least its closing quote and leaves a suffix of the text. */
  lemma {:induction false} ReadStringLeavesSuffix(s: string)
    ensures ReadString(s).Some? ==>
      var after := ReadString(s).value.1;
      |after| < |s| && after == s[|s| - |after|..]
    decreases |s|
  {
    if s != [] && s[0] != '"' {
      if s[0] == '\\' {
        var u := Unescape(s[1..]);
        if u.Some? {
          var rest := u.value.1;
          ReadStringLeavesSuffix(rest);
          assert rest == s[|s| - |rest|..];
        }
      } else {
        ReadStringLeavesSuffix(s[1..]);
      }
    }
  }

  // ---------------------------------------------------------------------
  // Round trip
  // ---------------------------------------------------------------------

  lemma ExpectPrefix(prefix: string, rest: string)
    ensures Expect(prefix + rest, prefix) == Some(rest)
  {
    assert (prefix + rest)[..|prefix|] == prefix;
    assert (prefix + rest)[|prefix|..] == rest;
  }

  /** An escape that EscapeChar writes reads back as the character it escapes. */
  lemma EscapeCharReadsBack(c: char, tail: string)
    requires EscapeChar(c) != [c]
    ensures |EscapeChar(c)| > 1 && EscapeChar(c)[0] == '\\'
    ensures Unescape(EscapeChar(c)[1..] + tail) == Some((c, tail))
  {
    var e := EscapeChar(c);
    if c as int < 0x20 && c as int !in {8, 9, 10, 12, 13} {
      var n := c as int;
      var t := e[1..] + tail;
      assert t[0] == 'u' && t[1..5] == ['0', '0', HexDigit(n / 16), HexDigit(n % 16)];
      assert n / 16 < 2;
      assert HexValue(HexDigit(n / 16)) == Some(n / 16);
      assert HexValue(HexDigit(n % 16)) == Some(n % 16);
      assert Hex4(t[1..5]) == Some(n);
      assert t[5..] == tail;
    } else {
      assert (e[1..] + tail)[1..] == tail;
    }
  }

  /** A character written as itself reads back in front of what follows it. */
  lemma ReadPlainChar(c: char, text: string, body: string, after: string)
    requires EscapeChar(c) == [c]
    requires ReadString(text) == Some((body, after))
    ensures ReadString([c] + text) == Some(([c] + body, after))
  {
    assert c != '"' && c != '\\' && c as int >= 0x20;
    assert ([c] + text)[1..] == text;
  }

  /** A character written as an escape reads back in front of what follows it. */
  lemma ReadEscapedChar(c: char, text: string, body: string, after: string)
    requires EscapeChar(c) != [c]
    requires ReadString(text) == Some((body, after))
    ensures ReadString(EscapeChar(c) + text) == Some(([c] + body, after))
  {
    var e := EscapeChar(c);
    EscapeCharReadsBack(c, text);
    assert (e + text)[0] == '\\';
    assert (e + text)[1..] == e[1..] + text;
  }

  /** The escaped body of a string, then its closing quote, reads back as the string. */
  lemma {:induction false} ReadEscaped(s: string, rest: string)
    ensures ReadString(EscapeString(s) + (Quote + rest)) == Some((s, rest))
  {
    if s == [] {
      assert EscapeString(s) + (Quote + rest) == ['"'] + rest;
    } else {
      var c, t := s[0], s[1..];
      var tailText := EscapeString(t) + (Quote + rest);
      ReadEscaped(t, rest);
      assert EscapeString(s) + (Quote + rest) == EscapeChar(c) + tailText;
      if EscapeChar(c) == [c] {
        ReadPlainChar(c, tailText, t, rest);
      } else {
        ReadEscapedChar(c, tailText, t, rest);
      }
      assert [c] + t == s;
    }
  }

  /** Reading the stored text gives back the session that was written. */
  lemma {:induction false} ParseStringify(u: Session)
    ensures Parse(Stringify(u)) == Some(u)
  {
    var afterRole := EmailKey + (EscapeString(u.email) + (Quote + End));
    var afterToken := RoleKey + (EscapeString(u.role) + (Quote + afterRole));
    ExpectPrefix(TokenKey, EscapeString(u.token) + (Quote + afterToken));
    ReadEscaped(u.token, afterToken);
    ExpectPrefix(RoleKey, EscapeString(u.role) + (Quote + afterRole));
    ReadEscaped(u.role, afterRole);
    ExpectPrefix(EmailKey, EscapeString(u.email) + (Quote + End));
    ReadEscaped(u.email, End);
  }

  /** Distinct sessions are stored as distinct texts. */
  lemma StringifyInjective(u: Session, v: Session)
    requires Stringify(u) == Stringify(v)
    ensures u == v
  {
    ParseStringify(u);
    ParseStringify(v);
  }
}

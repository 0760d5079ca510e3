/** HOCON value quoting as the configuration task does it (`quote` and
    `hasHoconForbiddenChars`), together with a decoder for HOCON quoted strings
    against which the quoting is checked. */
module Hocon {
  import opened Wrappers
  import opened Strings

  /** The characters that force a value to be written as a quoted string. */
  const ForbiddenChars: set<char> :=
    {'$', '"', '{', '}', '[', ']', ':', '=', ',', '+', '#', '`', '^', '?', '!', '@', '*', '&', '\\'}

  /** `str.any { it in hoconForbiddenChars }`. */
  function HasForbiddenChars(s: string): (r: bool)
    ensures r <==> exists i :: 0 <= i < |s| && s[i] in ForbiddenChars
  {
    |s| > 0 && (s[0] in ForbiddenChars || HasForbiddenChars(s[1..]))
  }

  /** `replace("\\", "\\\\")`: every backslash doubled, every other character,
      the double quote included, kept as it is. */
  function EscapeBackslashes(s: string): (r: string)
    ensures |r| == |s| + CountChar(s, '\\')
  {
    if |s| == 0 then ""
    else (if s[0] == '\\' then "\\\\" else [s[0]]) + EscapeBackslashes(s[1..])
  }

  /** Escaping doubles the backslashes and leaves the number of every other
      character unchanged. */
  lemma {:induction false} EscapeBackslashesCounts(s: string)
    ensures CountChar(EscapeBackslashes(s), '\\') == 2 * CountChar(s, '\\')
    ensures forall c :: c != '\\' ==> CountChar(EscapeBackslashes(s), c) == CountChar(s, c)
    decreases |s|
  {
    if |s| > 0 {
      EscapeBackslashesCounts(s[1..]);
      var head := if s[0] == '\\' then "\\\\" else [s[0]];
      CountAppend(head, EscapeBackslashes(s[1..]));
    }
  }

  lemma {:induction false} CountAppend(a: string, b: string)
    ensures forall c :: CountChar(a + b, c) == CountChar(a, c) + CountChar(b, c)
    decreases |a|
  {
    if |a| > 0 {
      CountAppend(a[1..], b);
      assert (a + b)[1..] == a[1..] + b;
    } else {
      assert a + b == b;
    }
  }

  /** Escaping one character: a backslash becomes two, any other character,
      the double quote included, stays as it is. */
  lemma EscapeBackslashesChar(c: char)
    ensures EscapeBackslashes([c]) == if c == '\\' then "\\\\" else [c]
  {
    assert [c][1..] == "";
  }

  /** Escaping works character by character and in place: it distributes
      over concatenation. */
  lemma {:induction false} EscapeBackslashesConcat(a: string, b: string)
    ensures EscapeBackslashes(a + b) == EscapeBackslashes(a) + EscapeBackslashes(b)
    decreases |a|
  {
    if |a| == 0 {
      assert a + b == b;
    } else {
      var head := if a[0] == '\\' then "\\\\" else [a[0]];
      calc {
        EscapeBackslashes(a + b);
        == { assert (a + b)[0] == a[0] && (a + b)[1..] == a[1..] + b; }
        head + EscapeBackslashes(a[1..] + b);
        == { EscapeBackslashesConcat(a[1..], b); }
        head + (EscapeBackslashes(a[1..]) + EscapeBackslashes(b));
        (head + EscapeBackslashes(a[1..])) + EscapeBackslashes(b);
      }
    }
  }

  /** Undoes `EscapeBackslashes`: each doubled backslash, read left to right,
      becomes one. */
  function UnescapeBackslashes(t: string): string
    decreases |t|
  {
    if |t| == 0 then ""
    else if |t| >= 2 && t[0] == '\\' && t[1] == '\\' then "\\" + UnescapeBackslashes(t[2..])
    else [t[0]] + UnescapeBackslashes(t[1..])
  }

  /** Escaping loses nothing: every value is read back from its escaped form. */
  lemma {:induction false} UnescapeEscapeBackslashes(s: string)
    ensures UnescapeBackslashes(EscapeBackslashes(s)) == s
    decreases |s|
  {
    if |s| > 0 {
      UnescapeEscapeBackslashes(s[1..]);
      var e := EscapeBackslashes(s);
      var tail := EscapeBackslashes(s[1..]);
      if s[0] == '\\' {
        assert e == "\\\\" + tail;
        assert e[2..] == tail;
      } else {
        assert e == [s[0]] + tail;
        assert e[1..] == tail;
      }
      assert s == [s[0]] + s[1..];
    }
  }

  /** `quote(str)`: the value bare when it has no forbidden character, otherwise
      in double quotes with its backslashes doubled. */
  function Quote(s: string): string {
    if HasForbiddenChars(s) then "\"" + EscapeBackslashes(s) + "\"" else s
  }

  /** What `quote` promises: a value without forbidden characters comes back
      unchanged; any other value comes back wrapped in double quotes with its
      backslashes doubled, so two characters longer plus one per backslash,
      and with any double quote inside it left unescaped. */
  lemma QuoteShape(s: string)
    ensures !HasForbiddenChars(s) ==> Quote(s) == s
    ensures HasForbiddenChars(s) ==>
      && |Quote(s)| == |s| + 2 + CountChar(s, '\\')
      && Quote(s)[0] == '"' && Quote(s)[|Quote(s)| - 1] == '"'
      && Quote(s)[1..|Quote(s)| - 1] == EscapeBackslashes(s)
      && CountChar(Quote(s), '"') == CountChar(s, '"') + 2
  {
    if HasForbiddenChars(s) {
      var e := EscapeBackslashes(s);
      EscapeBackslashesCounts(s);
      CountAppend("\"", e);
      CountAppend("\"" + e, "\"");
    }
  }

  // ---------------------------------------------------------------------------
  // Reading a HOCON quoted string back (JSON escapes, no raw control characters)
  // ---------------------------------------------------------------------------

  /** The character a JSON escape `\e` stands for (`\u` escapes are not read). */
  function EscapedChar(e: char): Option<char> {
    match e
    case '"' => Some('"')
    case '\\' => Some('\\')
    case '/' => Some('/')
    case 'b' => Some('\U{0008}')
    case 'f' => Some('\U{000C}')
    case 'n' => Some('\n')
    case 'r' => Some('\r')
    case 't' => Some('\t')
    case _ => None
  }

  predicate IsControl(c: char) {
    c < '\U{0020}'
  }

  /** Reads the body of a quoted string (the text after the opening quote):
      the decoded value and what follows the closing quote, or None when the
      text is not a well-formed string body. */
  function ReadQuotedBody(t: string): (r: Option<(string, string)>)
    ensures r.Some? ==> |r.value.1| < |t|
  {
    if |t| == 0 then None
    else if t[0] == '"' then Some(("", t[1..]))
    else if IsControl(t[0]) then None
    else if t[0] == '\\' then
      if |t| < 2 then None
      else match EscapedChar(t[1])
        case None => None
        case Some(c) =>
          match ReadQuotedBody(t[2..])
          case None => None
          case Some((v, rest)) => Some(([c] + v, rest))
    else
      match ReadQuotedBody(t[1..])
      case None => None
      case Some((v, rest)) => Some(([t[0]] + v, rest))
  }

  /** Reads a whole value written as one quoted string; None unless the text
      is exactly one well-formed quoted string. */
  function ReadQuoted(t: string): Option<string> {
    if |t| == 0 || t[0] != '"' then None
    else match ReadQuotedBody(t[1..])
      case Some((v, rest)) => if rest == "" then Some(v) else None
      case None => None
  }

  /** Values free of double quotes and control characters. */
  predicate Quotable(s: string) {
    forall i :: 0 <= i < |s| ==> s[i] != '"' && !IsControl(s[i])
  }

  lemma {:induction false} ReadEscapedBody(s: string, rest: string)
    requires Quotable(s)
    ensures ReadQuotedBody(EscapeBackslashes(s) + "\"" + rest) == Some((s, rest))
    decreases |s|
  {
    var t := EscapeBackslashes(s) + "\"" + rest;
    if |s| == 0 {
      assert t == "\"" + rest;
    } else {
      ReadEscapedBody(s[1..], rest);
      var tail := EscapeBackslashes(s[1..]) + "\"" + rest;
      assert s == [s[0]] + s[1..];
      if s[0] == '\\' {
        assert t == "\\\\" + tail;
        assert t[2..] == tail;
      } else {
        assert t == [s[0]] + tail;
        assert t[1..] == tail;
      }
    }
  }

  /** Quoting round trip: a value with a forbidden character, no double quote
      and no control character reads back from its quoted form unchanged. */
  lemma QuoteRoundTrip(s: string)
    requires HasForbiddenChars(s) && Quotable(s)
    ensures ReadQuoted(Quote(s)) == Some(s)
  {
    var e := EscapeBackslashes(s);
    assert Quote(s) == "\"" + e + "\"";
    assert Quote(s)[1..] == e + "\"" + "";
    ReadEscapedBody(s, "");
  }

  /** The round trip fails once the value holds a double quote: `a"b` is
      written as `"a"b"`, which is not one quoted string. */
  lemma EmbeddedQuoteBreaksRoundTrip()
    ensures Quote("a\"b") == "\"a\"b\""
    ensures ReadQuoted(Quote("a\"b")) == None
  {
    assert HasForbiddenChars("a\"b") by { assert "a\"b"[1] in ForbiddenChars; }
    assert EscapeBackslashes("a\"b") == "a\"b" by {
      assert "a\"b"[1..] == "\"b";
      assert "\"b"[1..] == "b";
      assert "b"[1..] == "";
    }
    var body := "a\"b\"";
    assert Quote("a\"b")[1..] == body;
    assert body[0] == 'a' && body[1..] == "\"b\"";
    assert ReadQuotedBody("\"b\"") == Some(("", "b\""));
    assert ['a'] + "" == "a";
    assert ReadQuotedBody(body) == Some(("a", "b\""));
  }
}

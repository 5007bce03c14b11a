/** Go's `%q` verb on strings, which the not-ready error message uses to name
    the instance: the string between double quotes, with the characters that
    would break the quoting escaped. */
module GoFmt {

  datatype Option<T> = None | Some(value: T)

  /** The escaped form of one character. */
  function EscapeRune(c: char): (r: string)
    ensures 1 <= |r| <= 2
    ensures |r| == 1 <==> r == [c]
    ensures |r| == 1 <==> Plain(c)
    ensures |r| == 2 ==> r[0] == '\\' && UnescapeRune(r[1]) == Some(c)
  {
    match c
    case '"' => ['\\', '"']
    case '\\' => ['\\', '\\']
    case '\n' => ['\\', 'n']
    case '\t' => ['\\', 't']
    case '\r' => ['\\', 'r']
    case _ => [c]
  }

  /** The inverse of EscapeRune on the character after a backslash. */
  function UnescapeRune(e: char): (r: Option<char>)
  {
    match e
    case '"' => Some('"')
    case '\\' => Some('\\')
    case 'n' => Some('\n')
    case 't' => Some('\t')
    case 'r' => Some('\r')
    case _ => None
  }

  function Escape(s: string): (r: string)
    ensures |s| <= |r| <= 2 * |s|
  {
    if s == [] then [] else EscapeRune(s[0]) + Escape(s[1..])
  }

  /** Reads back the body of a quoted string; None if it holds a bare quote or
      an escape Escape never writes. */
  function Unescape(t: string): (r: Option<string>)
    decreases |t|
  {
    if t == [] then Some([])
    else if t[0] == '"' then None
    else if t[0] != '\\' then
      match Unescape(t[1..])
      case None => None
      case Some(rest) => Some([t[0]] + rest)
    else if |t| < 2 then None
    else
      match (UnescapeRune(t[1]), Unescape(t[2..]))
      case (Some(c), Some(rest)) => Some([c] + rest)
      case _ => None
  }

  /** `fmt.Sprintf("%q", s)`. */
  function Quote(s: string): (r: string)
    ensures 2 <= |r| && r[0] == '"' && r[|r| - 1] == '"'
  {
    "\"" + Escape(s) + "\""
  }

  /** A character `%q` writes as it is. */
  predicate Plain(c: char)
  {
    c != '"' && c != '\\' && c != '\n' && c != '\t' && c != '\r'
  }

  /** A string without characters to escape quotes as itself between quotes. */
  lemma {:induction false} EscapePlain(s: string)
    requires forall i :: 0 <= i < |s| ==> Plain(s[i])
    ensures Escape(s) == s
    ensures Quote(s) == "\"" + s + "\""
  {
    if s != [] {
      EscapePlain(s[1..]);
      assert [s[0]] + s[1..] == s;
    }
  }

  /** Unescape undoes Escape on every string. */
  lemma {:induction false} UnescapeEscape(s: string)
    ensures Unescape(Escape(s)) == Some(s)
  {
    if s != [] {
      var head, tail := EscapeRune(s[0]), Escape(s[1..]);
      UnescapeEscape(s[1..]);
      assert Escape(s) == head + tail;
      assert [s[0]] + s[1..] == s;
      if |head| == 1 {
        assert (head + tail)[1..] == tail;
      } else {
        assert (head + tail)[0] == '\\' && (head + tail)[1] == head[1];
        assert (head + tail)[2..] == tail;
      }
    }
  }

  /** Different strings quote differently: a quoted string names its content
      unambiguously. */
  lemma QuoteInjective(a: string, b: string)
    requires Quote(a) == Quote(b)
    ensures a == b
  {
    var qa, qb := Quote(a), Quote(b);
    assert Escape(a) == qa[1..|qa| - 1];
    assert Escape(b) == qb[1..|qb| - 1];
    UnescapeEscape(a);
    UnescapeEscape(b);
  }
}

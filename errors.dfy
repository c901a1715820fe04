/**
 * Go's error values as the probe uses them: results that are either a value or
 * an error, errors built by `fmt.Errorf` (with or without `%w` wrapping), and
 * the `*strconv.NumError` that the standard library's parsers return.  Only the
 * text an error prints (its `Error()` method) reaches the reporting sink, so
 * `Message` is what the rest of the model observes.
 */
module Errors {

  datatype Option<+T> = None | Some(value: T)

  /** Go's `(value, error)` return convention. */
  datatype Result<+T> = Ok(value: T) | Err(error: Error)

  /** `strconv.ErrSyntax` and `strconv.ErrRange`. */
  datatype NumErrorKind = ErrSyntax | ErrRange

  datatype Error =
    | /** An error known only by its text: `errors.New`, `fmt.Errorf` without `%w`,
          or an error handed back by an external collaborator. */
      Plain(text: string)
    | /** `&strconv.NumError{Func: fn, Num: num, Err: kind}`. */
      NumError(fn: string, num: string, kind: NumErrorKind)
    | /** `fmt.Errorf("<context>: %w", cause)`. */
      Wrapped(context: string, cause: Error)

  function KindText(kind: NumErrorKind): string {
    match kind
    case ErrSyntax => "invalid syntax"
    case ErrRange => "value out of range"
  }

  const HexDigits := "0123456789abcdef"

  /** The escape sequence `strconv.Quote` writes for one character, on ASCII. */
  function EscapeChar(c: char): (r: string)
    ensures |r| >= 1
    ensures r == [c] <==> (' ' <= c < '\U{7F}' || c > '\U{7F}') && c != '"' && c != '\\'
  {
    if c == '"' || c == '\\' then ['\\', c]
    else if ' ' <= c < '\U{7F}' || c > '\U{7F}' then [c]
    else if c == '\U{7}' then "\\a"
    else if c == '\U{8}' then "\\b"
    else if c == '\U{C}' then "\\f"
    else if c == '\n' then "\\n"
    else if c == '\r' then "\\r"
    else if c == '\t' then "\\t"
    else if c == '\U{B}' then "\\v"
    else ['\\', 'x', HexDigits[(c as int) / 16], HexDigits[(c as int) % 16]]
  }

  function Escape(s: string): (r: string)
    ensures |r| >= |s|
  {
    if s == [] then [] else EscapeChar(s[0]) + Escape(s[1..])
  }

  /** `strconv.Quote`, as `NumError.Error` uses it to show the rejected input: the quoted text decodes back to it. */
  function Quote(s: string): (r: string)
    ensures |r| >= |s| + 2 && r[0] == '"' && r[|r| - 1] == '"'
    ensures Unquote(r) == Some(s)
  {
    EscapeRoundTrip(s);
    var r := "\"" + Escape(s) + "\"";
    assert r[1..|r| - 1] == Escape(s);
    r
  }

  /** The value of a lower-case hexadecimal digit, or -1. */
  function HexValue(c: char): int {
    if '0' <= c <= '9' then c as int - '0' as int
    else if 'a' <= c <= 'f' then c as int - 'a' as int + 10
    else -1
  }

  /** The character a one-letter escape (`\"`, `\\`, `\n`, ...) stands for. */
  function SimpleEscape(e: char): Option<char> {
    match e
    case '"' => Some('"')
    case '\\' => Some('\\')
    case 'a' => Some('\U{7}')
    case 'b' => Some('\U{8}')
    case 'f' => Some('\U{C}')
    case 'n' => Some('\n')
    case 'r' => Some('\r')
    case 't' => Some('\t')
    case 'v' => Some('\U{B}')
    case _ => None
  }

  function Prepend(c: char, r: Option<string>): Option<string> {
    if r.Some? then Some([c] + r.value) else None
  }

  /** Decodes the escape sequences `Escape` writes; None on a malformed escape. */
  function Unescape(q: string): Option<string>
    decreases |q|
  {
    if q == [] then Some([])
    else if q[0] != '\\' then Prepend(q[0], Unescape(q[1..]))
    else if |q| < 2 then None
    else if q[1] == 'x' then
      if |q| >= 4 && HexValue(q[2]) >= 0 && HexValue(q[3]) >= 0
      then Prepend((HexValue(q[2]) * 16 + HexValue(q[3])) as char, Unescape(q[4..]))
      else None
    else match SimpleEscape(q[1])
      case Some(c) => Prepend(c, Unescape(q[2..]))
      case None => None
  }

  /** Reads a quoted string back: the text between the quotes, decoded. */
  function Unquote(q: string): Option<string> {
    if |q| >= 2 && q[0] == '"' && q[|q| - 1] == '"' then Unescape(q[1..|q| - 1]) else None
  }

  lemma HexDigitValue(i: nat)
    requires i < 16
    ensures HexValue(HexDigits[i]) == i
  {
  }

  /** Decoding an escaped character followed by anything gives the character back, then the rest decoded. */
  lemma UnescapeChar(c: char, rest: string)
    ensures Unescape(EscapeChar(c) + rest) == Prepend(c, Unescape(rest))
  {
    var q := EscapeChar(c) + rest;
    if EscapeChar(c) == [c] {
      assert q[0] == c && q[1..] == rest;
    } else if c == '"' || c == '\\' || c == '\U{7}' || c == '\U{8}' || c == '\U{C}'
           || c == '\n' || c == '\r' || c == '\t' || c == '\U{B}' {
      assert q[0] == '\\' && SimpleEscape(q[1]) == Some(c) && q[2..] == rest;
    } else {
      var hi := (c as int) / 16;
      var lo := (c as int) % 16;
      assert hi < 16;
      HexDigitValue(hi);
      HexDigitValue(lo);
      assert q[0] == '\\' && q[1] == 'x' && q[2] == HexDigits[hi] && q[3] == HexDigits[lo] && q[4..] == rest;
      assert (hi * 16 + lo) as char == c;
    }
  }

  /** `Escape` loses nothing: `Unescape` restores its input. */
  lemma {:induction false} EscapeRoundTrip(s: string)
    ensures Unescape(Escape(s)) == Some(s)
  {
    if s != [] {
      UnescapeChar(s[0], Escape(s[1..]));
      EscapeRoundTrip(s[1..]);
      assert [s[0]] + s[1..] == s;
    }
  }

  /** The text `err.Error()` returns. */
  function Message(e: Error): string {
    match e
    case Plain(text) => text
    case NumError(fn, num, kind) => "strconv." + fn + ": parsing " + Quote(num) + ": " + KindText(kind)
    case Wrapped(context, cause) => context + ": " + Message(cause)
  }

  /**
   * A `NumError`'s text names the parser, then shows the rejected input
   * quoted so that it can be read back exactly, then gives the reason.
   */
  lemma NumErrorMessage(fn: string, num: string, kind: NumErrorKind)
    ensures var m := Message(NumError(fn, num, kind));
      var head := "strconv." + fn + ": parsing ";
      var tail := ": " + KindText(kind);
      |m| >= |head| + |tail| && m[..|head|] == head && m[|m| - |tail|..] == tail
      && Unquote(m[|head|..|m| - |tail|]) == Some(num)
  {
    var m := Message(NumError(fn, num, kind));
    var head := "strconv." + fn + ": parsing ";
    var tail := ": " + KindText(kind);
    assert m == head + Quote(num) + tail;
    assert m[|head|..|m| - |tail|] == Quote(num);
  }
}

/**
 * A reference reading of a command line under the quoting rules of the POSIX Shell Command
 * Language (IEEE Std 1003.1, sections 2.2.2 Single-Quotes and 2.2.3 Double-Quotes), used to
 * state what `escapeShellArg` guarantees.  It recognises only simple commands made of literal
 * words: `Words` returns `None` for any line that uses a construct outside that subset
 * (an unquoted operator or expansion character, a `$` or backquote inside double quotes, an
 * unterminated quote, an unquoted newline).
 */
module ShellWords {
  import opened Wrappers

  datatype Quoting = Unquoted | InSingle | InDouble

  /** Blank characters, which delimit words outside quotes. */
  predicate IsBlank(c: char) {
    c == ' ' || c == '\t'
  }

  /** Characters that stand for themselves outside quotes. */
  predicate IsPlain(c: char) {
    ('a' <= c <= 'z') || ('A' <= c <= 'Z') || ('0' <= c <= '9')
    || c == '-' || c == '_' || c == '.' || c == ':' || c == '/' || c == '@' || c == '+' || c == '%' || c == ','
  }

  /** A non-empty word that needs no quoting, such as a model tag `gemma3:4b`. */
  predicate IsPlainWord(w: string) {
    |w| > 0 && forall i :: 0 <= i < |w| ==> IsPlain(w[i])
  }

  /** Characters that keep their special meaning after a backslash inside double quotes. */
  predicate EscapableInDouble(c: char) {
    c == '$' || c == '`' || c == '"' || c == '\\'
  }

  /** The word built so far, empty when none has started. */
  function Current(cur: Option<string>): string {
    if cur.Some? then cur.value else ""
  }

  function Append(cur: Option<string>, w: string): string {
    Current(cur) + w
  }

  function Prepend(w: string, rest: Option<seq<string>>): Option<seq<string>> {
    if rest.Some? then Some([w] + rest.value) else None
  }

  /**
   * Reads `s` in quoting state `q`; `cur` is the word being built (`None` between words).
   * Quote characters are removed; inside single quotes every character is literal; inside
   * double quotes a backslash escapes `$`, backquote, `"` and backslash and joins lines.
   */
  function Lex(s: string, q: Quoting, cur: Option<string>): Option<seq<string>>
    decreases |s|
  {
    if s == [] then
      if q != Unquoted then None
      else if cur.Some? then Some([cur.value]) else Some([])
    else
      var c := s[0];
      match q
      case InSingle =>
        if c == '\'' then Lex(s[1..], Unquoted, cur)
        else Lex(s[1..], InSingle, Some(Append(cur, [c])))
      case InDouble =>
        if c == '"' then Lex(s[1..], Unquoted, cur)
        else if c == '\\' && |s| >= 2 && EscapableInDouble(s[1]) then Lex(s[2..], InDouble, Some(Append(cur, [s[1]])))
        else if c == '\\' && |s| >= 2 && s[1] == '\n' then Lex(s[2..], InDouble, cur)
        else if c == '$' || c == '`' then None
        else Lex(s[1..], InDouble, Some(Append(cur, [c])))
      case Unquoted =>
        if c == '\'' then Lex(s[1..], InSingle, Some(Current(cur)))
        else if c == '"' then Lex(s[1..], InDouble, Some(Current(cur)))
        else if IsBlank(c) then
          if cur.Some? then Prepend(cur.value, Lex(s[1..], Unquoted, None)) else Lex(s[1..], Unquoted, None)
        else if IsPlain(c) then Lex(s[1..], Unquoted, Some(Append(cur, [c])))
        else None
  }

  /** The words of a command line after quote removal, or `None` outside the recognised subset. */
  function Words(line: string): Option<seq<string>> {
    Lex(line, Unquoted, None)
  }

  /** Unquoted plain characters extend the current word. */
  lemma {:induction false} LexPlainRun(w: string, rest: string, cur: Option<string>)
    requires forall i :: 0 <= i < |w| ==> IsPlain(w[i])
    ensures Lex(w + rest, Unquoted, cur) == if w == [] then Lex(rest, Unquoted, cur) else Lex(rest, Unquoted, Some(Append(cur, w)))
    decreases |w|
  {
    if w != [] {
      var s := w + rest;
      assert s[0] == w[0] && s[1..] == w[1..] + rest;
      assert IsPlain(s[0]) && s[0] != '\'' && s[0] != '"' && !IsBlank(s[0]);
      assert Lex(s, Unquoted, cur) == Lex(w[1..] + rest, Unquoted, Some(Append(cur, [w[0]])));
      LexPlainRun(w[1..], rest, Some(Append(cur, [w[0]])));
      assert Append(Some(Append(cur, [w[0]])), w[1..]) == Append(cur, w);
      if |w| == 1 {
        assert [w[0]] == w;
      }
    } else {
      assert w + rest == rest;
    }
  }

  /** A plain word followed by a blank is one complete word. */
  lemma LexPlainWord(w: string, rest: string)
    requires IsPlainWord(w)
    ensures Lex(w + " " + rest, Unquoted, None) == Prepend(w, Lex(rest, Unquoted, None))
  {
    var tail := " " + rest;
    LexPlainRun(w, tail, None);
    assert w + " " + rest == w + tail;
    assert tail[0] == ' ' && tail[1..] == rest;
    assert Append(None, w) == w;
    assert Lex(tail, Unquoted, Some(w)) == Prepend(w, Lex(rest, Unquoted, None));
  }
}

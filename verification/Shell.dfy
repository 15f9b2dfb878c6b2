/** Printing argument lists as shell text, and reading shell text back: token recognition with
    backslash and single-quote quoting as sections 2.2.1, 2.2.2 and 2.3 of the Shell Command
    Language of POSIX.1-2017 describe it. Text with other quoting or expansion characters outside
    quotes is not read at all. */
module Shell {
  import opened Common

  datatype Token = Word(text: string) | Op(text: string)

  const SANDBOX_DIR := "/sandbox"

  predicate IsBlank(c: char) { c == ' ' || c == '\t' }

  predicate IsOperatorChar(c: char) {
    c == '&' || c == '|' || c == ';' || c == '<' || c == '>' || c == '(' || c == ')' || c == '\n'
  }

  /** Characters that start an expansion or another kind of quoting when they are not quoted. */
  predicate IsSpecial(c: char) {
    c == '"' || c == '$' || c == '`' || c == '*' || c == '?' || c == '[' || c == '~' || c == '\0'
  }

  /** Two-character operators; a newline never combines. */
  predicate IsLongOperator(c: char, d: char) {
    || (c == '&' && d == '&') || (c == '|' && d == '|') || (c == ';' && d == ';')
    || (c == '<' && (d == '&' || d == '>')) || (c == '>' && (d == '>' || d == '&' || d == '|'))
  }

  /** Operators that are not read: a here-document, whose body is on the lines that follow, and one
      with a line continuation right behind it, over which it could combine. */
  predicate IsUnreadOperator(s: string) {
    || (|s| > 1 && s[0] == '<' && s[1] == '<')
    || (|s| > 2 && IsOperatorChar(s[0]) && s[1] == '\\' && s[2] == '\n')
  }

  function Flush(cur: Option<string>, acc: seq<Token>): seq<Token> {
    if cur.Some? then acc + [Word(cur.value)] else acc
  }

  function Text(cur: Option<string>): string {
    if cur.Some? then cur.value else ""
  }

  /** Outside quotes: `cur` is the word under construction, None between words. */
  function Lex(s: string, cur: Option<string>, acc: seq<Token>): Option<seq<Token>>
    decreases |s|, 0
  {
    if s == [] then Some(Flush(cur, acc))
    else if IsBlank(s[0]) then Lex(s[1..], None, Flush(cur, acc))
    else if s[0] == '\'' then LexQuoted(s[1..], Text(cur), acc)
    else if s[0] == '\\' then
      if |s| == 1 || s[1] == '\0' then None
      else if s[1] == '\n' then Lex(s[2..], cur, acc)
      else Lex(s[2..], Some(Text(cur) + [s[1]]), acc)
    else if IsUnreadOperator(s) then None
    else if IsOperatorChar(s[0]) then
      if |s| > 1 && IsLongOperator(s[0], s[1]) then Lex(s[2..], None, Flush(cur, acc) + [Op(s[..2])])
      else Lex(s[1..], None, Flush(cur, acc) + [Op(s[..1])])
    else if IsSpecial(s[0]) then None
    else if s[0] == '#' && cur.None? then LexComment(s[1..], acc)
    else Lex(s[1..], Some(Text(cur) + [s[0]]), acc)
  }

  /** Inside single quotes every character stands for itself, up to the next quote. */
  function LexQuoted(s: string, cur: string, acc: seq<Token>): Option<seq<Token>>
    decreases |s|, 0
  {
    if s == [] || s[0] == '\0' then None
    else if s[0] == '\'' then Lex(s[1..], Some(cur), acc)
    else LexQuoted(s[1..], cur + [s[0]], acc)
  }

  function LexComment(s: string, acc: seq<Token>): Option<seq<Token>>
    decreases |s|, 1
  {
    if s == [] then Some(acc)
    else if s[0] == '\0' then None
    else if s[0] == '\n' then Lex(s, None, acc)
    else LexComment(s[1..], acc)
  }

  function Tokenize(s: string): Option<seq<Token>> {
    Lex(s, None, [])
  }

  // ----- what the executor prints

  /** `a.replace(/'/g, "'\\''")`. */
  function Escape(a: string): string {
    if a == [] then []
    else (if a[0] == '\'' then "'\\''" else [a[0]]) + Escape(a[1..])
  }

  function Quote(a: string): string {
    "'" + Escape(a) + "'"
  }

  function Join(words: seq<string>): string {
    if words == [] then "" else if |words| == 1 then words[0] else words[0] + " " + Join(words[1..])
  }

  function QuoteAll(args: seq<string>): (quoted: seq<string>)
    ensures |quoted| == |args|
  {
    if args == [] then [] else [Quote(args[0])] + QuoteAll(args[1..])
  }

  function ShellRun(cmd: string, args: seq<string>): string {
    var safeArgs := Join(QuoteAll(args));
    "cd " + SANDBOX_DIR + " && " + if safeArgs != "" then cmd + " " + safeArgs else cmd
  }

  predicate HasDotDot(s: string) {
    exists i :: 0 <= i < |s| - 1 && s[i] == '.' && s[i + 1] == '.'
  }

  predicate PathRejected(filePath: string) {
    HasDotDot(filePath) || (filePath != "" && filePath[0] == '/')
  }

  function FsRead(filePath: string): Result<string> {
    if PathRejected(filePath) then Err("Path traversal or absolute path rejected")
    else Ok("cat '" + SANDBOX_DIR + "/" + filePath + "'")
  }

  function FsWrite(filePath: string, content: string): Result<string> {
    if PathRejected(filePath) then Err("Path traversal or absolute path rejected")
    else Ok("printf '%s' '" + Escape(content) + "' > '" + SANDBOX_DIR + "/" + filePath + "'")
  }

  // ----- reading it back

  predicate NoNul(s: string) {
    forall i :: 0 <= i < |s| ==> s[i] != '\0'
  }

  predicate Plain(c: char) {
    !IsBlank(c) && c != '\'' && c != '\\' && !IsOperatorChar(c) && !IsSpecial(c) && c != '#'
  }

  /** A command name that the shell reads as one word without quoting. */
  predicate PlainWord(cmd: string) {
    cmd != "" && forall i :: 0 <= i < |cmd| ==> Plain(cmd[i])
  }

  function Words(args: seq<string>): seq<Token> {
    if args == [] then [] else [Word(args[0])] + Words(args[1..])
  }

  lemma {:induction false} LexPlainChar(c: char, s: string, cur: Option<string>, acc: seq<Token>)
    requires Plain(c)
    ensures Lex([c] + s, cur, acc) == Lex(s, Some(Text(cur) + [c]), acc)
  {
    assert ([c] + s)[1..] == s;
  }

  lemma {:induction false} LexPlain(w: string, rest: string, cur: Option<string>, acc: seq<Token>)
    requires PlainWord(w)
    ensures Lex(w + rest, cur, acc) == Lex(rest, Some(Text(cur) + w), acc)
  {
    assert w + rest == [w[0]] + (w[1..] + rest);
    LexPlainChar(w[0], w[1..] + rest, cur, acc);
    if |w| == 1 {
      assert w[1..] + rest == rest && [w[0]] == w;
    } else {
      LexPlain(w[1..], rest, Some(Text(cur) + [w[0]]), acc);
      assert Text(cur) + [w[0]] + w[1..] == Text(cur) + w;
    }
  }

  lemma {:induction false} LexBlank(rest: string, cur: Option<string>, acc: seq<Token>)
    ensures Lex(" " + rest, cur, acc) == Lex(rest, None, Flush(cur, acc))
  {
    assert (" " + rest)[1..] == rest;
  }

  /** A plain word before a blank, or at the end, is a token. */
  lemma {:induction false} LexWord(w: string, rest: string, acc: seq<Token>)
    requires PlainWord(w)
    ensures Lex(w + (" " + rest), None, acc) == Lex(rest, None, acc + [Word(w)])
    ensures Lex(w, None, acc) == Some(acc + [Word(w)])
  {
    assert "" + w == w && w + "" == w;
    LexPlain(w, " " + rest, None, acc);
    LexBlank(rest, Some(w), acc);
    LexPlain(w, "", None, acc);
  }

  /** Close, escaped quote, open again. */
  lemma {:induction false} LexQuoteGap(more: string, cur: string, acc: seq<Token>)
    ensures LexQuoted("'\\''" + more, cur, acc) == LexQuoted(more, cur + ['\''], acc)
  {
    var s := "'\\''" + more;
    var s1, s2 := s[1..], s[3..];
    assert s1[0] == '\\' && s1[1] == '\'' && s1[2..] == s2;
    assert s2[0] == '\'' && s2[1..] == more;
    assert LexQuoted(s, cur, acc) == Lex(s1, Some(cur), acc);
    assert Lex(s1, Some(cur), acc) == Lex(s2, Some(cur + ['\'']), acc);
  }

  lemma {:induction false} EscapeHead(a: string, rest: string, cur: string, acc: seq<Token>)
    requires a != "" && a[0] != '\0'
    ensures LexQuoted(Escape(a) + rest, cur, acc) == LexQuoted(Escape(a[1..]) + rest, cur + [a[0]], acc)
  {
    var more := Escape(a[1..]) + rest;
    if a[0] == '\'' {
      assert Escape(a) + rest == "'\\''" + more;
      LexQuoteGap(more, cur, acc);
    } else {
      assert Escape(a) + rest == [a[0]] + more;
      assert ([a[0]] + more)[1..] == more;
    }
  }

  /** An escaped text, read inside quotes up to the closing quote, is the text; with a NUL in it
      nothing is read. */
  lemma {:induction false} LexEscaped(a: string, rest: string, cur: string, acc: seq<Token>)
    ensures LexQuoted(Escape(a) + "'" + rest, cur, acc) == if NoNul(a) then Lex(rest, Some(cur + a), acc) else None
  {
    assert Escape(a) + "'" + rest == Escape(a) + ("'" + rest);
    if a == "" {
      assert cur + a == cur;
    } else if a[0] == '\0' {
    } else {
      EscapeHead(a, "'" + rest, cur, acc);
      LexEscaped(a[1..], rest, cur + [a[0]], acc);
      assert Escape(a[1..]) + "'" + rest == Escape(a[1..]) + ("'" + rest);
      assert cur + [a[0]] + a[1..] == cur + a;
      assert NoNul(a) <==> NoNul(a[1..]) by { assert a == [a[0]] + a[1..]; }
    }
  }

  lemma {:induction false} LexQuote(a: string, rest: string, cur: Option<string>, acc: seq<Token>)
    ensures Lex(Quote(a) + rest, cur, acc) == if NoNul(a) then Lex(rest, Some(Text(cur) + a), acc) else None
  {
    assert Quote(a) + rest == "'" + (Escape(a) + "'" + rest);
    LexEscaped(a, rest, Text(cur), acc);
  }

  lemma {:induction false} LexArg(a: string, more: string, acc: seq<Token>)
    ensures Lex(Quote(a), None, acc) == if NoNul(a) then Some(acc + [Word(a)]) else None
    ensures Lex(Quote(a) + (" " + more), None, acc) == if NoNul(a) then Lex(more, None, acc + [Word(a)]) else None
  {
    assert "" + a == a;
    LexQuote(a, "", None, acc);
    assert Quote(a) + "" == Quote(a);
    LexQuote(a, " " + more, None, acc);
    LexBlank(more, Some(a), acc);
  }
}

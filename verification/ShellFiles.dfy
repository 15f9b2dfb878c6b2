/** The texts of `fs_read` and `fs_write`: quoted content, and a path that is put between quotes as
    it is. */
module ShellFiles {
  import opened Common
  import opened Shell

  /** Characters of a token list: what lexing can at most bring out of a text. */
  function Size(ts: seq<Token>): nat {
    if ts == [] then 0 else |ts[0].text| + Size(ts[1..])
  }

  lemma {:induction false} SizeConcat(s: seq<Token>, t: seq<Token>)
    ensures Size(s + t) == Size(s) + Size(t)
  {
    if s == [] {
      assert s + t == t;
    } else {
      assert (s + t)[1..] == s[1..] + t;
      SizeConcat(s[1..], t);
    }
  }

  lemma {:induction false} FlushSize(cur: Option<string>, acc: seq<Token>)
    ensures Size(Flush(cur, acc)) == Size(acc) + |Text(cur)|
  {
    if cur.Some? { SizeConcat(acc, [Word(cur.value)]); }
  }

  predicate HasQuote(s: string) { exists i :: 0 <= i < |s| && s[i] == '\'' }

  /** Lexing loses every quote that is not itself escaped, and an escaped one costs its backslash. */
  lemma {:induction false} LexShrinks(s: string, cur: Option<string>, acc: seq<Token>)
    ensures var ts := Lex(s, cur, acc);
            ts.Some? ==> Size(ts.value) <= Size(acc) + |Text(cur)| + |s| - if HasQuote(s) then 1 else 0
    decreases |s|, 0
  {
    FlushSize(cur, acc);
    if s != [] {
      assert s == [s[0]] + s[1..];
      if IsBlank(s[0]) {
        LexShrinks(s[1..], None, Flush(cur, acc));
      } else if s[0] == '\'' {
        LexQuotedShrinks(s[1..], Text(cur), acc);
      } else if s[0] == '\\' {
        if |s| > 1 && s[1] == '\n' {
          assert s[1..][1..] == s[2..];
          LexShrinks(s[2..], cur, acc);
        } else if |s| > 1 {
          LexShrinks(s[2..], Some(Text(cur) + [s[1]]), acc);
        }
      } else if IsUnreadOperator(s) {
      } else if IsOperatorChar(s[0]) {
        var n := if |s| > 1 && IsLongOperator(s[0], s[1]) then 2 else 1;
        SizeConcat(Flush(cur, acc), [Op(s[..n])]);
        LexShrinks(s[n..], None, Flush(cur, acc) + [Op(s[..n])]);
      } else if s[0] == '#' && cur.None? {
        LexCommentShrinks(s[1..], acc);
      } else {
        LexShrinks(s[1..], Some(Text(cur) + [s[0]]), acc);
      }
    }
  }

  lemma {:induction false} LexQuotedShrinks(s: string, cur: string, acc: seq<Token>)
    ensures var ts := LexQuoted(s, cur, acc);
            ts.Some? ==> Size(ts.value) <= Size(acc) + |cur| + |s| - 1
    decreases |s|, 0
  {
    if s != [] {
      if s[0] == '\'' {
        LexShrinks(s[1..], Some(cur), acc);
      } else {
        LexQuotedShrinks(s[1..], cur + [s[0]], acc);
      }
    }
  }

  lemma {:induction false} LexCommentShrinks(s: string, acc: seq<Token>)
    ensures var ts := LexComment(s, acc); ts.Some? ==> Size(ts.value) <= Size(acc) + |s|
    decreases |s|, 1
  {
    if s != [] {
      if s[0] == '\n' {
        LexShrinks(s, None, acc);
      } else {
        LexCommentShrinks(s[1..], acc);
      }
    }
  }

  /** The text up to the redirection target, for the write script. */
  lemma {:induction false} LexPrintf(content: string, target: string)
    ensures Tokenize("printf '%s' '" + Escape(content) + "' > '" + target + "'") ==
              if NoNul(content)
              then LexQuoted(target + "'", "", [Word("printf"), Word("%s"), Word(content), Op(">")])
              else None
  {
    var acc := [Word("printf"), Word("%s")];
    var tail := "> '" + target + "'";
    PrintfText(Escape(content), target);
    LexFormat(Quote(content) + (" " + tail));
    LexArg(content, tail, acc);
    assert acc + [Word(content)] == [Word("printf"), Word("%s"), Word(content)];
    LexRedirect(target, acc + [Word(content)]);
    assert acc + [Word(content)] + [Op(">")] == [Word("printf"), Word("%s"), Word(content), Op(">")];
  }

  lemma {:induction false} LexFormat(rest: string)
    ensures Lex("printf" + (" " + ("'%s'" + (" " + rest))), None, []) == Lex(rest, None, [Word("printf"), Word("%s")])
  {
    PrintfIsPlain();
    LexWord("printf", "'%s'" + (" " + rest), []);
    assert [] + [Word("printf")] == [Word("printf")];
    LexFormatWord(rest);
  }

  lemma {:induction false} PrintfIsPlain()
    ensures PlainWord("printf")
  {
  }

  lemma {:induction false} LexFormatWord(rest: string)
    ensures Lex("'%s'" + (" " + rest), None, [Word("printf")]) == Lex(rest, None, [Word("printf"), Word("%s")])
  {
    QuotedFormat();
    LexArg("%s", rest, [Word("printf")]);
    assert [Word("printf")] + [Word("%s")] == [Word("printf"), Word("%s")];
  }

  lemma {:induction false} PrintfText(escaped: string, target: string)
    ensures "printf '%s' '" + escaped + "' > '" + target + "'"
         == "printf" + (" " + ("'%s'" + (" " + (("'" + escaped + "'") + (" " + ("> '" + target + "'"))))))
  {
    var tail := " > '" + target + "'";
    assert "' > '" + target + "'" == "'" + tail;
    assert tail == " " + ("> '" + target + "'");
    assert "printf '%s' '" == "printf" + " " + "'%s'" + " " + "'";
  }

  lemma {:induction false} CatText(target: string)
    ensures "cat '" + target + "'" == "cat" + (" " + ("'" + (target + "'")))
  {
  }

  lemma {:induction false} QuotedFormat()
    ensures Quote("%s") == "'%s'" && NoNul("%s")
  {
    assert Escape("%s") == ['%'] + Escape("s") by { assert "%s"[1..] == "s"; }
    assert Escape("s") == "s" + Escape("") by { assert "s"[1..] == ""; }
  }

  lemma {:induction false} LexOpenQuote(rest: string, acc: seq<Token>)
    ensures Lex("'" + rest, None, acc) == LexQuoted(rest, "", acc)
  {
    assert ("'" + rest)[1..] == rest;
  }

  lemma {:induction false} LexRedirect(target: string, acc: seq<Token>)
    ensures Lex("> '" + target + "'", None, acc) == LexQuoted(target + "'", "", acc + [Op(">")])
  {
    var s := "> '" + target + "'";
    assert s[..1] == ">" && s[1..] == " " + ("'" + (target + "'"));
    LexBlank("'" + (target + "'"), None, acc + [Op(">")]);
    assert ("'" + (target + "'"))[1..] == target + "'";
  }

  /** A path between quotes comes back as one word exactly when it holds no quote and no NUL. */
  lemma {:induction false} LexPath(path: string, cur: string, acc: seq<Token>)
    ensures LexQuoted(path + "'", cur, acc) == Some(acc + [Word(cur + path)]) <==> NoNul(path) && !HasQuote(path)
  {
    if path == "" {
      assert path + "'" == "'" && cur + path == cur;
      assert ("'")[1..] == "";
    } else {
      assert path == [path[0]] + path[1..];
      assert (path + "'")[1..] == path[1..] + "'";
      if path[0] == '\'' {
        var rest := path[1..] + "'";
        assert rest[|rest| - 1] == '\'' && HasQuote(rest);
        LexShrinks(rest, Some(cur), acc);
        SizeConcat(acc, [Word(cur + path)]);
        assert HasQuote(path);
      } else if path[0] == '\0' {
      } else {
        LexPath(path[1..], cur + [path[0]], acc);
        assert cur + [path[0]] + path[1..] == cur + path;
        assert HasQuote(path) <==> HasQuote(path[1..]);
        assert NoNul(path) <==> NoNul(path[1..]);
      }
    }
  }

  /** Which paths are refused, by both tools: those with ".." anywhere in them, and absolute ones. */
  lemma RejectedPaths(filePath: string, content: string)
    ensures FsRead(filePath).Err? <==>
            || (exists before: string, after: string :: filePath == before + (".." + after))
            || (exists rest: string :: filePath == "/" + rest)
    ensures FsWrite(filePath, content).Err? <==> FsRead(filePath).Err?
  {
    if HasDotDot(filePath) {
      var i :| 0 <= i < |filePath| - 1 && filePath[i] == '.' && filePath[i + 1] == '.';
      assert filePath == filePath[..i] + (".." + filePath[i + 2..]);
    }
    if filePath != "" && filePath[0] == '/' {
      assert filePath == "/" + filePath[1..];
    }
    if before: string, after: string :| filePath == before + (".." + after) {
      assert filePath[|before|] == '.' && filePath[|before| + 1] == '.';
    }
  }

  function WriteTokens(filePath: string, content: string): seq<Token> {
    [Word("printf"), Word("%s"), Word(content), Op(">"), Word(SANDBOX_DIR + "/" + filePath)]
  }

  /** The write script prints exactly the content to exactly the file, if and only if the path has
      no quote in it and neither holds a NUL: the path is the one text that is not escaped. */
  lemma {:induction false} FsWriteRoundTrip(filePath: string, content: string)
    requires FsWrite(filePath, content).Ok?
    ensures Tokenize(FsWrite(filePath, content).value) == Some(WriteTokens(filePath, content))
            <==> !HasQuote(filePath) && NoNul(filePath) && NoNul(content)
  {
    var target := SANDBOX_DIR + "/" + filePath;
    var acc := [Word("printf"), Word("%s"), Word(content), Op(">")];
    LexPrintf(content, target);
    assert "printf '%s' '" + Escape(content) + "' > '" + SANDBOX_DIR + "/" + filePath + "'"
        == "printf '%s' '" + Escape(content) + "' > '" + target + "'";
    LexPath(target, "", acc);
    assert "" + target == target && acc + [Word(target)] == WriteTokens(filePath, content);
    AfterDir(filePath);
  }

  lemma {:induction false} FsReadRoundTrip(filePath: string)
    requires FsRead(filePath).Ok?
    ensures Tokenize(FsRead(filePath).value) == Some([Word("cat"), Word(SANDBOX_DIR + "/" + filePath)])
            <==> !HasQuote(filePath) && NoNul(filePath)
  {
    var target := SANDBOX_DIR + "/" + filePath;
    assert FsRead(filePath).value == "cat '" + target + "'";
    CatText(target);
    LexCat(target);
    LexPath(target, "", [Word("cat")]);
    assert "" + target == target && [Word("cat")] + [Word(target)] == [Word("cat"), Word(target)];
    AfterDir(filePath);
  }

  lemma {:induction false} LexCat(target: string)
    ensures Tokenize("cat" + (" " + ("'" + (target + "'")))) == LexQuoted(target + "'", "", [Word("cat")])
  {
    LexWord("cat", "'" + (target + "'"), []);
    assert [] + [Word("cat")] == [Word("cat")];
    LexOpenQuote(target + "'", [Word("cat")]);
  }

  /** Text between quotes ends at the first quote, wherever it was meant to end. */
  lemma {:induction false} LexUpToQuote(w: string, rest: string, cur: string, acc: seq<Token>)
    requires !HasQuote(w) && NoNul(w)
    ensures LexQuoted(w + ("'" + rest), cur, acc) == Lex(rest, Some(cur + w), acc)
  {
    var s := w + ("'" + rest);
    if w == "" {
      assert s[0] == '\'' && s[1..] == rest && cur + w == cur;
    } else {
      assert s[0] == w[0] && s[1..] == w[1..] + ("'" + rest);
      assert w == [w[0]] + w[1..];
      LexUpToQuote(w[1..], rest, cur + [w[0]], acc);
      assert cur + [w[0]] + w[1..] == cur + w;
    }
  }

  /** Two quotes in a path vanish: the file that is read is a different one. */
  lemma {:induction false} QuotedMiddleIsLost(before: string, middle: string, after: string)
    requires !HasQuote(before) && NoNul(before) && PlainWord(middle) && !HasQuote(after) && NoNul(after)
    requires FsRead(before + "'" + middle + "'" + after).Ok?
    ensures Tokenize(FsRead(before + "'" + middle + "'" + after).value)
         == Some([Word("cat"), Word(SANDBOX_DIR + "/" + before + middle + after)])
  {
    var path := before + "'" + middle + "'" + after;
    var start := SANDBOX_DIR + "/" + before;
    var target := SANDBOX_DIR + "/" + path;
    var acc := [Word("cat")];
    assert FsRead(path).value == "cat '" + target + "'";
    CatText(target);
    LexCat(target);
    AfterDir(before);
    var rest2 := after + "'";
    assert target + "'" == start + ("'" + (middle + ("'" + rest2)));
    LexUpToQuote(start, middle + ("'" + rest2), "", acc);
    assert "" + start == start;
    LexPlain(middle, "'" + rest2, Some(start), acc);
    assert ("'" + rest2)[1..] == rest2;
    LexPath(after, start + middle, acc);
    assert start + middle + after == SANDBOX_DIR + "/" + before + middle + after;
    assert acc + [Word(start + middle + after)] == [Word("cat"), Word(start + middle + after)];
  }

  /** At a concrete path, which the executor accepts: the file a'b'c is asked for, abc is read. */
  lemma {:induction false} QuotedPathMisread()
    ensures FsRead("a'b'c").Ok?
    ensures Tokenize(FsRead("a'b'c").value) == Some([Word("cat"), Word("/sandbox/abc")])
  {
    var path := "a'b'c";
    assert path == "a" + "'" + "b" + "'" + "c";
    assert !HasDotDot(path);
    QuotedMiddleIsLost("a", "b", "c");
    assert SANDBOX_DIR + "/" + "a" + "b" + "c" == "/sandbox/abc";
  }

  lemma {:induction false} AfterDir(filePath: string)
    ensures HasQuote(SANDBOX_DIR + "/" + filePath) <==> HasQuote(filePath)
    ensures NoNul(SANDBOX_DIR + "/" + filePath) <==> NoNul(filePath)
  {
    var dir := SANDBOX_DIR + "/";
    var s := dir + filePath;
    assert forall i :: 0 <= i < |filePath| ==> s[|dir| + i] == filePath[i];
    assert forall i :: 0 <= i < |dir| ==> s[i] == dir[i] && dir[i] != '\'' && dir[i] != '\0';
    assert forall i :: |dir| <= i < |s| ==> s[i] == filePath[i - |dir|];
  }
}

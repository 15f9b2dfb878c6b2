/** The text of a `shell_run`: any command in front of quoted arguments. */
module ShellCommands {
  import opened Common
  import opened Shell

  lemma {:induction false} JoinCons(args: seq<string>)
    requires args != []
    ensures Join(QuoteAll(args)) ==
              if |args| == 1 then Quote(args[0]) else Quote(args[0]) + (" " + Join(QuoteAll(args[1..])))
  {
    var words := QuoteAll(args);
    JoinStep(words);
    assert words[0] == Quote(args[0]) && words[1..] == QuoteAll(args[1..]);
  }

  lemma {:induction false} JoinStep(words: seq<string>)
    requires words != []
    ensures Join(words) == if |words| == 1 then words[0] else words[0] + (" " + Join(words[1..]))
  {
    if |words| > 1 {
      var tail := Join(words[1..]);
      assert words[0] + " " + tail == words[0] + (" " + tail);
    }
  }

  predicate AllNoNul(args: seq<string>) {
    forall i :: 0 <= i < |args| ==> NoNul(args[i])
  }

  lemma {:induction false} LexArgs(args: seq<string>, acc: seq<Token>)
    ensures Lex(Join(QuoteAll(args)), None, acc) == if AllNoNul(args) then Some(acc + Words(args)) else None
  {
    if args == [] {
      assert acc + [] == acc;
    } else {
      var more := args[1..];
      JoinCons(args);
      LexArg(args[0], Join(QuoteAll(more)), acc);
      assert args == [args[0]] + more;
      assert AllNoNul(args) <==> NoNul(args[0]) && AllNoNul(more);
      assert acc + [Word(args[0])] + Words(more) == acc + Words(args);
      if |args| > 1 {
        LexArgs(more, acc + [Word(args[0])]);
      } else {
        assert more == [] && Words(args) == [Word(args[0])];
      }
    }
  }

  lemma {:induction false} JoinEmpty(args: seq<string>)
    ensures Join(QuoteAll(args)) == "" <==> args == []
  {
    if args != [] {
      assert |Quote(args[0])| >= 2;
    }
  }

  lemma {:induction false} LexAndIf(rest: string, acc: seq<Token>)
    ensures Lex("&& " + rest, None, acc) == Lex(rest, None, acc + [Op("&&")])
  {
    assert ("&& " + rest)[2..] == " " + rest;
    assert ("&& " + rest)[..2] == "&&";
    LexBlank(rest, None, acc + [Op("&&")]);
  }

  const CD: seq<Token> := [Word("cd"), Word(SANDBOX_DIR), Op("&&")]

  lemma {:induction false} LexPrefix(rest: string)
    ensures Tokenize("cd " + SANDBOX_DIR + " && " + rest) == Lex(rest, None, CD)
  {
    var tail := "&& " + rest;
    PrefixText(rest);
    LexWord("cd", SANDBOX_DIR + (" " + tail), []);
    assert [] + [Word("cd")] == [Word("cd")];
    SandboxDirIsPlain();
    LexDirectory(SANDBOX_DIR, rest, [Word("cd")]);
    assert [Word("cd")] + [Word(SANDBOX_DIR)] + [Op("&&")] == CD;
  }

  lemma {:induction false} SandboxDirIsPlain()
    ensures PlainWord(SANDBOX_DIR) && PlainWord("cd")
  {
  }

  lemma {:induction false} PrefixText(rest: string)
    ensures "cd " + SANDBOX_DIR + " && " + rest == "cd" + (" " + (SANDBOX_DIR + (" " + ("&& " + rest))))
  {
  }

  lemma {:induction false} LexDirectory(dir: string, rest: string, acc: seq<Token>)
    requires PlainWord(dir)
    ensures Lex(dir + (" " + ("&& " + rest)), None, acc) == Lex(rest, None, acc + [Word(dir)] + [Op("&&")])
  {
    LexWord(dir, "&& " + rest, acc);
    LexAndIf(rest, acc + [Word(dir)]);
  }

  // ----- any command in front of the arguments

  /** What was read before stays in front of what is read now. */
  lemma {:induction false} LexAfter(before: seq<Token>, s: string, cur: Option<string>, acc: seq<Token>)
    ensures Lex(s, cur, before + acc) == Prefixed(before, Lex(s, cur, acc))
    decreases |s|, 0
  {
    assert before + Flush(cur, acc) == Flush(cur, before + acc) by {
      if cur.Some? { assert before + (acc + [Word(cur.value)]) == before + acc + [Word(cur.value)]; }
    }
    if s == [] {
    } else if IsBlank(s[0]) {
      LexAfter(before, s[1..], None, Flush(cur, acc));
    } else if s[0] == '\'' {
      LexQuotedAfter(before, s[1..], Text(cur), acc);
    } else if s[0] == '\\' {
      if |s| > 1 && s[1] == '\n' {
        LexAfter(before, s[2..], cur, acc);
      } else if |s| > 1 {
        LexAfter(before, s[2..], Some(Text(cur) + [s[1]]), acc);
      }
    } else if IsUnreadOperator(s) {
    } else if IsOperatorChar(s[0]) {
      var n := if |s| > 1 && IsLongOperator(s[0], s[1]) then 2 else 1;
      assert before + (Flush(cur, acc) + [Op(s[..n])]) == Flush(cur, before + acc) + [Op(s[..n])];
      LexAfter(before, s[n..], None, Flush(cur, acc) + [Op(s[..n])]);
    } else if s[0] == '#' && cur.None? {
      LexCommentAfter(before, s[1..], acc);
    } else {
      LexAfter(before, s[1..], Some(Text(cur) + [s[0]]), acc);
    }
  }

  function Prefixed(before: seq<Token>, ts: Option<seq<Token>>): Option<seq<Token>> {
    if ts.Some? then Some(before + ts.value) else None
  }

  lemma {:induction false} LexQuotedAfter(before: seq<Token>, s: string, cur: string, acc: seq<Token>)
    ensures LexQuoted(s, cur, before + acc) == Prefixed(before, LexQuoted(s, cur, acc))
    decreases |s|, 0
  {
    if s != [] && s[0] != '\0' {
      if s[0] == '\'' {
        LexAfter(before, s[1..], Some(cur), acc);
      } else {
        LexQuotedAfter(before, s[1..], cur + [s[0]], acc);
      }
    }
  }

  lemma {:induction false} LexCommentAfter(before: seq<Token>, s: string, acc: seq<Token>)
    ensures LexComment(s, before + acc) == Prefixed(before, LexComment(s, acc))
    decreases |s|, 1
  {
    if s != [] && s[0] != '\0' {
      if s[0] == '\n' {
        LexAfter(before, s, None, acc);
      } else {
        LexCommentAfter(before, s[1..], acc);
      }
    }
  }

  /** A text after which the shell is still inside a comment. */
  predicate EndsInComment(s: string, inWord: bool)
    decreases |s|, 0
  {
    if s == [] then false
    else if IsBlank(s[0]) then EndsInComment(s[1..], false)
    else if s[0] == '\'' then EndsAfterQuote(s[1..])
    else if s[0] == '\\' then |s| > 1 && EndsInComment(s[2..], if s[1] == '\n' then inWord else true)
    else if IsOperatorChar(s[0]) then
      EndsInComment(s[if |s| > 1 && IsLongOperator(s[0], s[1]) then 2 else 1..], false)
    else if s[0] == '#' && !inWord then CommentRunsOn(s[1..])
    else EndsInComment(s[1..], true)
  }

  predicate EndsAfterQuote(s: string)
    decreases |s|, 0
  {
    s != [] && if s[0] == '\'' then EndsInComment(s[1..], true) else EndsAfterQuote(s[1..])
  }

  predicate CommentRunsOn(s: string)
    decreases |s|, 1
  {
    s == [] || if s[0] == '\n' then EndsInComment(s, false) else CommentRunsOn(s[1..])
  }

  /** After a text that is complete in itself, a blank starts afresh; after one that ends in a
      comment, everything up to a newline belongs to the comment. */
  lemma {:induction false} LexThen(s: string, t: string, cur: Option<string>, acc: seq<Token>)
    requires Lex(s, cur, acc).Some?
    ensures var ts := Lex(s, cur, acc).value;
            Lex(s + (" " + t), cur, acc) ==
              if EndsInComment(s, cur.Some?) then LexComment(" " + t, ts) else Lex(t, None, ts)
    decreases |s|, 1
  {
    var u := " " + t;
    if s == [] {
      assert s + u == u;
      LexBlank(t, cur, acc);
    } else {
      assert (s + u)[0] == s[0] && (s + u)[1..] == s[1..] + u;
      if IsBlank(s[0]) {
        LexThen(s[1..], t, None, Flush(cur, acc));
      } else if s[0] == '\'' {
        LexQuotedThen(s[1..], t, Text(cur), acc);
      } else if s[0] == '\\' {
        assert (s + u)[1] == s[1] && (s + u)[2..] == s[2..] + u;
        LexThen(s[2..], t, if s[1] == '\n' then cur else Some(Text(cur) + [s[1]]), acc);
      } else if IsOperatorChar(s[0]) {
        LexOperatorThen(s, t, cur, acc);
      } else if s[0] == '#' && cur.None? {
        LexCommentThen(s[1..], t, acc);
      } else {
        LexThen(s[1..], t, Some(Text(cur) + [s[0]]), acc);
      }
    }
  }

  lemma {:induction false} LexOperatorThen(s: string, t: string, cur: Option<string>, acc: seq<Token>)
    requires s != [] && IsOperatorChar(s[0]) && Lex(s, cur, acc).Some?
    ensures var ts := Lex(s, cur, acc).value;
            Lex(s + (" " + t), cur, acc) ==
              if EndsInComment(s, cur.Some?) then LexComment(" " + t, ts) else Lex(t, None, ts)
    decreases |s|, 0
  {
    var u := " " + t;
    var n := if |s| > 1 && IsLongOperator(s[0], s[1]) then 2 else 1;
    assert (s + u)[0] == s[0] && (s + u)[1] == if |s| > 1 then s[1] else ' ';
    assert (s + u)[..n] == s[..n] && (s + u)[n..] == s[n..] + u;
    LexThen(s[n..], t, None, Flush(cur, acc) + [Op(s[..n])]);
  }

  lemma {:induction false} LexQuotedThen(s: string, t: string, cur: string, acc: seq<Token>)
    requires LexQuoted(s, cur, acc).Some?
    ensures var ts := LexQuoted(s, cur, acc).value;
            LexQuoted(s + (" " + t), cur, acc) ==
              if EndsAfterQuote(s) then LexComment(" " + t, ts) else Lex(t, None, ts)
    decreases |s|, 0
  {
    var u := " " + t;
    assert (s + u)[0] == s[0] && (s + u)[1..] == s[1..] + u;
    if s[0] == '\'' {
      LexThen(s[1..], t, Some(cur), acc);
    } else {
      LexQuotedThen(s[1..], t, cur + [s[0]], acc);
    }
  }

  lemma {:induction false} LexCommentThen(s: string, t: string, acc: seq<Token>)
    requires LexComment(s, acc).Some?
    ensures var ts := LexComment(s, acc).value;
            LexComment(s + (" " + t), acc) ==
              if CommentRunsOn(s) then LexComment(" " + t, ts) else Lex(t, None, ts)
    decreases |s|, 2
  {
    var u := " " + t;
    if s == [] {
      assert s + u == u;
    } else {
      assert (s + u)[0] == s[0] && (s + u)[1..] == s[1..] + u;
      if s[0] == '\n' {
        LexThen(s, t, None, acc);
      } else {
        LexCommentThen(s[1..], t, acc);
      }
    }
  }

  /** What follows a comment starts with a newline, if anything does. */
  lemma {:induction false} NoWordAfterComment(s: string, acc: seq<Token>)
    ensures var ts := LexComment(s, acc);
            ts.Some? ==> ts.value == acc || (|ts.value| > |acc| && ts.value[|acc|] == Op("\n"))
  {
    if s != [] && s[0] != '\0' {
      if s[0] == '\n' {
        assert s[..1] == "\n";
        assert acc + [Op("\n")] == acc + [Op("\n")] + [];
        LexAfter(acc + [Op("\n")], s[1..], None, []);
      } else {
        NoWordAfterComment(s[1..], acc);
      }
    }
  }

  /** The round trip, for every command text the tokenizer reads: the shell reads back the command as
      it stands alone and then exactly the arguments, empty ones and the empty list included, if and
      only if no argument holds a NUL and the command does not end in a comment, which would swallow
      them. */
  lemma {:induction false} ShellRunRoundTrip(cmd: string, args: seq<string>)
    requires Tokenize(cmd).Some?
    ensures Tokenize(ShellRun(cmd, args)) == Some(CD + Tokenize(cmd).value + Words(args))
            <==> AllNoNul(args) && (args == [] || !EndsInComment(cmd, false))
    ensures !AllNoNul(args) && !EndsInComment(cmd, false) ==> Tokenize(ShellRun(cmd, args)).None?
  {
    var ts, quoted := Tokenize(cmd).value, Join(QuoteAll(args));
    JoinEmpty(args);
    assert CD + [] == CD;
    LexAfter(CD, cmd, None, []);
    if args == [] {
      LexPrefix(cmd);
      assert CD + ts + Words(args) == CD + ts;
    } else {
      assert cmd + " " + quoted == cmd + (" " + quoted);
      LexPrefix(cmd + (" " + quoted));
      LexThen(cmd, quoted, None, CD);
      if EndsInComment(cmd, false) {
        NoWordAfterComment(" " + quoted, CD + ts);
        assert (CD + ts + Words(args))[|CD + ts|] == Word(args[0]);
      } else {
        LexArgs(args, CD + ts);
      }
    }
  }

  /** A here-document is not: its body would be the lines that follow, the arguments among them. */
  lemma {:induction false} HereDocumentIsNotRead(word: string, rest: string)
    requires PlainWord(word)
    ensures Tokenize(word + (" " + ("<<" + rest))).None?
  {
    LexWord(word, "<<" + rest, []);
  }

  /** A plain word is such a command. */
  lemma {:induction false} PlainWordIsCommand(cmd: string)
    requires PlainWord(cmd)
    ensures Tokenize(cmd) == Some([Word(cmd)]) && !EndsInComment(cmd, false)
  {
    LexWord(cmd, "", []);
    assert [] + [Word(cmd)] == [Word(cmd)];
    assert !EndsInComment(cmd[1..], true) by { PlainNeverComments(cmd[1..]); }
  }

  lemma {:induction false} PlainNeverComments(s: string)
    requires forall i :: 0 <= i < |s| ==> Plain(s[i])
    ensures !EndsInComment(s, true)
  {
    if s != [] { PlainNeverComments(s[1..]); }
  }
}

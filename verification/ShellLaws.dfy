/** What each character of a command line does, said over the words and commands
    collected so far. */
module ShellLaws {
  import opened ShellLexer

  // ----------------------------------------------------- what a character may do

  /** One more letter of the word at hand. */
  ghost function WithLetter(l: State, c: char): State {
    State(l.cmds, l.words, l.tok + [c], true, l.pending)
  }

  /** The word at hand, if there is one, is finished; quotes alone make an empty one. */
  ghost function WordDone(l: State): State {
    State(l.cmds, if l.inTok then l.words + [l.tok] else l.words, "", false, l.pending)
  }

  /** The words without their outer parentheses are the next command, if any is left
      and there is room for it among the 32. */
  ghost function CommandDone(l: State): State {
    var words := TrimParens(if l.inTok then l.words + [l.tok] else l.words);
    State(if words != [] && |l.cmds| < 32 then l.cmds + [words] else l.cmds, [], "", false, l.pending)
  }

  ghost predicate Reads(src: string, i: nat, l: State, quote: Quote, c: char) {
    i < |src| && src[i] == c && |l.cmds| < 32
  }

  /** A line end stands here, or the text is over. */
  ghost predicate LineEndAt(src: string, j: nat) {
    j <= |src| && (j < |src| ==> src[j] == '\n')
  }

  /** Outside quotes a blank finishes the word. */
  lemma BlankEndsWord(src: string, i: nat, l: State, c: char)
    requires Reads(src, i, l, NoQuote, c) && c in " \t\r"
    ensures Run(src, i, l, NoQuote) == Run(src, i + 1, WordDone(l), NoQuote)
  {
    hide EndCommand, ReadHeredoc, SkipBodies, Redirects;
  }

  /** Outside quotes a pipe or a semicolon finishes the command. */
  lemma OperatorEndsCommand(src: string, i: nat, l: State, c: char)
    requires Reads(src, i, l, NoQuote, c) && c in "|;"
    ensures Run(src, i, l, NoQuote) == Run(src, i + 1, CommandDone(l), NoQuote)
  {
    hide ReadHeredoc, SkipBodies, Redirects, TrimParens;
  }

  /** So does an ampersand, unless a redirection sign stands before it or a > after it;
      then it is a letter. */
  lemma AmpersandEndsCommand(src: string, i: nat, l: State)
    requires Reads(src, i, l, NoQuote, '&')
    ensures var redirects := (i > 0 && src[i - 1] in "<>") || (i + 1 < |src| && src[i + 1] == '>');
            Run(src, i, l, NoQuote) == Run(src, i + 1, if redirects then WithLetter(l, '&') else CommandDone(l), NoQuote)
  {
    hide ReadHeredoc, SkipBodies, TrimParens;
  }

  /** A line end finishes the command and goes past the bodies of the heredocs the
      line opened. */
  lemma LineEndEndsCommand(src: string, i: nat, l: State)
    requires Reads(src, i, l, NoQuote, '\n')
    ensures var j := SkipBodies(src, i + 1, l.pending);
            var done := CommandDone(l);
            Run(src, i, l, NoQuote) ==
            Run(src, if j < |src| then j else |src|, State(done.cmds, done.words, done.tok, done.inTok, []), NoQuote)
  {
    hide ReadHeredoc, SkipBodies, Redirects, TrimParens;
  }

  /** Where no word has begun, # hides the rest of the line; inside a word it is a
      letter. */
  lemma HashHidesLine(src: string, i: nat, l: State, j: nat)
    requires Reads(src, i, l, NoQuote, '#')
    requires i < j && LineEndAt(src, j) && forall k :: i < k < j ==> src[k] != '\n'
    ensures Run(src, i, l, NoQuote) == if l.inTok then Run(src, i + 1, WithLetter(l, '#'), NoQuote) else Run(src, j, l, NoQuote)
  {
    hide EndCommand, EndToken, ReadHeredoc, SkipBodies, Redirects, At;
    assert FindFrom(src, i + 1, '\n') == j;
    SignsAt(src, i, 2);
    SignsAt(src, i, 3);
  }

  /** Outside single quotes a backslash makes a letter of whatever follows it, and
      joins two lines; at the end of the text it is dropped. */
  lemma BackslashTakesNext(src: string, i: nat, l: State, quote: Quote)
    requires Reads(src, i, l, quote, '\\') && quote != Single
    ensures Run(src, i, l, quote) ==
            Run(src, i + 2, if i + 1 < |src| && src[i + 1] != '\n' then WithLetter(l, src[i + 1]) else l, quote)
  {
    hide EndCommand, EndToken, ReadHeredoc, SkipBodies, Redirects;
  }

  /** A quote begins a word, if none has begun, and is no letter of it. */
  lemma QuoteOpens(src: string, i: nat, l: State, c: char)
    requires Reads(src, i, l, NoQuote, c) && c in "'\""
    ensures Run(src, i, l, NoQuote) ==
            Run(src, i + 1, State(l.cmds, l.words, l.tok, true, l.pending), if c == '"' then Double else Single)
  {
    hide EndCommand, EndToken, ReadHeredoc, SkipBodies, Redirects;
  }

  /** Inside quotes every character but the closing one is a letter; inside double
      quotes a backslash is not. */
  lemma QuoteHolds(src: string, i: nat, l: State, quote: Quote, c: char)
    requires Reads(src, i, l, quote, c) && quote != NoQuote && (quote == Double ==> c != '\\')
    ensures Run(src, i, l, quote) ==
            if c == (if quote == Double then '"' else '\'') then Run(src, i + 1, l, NoQuote)
            else Run(src, i + 1, WithLetter(l, c), quote)
  {
    hide EndCommand, EndToken, ReadHeredoc, SkipBodies, Redirects;
  }

  lemma SignsAt(src: string, i: nat, n: nat)
    requires i < |src| && 2 <= n <= 3
    ensures At(src, i, if n == 2 then "<<" else "<<<") ==> i + n <= |src| && src[i] == src[i + 1] == src[i + n - 1] == '<'
  {
    if At(src, i, if n == 2 then "<<" else "<<<") {
      assert src[i + 1] == src[i..i + n][1] && src[i] == src[i..i + n][0] && src[i + n - 1] == src[i..i + n][n - 1];
    }
  }

  /** Any other character is a letter, and so is a single <. */
  lemma LetterIsAdded(src: string, i: nat, l: State, c: char)
    requires Reads(src, i, l, NoQuote, c) && c !in "\\'\" \t\r;|\n&" && (c == '#' ==> l.inTok)
    requires c == '<' ==> i + 1 == |src| || src[i + 1] != '<'
    ensures Run(src, i, l, NoQuote) == Run(src, i + 1, WithLetter(l, c), NoQuote)
  {
    hide EndCommand, EndToken, ReadHeredoc, SkipBodies, Redirects;
    SignsAt(src, i, 2);
    SignsAt(src, i, 3);
  }

  /** Three < are letters; they open no heredoc. */
  lemma HereStringIsText(src: string, i: nat, l: State)
    requires At(src, i, "<<<") && |l.cmds| < 32
    ensures Run(src, i, l, NoQuote) == Run(src, i + 3, State(l.cmds, l.words, l.tok + "<<<", true, l.pending), NoQuote)
  {
    hide EndCommand, EndToken, ReadHeredoc, SkipBodies, Redirects;
    assert src[i] == src[i..i + 3][0];
  }

  /** At the end of the text the command at hand is finished. */
  lemma EndEndsCommand(src: string, i: nat, l: State, quote: Quote)
    requires i >= |src| || |l.cmds| >= 32
    ensures Run(src, i, l, quote) == CommandDone(l).cmds
  {
    hide TrimParens, Turn;
  }

  /** Only the first 65536 characters are read. */
  lemma TextIsCut(text: string)
    ensures |text| <= 65_536 ==> Lex(text) == Run(text, 0, State([], [], "", false, []), NoQuote)
    ensures |text| > 65_536 ==> Lex(text) == Run(text[..65_536], 0, State([], [], "", false, []), NoQuote)
  {
    hide Run;
  }

  // ------------------------------------------------------------- opening a heredoc

  ghost predicate IsDelimiter(delim: string) {
    delim != "" && forall c <- delim :: c !in " \t\r\n;|&<>()'\"\\"
  }

  ghost predicate AreBlanks(s: string) {
    forall c <- s :: c == ' ' || c == '\t'
  }

  /** These characters stand from i on. */
  ghost predicate StandsAt(src: string, i: nat, s: string) {
    i + |s| <= |src| && forall k :: 0 <= k < |s| ==> src[i + k] == s[k]
  }

  lemma {:induction false} BlanksArePassed(src: string, i: nat, n: nat)
    requires i + n <= |src| && (forall k :: i <= k < i + n ==> IsBlank(src[k])) && (i + n < |src| ==> !IsBlank(src[i + n]))
    ensures SkipBlanks(src, i) == i + n
    decreases n
  {
    if n > 0 {
      BlanksArePassed(src, i + 1, n - 1);
    }
  }

  lemma {:induction false} DelimiterIsRead(src: string, i: nat, n: nat)
    requires i + n <= |src| && (forall k :: i <= k < i + n ==> !StopsHeredoc(src[k])) && (i + n < |src| ==> StopsHeredoc(src[i + n]))
    ensures DelimEnd(src, i) == i + n
    decreases n
  {
    if n > 0 {
      DelimiterIsRead(src, i + 1, n - 1);
    }
  }

  lemma {:induction false} PlainIsUnquoted(delim: string)
    requires forall k :: 0 <= k < |delim| ==> delim[k] !in "'\"\\"
    ensures WithoutQuotes(delim) == delim
    decreases |delim|
  {
    if delim != "" {
      PlainIsUnquoted(delim[1..]);
    }
  }

  /** A sign for tabs, some blanks and the delimiter, up to a character that ends it. */
  ghost predicate OpensWith(src: string, i: nat, dash: bool, blanks: string, delim: string) {
    var j := i + (if dash then 1 else 0) + |blanks|;
    && (dash ==> i < |src| && src[i] == '-') && (!dash && blanks == "" ==> delim != "" && delim[0] != '-')
    && StandsAt(src, i + (if dash then 1 else 0), blanks) && AreBlanks(blanks)
    && StandsAt(src, j, delim) && IsDelimiter(delim)
    && (j + |delim| < |src| ==> src[j + |delim|] in " \t\r\n;|&<>()")
  }

  lemma OpensWithNoSign(src: string, i: nat, dash: bool, blanks: string, delim: string)
    requires i <= |src| && OpensWith(src, i, dash, blanks, delim)
    ensures i < |src| && src[i] != '<' && (src[i] == '-' <==> dash)
  {
    if !dash && blanks == "" {
      assert src[i + 0] == delim[0] && delim[0] in delim;
    } else if !dash {
      assert src[i + 0] == blanks[0] && blanks[0] in blanks;
    }
  }

  lemma HeredocIsRead(src: string, i: nat, l: State, dash: bool, blanks: string, delim: string)
    requires i <= |src| && OpensWith(src, i, dash, blanks, delim)
    ensures ReadHeredoc(l, src, i) ==
            (State(l.cmds, l.words, l.tok, l.inTok, l.pending + [Heredoc(delim, dash)]), i + (if dash then 1 else 0) + |blanks| + |delim|)
  {
    hide SkipBlanks, DelimEnd, WithoutQuotes;
    var from := i + if dash then 1 else 0;
    var j := from + |blanks|;
    OpensWithNoSign(src, i, dash, blanks, delim);
    forall k | from <= k < j
      ensures IsBlank(src[k])
    {
      assert blanks[k - from] in blanks && src[from + (k - from)] == blanks[k - from];
    }
    forall k | j <= k < j + |delim|
      ensures !StopsHeredoc(src[k]) && delim[k - j] !in "'\"\\" && src[k] == delim[k - j]
    {
      assert delim[k - j] in delim && src[j + (k - j)] == delim[k - j];
    }
    hide IsBlank, StopsHeredoc, StandsAt, AreBlanks, IsDelimiter;
    BlanksArePassed(src, from, |blanks|);
    DelimiterIsRead(src, j, |delim|);
    PlainIsUnquoted(delim);
    assert src[j..j + |delim|] == delim;
  }

  lemma HeredocTurn(src: string, i: nat, l: State)
    requires i + 2 <= |src| && src[i] == src[i + 1] == '<' && (i + 2 < |src| ==> src[i + 2] != '<') && |l.cmds| < 32
    ensures Run(src, i, l, NoQuote) == Run(src, ReadHeredoc(l, src, i + 2).1, ReadHeredoc(l, src, i + 2).0, NoQuote)
  {
    hide EndCommand, EndToken, SkipBodies, Redirects, ReadHeredoc, FindFrom;
    assert src[i..i + 2] == "<<";
    SignsAt(src, i, 3);
  }

  /** Two < with a word behind them open a heredoc that this word closes, a - between
      them one whose lines may begin with tabs; the word is no word of the command. */
  lemma HeredocOpens(src: string, i: nat, l: State, dash: bool, blanks: string, delim: string)
    requires i + 2 <= |src| && src[i] == src[i + 1] == '<' && OpensWith(src, i + 2, dash, blanks, delim) && |l.cmds| < 32
    ensures Run(src, i, l, NoQuote) ==
            Run(src, i + 2 + (if dash then 1 else 0) + |blanks| + |delim|,
                State(l.cmds, l.words, l.tok, l.inTok, l.pending + [Heredoc(delim, dash)]), NoQuote)
  {
    hide Run, Turn, ReadHeredoc, OpensWith;
    OpensWithNoSign(src, i + 2, dash, blanks, delim);
    HeredocTurn(src, i, l);
    HeredocIsRead(src, i + 2, l, dash, blanks, delim);
  }

  // ---------------------------------------------------------- outer parentheses

  ghost predicate OnlyOf(s: string, c: char) {
    forall k :: 0 <= k < |s| ==> s[k] == c
  }

  lemma {:induction false} TrimLeftStrips(s: string, c: char)
    ensures var r := TrimLeft(s, c);
            |r| <= |s| && r == s[|s| - |r|..] && OnlyOf(s[..|s| - |r|], c) && !StartsWith(r, c)
  {
    if s != "" && s[0] == c {
      TrimLeftStrips(s[1..], c);
      var r := TrimLeft(s, c);
      assert s[..|s| - |r|] == [s[0]] + s[1..][..|s| - 1 - |r|];
    }
  }

  lemma {:induction false} TrimRightStrips(s: string, c: char)
    ensures var r := TrimRight(s, c);
            |r| <= |s| && r == s[..|r|] && OnlyOf(s[|r|..], c) && !EndsWith(r, c)
    decreases |s|
  {
    if s != "" && s[|s| - 1] == c {
      TrimRightStrips(s[..|s| - 1], c);
      var r := TrimRight(s, c);
      assert s[|r|..] == s[..|s| - 1][|r|..] + [s[|s| - 1]];
    }
  }

  lemma {:induction false} PadIsTrimmed(pad: string, s: string, c: char)
    requires OnlyOf(pad, c) && !StartsWith(s, c)
    ensures TrimLeft(pad + s, c) == s
    decreases |pad|
  {
    if pad == "" {
      assert pad + s == s;
    } else {
      assert (pad + s)[1..] == pad[1..] + s;
      PadIsTrimmed(pad[1..], s, c);
    }
  }

  /** A heredoc is closed by the line that is its delimiter, behind any number of tabs
      where it was opened with a dash. */
  lemma DelimiterLineCloses(h: Heredoc, line: string)
    requires !StartsWith(h.delim, '\t')
    ensures Closes(h, line) <==> exists pad: string :: OnlyOf(pad, '\t') && (pad != "" ==> h.tabs) && line == pad + h.delim
  {
    TrimLeftStrips(line, '\t');
    if Closes(h, line) {
      var pad := line[..|line| - |h.delim|];
      assert line == pad + h.delim && (!h.tabs ==> pad == "");
    }
    if pad: string :| OnlyOf(pad, '\t') && (pad != "" ==> h.tabs) && line == pad + h.delim {
      PadIsTrimmed(pad, h.delim, '\t');
      assert pad == "" ==> line == h.delim;
    }
    hide TrimLeft;
  }

  /** Words of nothing but opening signs go, and those at the front of the next word. */
  lemma {:induction false} OpeningStrips(words: seq<string>) returns (n: nat)
    ensures n <= |words| && forall k :: 0 <= k < n ==> words[k] != "" && OnlyOf(words[k], '(')
    ensures var r := TrimOpening(words);
            if n == |words| then r == []
            else && |r| == |words| - n && r[1..] == words[n + 1..] && !StartsWith(r[0], '(')
                 && |r[0]| <= |words[n]| && r[0] == words[n][|words[n]| - |r[0]|..] && OnlyOf(words[n][..|words[n]| - |r[0]|], '(')
                 && (r[0] == "" ==> words[n] == "")
    decreases |words|
  {
    n := 0;
    if words != [] {
      TrimLeftStrips(words[0], '(');
      hide TrimLeft;
      if StartsWith(words[0], '(') && TrimLeft(words[0], '(') == "" {
        assert words[0][..|words[0]|] == words[0];
        var m := OpeningStrips(words[1..]);
        n := m + 1;
        forall k | 0 <= k < n
          ensures words[k] != "" && OnlyOf(words[k], '(')
        {
          assert k > 0 ==> words[k] == words[1..][k - 1];
        }
      }
    }
  }

  /** ... and so at the other end with closing ones. */
  lemma {:induction false} ClosingStrips(words: seq<string>) returns (n: nat)
    ensures n <= |words| && forall k :: n <= k < |words| ==> words[k] != "" && OnlyOf(words[k], ')')
    ensures var r := TrimClosing(words);
            if n == 0 then r == []
            else && |r| == n && r[..n - 1] == words[..n - 1] && !EndsWith(r[n - 1], ')')
                 && |r[n - 1]| <= |words[n - 1]| && r[n - 1] == words[n - 1][..|r[n - 1]|] && OnlyOf(words[n - 1][|r[n - 1]|..], ')')
                 && (r[n - 1] == "" ==> words[n - 1] == "")
    decreases |words|
  {
    n := |words|;
    if words != [] {
      TrimRightStrips(words[n - 1], ')');
      if EndsWith(words[n - 1], ')') && TrimRight(words[n - 1], ')') == "" {
        assert words[n - 1][0..] == words[n - 1];
        var all := n - 1;
        n := ClosingStrips(words[..all]);
        forall k | n <= k < |words|
          ensures words[k] != "" && OnlyOf(words[k], ')')
        {
          assert k < all ==> words[k] == words[..all][k];
        }
      }
    }
  }

  // ------------------------------------------------------ three ways to quote

  /** Text for double quotes: a sign in front of the two characters they treat. */
  function Escaped(w: string): string {
    if w == "" then ""
    else (if w[0] == '"' || w[0] == '\\' then ['\\', w[0]] else [w[0]]) + Escaped(w[1..])
  }

  /** A word put in double quotes comes back whole, whatever it holds. */
  lemma {:induction false} DoubleQuotesHoldAnything(src: string, i: nat, l: State, w: string)
    requires At(src, i, Escaped(w) + "\"") && |l.cmds| < 32 && l.inTok
    ensures Run(src, i, l, Double) ==
            Run(src, i + |Escaped(w)| + 1, State(l.cmds, l.words, l.tok + w, true, l.pending), NoQuote)
    decreases |w|
  {
    hide Run, At;
    if w == "" {
      assert Escaped(w) + "\"" == "\"" && l.tok + w == l.tok;
      AtOne(src, i, '"');
      QuoteHolds(src, i, l, Double, '"');
    } else {
      var c, rest := w[0], Escaped(w[1..]) + "\"";
      assert l.tok + [c] + w[1..] == l.tok + w;
      if c == '"' || c == '\\' {
        assert Escaped(w) + "\"" == ['\\'] + ([c] + rest);
        AtSum(src, i, ['\\'], [c] + rest);
        AtSum(src, i + 1, [c], rest);
        AtOne(src, i, '\\');
        AtOne(src, i + 1, c);
        BackslashTakesNext(src, i, l, Double);
        DoubleQuotesHoldAnything(src, i + 2, WithLetter(l, c), w[1..]);
      } else {
        assert Escaped(w) + "\"" == [c] + rest;
        AtSum(src, i, [c], rest);
        AtOne(src, i, c);
        QuoteHolds(src, i, l, Double, c);
        DoubleQuotesHoldAnything(src, i + 1, WithLetter(l, c), w[1..]);
      }
    }
  }
}

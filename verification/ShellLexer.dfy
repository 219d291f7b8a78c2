/** The hand-written shell lexer: quotes, comments, operators and heredocs, as a
    machine that steps over the text, and the loop that is that machine. */
module ShellLexer {

  const MAX_INPUT := 64 * 1024
  const MAX_SIMPLE := 32

  type Command = seq<string>

  datatype Quote = NoQuote | Single | Double

  datatype Heredoc = Heredoc(delim: string, tabs: bool)

  datatype State = State(cmds: seq<Command>, words: seq<string>, tok: string, inTok: bool, pending: seq<Heredoc>)

  const START := State([], [], "", false, [])

  // --------------------------------------------------------------- the pieces

  function TrimLeft(s: string, c: char): (r: string)
    ensures |r| <= |s|
  {
    if s != "" && s[0] == c then TrimLeft(s[1..], c) else s
  }

  function TrimRight(s: string, c: char): (r: string)
    ensures |r| <= |s|
  {
    if s != "" && s[|s| - 1] == c then TrimRight(s[..|s| - 1], c) else s
  }

  predicate StartsWith(s: string, c: char) {
    s != "" && s[0] == c
  }

  predicate EndsWith(s: string, c: char) {
    s != "" && s[|s| - 1] == c
  }

  function TrimOpening(words: seq<string>): seq<string> {
    if words == [] || !StartsWith(words[0], '(') then words
    else if TrimLeft(words[0], '(') != "" then [TrimLeft(words[0], '(')] + words[1..]
    else TrimOpening(words[1..])
  }

  function TrimClosing(words: seq<string>): seq<string> {
    if words == [] || !EndsWith(words[|words| - 1], ')') then words
    else if TrimRight(words[|words| - 1], ')') != "" then words[..|words| - 1] + [TrimRight(words[|words| - 1], ')')]
    else TrimClosing(words[..|words| - 1])
  }

  function TrimParens(words: seq<string>): seq<string> {
    TrimClosing(TrimOpening(words))
  }

  function Add(l: State, c: char): State {
    l.(tok := l.tok + [c], inTok := true)
  }

  function EndToken(l: State): State {
    l.(words := if l.inTok then l.words + [l.tok] else l.words, tok := "", inTok := false)
  }

  function EndCommand(l: State): State {
    var e := EndToken(l);
    var words := TrimParens(e.words);
    e.(words := [], cmds := if words != [] && |e.cmds| < MAX_SIMPLE then e.cmds + [words] else e.cmds)
  }

  /** The next place at or after i where `c` stands, or the end. */
  function FindFrom(src: string, i: nat, c: char): (j: nat)
    requires i <= |src|
    ensures i <= j <= |src| && (j < |src| ==> src[j] == c) && forall k :: i <= k < j ==> src[k] != c
    decreases |src| - i
  {
    if i == |src| || src[i] == c then i else FindFrom(src, i + 1, c)
  }

  predicate IsBlank(c: char) {
    c == ' ' || c == '\t'
  }

  predicate StopsHeredoc(c: char) {
    c in " \t\r\n;|&<>()"
  }

  function SkipBlanks(src: string, i: nat): (j: nat)
    requires i <= |src|
    ensures i <= j <= |src|
    decreases |src| - i
  {
    if i < |src| && IsBlank(src[i]) then SkipBlanks(src, i + 1) else i
  }

  function DelimEnd(src: string, i: nat): (j: nat)
    requires i <= |src|
    ensures i <= j <= |src|
    decreases |src| - i
  {
    if i < |src| && !StopsHeredoc(src[i]) then DelimEnd(src, i + 1) else i
  }

  function WithoutQuotes(s: string): string {
    if s == "" then "" else if s[0] in "'\"\\" then WithoutQuotes(s[1..]) else [s[0]] + WithoutQuotes(s[1..])
  }

  /** Where the delimiter word after << ends, and the heredoc it opens. */
  function ReadHeredoc(l: State, src: string, i: nat): (r: (State, nat))
    requires i <= |src|
    ensures i <= r.1 <= |src|
  {
    var tabs := i < |src| && src[i] == '-';
    var start := SkipBlanks(src, if tabs then i + 1 else i);
    var end := DelimEnd(src, start);
    var delim := WithoutQuotes(src[start..end]);
    (if delim != "" then l.(pending := l.pending + [Heredoc(delim, tabs)]) else l, end)
  }

  /** Past one body: to the line that is its delimiter, or to the end. */
  function SkipBody(src: string, i: nat, h: Heredoc): (j: nat)
    ensures i <= j <= |src| + 1 || j == i
    decreases |src| - i
  {
    if i >= |src| then i
    else
      var end := FindFrom(src, i, '\n');
      if Closes(h, src[i..end]) then end + 1 else SkipBody(src, end + 1, h)
  }

  /** The line closes the heredoc. */
  predicate Closes(h: Heredoc, line: string) {
    (if h.tabs then TrimLeft(line, '\t') else line) == h.delim
  }

  lemma SkipStep(src: string, i: nat, h: Heredoc)
    ensures SkipBody(src, i, h) ==
            if i >= |src| then i
            else var end := FindFrom(src, i, '\n'); if Closes(h, src[i..end]) then end + 1 else SkipBody(src, end + 1, h)
  {
  }

  function SkipBodies(src: string, i: nat, pending: seq<Heredoc>): (j: nat)
    ensures i <= j
    decreases |pending|
  {
    if pending == [] then i else SkipBodies(src, SkipBody(src, i, pending[0]), pending[1..])
  }

  function Least(a: nat, b: nat): nat {
    if a < b then a else b
  }

  /** `text` stands at i. */
  predicate At(src: string, i: nat, text: string) {
    i + |text| <= |src| && src[i..i + |text|] == text
  }

  /** A & that belongs to a redirection. */
  predicate Redirects(src: string, i: nat)
    requires i < |src|
  {
    (i > 0 && (src[i - 1] == '>' || src[i - 1] == '<')) || (i + 1 < |src| && src[i + 1] == '>')
  }

  /** One turn of the machine: what the character at i does, and where it goes on. */
  function Turn(src: string, i: nat, l: State, quote: Quote): (r: (State, Quote, nat))
    requires i < |src|
    ensures r.2 > i
  {
    var c := src[i];
    if quote.Single? then (if c == '\'' then (l, NoQuote, i + 1) else (Add(l, c), Single, i + 1))
    else if c == '\\' then (if i + 1 < |src| && src[i + 1] != '\n' then Add(l, src[i + 1]) else l, quote, i + 2)
    else if quote.Double? then (if c == '"' then (l, NoQuote, i + 1) else (Add(l, c), Double, i + 1))
    else if c == '\'' then (l.(inTok := true), Single, i + 1)
    else if c == '"' then (l.(inTok := true), Double, i + 1)
    else if c == '#' && !l.inTok then (l, NoQuote, FindFrom(src, i + 1, '\n'))
    else if c == ' ' || c == '\t' || c == '\r' then (EndToken(l), NoQuote, i + 1)
    else if c == ';' || c == '|' then (EndCommand(l), NoQuote, i + 1)
    else if c == '\n' then
      var e := EndCommand(l);
      (e.(pending := []), NoQuote, Least(SkipBodies(src, i + 1, e.pending), |src|))
    else if c == '&' then (if Redirects(src, i) then Add(l, c) else EndCommand(l), NoQuote, i + 1)
    else if At(src, i, "<<<") then (l.(tok := l.tok + "<<<", inTok := true), NoQuote, i + 3)
    else if At(src, i, "<<") then
      var (m, j) := ReadHeredoc(l, src, i + 2);
      (m, NoQuote, j)
    else (Add(l, c), NoQuote, i + 1)
  }

  /** All the commands from i on. */
  function Run(src: string, i: nat, l: State, quote: Quote): (cmds: seq<Command>)
    decreases |src| - i
  {
    if i >= |src| || |l.cmds| >= MAX_SIMPLE then EndCommand(l).cmds
    else
      var (m, q, j) := Turn(src, i, l, quote);
      Run(src, j, m, q)
  }

  function Bounded(src: string): string {
    if |src| > MAX_INPUT then src[..MAX_INPUT] else src
  }

  function Lex(src: string): seq<Command> {
    Run(Bounded(src), 0, START, NoQuote)
  }

  // ------------------------------------------------------------ what is bounded

  lemma TurnStaysBounded(src: string, i: nat, l: State, quote: Quote)
    requires i < |src| && |l.cmds| <= MAX_SIMPLE && (forall c <- l.cmds :: c != [])
    ensures |Turn(src, i, l, quote).0.cmds| <= MAX_SIMPLE && forall c <- Turn(src, i, l, quote).0.cmds :: c != []
  {
    hide TrimParens, ReadHeredoc, SkipBodies, FindFrom, At, Redirects, EndToken, EndCommand;
    HeredocKeeps(l, src, i);
    CommandStaysBounded(l);
  }

  lemma CommandStaysBounded(l: State)
    requires |l.cmds| <= MAX_SIMPLE && (forall c <- l.cmds :: c != [])
    ensures |EndCommand(l).cmds| <= MAX_SIMPLE && (forall c <- EndCommand(l).cmds :: c != []) && EndToken(l).cmds == l.cmds
  {
    hide TrimParens;
  }

  lemma HeredocKeeps(l: State, src: string, i: nat)
    ensures i + 2 <= |src| ==> ReadHeredoc(l, src, i + 2).0.cmds == l.cmds
  {
  }

  /** Whatever the text, there are at most 32 commands and none is empty. */
  lemma {:induction false} RunIsBounded(src: string, i: nat, l: State, quote: Quote)
    requires |l.cmds| <= MAX_SIMPLE && (forall c <- l.cmds :: c != [])
    ensures |Run(src, i, l, quote)| <= MAX_SIMPLE && forall c <- Run(src, i, l, quote) :: c != []
    decreases |src| - i
  {
    hide TrimParens, Turn;
    if i < |src| && |l.cmds| < MAX_SIMPLE {
      TurnStaysBounded(src, i, l, quote);
      var (m, q, j) := Turn(src, i, l, quote);
      RunIsBounded(src, j, m, q);
    }
  }

  // --------------------------------------------------------- quoting is undone

  function Quoted(w: string): string {
    "'" + w + "'"
  }

  function PrintWords(words: seq<string>): string {
    if words == [] then "" else if |words| == 1 then Quoted(words[0]) else Quoted(words[0]) + " " + PrintWords(words[1..])
  }

  function Print(cmds: seq<Command>): string {
    if cmds == [] then "" else if |cmds| == 1 then PrintWords(cmds[0]) else PrintWords(cmds[0]) + ";" + Print(cmds[1..])
  }

  /** A command single quotes can carry. */
  predicate Quotable(words: seq<string>) {
    words != [] && forall k :: 0 <= k < |words| ==> '\'' !in words[k]
  }

  predicate Unwrapped(words: seq<string>)
    requires words != []
  {
    !StartsWith(words[0], '(') && !EndsWith(words[|words| - 1], ')')
  }

  /** What the lexer keeps of some commands: outer parentheses go, and a command
      of nothing else goes with them. */
  function Kept(cmds: seq<Command>): seq<Command> {
    if cmds == [] then []
    else (if TrimParens(cmds[0]) != [] then [TrimParens(cmds[0])] else []) + Kept(cmds[1..])
  }

  function Size(words: seq<string>): nat {
    if words == [] then 0 else 1 + |words[0]| + Size(words[1..])
  }

  lemma {:induction false} SizeEnd(words: seq<string>, w: string)
    ensures Size(words + [w]) == Size(words) + 1 + |w|
    decreases |words|
  {
    if words == [] {
      assert [] + [w] == [w] && [w][1..] == [];
    } else {
      assert (words + [w])[1..] == words[1..] + [w];
      SizeEnd(words[1..], w);
    }
  }

  lemma {:induction false} TrimLeftShrinks(s: string, c: char)
    ensures StartsWith(s, c) ==> |TrimLeft(s, c)| < |s|
  {
  }

  lemma {:induction false} OpeningShrinks(words: seq<string>)
    ensures Size(TrimOpening(words)) <= Size(words)
    ensures words != [] && StartsWith(words[0], '(') ==> Size(TrimOpening(words)) < Size(words)
    ensures words != [] && !StartsWith(words[0], '(') ==> TrimOpening(words) == words
    decreases |words|
  {
    if words != [] && StartsWith(words[0], '(') {
      TrimLeftShrinks(words[0], '(');
      if TrimLeft(words[0], '(') == "" {
        OpeningShrinks(words[1..]);
      } else {
        var r := [TrimLeft(words[0], '(')] + words[1..];
        assert r[1..] == words[1..];
      }
    }
  }

  lemma {:induction false} ClosingShrinks(words: seq<string>)
    ensures Size(TrimClosing(words)) <= Size(words)
    ensures words != [] && EndsWith(words[|words| - 1], ')') ==> Size(TrimClosing(words)) < Size(words)
    ensures words != [] && !EndsWith(words[|words| - 1], ')') ==> TrimClosing(words) == words
    decreases |words|
  {
    if words != [] && EndsWith(words[|words| - 1], ')') {
      var n := |words| - 1;
      var last := TrimRight(words[n], ')');
      assert words == words[..n] + [words[n]];
      SizeEnd(words[..n], words[n]);
      SizeEnd(words[..n], last);
      if last == "" {
        ClosingShrinks(words[..n]);
      }
    }
  }

  /** A command loses nothing exactly when no outer parenthesis is there to lose. */
  lemma TrimKeepsUnwrapped(words: seq<string>)
    requires words != []
    ensures TrimParens(words) == words <==> Unwrapped(words)
  {
    OpeningShrinks(words);
    ClosingShrinks(TrimOpening(words));
  }

  lemma {:induction false} KeptAll(cmds: seq<Command>)
    requires forall k :: 0 <= k < |cmds| ==> cmds[k] != []
    ensures |Kept(cmds)| <= |cmds|
    ensures Kept(cmds) == cmds <==> forall k :: 0 <= k < |cmds| ==> Unwrapped(cmds[k])
    decreases |cmds|
  {
    hide TrimParens;
    if cmds != [] {
      KeptAll(cmds[1..]);
      TrimKeepsUnwrapped(cmds[0]);
      assert cmds == [cmds[0]] + cmds[1..];
      if TrimParens(cmds[0]) == [] {
        assert |Kept(cmds)| < |cmds|;
      } else {
        assert Kept(cmds)[0] == TrimParens(cmds[0]) && Kept(cmds)[1..] == Kept(cmds[1..]);
      }
    }
  }

  lemma AtSum(src: string, i: nat, a: string, b: string)
    requires At(src, i, a + b)
    ensures At(src, i, a) && At(src, i + |a|, b)
  {
    assert src[i..i + |a|] == src[i..i + |a + b|][..|a|];
    assert src[i + |a|..i + |a| + |b|] == src[i..i + |a + b|][|a|..];
  }

  lemma AtOne(src: string, i: nat, c: char)
    requires At(src, i, [c])
    ensures i < |src| && src[i] == c
  {
    assert src[i] == src[i..i + 1][0];
  }

  lemma QuoteTurn(src: string, i: nat, l: State)
    requires i < |src| && |l.cmds| < MAX_SIMPLE
    ensures Run(src, i, l, Single) == if src[i] == '\'' then Run(src, i + 1, l, NoQuote) else Run(src, i + 1, Add(l, src[i]), Single)
  {
    hide EndCommand, EndToken, ReadHeredoc, SkipBodies, Redirects;
  }

  lemma {:induction false} InsideQuotes(src: string, i: nat, l: State, w: string)
    requires At(src, i, w + "'") && '\'' !in w && |l.cmds| < MAX_SIMPLE && l.inTok
    ensures Run(src, i, l, Single) == Run(src, i + |w| + 1, l.(tok := l.tok + w), NoQuote)
    decreases |w|
  {
    hide Run, At;
    if w == "" {
      assert w + "'" == "'" && l.tok + w == l.tok;
      AtOne(src, i, '\'');
      QuoteTurn(src, i, l);
    } else {
      assert w[0] in w && w + "'" == [w[0]] + (w[1..] + "'");
      AtSum(src, i, [w[0]], w[1..] + "'");
      AtOne(src, i, w[0]);
      QuoteTurn(src, i, l);
      InsideQuotes(src, i + 1, Add(l, w[0]), w[1..]);
      assert l.tok + [w[0]] + w[1..] == l.tok + w;
    }
  }

  lemma QuotedWord(src: string, i: nat, l: State, w: string)
    requires At(src, i, Quoted(w)) && '\'' !in w && |l.cmds| < MAX_SIMPLE && !l.inTok && l.tok == ""
    ensures Run(src, i, l, NoQuote) == Run(src, i + |w| + 2, l.(tok := w, inTok := true), NoQuote)
  {
    hide Turn;
    assert "'" + (w + "'") == Quoted(w);
    AtSum(src, i, "'", w + "'");
    AtOne(src, i, '\'');
    OpensQuote(src, i, l);
    InsideQuotes(src, i + 1, l.(inTok := true), w);
    assert "" + w == w;
  }

  lemma OpensQuote(src: string, i: nat, l: State)
    requires i < |src| && src[i] == '\'' && |l.cmds| < MAX_SIMPLE
    ensures Run(src, i, l, NoQuote) == Run(src, i + 1, l.(inTok := true), Single)
  {
    hide EndCommand, EndToken, ReadHeredoc, SkipBodies, Redirects;
  }

  lemma {:induction false} QuotedWords(src: string, i: nat, l: State, words: seq<string>)
    requires words != [] && At(src, i, PrintWords(words)) && (forall k :: 0 <= k < |words| ==> '\'' !in words[k])
    requires |l.cmds| < MAX_SIMPLE && !l.inTok && l.tok == ""
    ensures Run(src, i, l, NoQuote) ==
            Run(src, i + |PrintWords(words)|, l.(words := l.words + words[..|words| - 1], tok := words[|words| - 1], inTok := true), NoQuote)
    decreases |words|
  {
    hide Turn, Run, At, Quoted;
    var w := words[0];
    assert |Quoted(w)| == |w| + 2 by {
      QuotedSize(w);
    }
    if |words| == 1 {
      QuotedWord(src, i, l, w);
      assert l.words + words[..0] == l.words;
    } else {
      var rest := PrintWords(words[1..]);
      assert PrintWords(words) == Quoted(w) + (" " + rest) by {
        assert Quoted(w) + " " + rest == Quoted(w) + (" " + rest);
      }
      AtSum(src, i, Quoted(w), " " + rest);
      var j := i + |w| + 2;
      AtSum(src, j, " ", rest);
      AtOne(src, j, ' ');
      QuotedWord(src, i, l, w);
      SpaceEndsToken(src, j, l.(tok := w, inTok := true));
      var m := l.(words := l.words + [w]);
      QuotedWords(src, j + 1, m, words[1..]);
      assert l.words + [w] + words[1..][..|words| - 2] == l.words + words[..|words| - 1];
    }
  }

  lemma QuotedSize(w: string)
    ensures |Quoted(w)| == |w| + 2
  {
  }

  lemma SpaceEndsToken(src: string, i: nat, l: State)
    requires i < |src| && src[i] == ' ' && |l.cmds| < MAX_SIMPLE
    ensures Run(src, i, l, NoQuote) == Run(src, i + 1, EndToken(l), NoQuote)
  {
    hide EndCommand, EndToken, ReadHeredoc, SkipBodies, Redirects;
  }

  lemma SemicolonEndsCommand(src: string, i: nat, l: State)
    requires i < |src| && src[i] == ';' && |l.cmds| < MAX_SIMPLE
    ensures Run(src, i, l, NoQuote) == Run(src, i + 1, EndCommand(l), NoQuote)
  {
    hide EndCommand, EndToken, ReadHeredoc, SkipBodies, Redirects;
  }

  /** Ending a command trims its words and files them. */
  lemma QuotedCommandEnds(cmds: seq<Command>, words: seq<string>)
    requires words != [] && |cmds| < MAX_SIMPLE
    ensures EndCommand(State(cmds, words[..|words| - 1], words[|words| - 1], true, [])) ==
            State(cmds + if TrimParens(words) != [] then [TrimParens(words)] else [], [], "", false, [])
  {
    assert words[..|words| - 1] + [words[|words| - 1]] == words;
    assert cmds + [] == cmds;
  }

  lemma PrintSplits(src: string, i: nat, cmds: seq<Command>)
    requires cmds != [] && At(src, i, Print(cmds))
    ensures At(src, i, PrintWords(cmds[0]))
    ensures |cmds| > 1 ==>
              var j := i + |PrintWords(cmds[0])|;
              && j < |src| && src[j] == ';' && At(src, j + 1, Print(cmds[1..]))
              && |Print(cmds)| == |PrintWords(cmds[0])| + 1 + |Print(cmds[1..])|
  {
    hide PrintWords, At;
    if |cmds| > 1 {
      var first, rest := PrintWords(cmds[0]), Print(cmds[1..]);
      assert Print(cmds) == first + (";" + rest);
      AtSum(src, i, first, ";" + rest);
      AtSum(src, i + |first|, ";", rest);
      AtOne(src, i + |first|, ';');
    }
  }

  lemma {:induction false} PrintedCommands(src: string, i: nat, done: seq<Command>, cmds: seq<Command>)
    requires cmds != [] && At(src, i, Print(cmds)) && i + |Print(cmds)| == |src|
    requires (forall k :: 0 <= k < |cmds| ==> Quotable(cmds[k])) && |done| + |cmds| <= MAX_SIMPLE
    ensures Run(src, i, State(done, [], "", false, []), NoQuote) == done + Kept(cmds)
    decreases |cmds|
  {
    hide Turn, Run, EndCommand, TrimParens, PrintWords, At, Print, Kept;
    var words := cmds[0];
    assert Quotable(words);
    PrintSplits(src, i, cmds);
    var before := State(done, words[..|words| - 1], words[|words| - 1], true, []);
    QuotedWords(src, i, State(done, [], "", false, []), words);
    assert [] + words[..|words| - 1] == words[..|words| - 1];
    QuotedCommandEnds(done, words);
    var filed := if TrimParens(words) != [] then [TrimParens(words)] else [];
    KeptSplits(cmds);
    if |cmds| == 1 {
      RunEnds(src, |src|, before);
    } else {
      var j := i + |PrintWords(words)|;
      SemicolonEndsCommand(src, j, before);
      PrintedCommands(src, j + 1, done + filed, cmds[1..]);
      assert done + filed + Kept(cmds[1..]) == done + (filed + Kept(cmds[1..]));
    }
  }

  lemma KeptSplits(cmds: seq<Command>)
    requires cmds != []
    ensures Kept(cmds) == (if TrimParens(cmds[0]) != [] then [TrimParens(cmds[0])] else []) + Kept(cmds[1..])
    ensures |cmds| == 1 ==> Kept(cmds) == (if TrimParens(cmds[0]) != [] then [TrimParens(cmds[0])] else []) && Print(cmds) == PrintWords(cmds[0])
  {
    hide TrimParens, PrintWords;
  }

  lemma RunEnds(src: string, i: nat, l: State)
    requires i >= |src|
    ensures Run(src, i, l, NoQuote) == EndCommand(l).cmds
  {
  }

  /** Lexing undoes quoting, whatever the words hold besides a single quote,
      exactly when no command starts or ends with a parenthesis of its own. */
  lemma LexUndoesQuoting(cmds: seq<Command>)
    requires |cmds| <= MAX_SIMPLE && (forall k :: 0 <= k < |cmds| ==> Quotable(cmds[k])) && |Print(cmds)| <= MAX_INPUT
    ensures Lex(Print(cmds)) == Kept(cmds)
    ensures Lex(Print(cmds)) == cmds <==> forall k :: 0 <= k < |cmds| ==> cmds[k] != [] && Unwrapped(cmds[k])
  {
    KeptAll(cmds);
    if cmds != [] {
      hide Run;
      PrintedCommands(Print(cmds), 0, [], cmds);
      assert [] + Kept(cmds) == Kept(cmds);
    }
  }

  // ------------------------------------------------------------------- the loop

  class Lexer {
    const src: string
    var cmds: seq<Command>
    var words: seq<string>
    var tok: string
    var inTok: bool
    var pending: seq<Heredoc>

    ghost function Value(): State
      reads this
    {
      State(cmds, words, tok, inTok, pending)
    }

    constructor (src: string)
      ensures this.src == src && Value() == START
    {
      this.src := src;
      cmds, words, tok, inTok, pending := [], [], "", false, [];
    }

    method AddChar(c: char)
      modifies this
      ensures Value() == Add(old(Value()), c)
    {
      tok := tok + [c];
      inTok := true;
    }

    method FinishToken()
      modifies this
      ensures Value() == EndToken(old(Value()))
    {
      if inTok {
        words := words + [tok];
      }
      tok, inTok := "", false;
    }

    method FinishCommand()
      modifies this
      ensures Value() == EndCommand(old(Value()))
    {
      FinishToken();
      var trimmed := TrimWords(words);
      if |trimmed| > 0 && |cmds| < MAX_SIMPLE {
        cmds := cmds + [trimmed];
      }
      words := [];
    }

    method TrimWords(all: seq<string>) returns (words: seq<string>)
      ensures words == TrimParens(all)
    {
      words := all;
      while |words| > 0 && StartsWith(words[0], '(')
        invariant TrimOpening(words) == TrimOpening(all)
        decreases |words|
      {
        var first := TrimLeft(words[0], '(');
        if first != "" {
          words := [first] + words[1..];
          break;
        }
        words := words[1..];
      }
      assert words == TrimOpening(all);
      ghost var opened_ := words;
      while |words| > 0 && EndsWith(words[|words| - 1], ')')
        invariant TrimClosing(words) == TrimClosing(opened_)
        decreases |words|
      {
        var last := TrimRight(words[|words| - 1], ')');
        if last != "" {
          words := words[..|words| - 1] + [last];
          break;
        }
        words := words[..|words| - 1];
      }
    }

    /** Reads the delimiter word after <<. */
    method OpenHeredoc(start: nat) returns (i: nat)
      requires start <= |src|
      modifies this
      ensures (Value(), i) == ReadHeredoc(old(Value()), src, start)
    {
      i := start;
      var tabs := false;
      if i < |src| && src[i] == '-' {
        tabs := true;
        i := i + 1;
      }
      i := PassBlanks(i);
      var delim := "";
      delim, i := ReadDelim(i);
      if |delim| > 0 {
        pending := pending + [Heredoc(delim, tabs)];
      }
    }

    method PassBlanks(start: nat) returns (i: nat)
      requires start <= |src|
      ensures i == SkipBlanks(src, start)
    {
      i := start;
      while i < |src| && (src[i] == ' ' || src[i] == '\t')
        invariant start <= i <= |src| && SkipBlanks(src, i) == SkipBlanks(src, start)
      {
        i := i + 1;
      }
    }

    method ReadDelim(start: nat) returns (delim: string, i: nat)
      requires start <= |src|
      ensures i == DelimEnd(src, start) && delim == WithoutQuotes(src[start..i])
    {
      i, delim := start, "";
      while i < |src| && !StopsHeredoc(src[i])
        invariant start <= i <= |src| && DelimEnd(src, i) == DelimEnd(src, start) && delim == WithoutQuotes(src[start..i])
      {
        WithoutQuotesEnd(src[start..i], src[i]);
        assert src[start..i] + [src[i]] == src[start..i + 1];
        var c := src[i];
        if c != '\'' && c != '"' && c != '\\' {
          delim := delim + [c];
        }
        i := i + 1;
      }
    }

    /** Skips every pending body. */
    method SkipHeredocs(start: nat) returns (i: nat)
      requires start <= |src|
      modifies this
      ensures i == Least(SkipBodies(src, start, old(pending)), |src|) && Value() == old(Value()).(pending := [])
    {
      i := start;
      var k := 0;
      while k < |pending|
        invariant k <= |pending| && pending == old(pending) && Value() == old(Value())
        invariant SkipBodies(src, i, pending[k..]) == SkipBodies(src, start, pending)
      {
        var h := pending[k];
        assert pending[k..][1..] == pending[k + 1..];
        i := SkipOne(i, h);
        k := k + 1;
      }
      pending := [];
      i := Least(i, |src|);
    }

    method SkipOne(start: nat, h: Heredoc) returns (i: nat)
      ensures i == SkipBody(src, start, h)
    {
      hide SkipBody, FindFrom, TrimLeft;
      i := start;
      while i < |src|
        invariant SkipBody(src, i, h) == SkipBody(src, start, h)
        decreases |src| - i
      {
        SkipStep(src, i, h);
        var end := FindFrom(src, i, '\n');
        var line := src[i..end];
        i := end + 1;
        if h.tabs {
          line := TrimLeft(line, '\t');
        }
        if line == h.delim {
          return;
        }
      }
      SkipStep(src, i, h);
    }

    /** One turn of the loop. */
    method TakeTurn(i: nat, quote: Quote) returns (q: Quote, j: nat)
      requires i < |src|
      modifies this
      ensures (Value(), q, j) == Turn(src, i, old(Value()), quote)
    {
      hide ReadHeredoc, SkipBodies, EndCommand, EndToken, Redirects;
      var c := src[i];
      q, j := quote, i + 1;
      if quote == Single {
        if c == '\'' {
          q := NoQuote;
        } else {
          AddChar(c);
        }
      } else if c == '\\' {
        if i + 1 < |src| && src[i + 1] != '\n' {
          AddChar(src[i + 1]);
        }
        j := i + 2;
      } else if quote == Double {
        if c == '"' {
          q := NoQuote;
        } else {
          AddChar(c);
        }
      } else if c == '\'' || c == '"' {
        q := if c == '"' then Double else Single;
        inTok := true;
      } else if c == '#' && !inTok {
        j := SkipComment(i);
      } else if c == ' ' || c == '\t' || c == '\r' {
        FinishToken();
      } else if c == ';' || c == '|' {
        FinishCommand();
      } else if c == '\n' {
        FinishCommand();
        j := SkipHeredocs(i + 1);
      } else if c == '&' {
        if Redirects(src, i) {
          AddChar(c);
        } else {
          FinishCommand();
        }
      } else if At(src, i, "<<<") {
        tok := tok + "<<<";
        inTok := true;
        j := i + 3;
      } else if At(src, i, "<<") {
        j := OpenHeredoc(i + 2);
      } else {
        AddChar(c);
      }
    }

    method SkipComment(i: nat) returns (j: nat)
      requires i < |src|
      ensures j == FindFrom(src, i + 1, '\n')
    {
      j := i + 1;
      while j < |src| && src[j] != '\n'
        invariant i < j <= |src| && FindFrom(src, j, '\n') == FindFrom(src, i + 1, '\n')
      {
        j := j + 1;
      }
    }
  }

  lemma {:induction false} WithoutQuotesEnd(s: string, c: char)
    ensures WithoutQuotes(s + [c]) == WithoutQuotes(s) + if c in "'\"\\" then "" else [c]
    decreases |s|
  {
    if s == "" {
      assert s + [c] == [c] && [c][1..] == "";
    } else {
      WithoutQuotesEnd(s[1..], c);
      assert (s + [c])[1..] == s[1..] + [c];
    }
  }

  /** Splits a command string into its simple commands. */
  method LexText(text: string) returns (cmds: seq<Command>)
    ensures cmds == Lex(text)
  {
    hide Turn;
    var src := if |text| > MAX_INPUT then text[..MAX_INPUT] else text;
    var l := new Lexer(src);
    var quote, i := NoQuote, 0;
    while i < |src| && |l.cmds| < MAX_SIMPLE
      invariant l.src == src && Run(src, i, l.Value(), quote) == Run(src, 0, START, NoQuote)
      decreases |src| - i
    {
      quote, i := l.TakeTurn(i, quote);
    }
    l.FinishCommand();
    cmds := l.cmds;
  }
}

/** What skipping a heredoc means: its body, whatever it holds, adds no command
    and changes none. */
module Heredocs {
  import opened ShellLexer

  /** A body: some lines, and the line that closes it. */
  datatype Body = Body(lines: seq<string>, last: string)

  function LinesText(lines: seq<string>): string {
    if lines == [] then "" else lines[0] + "\n" + LinesText(lines[1..])
  }

  function BodyText(body: Body): string {
    LinesText(body.lines) + (body.last + "\n")
  }

  function BodiesText(bodies: seq<Body>): string {
    if bodies == [] then "" else BodyText(bodies[0]) + BodiesText(bodies[1..])
  }

  predicate IsLine(h: Heredoc, line: string) {
    '\n' !in line && !Closes(h, line)
  }

  /** No line but the last closes the heredoc. */
  predicate Fills(body: Body, h: Heredoc) {
    (forall line <- body.lines :: IsLine(h, line)) && '\n' !in body.last && Closes(h, body.last)
  }

  predicate FillAll(bodies: seq<Body>, pending: seq<Heredoc>) {
    |bodies| == |pending| && forall k :: 0 <= k < |bodies| ==> Fills(bodies[k], pending[k])
  }

  // --------------------------------------------------- where a skip comes to rest

  lemma LineEnds(src: string, i: nat, line: string)
    requires At(src, i, line + "\n") && '\n' !in line
    ensures FindFrom(src, i, '\n') == i + |line| && src[i..i + |line|] == line && i + |line| < |src|
  {
    AtSum(src, i, line, "\n");
    AtOne(src, i + |line|, '\n');
    assert forall k :: i <= k < i + |line| ==> src[k] == line[k - i] && line[k - i] in line;
  }

  lemma SkipLine(src: string, i: nat, h: Heredoc, line: string)
    requires At(src, i, line + "\n") && '\n' !in line
    ensures SkipBody(src, i, h) == if Closes(h, line) then i + |line| + 1 else SkipBody(src, i + |line| + 1, h)
  {
    hide SkipBody, Closes, FindFrom, At;
    SkipStep(src, i, h);
    LineEnds(src, i, line);
  }

  lemma {:induction false} SkipStopsBehind(src: string, i: nat, h: Heredoc, body: Body)
    requires At(src, i, BodyText(body)) && Fills(body, h)
    ensures SkipBody(src, i, h) == i + |BodyText(body)|
    decreases |body.lines|
  {
    hide At, Closes, SkipBody;
    if body.lines == [] {
      assert BodyText(body) == body.last + "\n";
      SkipLine(src, i, h, body.last);
    } else {
      var line, rest := body.lines[0], Body(body.lines[1..], body.last);
      assert BodyText(body) == (line + "\n") + BodyText(rest);
      AtSum(src, i, line + "\n", BodyText(rest));
      assert IsLine(h, line);
      SkipLine(src, i, h, line);
      SkipStopsBehind(src, i + |line| + 1, h, rest);
    }
  }

  lemma {:induction false} SkipsStopBehind(src: string, i: nat, pending: seq<Heredoc>, bodies: seq<Body>)
    requires At(src, i, BodiesText(bodies)) && FillAll(bodies, pending)
    ensures SkipBodies(src, i, pending) == i + |BodiesText(bodies)|
    decreases |bodies|
  {
    hide At, Fills, SkipBody, BodyText;
    if bodies != [] {
      AtSum(src, i, BodyText(bodies[0]), BodiesText(bodies[1..]));
      SkipStopsBehind(src, i, pending[0], bodies[0]);
      SkipsStopBehind(src, i + |BodyText(bodies[0])|, pending[1..], bodies[1..]);
    }
  }

  // --------------------------------------- a run reads only what is ahead of it

  /** The two texts agree from the character before these places on. */
  ghost predicate Agree(a: string, i: nat, b: string, j: nat) {
    i > 0 && j > 0 && |a| - i == |b| - j && forall k :: i - 1 <= k < |a| ==> a[k] == b[k - i + j]
  }

  lemma AgreeOn(a: string, i: nat, b: string, j: nat, n: nat)
    requires Agree(a, i, b, j)
    ensures Agree(a, i + n, b, j + n)
  {
  }

  lemma SameText(a: string, i: nat, b: string, j: nat, from: nat, to: nat)
    requires Agree(a, i, b, j) && from <= to && i + to <= |a|
    ensures a[i + from..i + to] == b[j + from..j + to]
  {
    assert forall k :: i + from <= k < i + to ==> a[k] == b[k - i + j];
  }

  lemma {:induction false} FindAgrees(a: string, i: nat, b: string, j: nat, c: char)
    requires Agree(a, i, b, j) && i <= |a|
    ensures FindFrom(a, i, c) - i == FindFrom(b, j, c) - j
    decreases |a| - i
  {
    if i < |a| {
      FindAgrees(a, i + 1, b, j + 1, c);
    }
  }

  lemma {:induction false} BlanksAgree(a: string, i: nat, b: string, j: nat)
    requires Agree(a, i, b, j) && i <= |a|
    ensures SkipBlanks(a, i) - i == SkipBlanks(b, j) - j
    decreases |a| - i
  {
    if i < |a| {
      BlanksAgree(a, i + 1, b, j + 1);
    }
  }

  lemma {:induction false} DelimsAgree(a: string, i: nat, b: string, j: nat)
    requires Agree(a, i, b, j) && i <= |a|
    ensures DelimEnd(a, i) - i == DelimEnd(b, j) - j
    decreases |a| - i
  {
    hide StopsHeredoc;
    if i < |a| {
      DelimsAgree(a, i + 1, b, j + 1);
    }
  }

  lemma WordAgrees(a: string, i: nat, b: string, j: nat, m: nat)
    requires Agree(a, i, b, j) && i + m <= |a|
    ensures j + m <= |b| && DelimEnd(a, i + m) - i == DelimEnd(b, j + m) - j
    ensures a[i + m..DelimEnd(a, i + m)] == b[j + m..DelimEnd(b, j + m)]
  {
    hide DelimEnd, Agree;
    SameEnd(a, i, b, j);
    AgreeOn(a, i, b, j, m);
    DelimsAgree(a, i + m, b, j + m);
    SameText(a, i, b, j, m, DelimEnd(a, i + m) - i);
  }

  lemma HeredocsAgree(l: State, a: string, i: nat, b: string, j: nat)
    requires Agree(a, i, b, j) && i <= |a|
    ensures ReadHeredoc(l, a, i).0 == ReadHeredoc(l, b, j).0 && ReadHeredoc(l, a, i).1 - i == ReadHeredoc(l, b, j).1 - j
  {
    hide WithoutQuotes, Agree, DelimEnd, SkipBlanks;
    SameEnd(a, i, b, j);
    if i < |a| {
      Neighbours(a, i, b, j);
    }
    var n := if i < |a| && a[i] == '-' then 1 else 0;
    AgreeOn(a, i, b, j, n);
    BlanksAgree(a, i + n, b, j + n);
    WordAgrees(a, i, b, j, SkipBlanks(a, i + n) - i);
  }

  lemma SameEnd(a: string, i: nat, b: string, j: nat)
    requires Agree(a, i, b, j)
    ensures |a| - i == |b| - j
  {
  }

  lemma {:induction false} SkipAgrees(a: string, i: nat, b: string, j: nat, h: Heredoc)
    requires Agree(a, i, b, j)
    ensures SkipBody(a, i, h) - i == SkipBody(b, j, h) - j
    decreases |a| - i
  {
    hide SkipBody, Agree, Closes, FindFrom;
    SkipStep(a, i, h);
    SkipStep(b, j, h);
    SameEnd(a, i, b, j);
    if i < |a| {
      FindAgrees(a, i, b, j, '\n');
      var n := FindFrom(a, i, '\n') - i;
      SameText(a, i, b, j, 0, n);
      AgreeOn(a, i, b, j, n + 1);
      SkipAgrees(a, i + n + 1, b, j + n + 1, h);
    }
  }

  lemma {:induction false} SkipsAgree(a: string, i: nat, b: string, j: nat, pending: seq<Heredoc>)
    requires Agree(a, i, b, j)
    ensures SkipBodies(a, i, pending) - i == SkipBodies(b, j, pending) - j
    decreases |pending|
  {
    hide SkipBody;
    if pending != [] {
      SkipAgrees(a, i, b, j, pending[0]);
      var n := SkipBody(a, i, pending[0]) - i;
      AgreeOn(a, i, b, j, n);
      SkipsAgree(a, i + n, b, j + n, pending[1..]);
    }
  }

  lemma AtAgrees(a: string, i: nat, b: string, j: nat, text: string)
    requires Agree(a, i, b, j)
    ensures At(a, i, text) <==> At(b, j, text)
  {
    if i + |text| <= |a| {
      SameText(a, i, b, j, 0, |text|);
    }
  }

  lemma TurnAgrees(a: string, i: nat, b: string, j: nat, l: State, quote: Quote)
    requires Agree(a, i, b, j) && i < |a|
    ensures var s, t := Turn(a, i, l, quote), Turn(b, j, l, quote);
            s.0 == t.0 && s.1 == t.1 && s.2 - i == t.2 - j
  {
    hide Agree, EndCommand, EndToken, ReadHeredoc, SkipBodies, FindFrom, At;
    Neighbours(a, i, b, j);
    AgreeOn(a, i, b, j, 1);
    FindAgrees(a, i + 1, b, j + 1, '\n');
    SkipsAgree(a, i + 1, b, j + 1, EndCommand(l).pending);
    AtAgrees(a, i, b, j, "<<<");
    AtAgrees(a, i, b, j, "<<");
    if At(a, i, "<<") {
      AtFits(a, i, "<<");
      AgreeOn(a, i, b, j, 2);
      HeredocsAgree(l, a, i + 2, b, j + 2);
    }
  }

  lemma AtFits(src: string, i: nat, text: string)
    requires At(src, i, text)
    ensures i + |text| <= |src|
  {
  }

  lemma Neighbours(a: string, i: nat, b: string, j: nat)
    requires Agree(a, i, b, j) && i < |a|
    ensures i > 0 && j > 0 && |a| - i == |b| - j && a[i - 1] == b[j - 1] && a[i] == b[j] && (i + 1 < |a| ==> a[i + 1] == b[j + 1])
  {
    assert a[i - 1] == b[i - 1 - i + j];
    assert i + 1 < |a| ==> a[i + 1] == b[i + 1 - i + j];
  }

  lemma {:induction false} RunAgrees(a: string, i: nat, b: string, j: nat, l: State, quote: Quote)
    requires Agree(a, i, b, j)
    ensures Run(a, i, l, quote) == Run(b, j, l, quote)
    decreases |a| - i
  {
    hide Turn;
    if i < |a| && |l.cmds| < MAX_SIMPLE {
      TurnAgrees(a, i, b, j, l, quote);
      var (m, q, next) := Turn(a, i, l, quote);
      AgreeOn(a, i, b, j, next - i);
      RunAgrees(a, next, b, j + (next - i), m, q);
    }
  }

  // ------------------------------------------------------------- bodies are silent

  /** At the end of a line that opened heredocs, the run goes on as if their
      bodies were not there: the commands are those of the text behind them. */
  lemma BodiesAreSilent(src: string, i: nat, l: State, bodies: seq<Body>, tail: string)
    requires i < |src| && src[i..] == "\n" + BodiesText(bodies) + tail && |l.cmds| < MAX_SIMPLE
    requires FillAll(bodies, EndCommand(l).pending)
    ensures Run(src, i, l, NoQuote) == Run("\n" + tail, 1, EndCommand(l).(pending := []), NoQuote)
  {
    hide SkipBodies, EndCommand, FillAll, BodiesText, Turn, Run;
    var text := BodiesText(bodies);
    var ahead := src[i..];
    assert src[i] == ahead[0] == '\n' && |src| == i + 1 + |text| + |tail|;
    assert ahead == "\n" + (text + tail) && ahead[1..] == text + tail && src[i + 1..] == ahead[1..];
    assert src[i + 1..i + 1 + |text|] == src[i + 1..][..|text|] == text;
    SkipsStopBehind(src, i + 1, EndCommand(l).pending, bodies);
    NewlineTurn(src, i, l);
    var next := i + 1 + |text|;
    if |text| > 0 {
      EndsInNewline(bodies);
      assert src[next - 1] == src[i + 1..next][|text| - 1];
    }
    assert src[next..] == src[i + 1..][|text|..] == tail;
    BehindAgrees(src, next, tail);
    RunAgrees(src, next, "\n" + tail, 1, EndCommand(l).(pending := []), NoQuote);
  }

  lemma BehindAgrees(src: string, next: nat, tail: string)
    requires 0 < next <= |src| && src[next - 1] == '\n' && src[next..] == tail
    ensures Agree(src, next, "\n" + tail, 1)
  {
    var b := "\n" + tail;
    assert |src| - next == |tail|;
    forall k | next - 1 <= k < |src|
      ensures src[k] == b[k - next + 1]
    {
      if k >= next {
        assert src[k] == src[next..][k - next] && b[k - next + 1] == tail[k - next];
      }
    }
  }

  lemma NewlineTurn(src: string, i: nat, l: State)
    requires i < |src| && src[i] == '\n' && |l.cmds| < MAX_SIMPLE
    ensures Run(src, i, l, NoQuote) == Run(src, Least(SkipBodies(src, i + 1, EndCommand(l).pending), |src|), EndCommand(l).(pending := []), NoQuote)
  {
    hide EndCommand, SkipBodies;
  }

  lemma {:induction false} EndsInNewline(bodies: seq<Body>)
    ensures BodiesText(bodies) != "" ==> BodiesText(bodies)[|BodiesText(bodies)| - 1] == '\n'
    decreases |bodies|
  {
    if bodies != [] {
      EndsInNewline(bodies[1..]);
    }
  }

  /** From the end of a line on, two texts that differ only in the bodies of its
      heredocs hold the same commands. */
  lemma BodiesDoNotMatter(head: string, l: State, one: seq<Body>, two: seq<Body>, tail: string)
    requires |l.cmds| < MAX_SIMPLE && FillAll(one, EndCommand(l).pending) && FillAll(two, EndCommand(l).pending)
    ensures Run(head + ("\n" + BodiesText(one) + tail), |head|, l, NoQuote) == Run(head + ("\n" + BodiesText(two) + tail), |head|, l, NoQuote)
  {
    hide FillAll, EndCommand, Run, BodiesText;
    BodiesAreSilent(head + ("\n" + BodiesText(one) + tail), |head|, l, one, tail);
    BodiesAreSilent(head + ("\n" + BodiesText(two) + tail), |head|, l, two, tail);
  }

  // ------------------------------------------------------------ two whole texts

  datatype Arrival = Missed | Arrived(l: State, quote: Quote)

  /** How the lexer stands when it comes to place n, if it does not jump over it. */
  function Arrive(src: string, i: nat, l: State, quote: Quote, n: nat): Arrival
    requires n <= |src|
    decreases if i < n then n - i else 0
  {
    if i > n then Missed
    else if i == n then Arrived(l, quote)
    else if |l.cmds| >= MAX_SIMPLE then Missed
    else
      var (m, q, j) := Turn(src, i, l, quote);
      Arrive(src, j, m, q, n)
  }

  lemma {:induction false} RunArrives(src: string, i: nat, l: State, quote: Quote, n: nat)
    requires n <= |src| && Arrive(src, i, l, quote, n).Arrived?
    ensures var x := Arrive(src, i, l, quote, n); Run(src, i, l, quote) == Run(src, n, x.l, x.quote)
    decreases if i < n then n - i else 0
  {
    hide Turn;
    if i < n {
      var (m, q, j) := Turn(src, i, l, quote);
      RunArrives(src, j, m, q, n);
    }
  }

  /** The two texts agree up to place n, where both end a line. */
  ghost predicate SameLines(a: string, b: string, n: nat) {
    n < |a| && n < |b| && a[..n + 1] == b[..n + 1] && a[n] == '\n'
  }

  lemma SameChar(a: string, b: string, n: nat, i: nat)
    requires SameLines(a, b, n) && i <= n
    ensures a[i] == b[i] && (i == n ==> a[i] == '\n') && n < |a| && n < |b|
  {
    assert a[i] == a[..n + 1][i] && b[i] == b[..n + 1][i];
  }

  lemma SamePart(a: string, b: string, n: nat, i: nat, j: nat)
    requires SameLines(a, b, n) && i <= j <= n + 1
    ensures a[i..j] == b[i..j]
  {
    assert a[i..j] == a[..n + 1][i..j] && b[i..j] == b[..n + 1][i..j];
  }

  lemma {:induction false} SameFind(a: string, b: string, n: nat, i: nat)
    requires SameLines(a, b, n) && i <= n
    ensures FindFrom(a, i, '\n') == FindFrom(b, i, '\n') <= n
    decreases n - i
  {
    SameChar(a, b, n, i);
    if i < n {
      SameFind(a, b, n, i + 1);
    }
  }

  lemma {:induction false} SameBlanks(a: string, b: string, n: nat, i: nat)
    requires SameLines(a, b, n) && i <= n
    ensures SkipBlanks(a, i) == SkipBlanks(b, i) <= n
    decreases n - i
  {
    SameChar(a, b, n, i);
    if i < n {
      SameBlanks(a, b, n, i + 1);
    }
  }

  lemma {:induction false} SameDelim(a: string, b: string, n: nat, i: nat)
    requires SameLines(a, b, n) && i <= n
    ensures DelimEnd(a, i) == DelimEnd(b, i) <= n
    decreases n - i
  {
    SameChar(a, b, n, i);
    if i < n {
      SameDelim(a, b, n, i + 1);
    }
  }

  lemma SameHeredoc(a: string, b: string, n: nat, l: State, i: nat)
    requires SameLines(a, b, n) && i <= n
    ensures ReadHeredoc(l, a, i) == ReadHeredoc(l, b, i)
  {
    hide WithoutQuotes, SameLines, SkipBlanks, DelimEnd;
    SameChar(a, b, n, i);
    var start := if a[i] == '-' then i + 1 else i;
    SameBlanks(a, b, n, start);
    var word := SkipBlanks(a, start);
    SameDelim(a, b, n, word);
    SamePart(a, b, n, word, DelimEnd(a, word));
  }

  lemma {:induction false} SameSkip(a: string, b: string, n: nat, i: nat, h: Heredoc)
    requires SameLines(a, b, n) && i <= n
    ensures SkipBody(a, i, h) == SkipBody(b, i, h) || (SkipBody(a, i, h) > n && SkipBody(b, i, h) > n)
    decreases n - i
  {
    hide SkipBody, Closes, FindFrom, SameLines;
    SameChar(a, b, n, i);
    SkipStep(a, i, h);
    SkipStep(b, i, h);
    SameFind(a, b, n, i);
    var end := FindFrom(a, i, '\n');
    SamePart(a, b, n, i, end);
    if end < n {
      SameSkip(a, b, n, end + 1, h);
    }
  }

  lemma {:induction false} SameSkips(a: string, b: string, n: nat, i: nat, pending: seq<Heredoc>)
    requires SameLines(a, b, n) && i <= n
    ensures SkipBodies(a, i, pending) == SkipBodies(b, i, pending) || (SkipBodies(a, i, pending) > n && SkipBodies(b, i, pending) > n)
    decreases |pending|
  {
    hide SkipBody, SameLines;
    if pending != [] {
      SameSkip(a, b, n, i, pending[0]);
      if SkipBody(a, i, pending[0]) <= n {
        SameSkips(a, b, n, SkipBody(a, i, pending[0]), pending[1..]);
      }
    }
  }

  lemma NotInside(src: string, i: nat, text: string, n: nat)
    requires At(src, i, text) && '\n' !in text && i <= n < |src|
    ensures n < i + |text| ==> src[n] != '\n'
  {
    if n < i + |text| {
      assert src[n] == text[n - i] && text[n - i] in text;
    }
  }

  lemma SameAt(a: string, b: string, n: nat, i: nat, text: string)
    requires SameLines(a, b, n) && i <= n && '\n' !in text
    ensures At(a, i, text) <==> At(b, i, text)
    ensures At(a, i, text) ==> i + |text| <= n
  {
    SameChar(a, b, n, n);
    if i + |text| <= n {
      SamePart(a, b, n, i, i + |text|);
    }
    if At(a, i, text) {
      NotInside(a, i, text, n);
    }
    if At(b, i, text) {
      NotInside(b, i, text, n);
    }
  }

  lemma SameNear(a: string, b: string, n: nat, i: nat)
    requires SameLines(a, b, n) && i < n
    ensures n < |a| && n < |b| && a[i] == b[i] && a[i + 1] == b[i + 1] && (i > 0 ==> a[i - 1] == b[i - 1])
  {
    SameChar(a, b, n, i);
    SameChar(a, b, n, i + 1);
    if i > 0 {
      SameChar(a, b, n, i - 1);
    }
  }

  /** A turn that starts before the line's end does the same in both texts, or goes
      past it in both. */
  lemma SameTurn(a: string, b: string, n: nat, i: nat, l: State, quote: Quote)
    requires SameLines(a, b, n) && i < n && n < |a| && n < |b|
    ensures Turn(a, i, l, quote) == Turn(b, i, l, quote) || (Turn(a, i, l, quote).2 > n && Turn(b, i, l, quote).2 > n)
  {
    hide SameLines, EndCommand, EndToken, ReadHeredoc, SkipBodies, FindFrom, At;
    SameNear(a, b, n, i);
    SameFind(a, b, n, i + 1);
    SameSkips(a, b, n, i + 1, EndCommand(l).pending);
    SameAt(a, b, n, i, "<<<");
    SameAt(a, b, n, i, "<<");
    if At(a, i, "<<") {
      SameHeredoc(a, b, n, l, i + 2);
    }
  }

  lemma {:induction false} SameArrival(a: string, b: string, n: nat, i: nat, l: State, quote: Quote)
    requires SameLines(a, b, n) && n < |a| && n < |b|
    ensures Arrive(a, i, l, quote, n) == Arrive(b, i, l, quote, n)
    decreases if i < n then n - i else 0
  {
    hide Turn, SameLines;
    if i < n && |l.cmds| < MAX_SIMPLE {
      SameTurn(a, b, n, i, l, quote);
      var (m, q, j) := Turn(a, i, l, quote);
      SameArrival(a, b, n, j, m, q);
    }
  }

  lemma AgreeToNewline(head: string, rest: string)
    ensures SameLines(head + "\n", head + ("\n" + rest), |head|)
  {
    var a, b := head + "\n", head + ("\n" + rest);
    assert a[..|head| + 1] == a && b[..|head| + 1] == a;
  }

  lemma RunFull(src: string, i: nat, l: State)
    requires |l.cmds| >= MAX_SIMPLE
    ensures Run(src, i, l, NoQuote) == EndCommand(l).cmds
  {
  }

  /** Two texts that differ only in heredoc bodies lex to the same commands: the
      lexer comes to the end of `head` outside quotes, the heredocs it has open
      there have these bodies or those, and neither text is cut. */
  lemma LexIgnoresBodies(head: string, one: seq<Body>, two: seq<Body>, tail: string)
    requires var x := Arrive(head + "\n", 0, START, NoQuote, |head|);
             x.Arrived? && x.quote == NoQuote && FillAll(one, EndCommand(x.l).pending) && FillAll(two, EndCommand(x.l).pending)
    requires |head + ("\n" + BodiesText(one) + tail)| <= MAX_INPUT && |head + ("\n" + BodiesText(two) + tail)| <= MAX_INPUT
    ensures Lex(head + ("\n" + BodiesText(one) + tail)) == Lex(head + ("\n" + BodiesText(two) + tail))
  {
    hide Arrive, FillAll, EndCommand, BodiesText, Run, SameLines;
    var a, b := head + ("\n" + BodiesText(one) + tail), head + ("\n" + BodiesText(two) + tail);
    assert "\n" + BodiesText(one) + tail == "\n" + (BodiesText(one) + tail) && "\n" + BodiesText(two) + tail == "\n" + (BodiesText(two) + tail);
    var x := Arrive(head + "\n", 0, START, NoQuote, |head|);
    AgreeToNewline(head, BodiesText(one) + tail);
    AgreeToNewline(head, BodiesText(two) + tail);
    SameArrival(head + "\n", a, |head|, 0, START, NoQuote);
    SameArrival(head + "\n", b, |head|, 0, START, NoQuote);
    RunArrives(a, 0, START, NoQuote, |head|);
    RunArrives(b, 0, START, NoQuote, |head|);
    if |x.l.cmds| < MAX_SIMPLE {
      BodiesDoNotMatter(head, x.l, one, two, tail);
    } else {
      RunFull(a, |head|, x.l);
      RunFull(b, |head|, x.l);
    }
  }

  lemma AtEnd(src: string, i: nat, h: Heredoc)
    requires i >= |src|
    ensures SkipBody(src, i, h) == i
  {
  }

  lemma RestOfLine(src: string, i: nat, h: Heredoc, rest: string)
    requires i <= |src| && src[i..] == rest && IsLine(h, rest)
    ensures SkipBody(src, i, h) >= |src|
  {
    assert forall k :: i <= k < |src| ==> src[k] == rest[k - i] && rest[k - i] in rest;
    if i < |src| {
      assert FindFrom(src, i, '\n') == |src|;
      assert src[i..|src|] == rest;
    }
  }

  lemma {:induction false} UnclosedSkips(src: string, i: nat, h: Heredoc, lines: seq<string>, rest: string)
    requires i <= |src| && src[i..] == LinesText(lines) + rest
    requires (forall line <- lines :: IsLine(h, line)) && IsLine(h, rest)
    ensures SkipBody(src, i, h) >= |src|
    decreases |lines|
  {
    hide Closes, SkipBody;
    if lines == [] {
      RestOfLine(src, i, h, rest);
    } else {
      var line, more := lines[0], LinesText(lines[1..]) + rest;
      assert IsLine(h, line);
      assert src[i..] == (line + "\n") + more;
      assert src[i..i + |line| + 1] == src[i..][..|line| + 1] == line + "\n";
      assert At(src, i, line + "\n");
      SkipLine(src, i, h, line);
      assert src[i + |line| + 1..] == src[i..][|line| + 1..] == more;
      UnclosedSkips(src, i + |line| + 1, h, lines[1..], rest);
    }
  }

  lemma {:induction false} SkipsStayPast(src: string, i: nat, pending: seq<Heredoc>)
    requires i >= |src|
    ensures SkipBodies(src, i, pending) == i
    decreases |pending|
  {
    if pending != [] {
      AtEnd(src, i, pending[0]);
      SkipsStayPast(src, i, pending[1..]);
    }
  }

  lemma EndedTwice(l: State)
    ensures EndCommand(EndCommand(l).(pending := [])).cmds == EndCommand(l).cmds
  {
  }

  /** A heredoc no line closes swallows the rest of the text: the commands are
      those of the line that opened it and before. */
  lemma UnclosedSwallows(src: string, i: nat, l: State, lines: seq<string>, rest: string)
    requires i < |src| && src[i..] == "\n" + (LinesText(lines) + rest) && |l.cmds| < MAX_SIMPLE
    requires var pending := EndCommand(l).pending; pending != [] && (forall line <- lines :: IsLine(pending[0], line)) && IsLine(pending[0], rest)
    ensures Run(src, i, l, NoQuote) == EndCommand(l).cmds
  {
    hide EndCommand, Turn, Run, IsLine, SkipBody, LinesText;
    var pending := EndCommand(l).pending;
    var ahead := src[i..];
    assert src[i] == ahead[0] == '\n' && src[i + 1..] == ahead[1..] == LinesText(lines) + rest;
    NewlineTurn(src, i, l);
    UnclosedSkips(src, i + 1, pending[0], lines, rest);
    SkipsStayPast(src, SkipBody(src, i + 1, pending[0]), pending[1..]);
    RunEnds(src, |src|, EndCommand(l).(pending := []));
    EndedTwice(l);
  }
}

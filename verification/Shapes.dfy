/** Naming simple commands: which one a call is judged by, and why a printed
    shape can only ever hold text of the tables. */
module Shapes {
  import opened ShellLexer

  datatype Class = Other | Low | Known

  /** A simple command: its shape as tokens, and the words its key is made of. */
  datatype Segment = Segment(shape: seq<string>, class_: Class, words: seq<string>)

  /** The tables of words, flags, aliases and flag clusters. */
  datatype Tables = Tables(subs: map<string, seq<string>>, plain: seq<string>, low: seq<string>, flags: map<string, seq<string>>,
                           alias: map<string, string>, clusters: map<string, string>, wrappers: set<string>, valueFlags: set<string>)

  // ------------------------------------------------------------ single words

  predicate IsLetter(c: char) {
    c == '_' || 'a' <= c <= 'z' || 'A' <= c <= 'Z'
  }

  predicate IsAssignment(w: string) {
    var e := FindFrom(w, 0, '=');
    0 < e < |w| && forall k :: 0 <= k < e ==> IsLetter(w[k]) || (k > 0 && '0' <= w[k] <= '9')
  }

  function DropSlashes(w: string): string {
    if w != "" && (w[|w| - 1] == '/' || w[|w| - 1] == '\\') then DropSlashes(w[..|w| - 1]) else w
  }

  function AfterLastSlash(w: string): string {
    if w == "" || w[|w| - 1] == '/' || w[|w| - 1] == '\\' then "" else AfterLastSlash(w[..|w| - 1]) + [w[|w| - 1]]
  }

  function CommandName(w: string): string {
    var last := AfterLastSlash(DropSlashes(w));
    if |last| >= 4 && last[|last| - 4..] == ".exe" then last[..|last| - 4] else last
  }

  predicate IsFlag(w: string) {
    StartsWith(w, '-')
  }

  function Join(words: seq<string>): string {
    if words == [] then "" else if |words| == 1 then words[0] else words[0] + " " + Join(words[1..])
  }

  // ---------------------------------------------------------------- wrappers

  function DropFlags(words: seq<string>): (r: seq<string>)
    ensures |r| <= |words|
  {
    if words != [] && IsFlag(words[0]) then DropFlags(words[1..]) else words
  }

  function DropWrappers(t: Tables, words: seq<string>): (r: seq<string>)
    ensures |r| <= |words|
    decreases |words|
  {
    if words == [] then []
    else if IsAssignment(words[0]) then DropWrappers(t, words[1..])
    else
      var name := CommandName(words[0]);
      if name !in t.wrappers then words
      else
        var rest := DropFlags(words[1..]);
        DropWrappers(t, if name == "timeout" && rest != [] then rest[1..] else rest)
  }

  predicate IsSuffix(r: seq<string>, words: seq<string>) {
    |r| <= |words| && r == words[|words| - |r|..]
  }

  lemma {:induction false} FlagsAreDropped(words: seq<string>)
    ensures IsSuffix(DropFlags(words), words)
    decreases |words|
  {
    if words != [] && IsFlag(words[0]) {
      FlagsAreDropped(words[1..]);
    }
  }

  lemma DropStep(t: Tables, words: seq<string>)
    ensures DropWrappers(t, words) ==
            if words == [] then []
            else if IsAssignment(words[0]) then DropWrappers(t, words[1..])
            else if CommandName(words[0]) !in t.wrappers then words
            else DropWrappers(t, AfterWrapper(words))
  {
  }

  /** What is left behind a wrapper and its flags. */
  function AfterWrapper(words: seq<string>): seq<string>
    requires words != []
  {
    var rest := DropFlags(words[1..]);
    if CommandName(words[0]) == "timeout" && rest != [] then rest[1..] else rest
  }

  lemma WrapperIsDropped(words: seq<string>)
    requires words != []
    ensures IsSuffix(AfterWrapper(words), words) && |AfterWrapper(words)| < |words|
  {
    hide CommandName;
    FlagsAreDropped(words[1..]);
  }

  lemma SuffixChain(r: seq<string>, s: seq<string>, words: seq<string>)
    requires IsSuffix(r, s) && IsSuffix(s, words)
    ensures IsSuffix(r, words)
  {
  }

  /** What is left ends the command, begins with a word that is neither an
      assignment nor a wrapper, and is stripped no further. */
  lemma {:induction false} StrippedMeans(t: Tables, words: seq<string>)
    ensures var r := DropWrappers(t, words);
            && IsSuffix(r, words) && DropWrappers(t, r) == r
            && (r != [] ==> !IsAssignment(r[0]) && CommandName(r[0]) !in t.wrappers)
    decreases |words|
  {
    DropStep(t, words);
    if words != [] && IsAssignment(words[0]) {
      StrippedMeans(t, words[1..]);
      assert IsSuffix(words[1..], words);
      hide IsAssignment, CommandName, DropWrappers, AfterWrapper, IsSuffix;
      SuffixChain(DropWrappers(t, words), words[1..], words);
    } else if words != [] && CommandName(words[0]) in t.wrappers {
      hide IsAssignment, CommandName, DropWrappers, AfterWrapper, IsSuffix;
      WrapperIsDropped(words);
      StrippedMeans(t, AfterWrapper(words));
      SuffixChain(DropWrappers(t, words), AfterWrapper(words), words);
    } else {
      hide IsAssignment, CommandName, DropWrappers;
    }
  }

  method StripWrappers(t: Tables, all: seq<string>) returns (words: seq<string>)
    ensures words == DropWrappers(t, all)
    ensures IsSuffix(words, all) && (words != [] ==> !IsAssignment(words[0]) && CommandName(words[0]) !in t.wrappers)
  {
    StrippedMeans(t, all);
    words := all;
    while |words| > 0
      invariant DropWrappers(t, words) == DropWrappers(t, all)
      decreases |words|
    {
      if IsAssignment(words[0]) {
        words := words[1..];
        continue;
      }
      var name := CommandName(words[0]);
      if name !in t.wrappers {
        break;
      }
      ghost var before := words;
      words := words[1..];
      while |words| > 0 && IsFlag(words[0])
        invariant |words| < |before| && DropFlags(words) == DropFlags(before[1..])
        decreases |words|
      {
        words := words[1..];
      }
      if name == "timeout" && |words| > 0 {
        words := words[1..];
      }
    }
  }

  // --------------------------------------------------------------- base shapes

  datatype Base = Base(shape: seq<string>, class_: Class, args: seq<string>)

  /** The subcommand is the first word that is no flag and no flag's value. */
  function SubShape(t: Tables, name: string, rest: seq<string>): Base
    requires name in t.subs
    decreases |rest|
  {
    if rest == [] then Base([name], Known, [])
    else if rest[0] in t.valueFlags then SubShape(t, name, if |rest| == 1 then [] else rest[2..])
    else if IsFlag(rest[0]) then SubShape(t, name, rest[1..])
    else Base(if rest[0] in t.subs[name] then [name, rest[0]] else [name], Known, rest[1..])
  }

  function BaseOf(t: Tables, name: string, rest: seq<string>): Base {
    if name in t.low then Base([name], Low, [])
    else if name in t.subs then SubShape(t, name, rest)
    else if name in t.plain then Base([name], Known, rest)
    else Base([], Other, [])
  }

  method BaseShape(t: Tables, name: string, rest: seq<string>) returns (b: Base)
    ensures b == BaseOf(t, name, rest)
  {
    if name in t.low {
      return Base([name], Low, []);
    }
    if name in t.subs {
      var i := 0;
      while i < |rest|
        invariant 0 <= i
        invariant SubShape(t, name, if i <= |rest| then rest[i..] else []) == SubShape(t, name, rest)
        decreases |rest| - i
      {
        if rest[i] in t.valueFlags {
          assert i + 2 <= |rest| ==> rest[i..][2..] == rest[i + 2..];
          i := i + 2;
        } else if IsFlag(rest[i]) {
          assert rest[i..][1..] == rest[i + 1..];
          i := i + 1;
        } else {
          assert rest[i..][1..] == rest[i + 1..];
          return Base(if rest[i] in t.subs[name] then [name, rest[i]] else [name], Known, rest[i + 1..]);
        }
      }
      return Base([name], Known, []);
    }
    if name in t.plain {
      return Base([name], Known, rest);
    }
    return Base([], Other, []);
  }

  // ---------------------------------------------------------------------- marks

  function Alias(t: Tables, base: string, w: string): string {
    var k := base + " " + w;
    if k in t.alias then t.alias[k] else w
  }

  function SeenFlags(t: Tables, base: string, args: seq<string>): set<string> {
    set a | a in args :: Alias(t, base, a)
  }

  function Present(flags: seq<string>, seen: set<string>): seq<string> {
    if flags == [] then [] else (if flags[0] in seen then [flags[0]] else []) + Present(flags[1..], seen)
  }

  function Upper(c: char): char {
    if 'a' <= c <= 'z' then c - 'a' + 'A' else c
  }

  predicate HasLetter(args: seq<string>, c: char) {
    exists a <- args :: IsFlag(a) && !(|a| >= 2 && a[1] == '-') && (c in a || Upper(c) in a)
  }

  function Letters(letters: string, args: seq<string>): string {
    if letters == "" then "" else (if HasLetter(args, letters[0]) then [letters[0]] else "") + Letters(letters[1..], args)
  }

  function FlagMarks(t: Tables, base: string, args: seq<string>): seq<string> {
    if base in t.flags then Present(t.flags[base], SeenFlags(t, base, args)) else []
  }

  function ClusterMark(t: Tables, base: string, args: seq<string>): string {
    if base in t.clusters then Letters(t.clusters[base], args) else ""
  }

  function Marks(t: Tables, base: string, args: seq<string>): seq<string> {
    FlagMarks(t, base, args) + if ClusterMark(t, base, args) != "" then ["-" + ClusterMark(t, base, args)] else []
  }

  method SeeFlags(t: Tables, base: string, args: seq<string>) returns (seen: set<string>)
    ensures seen == SeenFlags(t, base, args)
  {
    seen := {};
    var i := 0;
    while i < |args|
      invariant i <= |args| && seen == SeenFlags(t, base, args[..i])
    {
      SeenMore(t, base, args, i);
      seen := seen + {Alias(t, base, args[i])};
      i := i + 1;
    }
    assert args[..i] == args;
  }

  method PresentFlags(flags: seq<string>, seen: set<string>) returns (marks: seq<string>)
    ensures marks == Present(flags, seen)
  {
    marks := [];
    var k := 0;
    while k < |flags|
      invariant k <= |flags| && marks + Present(flags[k..], seen) == Present(flags, seen)
    {
      assert flags[k..][1..] == flags[k + 1..];
      if flags[k] in seen {
        marks := marks + [flags[k]];
      }
      k := k + 1;
    }
    assert flags[k..] == [];
  }

  method KeptLetters(letters: string, args: seq<string>) returns (kept: string)
    ensures kept == Letters(letters, args)
  {
    kept := "";
    var i := 0;
    while i < |letters|
      invariant i <= |letters| && kept + Letters(letters[i..], args) == Letters(letters, args)
    {
      assert letters[i..][1..] == letters[i + 1..];
      if HasLetter(args, letters[i]) {
        kept := kept + [letters[i]];
      }
      i := i + 1;
    }
    assert letters[i..] == "";
  }

  method ShapeMarks(t: Tables, base: string, args: seq<string>) returns (marks: seq<string>)
    ensures marks == Marks(t, base, args)
  {
    marks := [];
    if base in t.flags {
      var seen := SeeFlags(t, base, args);
      marks := PresentFlags(t.flags[base], seen);
    }
    var kept := "";
    if base in t.clusters {
      kept := KeptLetters(t.clusters[base], args);
    }
    assert marks + [] == marks;
    if kept != "" {
      marks := marks + ["-" + kept];
    }
  }

  lemma SeenMore(t: Tables, base: string, args: seq<string>, i: nat)
    requires i < |args|
    ensures SeenFlags(t, base, args[..i + 1]) == SeenFlags(t, base, args[..i]) + {Alias(t, base, args[i])}
  {
    assert args[..i + 1] == args[..i] + [args[i]];
    assert args[i] in args[..i + 1];
    forall f | f in SeenFlags(t, base, args[..i])
      ensures f in SeenFlags(t, base, args[..i + 1])
    {
      var a :| a in args[..i] && Alias(t, base, a) == f;
      assert a in args[..i + 1];
    }
  }

  // -------------------------------------------------------------------- parsing

  datatype Simple = Skipped | Simple(segment: Segment, marked: bool)

  function ParseSimple(t: Tables, all: seq<string>): Simple {
    var words := DropWrappers(t, all);
    if words == [] then Skipped
    else
      var name := CommandName(words[0]);
      var b := BaseOf(t, name, words[1..]);
      var marks := if b.class_ == Known then Marks(t, Join(b.shape), b.args) else [];
      Simple(Segment(b.shape + marks, b.class_, [name] + words[1..]), marks != [])
  }

  function ParseAll(t: Tables, cmds: seq<Command>): seq<Simple> {
    if cmds == [] then []
    else (if ParseSimple(t, cmds[0]).Simple? then [ParseSimple(t, cmds[0])] else []) + ParseAll(t, cmds[1..])
  }

  /** The command a call is judged by: the first that is marked, else the last
      known one, else the last unknown one, else the last. */
  predicate IsPrimary(all: seq<Simple>, p: int)
    requires forall k :: 0 <= k < |all| ==> all[k].Simple?
  {
    if all == [] then p == -1
    else
      && 0 <= p < |all|
      && (if exists k :: 0 <= k < |all| && all[k].marked
          then all[p].marked && forall k :: 0 <= k < p ==> !all[k].marked
          else if exists k :: 0 <= k < |all| && all[k].segment.class_ == Known
          then all[p].segment.class_ == Known && forall k :: p < k < |all| ==> all[k].segment.class_ != Known
          else if exists k :: 0 <= k < |all| && all[k].segment.class_ == Other
          then all[p].segment.class_ == Other && forall k :: p < k < |all| ==> all[k].segment.class_ != Other
          else p == |all| - 1)
  }

  function Segments(all: seq<Simple>): seq<Segment>
    requires forall k :: 0 <= k < |all| ==> all[k].Simple?
  {
    seq(|all|, k requires 0 <= k < |all| => all[k].segment)
  }

  lemma {:induction false} ParseAllMeans(t: Tables, cmds: seq<Command>)
    ensures |ParseAll(t, cmds)| <= |cmds| && forall k :: 0 <= k < |ParseAll(t, cmds)| ==> ParseAll(t, cmds)[k].Simple?
    ensures forall x <- ParseAll(t, cmds) :: exists c <- cmds :: x == ParseSimple(t, c)
    decreases |cmds|
  {
    hide ParseSimple;
    if cmds != [] {
      ParseAllMeans(t, cmds[1..]);
      forall x <- ParseAll(t, cmds)
        ensures exists c <- cmds :: x == ParseSimple(t, c)
      {
        if x in ParseAll(t, cmds[1..]) {
          var c :| c in cmds[1..] && x == ParseSimple(t, c);
          assert c in cmds;
        } else {
          assert cmds[0] in cmds;
        }
      }
    }
  }

  ghost predicate IsLastOf(segs: seq<Segment>, class_: Class, i: int) {
    -1 <= i < |segs| && (i >= 0 ==> segs[i].class_ == class_) && forall k :: i < k < |segs| ==> segs[k].class_ != class_
  }

  /** What primaryIndex answers once nothing is flagged. */
  ghost predicate IsByClass(segs: seq<Segment>, p: int) {
    exists known, other :: IsLastOf(segs, Known, known) && IsLastOf(segs, Other, other)
                           && p == if known >= 0 then known else if other >= 0 then other else |segs| - 1
  }

  method PrimaryIndex(segs: seq<Segment>, flagged: int) returns (p: int)
    requires -1 <= flagged < |segs|
    ensures flagged >= 0 ==> p == flagged
    ensures flagged < 0 ==> IsByClass(segs, p)
  {
    if flagged >= 0 {
      return flagged;
    }
    var known := LastOf(segs, Known);
    var other := LastOf(segs, Other);
    p := if known >= 0 then known else if other >= 0 then other else |segs| - 1;
  }

  method LastOf(segs: seq<Segment>, class_: Class) returns (i: int)
    ensures IsLastOf(segs, class_, i)
  {
    i := |segs| - 1;
    while i >= 0 && segs[i].class_ != class_
      invariant -1 <= i < |segs| && forall k :: i < k < |segs| ==> segs[k].class_ != class_
    {
      i := i - 1;
    }
  }

  /** What the loop has named so far, and the first of it that is marked. */
  ghost predicate Named(all: seq<Simple>, segs: seq<Segment>, flagged: int) {
    && (forall k :: 0 <= k < |all| ==> all[k].Simple?) && segs == Segments(all)
    && -1 <= flagged < |all| && (flagged >= 0 ==> all[flagged].marked)
    && forall k :: 0 <= k < (if flagged < 0 then |all| else flagged) ==> !all[k].marked
  }

  lemma NamedMore(all: seq<Simple>, segs: seq<Segment>, flagged: int, s: Simple)
    requires Named(all, segs, flagged) && s.Simple?
    ensures Named(all + [s], segs + [s.segment], if s.marked && flagged < 0 then |segs| else flagged)
  {
    assert Segments(all + [s]) == segs + [s.segment];
  }

  lemma NamedPrimary(all: seq<Simple>, segs: seq<Segment>, flagged: int, p: int)
    requires Named(all, segs, flagged)
    requires (flagged >= 0 ==> p == flagged) && (flagged < 0 ==> IsByClass(segs, p))
    ensures IsPrimary(all, p)
  {
    if flagged < 0 {
      var known, other :| IsLastOf(segs, Known, known) && IsLastOf(segs, Other, other)
                          && p == if known >= 0 then known else if other >= 0 then other else |segs| - 1;
      assert forall k :: 0 <= k < |all| ==> segs[k] == all[k].segment;
    }
  }

  /** Splits a command string and names each simple command. */
  method Parse(t: Tables, command: string) returns (segs: seq<Segment>, primary: int)
    ensures forall k :: 0 <= k < |ParseAll(t, Lex(command))| ==> ParseAll(t, Lex(command))[k].Simple?
    ensures segs == Segments(ParseAll(t, Lex(command))) && |segs| <= MAX_SIMPLE
    ensures IsPrimary(ParseAll(t, Lex(command)), primary)
  {
    hide ParseSimple, Lex, Named, IsByClass, IsPrimary;
    var cmds := LexText(command);
    LexIsBounded(command);
    ParseAllMeans(t, cmds);
    ghost var all: seq<Simple> := [];
    segs := [];
    var flagged := -1;
    NothingNamed();
    var i := 0;
    while i < |cmds|
      invariant i <= |cmds| && all + ParseAll(t, cmds[i..]) == ParseAll(t, cmds) && Named(all, segs, flagged)
    {
      assert cmds[i..][1..] == cmds[i + 1..];
      var simple := OneSimple(t, cmds[i]);
      if simple.Simple? {
        NamedMore(all, segs, flagged, simple);
        if simple.marked && flagged < 0 {
          flagged := |segs|;
        }
        segs := segs + [simple.segment];
        all := all + [simple];
      }
      i := i + 1;
    }
    assert cmds[i..] == [] && all == ParseAll(t, Lex(command));
    NamedSegments(all, segs, flagged);
    primary := PrimaryIndex(segs, flagged);
    NamedPrimary(all, segs, flagged, primary);
  }

  lemma NothingNamed()
    ensures Named([], [], -1)
  {
  }

  lemma NamedSegments(all: seq<Simple>, segs: seq<Segment>, flagged: int)
    requires Named(all, segs, flagged)
    ensures (forall k :: 0 <= k < |all| ==> all[k].Simple?) && segs == Segments(all) && |segs| == |all| && -1 <= flagged < |segs|
  {
  }

  lemma LexIsBounded(command: string)
    ensures |Lex(command)| <= MAX_SIMPLE && forall c <- Lex(command) :: c != []
  {
    RunIsBounded(Bounded(command), 0, START, NoQuote);
  }

  method OneSimple(t: Tables, all: seq<string>) returns (s: Simple)
    ensures s == ParseSimple(t, all)
  {
    var words := StripWrappers(t, all);
    if words == [] {
      return Skipped;
    }
    var name := CommandName(words[0]);
    var b := BaseShape(t, name, words[1..]);
    var shape, marks := b.shape, [];
    if b.class_ == Known {
      marks := ShapeMarks(t, Join(b.shape), b.args);
      shape := b.shape + marks;
    }
    assert b.shape + [] == b.shape;
    s := Simple(Segment(shape, b.class_, [name] + words[1..]), |marks| > 0);
  }

  // ------------------------------------------------------- only table text prints

  ghost predicate InTables(t: Tables, w: string) {
    || w in t.plain || w in t.low || w in t.subs
    || (exists name <- t.subs.Keys :: w in t.subs[name])
    || (exists base <- t.flags.Keys :: w in t.flags[base])
    || (exists k <- t.alias.Keys :: w == t.alias[k])
    || (exists base <- t.clusters.Keys :: w == "-" + t.clusters[base] || exists c <- t.clusters[base] :: w == "-" + [c])
  }

  /** The token set the tables declare. */
  method AllowedTokens(t: Tables) returns (allowed: set<string>)
    ensures forall w :: w in allowed <==> InTables(t, w)
  {
    allowed := (set w | w in t.plain) + (set w | w in t.low) + t.subs.Keys;
    allowed := allowed + (set name, w | name in t.subs && w in t.subs[name] :: w);
    allowed := allowed + (set base, w | base in t.flags && w in t.flags[base] :: w);
    allowed := allowed + (set k | k in t.alias :: t.alias[k]);
    allowed := allowed + (set base | base in t.clusters :: "-" + t.clusters[base]);
    allowed := allowed + (set base, c | base in t.clusters && c in t.clusters[base] :: "-" + [c]);
  }

  /** Whatever letters a command names, the cluster prints declared text. */
  ghost predicate PrintsOnlyTables(t: Tables, base: string) {
    forall args: seq<string> :: ClusterMark(t, base, args) != "" ==> InTables(t, "-" + ClusterMark(t, base, args))
  }

  ghost predicate AllPrintOnlyTables(t: Tables) {
    forall base <- t.clusters.Keys :: PrintsOnlyTables(t, base)
  }

  lemma {:induction false} PresentAreFlags(flags: seq<string>, seen: set<string>)
    ensures forall w <- Present(flags, seen) :: w in flags && w in seen
    decreases |flags|
  {
    if flags != [] {
      PresentAreFlags(flags[1..], seen);
    }
  }

  lemma {:induction false} LettersAreLetters(letters: string, args: seq<string>)
    ensures |Letters(letters, args)| <= |letters| && (|Letters(letters, args)| == |letters| ==> Letters(letters, args) == letters)
    ensures forall c <- Letters(letters, args) :: c in letters
    decreases |letters|
  {
    hide HasLetter;
    if letters != "" {
      LettersAreLetters(letters[1..], args);
      assert letters == [letters[0]] + letters[1..];
    }
  }

  lemma MarksAreTableText(t: Tables, base: string, args: seq<string>, w: string)
    requires AllPrintOnlyTables(t) && w in Marks(t, base, args)
    ensures InTables(t, w)
  {
    hide HasLetter, SeenFlags, Letters;
    if base in t.flags {
      PresentAreFlags(t.flags[base], SeenFlags(t, base, args));
    }
    if base in t.clusters {
      assert PrintsOnlyTables(t, base);
    }
  }

  /** A cluster of one or two letters has no part that is not declared. */
  lemma ShortIsCovered(t: Tables, base: string)
    requires base in t.clusters && |t.clusters[base]| <= 2
    ensures PrintsOnlyTables(t, base)
  {
    hide HasLetter;
    forall args: seq<string> | ClusterMark(t, base, args) != ""
      ensures InTables(t, "-" + ClusterMark(t, base, args))
    {
      var letters := ClusterMark(t, base, args);
      LettersAreLetters(t.clusters[base], args);
      if |letters| < |t.clusters[base]| {
        assert |letters| == 1 && letters == [letters[0]] && letters[0] in letters;
      }
    }
  }

  lemma {:induction false} SubShapeIsTableText(t: Tables, name: string, rest: seq<string>)
    requires name in t.subs
    ensures forall w <- SubShape(t, name, rest).shape :: InTables(t, w)
    decreases |rest|
  {
    if rest != [] {
      if rest[0] in t.valueFlags {
        SubShapeIsTableText(t, name, if |rest| == 1 then [] else rest[2..]);
      } else if IsFlag(rest[0]) {
        SubShapeIsTableText(t, name, rest[1..]);
      }
    }
  }

  /** Whatever the text, every token of every shape is declared table text, where
      every cluster prints such text only. */
  lemma ShapesHoldTableTextOnly(t: Tables, command: string, k: nat, w: string)
    requires AllPrintOnlyTables(t) && k < |ParseAll(t, Lex(command))|
    requires ParseAll(t, Lex(command))[k].Simple? && w in ParseAll(t, Lex(command))[k].segment.shape
    ensures InTables(t, w)
  {
    hide DropWrappers, Marks, SubShape, CommandName, Lex, InTables;
    var all := ParseAll(t, Lex(command));
    ParseAllMeans(t, Lex(command));
    assert all[k] in all;
    var c :| c in Lex(command) && all[k] == ParseSimple(t, c);
    var words := DropWrappers(t, c);
    var name := CommandName(words[0]);
    var b := BaseOf(t, name, words[1..]);
    if w in b.shape {
      BaseIsTableText(t, name, words[1..], w);
    } else {
      MarksAreTableText(t, Join(b.shape), b.args, w);
    }
  }

  /** The clusters the program ships. */
  const CLUSTERS := map["rm" := "rf", "git clean" := "f"]

  /** ... so with the clusters the program ships nothing of a command's own text
      can get into a shape, whatever the other tables say. */
  lemma ShippedShapesHoldTableTextOnly(t: Tables, command: string, k: nat, w: string)
    requires t.clusters == CLUSTERS && k < |ParseAll(t, Lex(command))|
    requires ParseAll(t, Lex(command))[k].Simple? && w in ParseAll(t, Lex(command))[k].segment.shape
    ensures InTables(t, w)
  {
    forall base <- t.clusters.Keys
      ensures PrintsOnlyTables(t, base)
    {
      ShortIsCovered(t, base);
    }
    ShapesHoldTableTextOnly(t, command, k, w);
  }

  lemma BaseIsTableText(t: Tables, name: string, rest: seq<string>, w: string)
    requires w in BaseOf(t, name, rest).shape
    ensures InTables(t, w)
  {
    if name !in t.low && name in t.subs {
      SubShapeIsTableText(t, name, rest);
    }
  }

  // ---------------------------------------------- when the declared set is complete

  predicate IsLower(letters: string) {
    forall c <- letters :: 'a' <= c <= 'z'
  }

  /** The letters of a cluster that are kept, in its order. */
  function Pick(letters: string, keep: set<char>): string {
    if letters == "" then "" else (if letters[0] in keep then [letters[0]] else "") + Pick(letters[1..], keep)
  }

  lemma {:induction false} PickIsPart(letters: string, keep: set<char>)
    ensures forall c <- Pick(letters, keep) :: c in letters && c in keep
    ensures forall c <- letters :: c in keep ==> c in Pick(letters, keep)
    decreases |letters|
  {
    if letters != "" {
      PickIsPart(letters[1..], keep);
      assert letters == [letters[0]] + letters[1..];
    }
  }

  lemma {:induction false} LettersArePicked(letters: string, args: seq<string>, keep: set<char>)
    requires forall c <- letters :: c in keep <==> HasLetter(args, c)
    ensures Letters(letters, args) == Pick(letters, keep)
    decreases |letters|
  {
    hide HasLetter;
    if letters != "" {
      assert letters[0] in letters && forall c <- letters[1..] :: c in letters;
      LettersArePicked(letters[1..], args, keep);
    }
  }

  /** One flag word naming some lower-case letters has those letters and no other. */
  lemma OneWordHas(part: string, c: char)
    requires IsLower(part) && 'a' <= c <= 'z'
    ensures HasLetter(["-" + part], c) <==> c in part
  {
    var w := "-" + part;
    assert [w][0] == w && w[0] == '-';
    assert |w| >= 2 ==> w[1] == part[0] && part[0] in part;
    assert forall d :: d in part ==> d != Upper(c);
    assert forall d :: d in w <==> d == '-' || d in part;
  }

  /** Any choice of a cluster's letters is what some command prints. */
  lemma EveryPickPrints(t: Tables, base: string, keep: set<char>)
    requires base in t.clusters && IsLower(t.clusters[base]) && Pick(t.clusters[base], keep) != ""
    ensures var part := Pick(t.clusters[base], keep);
            ClusterMark(t, base, ["-" + part]) == part && "-" + part in Marks(t, base, ["-" + part])
  {
    hide HasLetter;
    var letters := t.clusters[base];
    var part := Pick(letters, keep);
    PickIsPart(letters, keep);
    forall c <- letters
      ensures c in keep <==> HasLetter(["-" + part], c)
    {
      OneWordHas(part, c);
    }
    LettersArePicked(letters, ["-" + part], keep);
  }

  lemma PrintedIsPicked(t: Tables, base: string, args: seq<string>)
    requires base in t.clusters
    ensures exists keep: set<char> :: ClusterMark(t, base, args) == Pick(t.clusters[base], keep)
  {
    hide HasLetter, Letters;
    var letters := t.clusters[base];
    var keep := set c | c in letters && HasLetter(args, c);
    LettersArePicked(letters, args, keep);
  }

  /** Every choice of two letters or more, short of all, is declared on its own. */
  ghost predicate PartsAreDeclared(t: Tables, letters: string) {
    forall keep: set<char> :: 2 <= |Pick(letters, keep)| < |letters| ==> InTables(t, "-" + Pick(letters, keep))
  }

  lemma {:induction false} PickAll(letters: string, keep: set<char>)
    ensures |Pick(letters, keep)| <= |letters| && (|Pick(letters, keep)| == |letters| ==> Pick(letters, keep) == letters)
    decreases |letters|
  {
    if letters != "" {
      PickAll(letters[1..], keep);
      assert letters == [letters[0]] + letters[1..];
    }
  }

  /** A cluster prints declared text only, whatever the command, exactly when the
      tables declare each choice of several of its letters short of all. */
  lemma ClusterIsCovered(t: Tables, base: string)
    requires base in t.clusters && IsLower(t.clusters[base])
    ensures PrintsOnlyTables(t, base) <==> PartsAreDeclared(t, t.clusters[base])
  {
    hide InTables, ClusterMark, IsLower;
    var letters := t.clusters[base];
    if PrintsOnlyTables(t, base) {
      forall keep: set<char> | 2 <= |Pick(letters, keep)| < |letters|
        ensures InTables(t, "-" + Pick(letters, keep))
      {
        EveryPickPrints(t, base, keep);
      }
    }
    if PartsAreDeclared(t, letters) {
      forall args: seq<string> | ClusterMark(t, base, args) != ""
        ensures InTables(t, "-" + ClusterMark(t, base, args))
      {
        PrintedIsPicked(t, base, args);
        var keep: set<char> :| ClusterMark(t, base, args) == Pick(letters, keep);
        PickAll(letters, keep);
        PickIsPart(letters, keep);
        WholeOrOneDeclared(t, base, Pick(letters, keep));
      }
    }
  }

  lemma WholeOrOneDeclared(t: Tables, base: string, part: string)
    requires base in t.clusters && (forall c <- part :: c in t.clusters[base])
    ensures |part| == 1 || part == t.clusters[base] ==> InTables(t, "-" + part)
  {
    if |part| == 1 {
      assert part == [part[0]] && part[0] in part;
    }
  }

  /** Two letters or fewer leave nothing to declare; with three, the outer pair
      prints and no table holds it. */
  lemma LongClusterEscapes(t: Tables)
    requires t == Tables(map[], ["x"], [], map[], map[], map["x" := "abc"], {}, {})
    ensures !PrintsOnlyTables(t, "x") && ClusterMark(t, "x", ["-ac"]) == "ac" && !InTables(t, "-ac")
  {
    hide HasLetter, ClusterMark, Marks;
    var keep := {'a', 'c'};
    OuterPicks(keep);
    EveryPickPrints(t, "x", keep);
    assert "-" + "ac" == "-ac";
    assert |"-" + "abc"| == 4 && |"-ac"| == 3;
  }

  lemma OuterPicks(keep: set<char>)
    requires keep == {'a', 'c'}
    ensures Pick("abc", keep) == "ac" && IsLower("abc")
  {
    assert "abc"[1..] == "bc" && "bc"[1..] == "c" && "c"[1..] == "";
    assert Pick("c", keep) == "c" && Pick("bc", keep) == "c";
  }
}

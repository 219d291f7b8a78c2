/** How a simple command gets its name, its subcommand and its marks, said over the
    words of the command. */
module ShapeLaws {
  import opened ShellLexer
  import opened ShellLaws
  import opened Shapes

  // ------------------------------------------------------------------- one word

  ghost predicate IsName(s: string) {
    s != "" && forall k :: 0 <= k < |s| ==>
      s[k] == '_' || 'a' <= s[k] <= 'z' || 'A' <= s[k] <= 'Z' || (k > 0 && '0' <= s[k] <= '9')
  }

  /** An assignment is a name, an equals sign and anything. */
  lemma AssignmentIsNamed(w: string)
    ensures IsAssignment(w) <==> exists name: string, value: string :: IsName(name) && w == name + "=" + value
  {
    if IsAssignment(w) {
      var e := FindFrom(w, 0, '=');
      assert IsName(w[..e]) && w == w[..e] + "=" + w[e + 1..];
    }
    if name: string, value: string :| IsName(name) && w == name + "=" + value {
      assert w[|name|] == '=' && forall k :: 0 <= k < |name| ==> w[k] == name[k];
      assert FindFrom(w, 0, '=') == |name|;
    }
  }

  ghost predicate NoSlash(s: string) {
    forall k :: 0 <= k < |s| ==> s[k] != '/' && s[k] != '\\'
  }

  ghost predicate AllSlashes(s: string) {
    forall k :: 0 <= k < |s| ==> s[k] == '/' || s[k] == '\\'
  }

  lemma {:induction false} TrailingSlashesGo(s: string, tail: string)
    requires AllSlashes(tail) && (s == "" || (s[|s| - 1] != '/' && s[|s| - 1] != '\\'))
    ensures DropSlashes(s + tail) == s
    decreases |tail|
  {
    if tail == "" {
      assert s + tail == s;
    } else {
      var n := |tail| - 1;
      assert (s + tail)[..|s| + n] == s + tail[..n];
      TrailingSlashesGo(s, tail[..n]);
    }
  }

  lemma LastOfName(w: string)
    requires w != "" && w[|w| - 1] != '/' && w[|w| - 1] != '\\'
    ensures AfterLastSlash(w) == AfterLastSlash(w[..|w| - 1]) + [w[|w| - 1]]
  {
  }

  lemma {:induction false} LastPartStays(dir: string, base: string)
    requires NoSlash(base) && (dir == "" || dir[|dir| - 1] == '/' || dir[|dir| - 1] == '\\')
    ensures AfterLastSlash(dir + base) == base
    decreases |base|
  {
    if base == "" {
      assert dir + base == dir;
    } else {
      var n := |base| - 1;
      var w := dir + base;
      assert w[..|w| - 1] == dir + base[..n] && w[|w| - 1] == base[n];
      LastPartStays(dir, base[..n]);
      LastOfName(w);
      assert base == base[..n] + [base[n]];
    }
  }

  /** A command is named by the last part of its path, without .exe. */
  lemma CommandIsLastPart(dir: string, base: string, tail: string)
    requires base != "" && NoSlash(base) && AllSlashes(tail) && (dir == "" || dir[|dir| - 1] == '/' || dir[|dir| - 1] == '\\')
    ensures forall stem: string :: base == stem + ".exe" ==> CommandName(dir + base + tail) == stem
    ensures (forall stem: string :: base != stem + ".exe") ==> CommandName(dir + base + tail) == base
  {
    TrailingSlashesGo(dir + base, tail);
    LastPartStays(dir, base);
    if |base| >= 4 && base[|base| - 4..] == ".exe" {
      assert base == base[..|base| - 4] + ".exe";
    }
    forall stem: string | base == stem + ".exe"
      ensures |base| >= 4 && base[|base| - 4..] == ".exe" && base[..|base| - 4] == stem
    {
    }
  }

  // ------------------------------------------------------------------- wrappers

  ghost predicate AreFlags(words: seq<string>) {
    forall k :: 0 <= k < |words| ==> words[k] != "" && words[k][0] == '-'
  }

  lemma {:induction false} FlagsGo(flags: seq<string>, rest: seq<string>)
    requires AreFlags(flags) && (rest == [] || rest[0] == "" || rest[0][0] != '-')
    ensures DropFlags(flags + rest) == rest
    decreases |flags|
  {
    if flags == [] {
      assert flags + rest == rest;
    } else {
      assert (flags + rest)[1..] == flags[1..] + rest;
      FlagsGo(flags[1..], rest);
    }
  }

  /** An assignment in front of a command is not part of it. */
  lemma AssignmentGoes(t: Tables, w: string, rest: seq<string>)
    requires IsAssignment(w)
    ensures DropWrappers(t, [w] + rest) == DropWrappers(t, rest)
  {
    assert ([w] + rest)[1..] == rest;
  }

  /** A wrapper goes with its flags, and timeout with the word behind them. */
  lemma WrapperGoes(t: Tables, w: string, flags: seq<string>, rest: seq<string>)
    requires !IsAssignment(w) && CommandName(w) in t.wrappers
    requires AreFlags(flags) && (rest == [] || rest[0] == "" || rest[0][0] != '-')
    ensures DropWrappers(t, [w] + flags + rest) == DropWrappers(t, if CommandName(w) == "timeout" && rest != [] then rest[1..] else rest)
  {
    hide IsAssignment, CommandName;
    assert ([w] + flags + rest)[1..] == flags + rest;
    FlagsGo(flags, rest);
    hide DropFlags;
  }

  /** Any other word stays, with all that follows it. */
  lemma CommandStays(t: Tables, w: string, rest: seq<string>)
    requires !IsAssignment(w) && CommandName(w) !in t.wrappers
    ensures DropWrappers(t, [w] + rest) == [w] + rest
  {
    hide IsAssignment, CommandName;
  }

  // ---------------------------------------------------------------- subcommands

  /** Flags, each with its value where it takes one. */
  ghost predicate AreOptions(t: Tables, words: seq<string>)
    decreases |words|
  {
    || words == []
    || (words[0] in t.valueFlags && |words| >= 2 && AreOptions(t, words[2..]))
    || (words[0] !in t.valueFlags && words[0] != "" && words[0][0] == '-' && AreOptions(t, words[1..]))
  }

  lemma FrontGoes(a: seq<string>, b: seq<string>, n: nat)
    requires n <= |a|
    ensures (a + b)[n..] == a[n..] + b && (n > 0 ==> (a + b)[0] == a[0]) && |a + b| == |a| + |b|
  {
  }

  /** The subcommand is the first word behind the options, whatever it looks like to
      the reader; it is named if the table has it, and what follows are the arguments. */
  lemma {:induction false} SubcommandIsFirstWord(t: Tables, name: string, options: seq<string>, sub: string, args: seq<string>)
    requires name in t.subs && AreOptions(t, options) && sub !in t.valueFlags && (sub == "" || sub[0] != '-')
    ensures SubShape(t, name, options + ([sub] + args)) == Base(if sub in t.subs[name] then [name, sub] else [name], Known, args)
    decreases |options|
  {
    var rest := options + ([sub] + args);
    if options == [] {
      assert rest == [sub] + args && ([sub] + args)[1..] == args;
    } else if options[0] in t.valueFlags {
      FrontGoes(options, [sub] + args, 2);
      SubcommandIsFirstWord(t, name, options[2..], sub, args);
    } else {
      FrontGoes(options, [sub] + args, 1);
      SubcommandIsFirstWord(t, name, options[1..], sub, args);
    }
  }

  /** Options alone name no subcommand, even when the last waits for its value. */
  lemma {:induction false} OptionsNameNothing(t: Tables, name: string, options: seq<string>, last: seq<string>)
    requires name in t.subs && AreOptions(t, options) && (last == [] || (|last| == 1 && last[0] in t.valueFlags))
    ensures SubShape(t, name, options + last) == Base([name], Known, [])
    decreases |options|
  {
    var rest := options + last;
    if options == [] {
      assert rest == last;
    } else if options[0] in t.valueFlags {
      FrontGoes(options, last, 2);
      OptionsNameNothing(t, name, options[2..], last);
    } else {
      FrontGoes(options, last, 1);
      OptionsNameNothing(t, name, options[1..], last);
    }
  }

  /** Which table a name is looked up in, and with which arguments it is marked. */
  lemma NameDecidesClass(t: Tables, name: string, rest: seq<string>)
    ensures var b := BaseOf(t, name, rest);
            && (b.class_ == Low <==> name in t.low)
            && (b.class_ == Known <==> name !in t.low && (name in t.subs || name in t.plain))
            && (b.class_ != Other ==> b.shape != [] && b.shape[0] == name)
            && (name in t.low ==> b.shape == [name] && b.args == [])
            && (name !in t.low && name in t.subs ==> b == SubShape(t, name, rest))
            && (name !in t.low && name !in t.subs && name in t.plain ==> b.shape == [name] && b.args == rest)
            && (name !in t.low && name !in t.subs && name !in t.plain ==> b.shape == [] && b.args == [])
  {
    if name in t.subs {
      SubShapeIsNamed(t, name, rest);
    }
  }

  lemma {:induction false} SubShapeIsNamed(t: Tables, name: string, rest: seq<string>)
    requires name in t.subs
    ensures SubShape(t, name, rest).class_ == Known && SubShape(t, name, rest).shape != [] && SubShape(t, name, rest).shape[0] == name
    decreases |rest|
  {
    if rest != [] {
      if rest[0] in t.valueFlags {
        SubShapeIsNamed(t, name, if |rest| == 1 then [] else rest[2..]);
      } else if IsFlag(rest[0]) {
        SubShapeIsNamed(t, name, rest[1..]);
      }
    }
  }

  // ---------------------------------------------------------------------- marks

  /** One of the arguments is this flag, by its own spelling or by its alias. */
  ghost predicate Gives(t: Tables, base: string, args: seq<string>, flag: string) {
    exists a <- args :: flag == if base + " " + a in t.alias then t.alias[base + " " + a] else a
  }

  /** The marks of a flag table are its flags that the arguments give, in its order. */
  lemma {:induction false} FlagsAreMarked(t: Tables, base: string, args: seq<string>, flags: seq<string>, more: seq<string>)
    ensures var seen := SeenFlags(t, base, args);
            && Present([], seen) == []
            && (flags != [] ==> Present(flags, seen) == (if Gives(t, base, args, flags[0]) then [flags[0]] else []) + Present(flags[1..], seen))
    ensures base in t.flags ==> FlagMarks(t, base, args) == Present(t.flags[base], SeenFlags(t, base, args))
    ensures base !in t.flags ==> FlagMarks(t, base, args) == []
  {
    if flags != [] && Gives(t, base, args, flags[0]) {
      var a :| a in args && flags[0] == if base + " " + a in t.alias then t.alias[base + " " + a] else a;
      assert Alias(t, base, a) in SeenFlags(t, base, args);
    }
  }

  /** A short flag, or several in one word, has the letter in either case. */
  ghost predicate GivesLetter(args: seq<string>, c: char) {
    exists a <- args ::
      && a != "" && a[0] == '-' && (|a| == 1 || a[1] != '-')
      && (c in a || ('a' <= c <= 'z' && c - 'a' + 'A' in a))
  }

  /** The cluster mark holds the letters given, in the cluster's order. */
  lemma LettersAreMarked(args: seq<string>, letters: string)
    ensures Letters("", args) == ""
    ensures letters != "" ==>
              Letters(letters, args) == (if GivesLetter(args, letters[0]) then [letters[0]] else "") + Letters(letters[1..], args)
  {
    if letters != "" {
      assert HasLetter(args, letters[0]) <==> GivesLetter(args, letters[0]);
      hide HasLetter, GivesLetter;
    }
  }

  // --------------------------------------------------------------- whole commands

  /** A known command is marked by its arguments, any other by none; its key is made
      of the name and all the words behind it. */
  lemma SimpleIsNamed(t: Tables, all: seq<string>)
    ensures var s, words := ParseSimple(t, all), DropWrappers(t, all);
            if words == [] then s == Skipped
            else
              var name, b := CommandName(words[0]), BaseOf(t, CommandName(words[0]), words[1..]);
              && s.Simple? && s.segment.class_ == b.class_ && s.segment.words == [name] + words[1..]
              && b.shape <= s.segment.shape && s.segment.shape[|b.shape|..] == (if b.class_ == Known then Marks(t, Join(b.shape), b.args) else [])
              && (s.marked <==> b.class_ == Known && Marks(t, Join(b.shape), b.args) != [])
  {
    hide DropWrappers, CommandName, BaseOf, Marks, Join;
  }

  lemma MarksAreFlagsThenCluster(t: Tables, base: string, args: seq<string>)
    ensures var letters := if base in t.clusters then Letters(t.clusters[base], args) else "";
            Marks(t, base, args) == FlagMarks(t, base, args) + if letters == "" then [] else ["-" + letters]
  {
    hide Letters, FlagMarks;
  }

  /** Each simple command is named in turn; those of nothing but wrappers and
      assignments are left out. */
  lemma CommandsAreNamedInTurn(t: Tables, c: Command, cmds: seq<Command>)
    ensures ParseAll(t, []) == []
    ensures ParseAll(t, [c] + cmds) == (if DropWrappers(t, c) == [] then [] else [ParseSimple(t, c)]) + ParseAll(t, cmds)
  {
    assert ([c] + cmds)[0] == c && ([c] + cmds)[1..] == cmds;
    hide DropWrappers, CommandName, BaseOf, Marks, Join;
  }
}

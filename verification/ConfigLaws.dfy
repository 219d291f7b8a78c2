/** How one line of config.toml reads, said over its letters. */
module ConfigLaws {
  import opened ConfigText
  import opened ConfigFile

  ghost predicate AllBlanks(s: Text) {
    forall k :: 0 <= k < |s| ==> s[k] == ' ' || s[k] == '\t'
  }

  ghost predicate SolidEnds(s: Text) {
    s != "" && IsSolid(s[0]) && IsSolid(s[|s| - 1])
  }

  lemma BlankFirst(w: Text)
    requires w != "" && (w[0] == ' ' || w[0] == '\t')
    ensures TrimStart(w) == TrimStart(w[1..])
  {
  }

  lemma BlankLast(w: Text)
    requires w != "" && (w[|w| - 1] == ' ' || w[|w| - 1] == '\t')
    ensures TrimEnd(w) == TrimEnd(w[..|w| - 1])
  {
  }

  lemma {:induction false} BlanksFirstGo(pad: Text, s: Text)
    requires AllBlanks(pad) && (s == "" || IsSolid(s[0]))
    ensures TrimStart(pad + s) == s
    decreases |pad|
  {
    hide TrimStart;
    if pad == "" {
      assert pad + s == s;
      if s != "" {
        SolidStaysFirst(s);
      }
    } else {
      assert (pad + s)[1..] == pad[1..] + s && (pad + s)[0] == pad[0];
      BlankFirst(pad + s);
      BlanksFirstGo(pad[1..], s);
    }
  }

  lemma {:induction false} BlanksLastGo(s: Text, pad: Text)
    requires AllBlanks(pad) && (s == "" || IsSolid(s[|s| - 1]))
    ensures TrimEnd(s + pad) == s
    decreases |pad|
  {
    hide TrimEnd;
    if pad == "" {
      assert s + pad == s;
      if s != "" {
        SolidStaysLast(s);
      }
    } else {
      var n := |pad| - 1;
      var w := s + pad;
      assert w[..|w| - 1] == s + pad[..n] && w[|w| - 1] == pad[n];
      BlankLast(w);
      BlanksLastGo(s, pad[..n]);
    }
  }

  /** Blanks around a text do not count. */
  lemma BlanksAroundGo(before: Text, s: Text, behind: Text)
    requires AllBlanks(before) && AllBlanks(behind) && SolidEnds(s)
    ensures Trim(before + s + behind) == s
  {
    assert (s + behind)[0] == s[0] && before + s + behind == before + (s + behind);
    BlanksFirstGo(before, s + behind);
    BlanksLastGo(s, behind);
  }

  /** A line of blanks sets nothing, and neither does one whose first letter is #. */
  lemma CommentsSetNothing(before: Text, s: Text, behind: Text)
    requires AllBlanks(before) && AllBlanks(behind)
    ensures EntryOf(before) == NoEntry
    ensures SolidEnds(s) && s[0] == '#' ==> EntryOf(before + s + behind) == NoEntry
    ensures SolidEnds(s) && '=' !in s ==> EntryOf(before + s + behind) == NoEntry
  {
    assert before + "" == before;
    BlanksFirstGo(before, "");
    if SolidEnds(s) {
      BlanksAroundGo(before, s, behind);
      hide Trim;
      if IndexOf(s, '=') < |s| {
        assert s[IndexOf(s, '=')] in s;
      }
    }
  }

  /** The key is what stands before the first equals sign, without the blanks around
      it; the value is all that stands behind. */
  lemma LineSetsKey(before: Text, key: Text, mid: Text, raw: Text, behind: Text)
    requires AllBlanks(before) && AllBlanks(mid) && AllBlanks(behind)
    requires SolidEnds(key) && key[0] != '#' && '=' !in key && raw != "" && IsSolid(raw[|raw| - 1])
    ensures EntryOf(before + key + mid + "=" + raw + behind) == Entry(key, raw)
  {
    var t := key + mid + "=" + raw;
    assert t[0] == key[0] && t[|t| - 1] == raw[|raw| - 1];
    assert before + t + behind == before + key + mid + "=" + raw + behind;
    BlanksAroundGo(before, t, behind);
    assert '=' !in key + mid;
    EqualsAfter(key + mid, raw);
    assert t[..|key + mid|] == key + mid && t[|key + mid| + 1..] == raw;
    assert "" + key + mid == key + mid;
    BlanksAroundGo("", key, mid);
    hide Trim, IndexOf;
  }

  /** A bare value ends at the first #, without the blanks around it. */
  lemma BareValueEndsAtComment(before: Text, val: Text, mid: Text, comment: Text)
    requires AllBlanks(before) && AllBlanks(mid) && SolidEnds(val) && val[0] != '"' && '#' !in val
    requires comment != "" ==> comment[0] == '#' && IsSolid(comment[|comment| - 1])
    ensures ParseValue(before + val + mid + comment) == val
  {
    hide Trim, IndexOf;
    var body := val + mid;
    if comment == "" {
      assert before + val + mid + comment == before + val + mid;
      BlanksAroundGo(before, val, mid);
      NoComment(val);
      BlanksAroundGo("", val, "");
      assert "" + val + "" == val;
    } else {
      var t := body + comment;
      assert t[0] == val[0] && t[|t| - 1] == comment[|comment| - 1] && "" + val + mid == body;
      assert before + t + "" == before + val + mid + comment;
      BlanksAroundGo(before, t, "");
      assert '#' !in body;
      SignAfter(body, comment);
      assert t[..|body|] == body;
      BlanksAroundGo("", val, mid);
    }
  }

  lemma NoComment(val: Text)
    requires '#' !in val
    ensures val[..IndexOf(val, '#')] == val
  {
    assert IndexOf(val, '#') == |val|;
    assert val[..|val|] == val;
  }

  lemma {:induction false} SignAfter(a: Text, comment: Text)
    requires '#' !in a && comment != "" && comment[0] == '#'
    ensures IndexOf(a + comment, '#') == |a|
    decreases |a|
  {
    var s := a + comment;
    if a != "" {
      assert s[0] == a[0] && a[0] in a && s[1..] == a[1..] + comment;
      SignAfter(a[1..], comment);
    }
  }

  /** The letters a backslash may stand before, and what they stand for; what is
      escaped by letter is read by the same one. */
  lemma EscapesByLetter(c: Byte, r: nat)
    ensures Named(c).Some? <==> c in "abfnrtv\\\""
    ensures Named('a') == Some(7 as char) && Named('b') == Some(8 as char) && Named('t') == Some(9 as char) && Named('n') == Some(10 as char)
    ensures Named('v') == Some(11 as char) && Named('f') == Some(12 as char) && Named('r') == Some(13 as char)
    ensures Named('\\') == Some('\\') && Named('"') == Some('"')
    ensures ControlLetter(r).Some? ==> r < 32 && Named(ControlLetter(r).value) == Some(r as char)
  {
  }

  /** A value that begins with ~/ is read with the home directory in its place. */
  ghost function AtHome(host: Host, val: Text): Text {
    if |val| >= 2 && val[0] == '~' && val[1] == '/' then host.home(val[2..]) else val
  }

  lemma HomeIsExpanded(host: Host, val: Text)
    ensures Expand(host, val) == AtHome(host, val)
  {
    assert |val| >= 2 ==> (val[..2] == "~/" <==> val[0] == '~' && val[1] == '/');
  }

  lemma SettingIsRead(host: Host, cfg: Config, key: Text, val: Text)
    requires key in OWNED
    ensures Apply(host, cfg, key + " = " + Quoted(host.wide, val)) == Assign(host, cfg, key, AtHome(host, val))
  {
    hide EntryOf, ParseValue, Quoted, Assign, Expand, AtHome;
    SettingMeans(host, key, val);
    ParseUndoesQuoting(host.wide, val);
    HomeIsExpanded(host, val);
  }

  /** What each setting sets, and that it sets nothing else. */
  lemma SettingsSetTheirField(host: Host, c: Config, val: Text)
    ensures var v := AtHome(host, val);
            && Assign(host, c, "vault_dir", v) ==
               Ok(Config(v, c.dataDir, c.stateDir, c.embedder, c.contextProfile, c.selfEmails, c.mmr, c.mcpWritePolicy, c.updatePolicy))
            && Assign(host, c, "data_dir", v) ==
               Ok(Config(c.vaultDir, v, c.stateDir, c.embedder, c.contextProfile, c.selfEmails, c.mmr, c.mcpWritePolicy, c.updatePolicy))
            && Assign(host, c, "state_dir", v) ==
               Ok(Config(c.vaultDir, c.dataDir, v, c.embedder, c.contextProfile, c.selfEmails, c.mmr, c.mcpWritePolicy, c.updatePolicy))
            && Assign(host, c, "embedder", v) ==
               Ok(Config(c.vaultDir, c.dataDir, c.stateDir, v, c.contextProfile, c.selfEmails, c.mmr, c.mcpWritePolicy, c.updatePolicy))
            && Assign(host, c, "context", v) ==
               Ok(Config(c.vaultDir, c.dataDir, c.stateDir, c.embedder, v, c.selfEmails, c.mmr, c.mcpWritePolicy, c.updatePolicy))
            && Assign(host, c, "mmr", v) ==
               Ok(Config(c.vaultDir, c.dataDir, c.stateDir, c.embedder, c.contextProfile, c.selfEmails, v == "true" || v == "1",
                         c.mcpWritePolicy, c.updatePolicy))
            && Assign(host, c, "self_emails", v) ==
               Ok(Config(c.vaultDir, c.dataDir, c.stateDir, c.embedder, c.contextProfile, host.list(v), c.mmr, c.mcpWritePolicy, c.updatePolicy))
  {
  }

  /** A policy is read without case and without blanks around it, and must be one of
      those known: four for writing, three for updating. */
  lemma PoliciesAreKnownWords(host: Host, c: Config, val: Text)
    ensures var p := host.lower(Trim(val));
            && Assign(host, c, "mcp_write_policy", val) ==
               (if p == "open" || p == "propose" || p == "readonly" || p == "tentative"
                then Ok(Config(c.vaultDir, c.dataDir, c.stateDir, c.embedder, c.contextProfile, c.selfEmails, c.mmr, p, c.updatePolicy))
                else BadPolicy("mcp_write_policy", val))
            && Assign(host, c, "update_policy", val) ==
               (if p == "auto" || p == "notify" || p == "off"
                then Ok(Config(c.vaultDir, c.dataDir, c.stateDir, c.embedder, c.contextProfile, c.selfEmails, c.mmr, c.mcpWritePolicy, p))
                else BadPolicy("update_policy", val))
  {
    hide Trim;
  }

  // --------------------------------------------------------- where a setting goes

  lemma {:induction false} RewrittenSum(host: Host, cfg: Config, a: seq<Text>, b: seq<Text>, written: set<Text>)
    ensures Rewritten(host, cfg, a + b, written) == Rewritten(host, cfg, a, written) + Rewritten(host, cfg, b, written + KeysIn(a))
    decreases |a|
  {
    hide EntryOf, ValueOf, Setting, Replacement, Noted, Rewritten;
    if a == [] {
      RewrittenEnd(host, cfg, a, written);
      NoKeys(a);
      assert a + b == b && a[|a|..] == a && a[..0] == a && written + {} == written;
    } else {
      assert (a + b)[0..] == a + b && (a + b)[1..] == a[1..] + b && a[0..] == a;
      RewrittenStep(host, cfg, a + b, 0, written);
      RewrittenStep(host, cfg, a, 0, written);
      RewrittenSum(host, cfg, a[1..], b, Noted(a[0], written));
      FirstNoted(a, written);
    }
  }

  lemma FirstNoted(a: seq<Text>, written: set<Text>)
    requires a != []
    ensures Noted(a[0], written) + KeysIn(a[1..]) == written + KeysIn(a)
  {
    hide EntryOf;
    forall key: Text
      ensures key in KeysIn(a) <==> key in KeysIn(a[1..]) || (IsOwned(a[0]) && EntryOf(a[0]).key == key)
    {
      if key in KeysIn(a) {
        var line :| line in a && IsOwned(line) && EntryOf(line).key == key;
        assert line == a[0] || line in a[1..];
      }
      if key in KeysIn(a[1..]) {
        var line :| line in a[1..] && IsOwned(line) && EntryOf(line).key == key;
        assert line in a;
      }
      assert a[0] in a;
    }
  }

  /** The setting stands between these lines, which are those of the user before and
      behind it; no other line sets its key. */
  ghost predicate StandsBetween(out: seq<Text>, x: seq<Text>, setting: Text, y: seq<Text>, a: seq<Text>, b: seq<Text>, key: string) {
    && out == x + [setting] + y && Unowned(x) == Unowned(a) && Unowned(y) == Unowned(b)
    && (forall line <- x + y :: !Sets(line, key))
  }

  lemma {:induction false} LastIsNone(lines: seq<Text>, key: string)
    requires Last(lines, key) == None
    ensures forall line <- lines :: !Sets(line, key)
    decreases |lines|
  {
    hide Sets;
    if lines != [] {
      var n := |lines| - 1;
      assert lines == lines[..n] + [lines[n]];
      LastIsNone(lines[..n], key);
    }
  }

  /** A setting the file holds is written where its first line stood, once. */
  lemma SettingTakesPlace(host: Host, cfg: Config, a: seq<Text>, line: Text, b: seq<Text>, key: Text)
    requires key in OWNED && Sets(line, key) && First(a, key) == None && ValueOf(cfg, key) != ""
    ensures exists x: seq<Text>, y: seq<Text> ::
              StandsBetween(WrittenLines(host, cfg, a + [line] + b), x, Setting(host, key, ValueOf(cfg, key)), y, a, b, key)
  {
    hide EntryOf, ValueOf, Setting, Rewritten, Appended, KeysIn, Last, First, Unowned, Quoted;
    var existing, setting := a + [line] + b, Setting(host, key, ValueOf(cfg, key));
    var before := KeysIn(a);
    var x, rest, added := Rewritten(host, cfg, a, {}), Rewritten(host, cfg, b, before + {key}), Appended(host, cfg, OWNED, KeysIn(existing));
    assert existing == a + ([line] + b) && {} + before == before;
    RewrittenSum(host, cfg, a, [line] + b, {});
    assert ([line] + b)[0..] == [line] + b && ([line] + b)[1..] == b;
    RewrittenStep(host, cfg, [line] + b, 0, before);
    FirstIsThere(a, key);
    KeyIsThere(existing, line, key);
    assert Replacement(host, cfg, line, before) == [setting];
    assert WrittenLines(host, cfg, existing) == x + [setting] + (rest + added);
    UnownedSurvive(host, cfg, a, {});
    UnownedSurvive(host, cfg, b, before + {key});
    AppendedIsOwned(host, cfg, OWNED, KeysIn(existing));
    UnownedSum(rest, added);
    RewrittenLast(host, cfg, a, {}, key);
    RewrittenLast(host, cfg, b, before + {key}, key);
    AppendedLast(host, cfg, OWNED, KeysIn(existing), key);
    LastSum(rest, added, key);
    LastSum(x, rest + added, key);
    LastIsNone(x + (rest + added), key);
    assert StandsBetween(WrittenLines(host, cfg, existing), x, setting, rest + added, a, b, key);
  }

  lemma KeyIsThere(lines: seq<Text>, line: Text, key: string)
    requires line in lines && Sets(line, key) && key in OWNED
    ensures key in KeysIn(lines)
  {
    hide EntryOf;
  }
}

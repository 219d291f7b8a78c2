/** config.toml: writing the settings the program owns over a file it shares
    with its user, and loading them back. */
module ConfigFile {
  import opened ConfigText

  datatype Config = Config(vaultDir: Text, dataDir: Text, stateDir: Text, embedder: Text, contextProfile: Text,
                           selfEmails: seq<Text>, mmr: bool, mcpWritePolicy: Text, updatePolicy: Text)

  datatype Result = Ok(cfg: Config) | BadPolicy(key: string, value: Text)

  /** The home directory join, the comma list and the case folding. */
  datatype Host = Host(wide: nat -> bool, home: Text -> Text, list: Text -> seq<Text>, lower: Text -> Text)

  const OWNED: seq<Text> := ["vault_dir", "data_dir", "state_dir", "embedder", "context", "mmr", "mcp_write_policy", "update_policy"]
  const OPTIONAL: set<Text> := {"embedder", "context", "mmr", "mcp_write_policy", "update_policy"}
  const MCP_POLICIES: set<Text> := {"open", "propose", "readonly", "tentative"}
  const UPDATE_POLICIES: set<Text> := {"auto", "notify", "off"}

  function ValueOf(cfg: Config, key: string): Text {
    if key == "vault_dir" then cfg.vaultDir
    else if key == "data_dir" then cfg.dataDir
    else if key == "state_dir" then cfg.stateDir
    else if key == "embedder" then cfg.embedder
    else if key == "context" then cfg.contextProfile
    else if key == "mmr" then (if cfg.mmr then "true" else "")
    else if key == "mcp_write_policy" then cfg.mcpWritePolicy
    else if key == "update_policy" then cfg.updatePolicy
    else ""
  }

  // ------------------------------------------------------------- a line's entry

  datatype Entry = NoEntry | Entry(key: Text, raw: Text)

  /** What a line sets, if it is neither blank nor a comment. */
  function EntryOf(line: Text): Entry {
    var t := Trim(line);
    if t == "" || t[0] == '#' || IndexOf(t, '=') == |t| then NoEntry
    else Entry(Trim(t[..IndexOf(t, '=')]), t[IndexOf(t, '=') + 1..])
  }

  predicate Sets(line: Text, key: string) {
    EntryOf(line).Entry? && EntryOf(line).key == key
  }

  predicate IsOwned(line: Text) {
    EntryOf(line).Entry? && EntryOf(line).key in OWNED
  }

  function Setting(host: Host, key: Text, val: Text): Text {
    key + " = " + Quoted(host.wide, val)
  }

  // -------------------------------------------------------------------- writing

  /** The existing lines after a write: an owned key keeps one line, its first. */
  function Rewritten(host: Host, cfg: Config, lines: seq<Text>, written: set<Text>): seq<Text>
    decreases |lines|
  {
    if lines == [] then []
    else if !IsOwned(lines[0]) then [lines[0]] + Rewritten(host, cfg, lines[1..], written)
    else
      var key := EntryOf(lines[0]).key;
      if key in written then Rewritten(host, cfg, lines[1..], written)
      else
        var val := ValueOf(cfg, key);
        (if val != "" then [Setting(host, key, val)] else if key in OPTIONAL then [] else [lines[0]]) + Rewritten(host, cfg, lines[1..], written + {key})
  }

  function KeysIn(lines: seq<Text>): set<Text> {
    set line | line in lines && IsOwned(line) :: EntryOf(line).key
  }

  /** Settings no line held. */
  function Appended(host: Host, cfg: Config, keys: seq<Text>, written: set<Text>): seq<Text>
    decreases |keys|
  {
    if keys == [] then []
    else (if ValueOf(cfg, keys[0]) == "" || keys[0] in written then [] else [Setting(host, keys[0], ValueOf(cfg, keys[0]))]) + Appended(host, cfg, keys[1..], written)
  }

  function WrittenLines(host: Host, cfg: Config, existing: seq<Text>): seq<Text> {
    Rewritten(host, cfg, existing, {}) + Appended(host, cfg, OWNED, KeysIn(existing))
  }

  function DropTrailingNewlines(s: Text): Text {
    if s != "" && s[|s| - 1] == '\n' then DropTrailingNewlines(s[..|s| - 1]) else s
  }

  function ExistingLines(text: Text): seq<Text> {
    var ls := Lines(DropTrailingNewlines(text));
    if ls == [""] then [] else ls
  }

  function Ended(text: Text): Text {
    text + "\n"
  }

  function WrittenText(host: Host, cfg: Config, text: Text): Text {
    Ended(Unlines(WrittenLines(host, cfg, ExistingLines(text))))
  }

  /** What one existing line becomes, given the keys already written. */
  function Replacement(host: Host, cfg: Config, line: Text, written: set<Text>): seq<Text> {
    if !IsOwned(line) then [line]
    else if KeyOf(line) in written then []
    else if ValueOf(cfg, KeyOf(line)) != "" then [Setting(host, KeyOf(line), ValueOf(cfg, KeyOf(line)))]
    else if KeyOf(line) in OPTIONAL then []
    else [line]
  }

  function Noted(line: Text, written: set<Text>): set<Text> {
    if IsOwned(line) then written + {KeyOf(line)} else written
  }

  lemma RewrittenStep(host: Host, cfg: Config, lines: seq<Text>, i: nat, written: set<Text>)
    requires i < |lines|
    ensures Rewritten(host, cfg, lines[i..], written) == Replacement(host, cfg, lines[i], written) + Rewritten(host, cfg, lines[i + 1..], Noted(lines[i], written))
  {
    hide IsOwned, ValueOf;
    assert lines[i..][0] == lines[i] && lines[i..][1..] == lines[i + 1..];
    if IsOwned(lines[i]) && KeyOf(lines[i]) in written {
      assert written + {KeyOf(lines[i])} == written;
    }
  }

  method RewriteLines(host: Host, cfg: Config, existing: seq<Text>) returns (out: seq<Text>, written: set<Text>)
    ensures out == Rewritten(host, cfg, existing, {}) && written == KeysIn(existing)
  {
    hide ValueOf, IsOwned, Rewritten, EntryOf, KeyOf, Setting, KeysIn;
    out, written := [], {};
    assert existing[0..] == existing;
    NoKeys(existing);
    var i := 0;
    while i < |existing|
      invariant i <= |existing| && written == KeysIn(existing[..i])
      invariant out + Rewritten(host, cfg, existing[i..], written) == Rewritten(host, cfg, existing, {})
    {
      var line := existing[i];
      RewrittenStep(host, cfg, existing, i, written);
      KeysGrow(existing, i);
      ghost var before, noted := out, written;
      i := i + 1;
      if !IsOwned(line) {
        out := out + [line];
      } else {
        var key := KeyOf(line);
        if key !in written {
          written := written + {key};
          var val := ValueOf(cfg, key);
          if val != "" {
            out := out + [Setting(host, key, val)];
          } else if key !in OPTIONAL {
            out := out + [line];
          }
        }
      }
      assert out == before + Replacement(host, cfg, line, noted) && written == Noted(line, noted);
    }
    RewrittenEnd(host, cfg, existing, written);
    assert existing[..i] == existing;
  }

  lemma NoKeys(lines: seq<Text>)
    ensures KeysIn(lines[..0]) == {}
  {
  }

  lemma RewrittenEnd(host: Host, cfg: Config, lines: seq<Text>, written: set<Text>)
    ensures Rewritten(host, cfg, lines[|lines|..], written) == []
  {
  }

  function Addition(host: Host, cfg: Config, key: Text, written: set<Text>): seq<Text> {
    if ValueOf(cfg, key) == "" || key in written then [] else [Setting(host, key, ValueOf(cfg, key))]
  }

  lemma AppendedStep(host: Host, cfg: Config, keys: seq<Text>, k: nat, written: set<Text>)
    requires k < |keys|
    ensures Appended(host, cfg, keys[k..], written) == Addition(host, cfg, keys[k], written) + Appended(host, cfg, keys[k + 1..], written)
  {
    hide ValueOf, Setting;
    assert keys[k..][1..] == keys[k + 1..] && keys[k..][0] == keys[k];
  }

  lemma AppendedEnd(host: Host, cfg: Config, keys: seq<Text>, written: set<Text>)
    ensures Appended(host, cfg, keys[|keys|..], written) == [] && keys[0..] == keys
  {
  }

  method AppendSettings(host: Host, cfg: Config, keys: seq<Text>, written: set<Text>) returns (out: seq<Text>)
    ensures out == Appended(host, cfg, keys, written)
  {
    hide ValueOf, Appended, Setting;
    out := [];
    AppendedEnd(host, cfg, keys, written);
    var k := 0;
    while k < |keys|
      invariant k <= |keys| && out + Appended(host, cfg, keys[k..], written) == Appended(host, cfg, keys, written)
    {
      AppendedStep(host, cfg, keys, k, written);
      ghost var before := out;
      var val := ValueOf(cfg, keys[k]);
      if val != "" && keys[k] !in written {
        out := out + [Setting(host, keys[k], val)];
      }
      assert out == before + Addition(host, cfg, keys[k], written);
      k := k + 1;
    }
  }

  method WriteLines(host: Host, cfg: Config, existing: seq<Text>) returns (out: seq<Text>)
    ensures out == WrittenLines(host, cfg, existing)
  {
    hide Rewritten, KeysIn, Appended;
    var head, written := RewriteLines(host, cfg, existing);
    var tail := AppendSettings(host, cfg, OWNED, written);
    out := head + tail;
  }

  function KeyOf(line: Text): Text
    requires IsOwned(line)
  {
    EntryOf(line).key
  }

  lemma KeysGrow(lines: seq<Text>, i: nat)
    requires i < |lines|
    ensures KeysIn(lines[..i + 1]) == if IsOwned(lines[i]) then KeysIn(lines[..i]) + {KeyOf(lines[i])} else KeysIn(lines[..i])
  {
    hide EntryOf;
    assert lines[..i + 1] == lines[..i] + [lines[i]];
    assert lines[i] in lines[..i + 1];
    forall key | key in KeysIn(lines[..i])
      ensures key in KeysIn(lines[..i + 1])
    {
      var line :| line in lines[..i] && IsOwned(line) && EntryOf(line).key == key;
      assert line in lines[..i + 1];
    }
  }

  // -------------------------------------------------------------------- loading

  function Expand(host: Host, p: Text): Text {
    if |p| >= 2 && p[..2] == "~/" then host.home(p[2..]) else p
  }

  function Canonical(host: Host, p: Text): Text {
    host.lower(Trim(p))
  }

  /** What a key's value does to the configuration; other keys do nothing. */
  function Assign(host: Host, cfg: Config, key: string, val: Text): Result {
    if key == "vault_dir" then Ok(cfg.(vaultDir := val))
    else if key == "data_dir" then Ok(cfg.(dataDir := val))
    else if key == "state_dir" then Ok(cfg.(stateDir := val))
    else if key == "embedder" then Ok(cfg.(embedder := val))
    else if key == "context" then Ok(cfg.(contextProfile := val))
    else if key == "self_emails" then Ok(cfg.(selfEmails := host.list(val)))
    else if key == "mmr" then Ok(cfg.(mmr := val == "true" || val == "1"))
    else if key == "mcp_write_policy" then
      (if Canonical(host, val) in MCP_POLICIES then Ok(cfg.(mcpWritePolicy := Canonical(host, val))) else BadPolicy(key, val))
    else if key == "update_policy" then
      (if Canonical(host, val) in UPDATE_POLICIES then Ok(cfg.(updatePolicy := Canonical(host, val))) else BadPolicy(key, val))
    else Ok(cfg)
  }

  function Apply(host: Host, cfg: Config, line: Text): Result {
    match EntryOf(line)
    case NoEntry => Ok(cfg)
    case Entry(key, raw) => Assign(host, cfg, key, Expand(host, ParseValue(raw)))
  }

  function ApplyAll(host: Host, cfg: Config, lines: seq<Text>): Result
    decreases |lines|
  {
    if lines == [] then Ok(cfg)
    else match Apply(host, cfg, lines[0])
      case BadPolicy(k, v) => BadPolicy(k, v)
      case Ok(next) => ApplyAll(host, next, lines[1..])
  }

  method Resolve(host: Host, base: Config, text: Text) returns (r: Result)
    ensures r == ApplyAll(host, base, Lines(text))
  {
    hide Apply;
    var lines := Lines(text);
    var cfg := base;
    var i := 0;
    while i < |lines|
      invariant i <= |lines| && ApplyAll(host, cfg, lines[i..]) == ApplyAll(host, base, lines)
    {
      assert lines[i..][1..] == lines[i + 1..];
      var step := ApplyLine(host, cfg, lines[i]);
      if step.BadPolicy? {
        return step;
      }
      cfg := step.cfg;
      i := i + 1;
    }
    assert lines[i..] == [];
    r := Ok(cfg);
  }

  method ApplyLine(host: Host, cfg: Config, line: Text) returns (r: Result)
    ensures r == Apply(host, cfg, line)
  {
    hide Assign, Trim;
    var t := Trim(line);
    if t == "" || t[0] == '#' || IndexOf(t, '=') == |t| {
      return Ok(cfg);
    }
    var key := Trim(t[..IndexOf(t, '=')]);
    var v := ParseScalar(t[IndexOf(t, '=') + 1..]);
    r := Assign(host, cfg, key, Expand(host, v));
  }

  // ---------------------------------------------------------- the last line wins

  /** The raw value of the last line that sets a key. */
  function Last(lines: seq<Text>, key: string): Option<Text>
    decreases |lines|
  {
    if lines == [] then None
    else
      var n := |lines| - 1;
      if Sets(lines[n], key) then Some(EntryOf(lines[n]).raw) else Last(lines[..n], key)
  }

  function First(lines: seq<Text>, key: string): Option<Text>
    decreases |lines|
  {
    if lines == [] then None else if Sets(lines[0], key) then Some(EntryOf(lines[0]).raw) else First(lines[1..], key)
  }

  lemma {:induction false} LastSum(a: seq<Text>, b: seq<Text>, key: string)
    ensures Last(a + b, key) == if Last(b, key).Some? then Last(b, key) else Last(a, key)
    decreases |b|
  {
    hide Sets;
    if b == [] {
      assert a + b == a;
    } else {
      var n := |b| - 1;
      assert (a + b)[..|a + b| - 1] == a + b[..n];
      LastSum(a, b[..n], key);
    }
  }

  lemma LastOne(line: Text, key: string)
    ensures Last([line], key) == if Sets(line, key) then Some(EntryOf(line).raw) else None
  {
    assert [line][..0] == [];
  }

  // ------------------------------------------------- what a write leaves behind

  /** The entry a written setting carries reads back as its value. */
  lemma SettingMeans(host: Host, key: Text, val: Text)
    requires key in OWNED
    ensures EntryOf(Setting(host, key, val)) == Entry(key, " " + Quoted(host.wide, val)) && OneLine(Setting(host, key, val))
  {
    OwnedKeyIsPlain(key);
    QuotedEnds(host, val);
    PlainSetting(key, Quoted(host.wide, val));
  }

  lemma QuotedEnds(host: Host, val: Text)
    ensures var q := Quoted(host.wide, val); |q| >= 2 && q[|q| - 1] == '"' && OneLine(q)
  {
    QuotedIsOneLine(host.wide, val);
  }

  lemma PlainSetting(key: Text, q: Text)
    requires key != "" && key[0] != '#' && IsSolid(key[0]) && '=' !in key && OneLine(key) && Trim(key + " ") == key
    requires q != "" && q[|q| - 1] == '"' && OneLine(q)
    ensures EntryOf(key + " = " + q) == Entry(key, " " + q) && OneLine(key + " = " + q)
  {
    hide Trim, IndexOf;
    var line := key + " = " + q;
    assert line[0] == key[0] && line[|line| - 1] == '"';
    TrimKeeps(line);
    EqualsAfter(key + " ", " " + q);
    assert key + " " + "=" + (" " + q) == line;
    assert line[..|key| + 1] == key + " " && line[|key| + 2..] == " " + q;
  }

  lemma OwnedKeyIsPlain(key: Text)
    requires key in OWNED
    ensures key != "" && key[0] != '#' && IsSolid(key[0]) && '=' !in key && OneLine(key) && Trim(key + " ") == key
  {
    LowerKey(key);
    TrimDropsPad(key);
  }

  /** Owned keys are lower-case letters and underscores. */
  lemma LowerKey(key: string)
    requires key in OWNED
    ensures key != "" && forall c <- key :: c == '_' || 'a' <= c <= 'z'
    ensures '=' !in key && OneLine(key) && key[0] != '#' && IsSolid(key[0]) && IsSolid(key[|key| - 1])
  {
  }

  lemma {:induction false} EqualsAfter(a: Text, b: Text)
    requires '=' !in a
    ensures IndexOf(a + "=" + b, '=') == |a|
    decreases |a|
  {
    var s := a + "=" + b;
    if a != "" {
      assert s[0] == a[0] && a[0] in a && s[1..] == a[1..] + "=" + b;
      EqualsAfter(a[1..], b);
    }
  }

  lemma LastOfNone(host: Host, cfg: Config, written: set<Text>, key: string)
    ensures Rewritten(host, cfg, [], written) == [] && Last([], key) == None
  {
  }

  lemma NotedMeans(line: Text, written: set<Text>, key: string)
    requires key in OWNED
    ensures key in Noted(line, written) <==> key in written || Sets(line, key)
  {
    hide EntryOf;
  }

  /** The last line that sets a key after the existing lines are rewritten. */
  lemma {:induction false} RewrittenLast(host: Host, cfg: Config, lines: seq<Text>, written: set<Text>, key: string)
    requires key in OWNED
    ensures var after := Last(Rewritten(host, cfg, lines, written), key);
            if key in written || First(lines, key).None? then after == None
            else if ValueOf(cfg, key) != "" then after == Some(" " + Quoted(host.wide, ValueOf(cfg, key)))
            else if key in OPTIONAL then after == None
            else after == First(lines, key)
    decreases |lines|
  {
    hide EntryOf, ValueOf, Setting, Quoted, Replacement, Noted, Last, Rewritten, Sets;
    LastOfNone(host, cfg, written, key);
    if lines != [] {
      assert lines[0..] == lines;
      NotedMeans(lines[0], written, key);
      RewrittenStep(host, cfg, lines, 0, written);
      var head, rest := Replacement(host, cfg, lines[0], written), Rewritten(host, cfg, lines[1..], Noted(lines[0], written));
      LastSum(head, rest, key);
      RewrittenLast(host, cfg, lines[1..], Noted(lines[0], written), key);
      ReplacementLast(host, cfg, lines[0], written, key);
    }
  }

  lemma ReplacementLast(host: Host, cfg: Config, line: Text, written: set<Text>, key: string)
    requires key in OWNED
    ensures Last(Replacement(host, cfg, line, written), key) ==
            if !Sets(line, key) || key in written then None
            else if ValueOf(cfg, key) != "" then Some(" " + Quoted(host.wide, ValueOf(cfg, key)))
            else if key in OPTIONAL then None
            else Some(EntryOf(line).raw)
  {
    hide EntryOf, ValueOf, Setting;
    LastOne(line, key);
    if IsOwned(line) {
      var k := KeyOf(line);
      var setting := Setting(host, k, ValueOf(cfg, k));
      SettingMeans(host, k, ValueOf(cfg, k));
      LastOne(setting, key);
    }
  }

  lemma {:induction false} AppendedLast(host: Host, cfg: Config, keys: seq<Text>, written: set<Text>, key: string)
    requires (forall k <- keys :: k in OWNED) && key in OWNED
    ensures Last(Appended(host, cfg, keys, written), key) ==
            if key in keys && key !in written && ValueOf(cfg, key) != "" then Some(" " + Quoted(host.wide, ValueOf(cfg, key))) else None
    decreases |keys|
  {
    hide EntryOf, ValueOf, Setting;
    if keys != [] {
      assert keys[0..] == keys && keys == [keys[0]] + keys[1..];
      AppendedStep(host, cfg, keys, 0, written);
      LastSum(Addition(host, cfg, keys[0], written), Appended(host, cfg, keys[1..], written), key);
      AppendedLast(host, cfg, keys[1..], written, key);
      SettingMeans(host, keys[0], ValueOf(cfg, keys[0]));
      LastOne(Setting(host, keys[0], ValueOf(cfg, keys[0])), key);
    }
  }

  lemma {:induction false} FirstIsThere(lines: seq<Text>, key: string)
    requires key in OWNED
    ensures First(lines, key).Some? <==> key in KeysIn(lines)
    decreases |lines|
  {
    hide EntryOf;
    if lines != [] {
      FirstIsThere(lines[1..], key);
      assert lines == [lines[0]] + lines[1..];
      if key in KeysIn(lines) {
        var line :| line in lines && IsOwned(line) && EntryOf(line).key == key;
        assert line == lines[0] || line in lines[1..];
      }
      if key in KeysIn(lines[1..]) {
        var line :| line in lines[1..] && IsOwned(line) && EntryOf(line).key == key;
        assert line in lines;
      }
      assert lines[0] in lines;
    }
  }

  /** What the last line says of each owned key after a write: the value written,
      nothing for an emptied option, the file's first value for an emptied
      directory. */
  lemma WrittenLast(host: Host, cfg: Config, existing: seq<Text>, key: string)
    requires key in OWNED
    ensures Last(WrittenLines(host, cfg, existing), key) ==
            if ValueOf(cfg, key) != "" then Some(" " + Quoted(host.wide, ValueOf(cfg, key)))
            else if key in OPTIONAL then None
            else First(existing, key)
  {
    hide ValueOf, Rewritten, Appended, KeysIn;
    RewrittenLast(host, cfg, existing, {}, key);
    AppendedLast(host, cfg, OWNED, KeysIn(existing), key);
    FirstIsThere(existing, key);
    LastSum(Rewritten(host, cfg, existing, {}), Appended(host, cfg, OWNED, KeysIn(existing)), key);
  }

  /** Lines the program does not own. */
  function Unowned(lines: seq<Text>): seq<Text>
    decreases |lines|
  {
    if lines == [] then [] else (if IsOwned(lines[0]) then [] else [lines[0]]) + Unowned(lines[1..])
  }

  lemma {:induction false} UnownedSum(a: seq<Text>, b: seq<Text>)
    ensures Unowned(a + b) == Unowned(a) + Unowned(b)
    decreases |a|
  {
    hide IsOwned;
    if a == [] {
      assert a + b == b;
    } else {
      assert (a + b)[1..] == a[1..] + b;
      UnownedSum(a[1..], b);
    }
  }

  lemma SettingIsOwned(host: Host, key: Text, val: Text)
    requires key in OWNED
    ensures IsOwned(Setting(host, key, val)) && Unowned([Setting(host, key, val)]) == []
  {
    SettingMeans(host, key, val);
  }

  lemma {:induction false} UnownedSurvive(host: Host, cfg: Config, lines: seq<Text>, written: set<Text>)
    ensures Unowned(Rewritten(host, cfg, lines, written)) == Unowned(lines)
    decreases |lines|
  {
    hide EntryOf, ValueOf, Setting;
    if lines != [] {
      assert lines[0..] == lines;
      RewrittenStep(host, cfg, lines, 0, written);
      UnownedSum(Replacement(host, cfg, lines[0], written), Rewritten(host, cfg, lines[1..], Noted(lines[0], written)));
      UnownedSurvive(host, cfg, lines[1..], Noted(lines[0], written));
      if IsOwned(lines[0]) {
        SettingIsOwned(host, KeyOf(lines[0]), ValueOf(cfg, KeyOf(lines[0])));
      }
      var one: seq<Text> := [lines[0]];
      assert one[1..] == [];
    }
  }

  lemma {:induction false} AppendedIsOwned(host: Host, cfg: Config, keys: seq<Text>, written: set<Text>)
    requires forall k <- keys :: k in OWNED
    ensures Unowned(Appended(host, cfg, keys, written)) == []
    decreases |keys|
  {
    hide EntryOf, ValueOf, Setting, IsOwned;
    if keys != [] {
      assert keys[0..] == keys;
      AppendedStep(host, cfg, keys, 0, written);
      UnownedSum(Addition(host, cfg, keys[0], written), Appended(host, cfg, keys[1..], written));
      SettingIsOwned(host, keys[0], ValueOf(cfg, keys[0]));
      AppendedIsOwned(host, cfg, keys[1..], written);
    }
  }

  /** Every line the program does not own survives a write, in its order. */
  lemma WriteKeepsOthers(host: Host, cfg: Config, existing: seq<Text>)
    ensures Unowned(WrittenLines(host, cfg, existing)) == Unowned(existing)
  {
    hide Rewritten, Appended, KeysIn, Unowned;
    UnownedSurvive(host, cfg, existing, {});
    AppendedIsOwned(host, cfg, OWNED, KeysIn(existing));
    UnownedSum(Rewritten(host, cfg, existing, {}), Appended(host, cfg, OWNED, KeysIn(existing)));
  }

  // ------------------------------------------------------ loading undoes writing

  function Loaded(host: Host, last: Option<Text>, base: Text): Text {
    if last.Some? then Expand(host, ParseValue(last.value)) else base
  }

  function LoadedPolicy(host: Host, last: Option<Text>, base: Text): Text {
    if last.Some? then Canonical(host, Expand(host, ParseValue(last.value))) else base
  }

  /** The configuration the last lines add up to. */
  function FromLast(host: Host, base: Config, lines: seq<Text>): Config {
    var mmr := Last(lines, "mmr");
    var emails := Last(lines, "self_emails");
    Config(Loaded(host, Last(lines, "vault_dir"), base.vaultDir), Loaded(host, Last(lines, "data_dir"), base.dataDir),
           Loaded(host, Last(lines, "state_dir"), base.stateDir), Loaded(host, Last(lines, "embedder"), base.embedder),
           Loaded(host, Last(lines, "context"), base.contextProfile),
           if emails.Some? then host.list(Loaded(host, emails, "")) else base.selfEmails,
           if mmr.Some? then Loaded(host, mmr, "") in {"true", "1"} else base.mmr,
           LoadedPolicy(host, Last(lines, "mcp_write_policy"), base.mcpWritePolicy),
           LoadedPolicy(host, Last(lines, "update_policy"), base.updatePolicy))
  }

  /** The line's policy, if it sets one, is one the program knows. */
  predicate PolicyOk(host: Host, line: Text) {
    && (Sets(line, "mcp_write_policy") ==> LoadedPolicy(host, Some(EntryOf(line).raw), "") in MCP_POLICIES)
    && (Sets(line, "update_policy") ==> LoadedPolicy(host, Some(EntryOf(line).raw), "") in UPDATE_POLICIES)
  }

  lemma ApplyOne(host: Host, cfg: Config, line: Text)
    ensures Apply(host, cfg, line).Ok? <==> PolicyOk(host, line)
    ensures Apply(host, cfg, line).Ok? ==> Apply(host, cfg, line).cfg == FromLast(host, cfg, [line])
  {
    hide EntryOf, ParseValue, Expand, Canonical, Last;
    LastOne(line, "vault_dir");
    LastOne(line, "data_dir");
    LastOne(line, "state_dir");
    LastOne(line, "embedder");
    LastOne(line, "context");
    LastOne(line, "self_emails");
    LastOne(line, "mmr");
    LastOne(line, "mcp_write_policy");
    LastOne(line, "update_policy");
  }

  lemma FromLastSum(host: Host, base: Config, a: seq<Text>, b: seq<Text>)
    ensures FromLast(host, FromLast(host, base, a), b) == FromLast(host, base, a + b)
  {
    hide Last, ParseValue, Expand, Canonical;
    LastSum(a, b, "vault_dir");
    LastSum(a, b, "data_dir");
    LastSum(a, b, "state_dir");
    LastSum(a, b, "embedder");
    LastSum(a, b, "context");
    LastSum(a, b, "self_emails");
    LastSum(a, b, "mmr");
    LastSum(a, b, "mcp_write_policy");
    LastSum(a, b, "update_policy");
  }

  /** Loading succeeds exactly when every policy line is known, and then each
      setting comes from the last line that sets it. */
  lemma {:induction false} LoadIsLast(host: Host, base: Config, lines: seq<Text>)
    ensures ApplyAll(host, base, lines).Ok? <==> forall line <- lines :: PolicyOk(host, line)
    ensures ApplyAll(host, base, lines).Ok? ==> ApplyAll(host, base, lines).cfg == FromLast(host, base, lines)
    decreases |lines|
  {
    hide Apply, PolicyOk, FromLast;
    if lines == [] {
      NothingSet(host, base);
    } else {
      ApplyOne(host, base, lines[0]);
      assert lines == [lines[0]] + lines[1..];
      if PolicyOk(host, lines[0]) {
        LoadIsLast(host, FromLast(host, base, [lines[0]]), lines[1..]);
        FromLastSum(host, base, [lines[0]], lines[1..]);
      }
    }
  }

  lemma NothingSet(host: Host, base: Config)
    ensures FromLast(host, base, []) == base
  {
  }

  /** A line a write may keep: not one of an option the program owns. */
  predicate MayStay(line: Text) {
    IsOwned(line) ==> KeyOf(line) !in OPTIONAL
  }

  predicate IsSettingOf(host: Host, cfg: Config, keys: seq<Text>, line: Text) {
    exists key <- keys :: ValueOf(cfg, key) != "" && line == Setting(host, key, ValueOf(cfg, key))
  }

  lemma {:induction false} RewrittenLines(host: Host, cfg: Config, lines: seq<Text>, written: set<Text>, line: Text)
    requires line in Rewritten(host, cfg, lines, written)
    ensures (line in lines && MayStay(line)) || IsSettingOf(host, cfg, OWNED, line)
    decreases |lines|
  {
    hide EntryOf, ValueOf, Setting;
    if lines != [] {
      assert lines[0..] == lines && lines == [lines[0]] + lines[1..];
      RewrittenStep(host, cfg, lines, 0, written);
      if line in Rewritten(host, cfg, lines[1..], Noted(lines[0], written)) {
        RewrittenLines(host, cfg, lines[1..], Noted(lines[0], written), line);
      } else {
        assert line in Replacement(host, cfg, lines[0], written);
      }
    }
  }

  lemma {:induction false} AppendedLines(host: Host, cfg: Config, keys: seq<Text>, written: set<Text>, line: Text)
    requires line in Appended(host, cfg, keys, written)
    ensures IsSettingOf(host, cfg, keys, line)
    decreases |keys|
  {
    hide ValueOf, Setting;
    if keys != [] {
      assert keys[0..] == keys && keys == [keys[0]] + keys[1..];
      AppendedStep(host, cfg, keys, 0, written);
      if line in Appended(host, cfg, keys[1..], written) {
        AppendedLines(host, cfg, keys[1..], written, line);
        var key :| key in keys[1..] && ValueOf(cfg, key) != "" && line == Setting(host, key, ValueOf(cfg, key));
        assert key in keys;
      } else {
        assert line == Setting(host, keys[0], ValueOf(cfg, keys[0])) && keys[0] in keys;
      }
    }
  }

  /** The policies the program itself would accept unchanged. */
  predicate KnownPolicies(host: Host, cfg: Config) {
    && (cfg.mcpWritePolicy != "" ==> Canonical(host, Expand(host, cfg.mcpWritePolicy)) in MCP_POLICIES)
    && (cfg.updatePolicy != "" ==> Canonical(host, Expand(host, cfg.updatePolicy)) in UPDATE_POLICIES)
  }

  lemma SettingPolicy(host: Host, cfg: Config, key: string)
    requires key in OWNED && ValueOf(cfg, key) != "" && KnownPolicies(host, cfg)
    ensures PolicyOk(host, Setting(host, key, ValueOf(cfg, key)))
  {
    hide EntryOf, ParseValue, Quoted, Setting;
    SettingMeans(host, key, ValueOf(cfg, key));
    ParseUndoesQuoting(host.wide, ValueOf(cfg, key));
  }

  lemma OwnedPolicies()
    ensures "mcp_write_policy" in OWNED && "update_policy" in OWNED
  {
    assert OWNED[6] == "mcp_write_policy" && OWNED[7] == "update_policy";
  }

  lemma UnsetPolicy(host: Host, line: Text)
    requires MayStay(line)
    ensures PolicyOk(host, line)
  {
    hide EntryOf, ParseValue;
    OwnedPolicies();
  }

  lemma WrittenPoliciesOk(host: Host, cfg: Config, existing: seq<Text>, line: Text)
    requires KnownPolicies(host, cfg) && line in WrittenLines(host, cfg, existing)
    ensures PolicyOk(host, line)
  {
    hide EntryOf, ValueOf, Setting, Rewritten, Appended, KeysIn, PolicyOk, KnownPolicies, IsOwned;
    if line in Rewritten(host, cfg, existing, {}) {
      RewrittenLines(host, cfg, existing, {}, line);
      if line in existing && MayStay(line) {
        UnsetPolicy(host, line);
      } else {
        var key :| key in OWNED && ValueOf(cfg, key) != "" && line == Setting(host, key, ValueOf(cfg, key));
        SettingPolicy(host, cfg, key);
      }
    } else {
      AppendedLines(host, cfg, OWNED, KeysIn(existing), line);
      var key :| key in OWNED && ValueOf(cfg, key) != "" && line == Setting(host, key, ValueOf(cfg, key));
      SettingPolicy(host, cfg, key);
    }
  }

  lemma {:induction false} LastIsThere(lines: seq<Text>, key: string)
    ensures Last(lines, key).Some? ==> exists line <- lines :: Sets(line, key) && EntryOf(line).raw == Last(lines, key).value
    decreases |lines|
  {
    hide EntryOf;
    if lines != [] {
      var n := |lines| - 1;
      assert lines == lines[..n] + [lines[n]];
      LastIsThere(lines[..n], key);
    }
  }

  lemma UnknownPolicyStays(host: Host, cfg: Config, existing: seq<Text>, key: string)
    requires key == "mcp_write_policy" || key == "update_policy"
    requires ValueOf(cfg, key) != ""
    requires Canonical(host, Expand(host, ValueOf(cfg, key))) !in (if key == "update_policy" then UPDATE_POLICIES else MCP_POLICIES)
    ensures exists line <- WrittenLines(host, cfg, existing) :: !PolicyOk(host, line)
  {
    hide EntryOf, ValueOf, Quoted, ParseValue, WrittenLines, Last;
    OwnedPolicies();
    var lines := WrittenLines(host, cfg, existing);
    WrittenLast(host, cfg, existing, key);
    LastIsThere(lines, key);
    ParseUndoesQuoting(host.wide, ValueOf(cfg, key));
    var line :| line in lines && Sets(line, key) && EntryOf(line).raw == " " + Quoted(host.wide, ValueOf(cfg, key));
    assert !PolicyOk(host, line);
  }

  /** A configuration just written loads again exactly when its policies are ones
      the loader knows; the writer itself does not check them. */
  lemma LoadsWhenPoliciesKnown(host: Host, cfg: Config, existing: seq<Text>, base: Config)
    ensures ApplyAll(host, base, WrittenLines(host, cfg, existing)).Ok? <==> KnownPolicies(host, cfg)
  {
    hide PolicyOk, WrittenLines, ApplyAll, Canonical;
    var lines := WrittenLines(host, cfg, existing);
    LoadIsLast(host, base, lines);
    if KnownPolicies(host, cfg) {
      WrittenIsLast(host, cfg, existing, base);
    } else if cfg.mcpWritePolicy != "" && Canonical(host, Expand(host, cfg.mcpWritePolicy)) !in MCP_POLICIES {
      UnknownPolicyStays(host, cfg, existing, "mcp_write_policy");
    } else {
      UnknownPolicyStays(host, cfg, existing, "update_policy");
    }
  }

  /** The last line after a write, read back. */
  lemma ReadBack(host: Host, cfg: Config, existing: seq<Text>, key: string, base: Text)
    requires key in OWNED
    ensures Loaded(host, Last(WrittenLines(host, cfg, existing), key), base) ==
            if ValueOf(cfg, key) != "" then Expand(host, ValueOf(cfg, key))
            else if key in OPTIONAL then base
            else Loaded(host, First(existing, key), base)
  {
    hide ValueOf, Quoted, ParseValue, WrittenLines;
    WrittenLast(host, cfg, existing, key);
    ParseUndoesQuoting(host.wide, ValueOf(cfg, key));
  }

  lemma WrittenIsLast(host: Host, cfg: Config, existing: seq<Text>, base: Config)
    requires KnownPolicies(host, cfg)
    ensures ApplyAll(host, base, WrittenLines(host, cfg, existing)) == Ok(FromLast(host, base, WrittenLines(host, cfg, existing)))
  {
    hide PolicyOk, KnownPolicies, WrittenLines, ApplyAll, FromLast;
    var lines := WrittenLines(host, cfg, existing);
    forall line <- lines
      ensures PolicyOk(host, line)
    {
      WrittenPoliciesOk(host, cfg, existing, line);
    }
    LoadIsLast(host, base, lines);
  }

  function Kept(host: Host, val: Text, base: Text): Text {
    if val != "" then Expand(host, val) else base
  }

  function KeptPolicy(host: Host, val: Text, base: Text): Text {
    if val != "" then Canonical(host, Expand(host, val)) else base
  }

  /** Loading what was just written, with no environment: each owned setting that
      is set comes back, read the way any value is; an emptied option comes back
      as the default; an emptied directory as the file's own first value. */
  lemma LoadUndoesWrite(host: Host, cfg: Config, existing: seq<Text>, base: Config)
    requires KnownPolicies(host, cfg)
    ensures var r := ApplyAll(host, base, WrittenLines(host, cfg, existing));
            && r.Ok?
            && r.cfg.vaultDir == (if cfg.vaultDir != "" then Expand(host, cfg.vaultDir) else Loaded(host, First(existing, "vault_dir"), base.vaultDir))
            && r.cfg.dataDir == (if cfg.dataDir != "" then Expand(host, cfg.dataDir) else Loaded(host, First(existing, "data_dir"), base.dataDir))
            && r.cfg.stateDir == (if cfg.stateDir != "" then Expand(host, cfg.stateDir) else Loaded(host, First(existing, "state_dir"), base.stateDir))
            && r.cfg.embedder == Kept(host, cfg.embedder, base.embedder)
            && r.cfg.contextProfile == Kept(host, cfg.contextProfile, base.contextProfile)
            && r.cfg.mmr == (cfg.mmr || base.mmr)
            && r.cfg.mcpWritePolicy == KeptPolicy(host, cfg.mcpWritePolicy, base.mcpWritePolicy)
            && r.cfg.updatePolicy == KeptPolicy(host, cfg.updatePolicy, base.updatePolicy)
  {
    hide WrittenLines, KnownPolicies, ApplyAll, ParseValue, Canonical, Quoted, Last, First;
    WrittenIsLast(host, cfg, existing, base);
    AllOwned();
    ReadBack(host, cfg, existing, "vault_dir", base.vaultDir);
    ReadBack(host, cfg, existing, "data_dir", base.dataDir);
    ReadBack(host, cfg, existing, "state_dir", base.stateDir);
    ReadBack(host, cfg, existing, "embedder", base.embedder);
    ReadBack(host, cfg, existing, "context", base.contextProfile);
    FlagBack(host, cfg, existing);
    PolicyBack(host, cfg, existing, "mcp_write_policy", base.mcpWritePolicy);
    PolicyBack(host, cfg, existing, "update_policy", base.updatePolicy);
  }

  lemma AllOwned()
    ensures "vault_dir" in OWNED && "data_dir" in OWNED && "state_dir" in OWNED && "embedder" in OWNED && "context" in OWNED && "mmr" in OWNED
  {
    assert OWNED[0] == "vault_dir" && OWNED[1] == "data_dir" && OWNED[2] == "state_dir" && OWNED[3] == "embedder" && OWNED[4] == "context" && OWNED[5] == "mmr";
  }

  lemma FlagBack(host: Host, cfg: Config, existing: seq<Text>)
    ensures var last := Last(WrittenLines(host, cfg, existing), "mmr");
            if cfg.mmr then last.Some? && Loaded(host, last, "") == "true" else last == None
  {
    hide WrittenLines, ParseValue, Quoted, Last;
    AllOwned();
    WrittenLast(host, cfg, existing, "mmr");
    ParseUndoesQuoting(host.wide, "true");
    assert "true"[..2][0] != "~/"[0];
  }

  lemma PolicyBack(host: Host, cfg: Config, existing: seq<Text>, key: string, base: Text)
    requires key == "mcp_write_policy" || key == "update_policy"
    ensures LoadedPolicy(host, Last(WrittenLines(host, cfg, existing), key), base) == KeptPolicy(host, ValueOf(cfg, key), base)
  {
    hide WrittenLines, ParseValue, Quoted, Last, Canonical, ValueOf;
    OwnedPolicies();
    WrittenLast(host, cfg, existing, key);
    ParseUndoesQuoting(host.wide, ValueOf(cfg, key));
  }

  /** A value written comes back as it was exactly when it is not one the home
      directory rewrites. */
  lemma ComesBackUnlessHome(host: Host, val: Text)
    ensures Expand(host, val) == val <==> (|val| >= 2 && val[..2] == "~/" ==> host.home(val[2..]) == val)
  {
  }

  /** Emptying a directory that the file sets more than once keeps the first of
      its lines, although loading had gone by the last: the value in force stays
      exactly when those two read the same. */
  lemma EmptiedDirectoryKeepsFirst(host: Host, cfg: Config, existing: seq<Text>, key: string, base: Text)
    requires key in OWNED && key !in OPTIONAL && ValueOf(cfg, key) == ""
    ensures Loaded(host, Last(WrittenLines(host, cfg, existing), key), base) == Loaded(host, Last(existing, key), base)
            <==> Loaded(host, First(existing, key), base) == Loaded(host, Last(existing, key), base)
  {
    hide WrittenLines, ParseValue, Last, First, ValueOf;
    ReadBack(host, cfg, existing, key, base);
  }

  /** A file that sets a directory to one value and then to another loads as the
      second; once the directory is emptied and written it loads as the first. */
  lemma EmptiedDirectoryGoesBack(host: Host, cfg: Config, key: Text, one: Text, two: Text, base: Text)
    requires key in OWNED && key !in OPTIONAL && ValueOf(cfg, key) == ""
    ensures var existing := [Setting(host, key, one), Setting(host, key, two)];
            && Loaded(host, Last(existing, key), base) == Expand(host, two)
            && Loaded(host, Last(WrittenLines(host, cfg, existing), key), base) == Expand(host, one)
  {
    hide WrittenLines, ParseValue, ValueOf, EntryOf, Setting, Quoted;
    var existing := [Setting(host, key, one), Setting(host, key, two)];
    ReadBack(host, cfg, existing, key, base);
    SettingMeans(host, key, one);
    SettingMeans(host, key, two);
    ParseUndoesQuoting(host.wide, one);
    ParseUndoesQuoting(host.wide, two);
  }

  // ---------------------------------------------------------- the file as bytes

  lemma WrittenAreOneLine(host: Host, cfg: Config, existing: seq<Text>)
    requires forall line <- existing :: OneLine(line)
    ensures forall line <- WrittenLines(host, cfg, existing) :: OneLine(line)
  {
    hide Rewritten, Appended, KeysIn, ValueOf, Setting, IsOwned, OneLine;
    forall line <- WrittenLines(host, cfg, existing)
      ensures OneLine(line)
    {
      if line in Rewritten(host, cfg, existing, {}) {
        RewrittenLines(host, cfg, existing, {}, line);
      } else {
        AppendedLines(host, cfg, OWNED, KeysIn(existing), line);
      }
      if line !in existing {
        var key :| key in OWNED && ValueOf(cfg, key) != "" && line == Setting(host, key, ValueOf(cfg, key));
        SettingMeans(host, key, ValueOf(cfg, key));
      }
    }
  }

  lemma {:induction false} UnlinesEnd(ls: seq<Text>)
    requires ls != []
    ensures Unlines(ls) + "\n" == Unlines(ls + [""])
    decreases |ls|
  {
    if |ls| == 1 {
      assert (ls + [""])[1..] == [""];
    } else {
      UnlinesEnd(ls[1..]);
      assert (ls + [""])[1..] == ls[1..] + [""];
    }
  }

  /** Reading the written bytes gives the written lines and one blank one. */
  lemma WrittenTextLines(host: Host, cfg: Config, text: Text)
    requires WrittenLines(host, cfg, ExistingLines(text)) != []
    ensures Lines(WrittenText(host, cfg, text)) == WrittenLines(host, cfg, ExistingLines(text)) + [""]
  {
    hide WrittenLines;
    var out := WrittenLines(host, cfg, ExistingLines(text));
    LinesAreOneLine(DropTrailingNewlines(text));
    assert forall line <- ExistingLines(text) :: OneLine(line);
    WrittenAreOneLine(host, cfg, ExistingLines(text));
    UnlinesEnd(out);
    assert forall line <- out + [""] :: OneLine(line);
    LinesUndoUnlines(out + [""]);
  }

  predicate AllBlank(lines: seq<Text>) {
    forall i :: 0 <= i < |lines| ==> lines[i] == ""
  }

  lemma {:induction false} NewlineLast(t: Text)
    ensures IndexOf(t + "\n", '\n') == IndexOf(t, '\n')
    decreases |t|
  {
    if t != "" && t[0] != '\n' {
      assert (t + "\n")[1..] == t[1..] + "\n";
      NewlineLast(t[1..]);
    }
  }

  lemma {:induction false} NewlineAddsBlank(t: Text)
    ensures Lines(t + "\n") == Lines(t) + [""]
    decreases |t|
  {
    hide IndexOf;
    NewlineLast(t);
    var i := IndexOf(t, '\n');
    assert (t + "\n")[..i] == t[..i];
    if i < |t| {
      assert (t + "\n")[i + 1..] == t[i + 1..] + "\n";
      NewlineAddsBlank(t[i + 1..]);
    } else {
      assert (t + "\n")[i + 1..] == "" && t[..i] == t;
      assert Lines("") == [""];
    }
  }

  lemma {:induction false} DroppedNewlines(text: Text)
    ensures var kept := Lines(DropTrailingNewlines(text)); kept <= Lines(text) && AllBlank(Lines(text)[|kept|..])
    decreases |text|
  {
    hide Lines;
    if text != "" && text[|text| - 1] == '\n' {
      var t := text[..|text| - 1];
      DroppedNewlines(t);
      assert text == t + "\n";
      NewlineAddsBlank(t);
      BlankAfter(Lines(DropTrailingNewlines(t)), Lines(t));
    }
  }

  lemma BlankAfter(kept: seq<Text>, lines: seq<Text>)
    requires kept <= lines && AllBlank(lines[|kept|..])
    ensures kept <= lines + [""] && AllBlank((lines + [""])[|kept|..])
  {
    assert (lines + [""])[|kept|..] == lines[|kept|..] + [""];
  }

  /** The lines a write starts from are the file's, less blank ones at its end. */
  lemma ExistingAreLines(text: Text)
    ensures var kept := ExistingLines(text); kept <= Lines(text) && AllBlank(Lines(text)[|kept|..])
  {
    hide Lines, DropTrailingNewlines;
    DroppedNewlines(text);
    var kept := Lines(DropTrailingNewlines(text));
    if kept == [""] {
      assert Lines(text) == [""] + Lines(text)[1..];
    }
  }

  function DropBlankEnd(lines: seq<Text>): seq<Text> {
    if lines != [] && lines[|lines| - 1] == "" then DropBlankEnd(lines[..|lines| - 1]) else lines
  }

  lemma {:induction false} BlanksDrop(a: seq<Text>, b: seq<Text>)
    requires AllBlank(b)
    ensures DropBlankEnd(a + b) == DropBlankEnd(a)
    decreases |b|
  {
    if b == [] {
      assert a + b == a;
    } else {
      assert (a + b)[..|a + b| - 1] == a + b[..|b| - 1];
      BlanksDrop(a, b[..|b| - 1]);
    }
  }

  lemma {:induction false} BlanksAreUnowned(b: seq<Text>)
    requires AllBlank(b)
    ensures Unowned(b) == b
    decreases |b|
  {
    if b != [] {
      assert !IsOwned("");
      BlanksAreUnowned(b[1..]);
    }
  }

  /** A write leaves the lines the program does not own in the file's bytes, all
      of them, unchanged and in order; only blank lines at its end may come or go. */
  lemma FileKeepsOthers(host: Host, cfg: Config, text: Text)
    ensures DropBlankEnd(Unowned(Lines(WrittenText(host, cfg, text)))) == DropBlankEnd(Unowned(Lines(text)))
  {
    hide WrittenLines, ExistingLines, Lines, Unowned;
    var before, out := ExistingLines(text), WrittenLines(host, cfg, ExistingLines(text));
    ExistingAreLines(text);
    var blanks := Lines(text)[|before|..];
    assert Lines(text) == before + blanks;
    UnownedSum(before, blanks);
    BlanksAreUnowned(blanks);
    BlanksDrop(Unowned(before), blanks);
    WriteKeepsOthers(host, cfg, before);
    WrittenBytes(host, cfg, text);
    var tail := Lines(WrittenText(host, cfg, text))[|out|..];
    assert Lines(WrittenText(host, cfg, text)) == out + tail;
    UnownedSum(out, tail);
    BlanksAreUnowned(tail);
    BlanksDrop(Unowned(out), tail);
  }

  lemma WrittenBytes(host: Host, cfg: Config, text: Text)
    ensures var out := WrittenLines(host, cfg, ExistingLines(text));
            && out <= Lines(WrittenText(host, cfg, text))
            && AllBlank(Lines(WrittenText(host, cfg, text))[|out|..])
  {
    hide WrittenLines, ExistingLines;
    var out := WrittenLines(host, cfg, ExistingLines(text));
    if out == [] {
      NewlineAddsBlank("");
      assert Unlines(out) + "\n" == "" + "\n";
      assert Lines("") == [""];
    } else {
      WrittenTextLines(host, cfg, text);
    }
  }

  /** ... so a load of the file is a load of the written lines. */
  lemma LoadOfWrittenFile(host: Host, cfg: Config, text: Text, base: Config)
    ensures ApplyAll(host, base, Lines(WrittenText(host, cfg, text))) == ApplyAll(host, base, WrittenLines(host, cfg, ExistingLines(text)))
  {
    hide WrittenLines, Apply;
    var out := WrittenLines(host, cfg, ExistingLines(text));
    BlankSetsNothing(host);
    if out == [] {
      assert WrittenText(host, cfg, text) == "\n" && "\n"[..0] == "" && "\n"[1..] == "";
      assert Lines("") == [""];
      assert Lines("\n") == [""] + Lines("");
      assert ([""] + [""])[1..] == [""] && [""][1..] == [];
      assert ApplyAll(host, base, [""]) == Ok(base);
    } else {
      WrittenTextLines(host, cfg, text);
      BlankEnd(host, base, out);
    }
  }

  lemma BlankSetsNothing(host: Host)
    ensures forall cfg :: Apply(host, cfg, "") == Ok(cfg)
  {
  }

  lemma {:induction false} BlankEnd(host: Host, base: Config, lines: seq<Text>)
    ensures ApplyAll(host, base, lines + [""]) == ApplyAll(host, base, lines)
    decreases |lines|
  {
    hide Apply;
    BlankSetsNothing(host);
    if lines != [] {
      assert (lines + [""])[1..] == lines[1..] + [""];
      if Apply(host, base, lines[0]).Ok? {
        BlankEnd(host, Apply(host, base, lines[0]).cfg, lines[1..]);
      }
    } else {
      assert ([] + [""])[1..] == [];
    }
  }
}

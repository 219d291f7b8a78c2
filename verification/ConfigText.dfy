/** The scalar grammar of config.toml: quoting a value and reading it back, and
    cutting a file into lines. Text is a sequence of bytes, read as UTF-8. */
module ConfigText {

  datatype Option<+T> = None | Some(value: T)

  type Byte = c: char | c as int < 256 witness 'a'
  type Text = seq<Byte>

  // -------------------------------------------------------------------- UTF-8

  predicate ValidRune(r: nat) {
    r < 0xD800 || 0xE000 <= r < 0x110000
  }

  function Tail(r: nat): Byte {
    (128 + r % 64) as char
  }

  function Encode(r: nat): (t: Text)
    requires ValidRune(r)
    ensures 1 <= |t| <= 4
  {
    if r < 0x80 then [r as char]
    else if r < 0x800 then [(192 + r / 64) as char, Tail(r)]
    else if r < 0x10000 then [(224 + r / 4096) as char, Tail(r / 64), Tail(r)]
    else [(240 + r / 262144) as char, Tail(r / 4096), Tail(r / 64), Tail(r)]
  }

  /** How many bytes a first byte announces; none for one that cannot come first. */
  function Announced(lead: Byte): (w: nat)
    ensures w <= 4
  {
    var n := lead as int;
    if n < 128 then 1 else if n < 192 then 0 else if n < 224 then 2 else if n < 240 then 3 else if n < 248 then 4 else 0
  }

  predicate Continues(c: Byte) {
    128 <= c as int < 192
  }

  function Low(c: Byte): nat
    requires Continues(c)
  {
    c as int - 128
  }

  /** The number the announced bytes spell. */
  function Spelt(s: Text): nat
    requires s != "" && 1 <= Announced(s[0]) <= |s| && forall i :: 1 <= i < Announced(s[0]) ==> Continues(s[i])
  {
    var w, n := Announced(s[0]), s[0] as int;
    if w == 1 then n
    else if w == 2 then (n - 192) * 64 + Low(s[1])
    else if w == 3 then (n - 224) * 4096 + Low(s[1]) * 64 + Low(s[2])
    else (n - 240) * 262144 + Low(s[1]) * 4096 + Low(s[2]) * 64 + Low(s[3])
  }

  /** The least number that needs so many bytes. */
  function Least(w: nat): nat {
    if w <= 1 then 0 else if w == 2 then 0x80 else if w == 3 then 0x800 else 0x10000
  }

  /** The character text begins with; None where its first byte begins none. */
  function Decode(s: Text): (r: Option<nat>)
    requires s != ""
    ensures r.Some? ==> ValidRune(r.value) && Encode(r.value) <= s
  {
    var w := Announced(s[0]);
    if w == 0 || w > |s| || exists i :: 1 <= i < w && !Continues(s[i]) then None
    else
      var r := Spelt(s);
      if r < Least(w) || !ValidRune(r) then None
      else
        assert Encode(r) == s[..w] by { SpeltBack(s); }
        Some(r)
  }

  /** Dividing by powers of 64 takes the tails off again. */
  lemma TailsOff(a: nat, b: nat, c: nat, d: nat)
    requires b < 64 && c < 64 && d < 64
    ensures var r := a * 262144 + b * 4096 + c * 64 + d;
            r / 262144 == a && r / 4096 == a * 64 + b && r / 64 == a * 4096 + b * 64 + c && r % 64 == d && r / 64 % 64 == c && r / 4096 % 64 == b
  {
    var r := a * 262144 + b * 4096 + c * 64 + d;
    assert r == (a * 4096 + b * 64 + c) * 64 + d;
    assert r / 64 == a * 4096 + b * 64 + c;
  }

  lemma SpeltBack(s: Text)
    requires s != "" && 1 <= Announced(s[0]) <= |s| && forall i :: 1 <= i < Announced(s[0]) ==> Continues(s[i])
    requires Least(Announced(s[0])) <= Spelt(s) && ValidRune(Spelt(s))
    ensures Encode(Spelt(s)) == s[..Announced(s[0])]
  {
    var n, w := s[0] as int, Announced(s[0]);
    if w == 2 {
      TailsOff(0, 0, n - 192, Low(s[1]));
    } else if w == 3 {
      TailsOff(0, n - 224, Low(s[1]), Low(s[2]));
    } else if w == 4 {
      TailsOff(n - 240, Low(s[1]), Low(s[2]), Low(s[3]));
    }
  }

  /** Decoding inverts encoding: text begins with a character exactly when it
      begins with that character's bytes. */
  lemma DecodeIffEncoded(s: Text, r: nat)
    requires s != "" && ValidRune(r)
    ensures Decode(s) == Some(r) <==> Encode(r) <= s
  {
    if Encode(r) <= s {
      var e := Encode(r);
      assert forall i :: 0 <= i < |e| ==> s[i] == e[i];
      assert Announced(s[0]) == |e|;
      assert r / 64 / 64 == r / 4096 && r / 4096 / 64 == r / 262144;
      assert r == r / 64 * 64 + r % 64 && r / 64 == r / 4096 * 64 + r / 64 % 64 && r / 4096 == r / 262144 * 64 + r / 4096 % 64;
      assert Spelt(s) == r;
    }
  }

  // ----------------------------------------------------------------- trimming

  predicate IsSpace(c: Byte) {
    c == ' ' || c == '\t' || c == '\n' || c == '\r' || c as int == 11 || c as int == 12
  }

  /** White space beyond ASCII. */
  predicate IsWideRune(r: nat) {
    r == 0x85 || r == 0xA0 || r == 0x1680 || 0x2000 <= r <= 0x200A || r == 0x2028 || r == 0x2029 || r == 0x202F || r == 0x205F || r == 0x3000
  }

  /** The text is one white-space character beyond ASCII. */
  predicate IsWideSpace(t: Text) {
    t != "" && Decode(t).Some? && IsWideRune(Decode(t).value) && t == Encode(Decode(t).value)
  }

  /** How many bytes of white space stand first, or last. */
  function SpaceFirst(s: Text): (w: nat)
    ensures w <= |s|
  {
    if s == "" then 0
    else if IsSpace(s[0]) then 1
    else if |s| >= 2 && IsWideSpace(s[..2]) then 2
    else if |s| >= 3 && IsWideSpace(s[..3]) then 3
    else 0
  }

  function Ending(s: Text, w: nat): (e: Text)
    requires w <= |s|
    ensures |e| == w
  {
    s[|s| - w..]
  }

  function SpaceLast(s: Text): (w: nat)
    ensures w <= |s|
  {
    if s == "" then 0
    else if IsSpace(s[|s| - 1]) then 1
    else if |s| >= 2 && IsWideSpace(Ending(s, 2)) then 2
    else if |s| >= 3 && IsWideSpace(Ending(s, 3)) then 3
    else 0
  }

  function TrimStart(s: Text): (r: Text)
    ensures |r| <= |s|
  {
    var w := SpaceFirst(s);
    if w > 0 then TrimStart(s[w..]) else s
  }

  function TrimEnd(s: Text): (r: Text)
    ensures |r| <= |s|
  {
    var w := SpaceLast(s);
    if w > 0 then TrimEnd(s[..|s| - w]) else s
  }

  function Trim(s: Text): Text {
    TrimEnd(TrimStart(s))
  }

  predicate IsSolid(c: Byte) {
    c as int < 128 && !IsSpace(c)
  }

  lemma WideSpaceIsWide(t: Text)
    requires IsWideSpace(t)
    ensures t[0] as int >= 128 && t[|t| - 1] as int >= 128
  {
  }

  lemma SolidStaysFirst(s: Text)
    requires s != "" && IsSolid(s[0])
    ensures TrimStart(s) == s
  {
    hide IsWideSpace;
    if |s| >= 2 && IsWideSpace(s[..2]) { WideSpaceIsWide(s[..2]); }
    if |s| >= 3 && IsWideSpace(s[..3]) { WideSpaceIsWide(s[..3]); }
  }

  lemma SolidStaysLast(s: Text)
    requires s != "" && IsSolid(s[|s| - 1])
    ensures TrimEnd(s) == s
  {
    hide IsWideSpace;
    if |s| >= 2 && IsWideSpace(Ending(s, 2)) { WideSpaceIsWide(Ending(s, 2)); }
    if |s| >= 3 && IsWideSpace(Ending(s, 3)) { WideSpaceIsWide(Ending(s, 3)); }
  }

  lemma TrimKeeps(s: Text)
    requires s != "" && IsSolid(s[0]) && IsSolid(s[|s| - 1])
    ensures Trim(s) == s && Trim(" " + s) == s
  {
    SolidStaysFirst(s);
    SolidStaysLast(s);
    assert (" " + s)[1..] == s;
  }

  lemma TrimDropsPad(s: Text)
    requires s != "" && IsSolid(s[0]) && IsSolid(s[|s| - 1])
    ensures Trim(s + " ") == s
  {
    SolidStaysFirst(s + " ");
    SolidStaysLast(s);
    assert (s + " ")[..|s|] == s;
  }

  function IndexOf(s: Text, c: Byte): (i: nat)
    ensures i <= |s| && (i < |s| ==> s[i] == c) && c !in s[..i]
  {
    if s == "" || s[0] == c then 0
    else
      assert forall i :: 0 <= i <= |s| - 1 ==> s[..i + 1] == [s[0]] + s[1..][..i];
      1 + IndexOf(s[1..], c)
  }

  // ------------------------------------------------------------------ quoting

  function HexDigit(n: nat): Byte
    requires n < 16
  {
    if n < 10 then '0' + n as char else 'a' + (n - 10) as char
  }

  function HexValue(c: Byte): (v: Option<nat>)
    ensures v.Some? ==> v.value < 16
  {
    if '0' <= c <= '9' then Some(c as int - '0' as int)
    else if 'a' <= c <= 'f' then Some(c as int - 'a' as int + 10)
    else if 'A' <= c <= 'F' then Some(c as int - 'A' as int + 10)
    else None
  }

  /** The low k hex digits of n. */
  function Hex(n: nat, k: nat): (t: Text)
    ensures |t| == k
  {
    if k == 0 then "" else Hex(n / 16, k - 1) + [HexDigit(n % 16)]
  }

  /** The number k hex digits spell. */
  function HexNumber(s: Text, k: nat): (v: Option<nat>)
    requires k <= |s|
  {
    if k == 0 then Some(0)
    else if HexNumber(s, k - 1).None? || HexValue(s[k - 1]).None? then None
    else Some(HexNumber(s, k - 1).value * 16 + HexValue(s[k - 1]).value)
  }

  /** The letter of a control character's own escape. */
  function ControlLetter(r: nat): Option<Byte> {
    if r == 7 then Some('a') else if r == 8 then Some('b') else if r == 12 then Some('f') else if r == 10 then Some('n')
    else if r == 13 then Some('r') else if r == 9 then Some('t') else if r == 11 then Some('v') else None
  }

  /** Which characters print as they are: space to tilde, and beyond ASCII those
      the host's tables say. */
  predicate IsPrint(wide: nat -> bool, r: nat) {
    if r < 128 then 32 <= r < 127 else wide(r)
  }

  function EscapeRune(wide: nat -> bool, r: nat): (e: Text)
    requires ValidRune(r)
    ensures e != ""
  {
    if r == '"' as int || r == '\\' as int then ['\\', r as char]
    else if IsPrint(wide, r) then Encode(r)
    else if ControlLetter(r).Some? then ['\\', ControlLetter(r).value]
    else if r < 32 || r == 127 then "\\x" + Hex(r, 2)
    else if r < 0x10000 then "\\u" + Hex(r, 4)
    else "\\U" + Hex(r, 8)
  }

  /** The bytes of the first character, or the first byte where none begins. */
  function Unit(s: Text): (u: Text)
    requires s != ""
    ensures u != "" && u <= s
  {
    if Decode(s).Some? then Encode(Decode(s).value) else s[..1]
  }

  function Escape(wide: nat -> bool, s: Text): (e: Text)
    requires s != ""
    ensures e != ""
  {
    if Decode(s).Some? then EscapeRune(wide, Decode(s).value) else "\\x" + Hex(s[0] as int, 2)
  }

  function EscapeAll(wide: nat -> bool, s: Text): Text
    decreases |s|
  {
    if s == "" then "" else Escape(wide, s) + EscapeAll(wide, s[|Unit(s)|..])
  }

  function Quoted(wide: nat -> bool, s: Text): Text {
    "\"" + EscapeAll(wide, s) + "\""
  }

  // ------------------------------------------------------------------ reading

  /** The byte a two-character escape stands for. */
  function Named(c: Byte): Option<Byte> {
    if c == 'a' then Some(7 as char) else if c == 'b' then Some(8 as char) else if c == 'f' then Some(12 as char)
    else if c == 'n' then Some('\n') else if c == 'r' then Some('\r') else if c == 't' then Some('\t')
    else if c == 'v' then Some(11 as char) else if c == '\\' then Some('\\') else if c == '"' then Some('"')
    else None
  }

  predicate IsOctal(c: Byte) {
    '0' <= c <= '7'
  }

  /** One step of reading: the bytes it stands for and how many it used. */
  datatype Piece = Piece(bytes: Text, used: nat)

  /** A hexadecimal escape: a byte for \x, a character for \u and \U. */
  function ReadHex(s: Text, k: nat): (p: Option<Piece>)
    requires |s| >= 2
    ensures p.Some? ==> p.value.used == 2 + k <= |s|
  {
    if |s| < 2 + k || HexNumber(s[2..], k).None? then None
    else
      var v := HexNumber(s[2..], k).value;
      if k == 2 then (if v < 256 then Some(Piece([v as char], 2 + k)) else None)
      else if ValidRune(v) then Some(Piece(Encode(v), 2 + k))
      else None
  }

  function ReadOctal(s: Text): (p: Option<Piece>)
    requires |s| >= 2 && IsOctal(s[1])
    ensures p.Some? ==> p.value.used == 4 <= |s|
  {
    if |s| < 4 || !IsOctal(s[2]) || !IsOctal(s[3]) then None
    else
      var v := (s[1] as int - '0' as int) * 64 + (s[2] as int - '0' as int) * 8 + (s[3] as int - '0' as int);
      if v < 256 then Some(Piece([v as char], 4)) else None
  }

  /** A stray byte beyond ASCII reads as the replacement character. */
  function ReadOne(s: Text): (p: Option<Piece>)
    requires s != ""
    ensures p.Some? ==> 1 <= p.value.used <= |s|
  {
    var c := s[0];
    if c == '"' || c == '\n' then None
    else if c as int >= 128 then
      (if Decode(s).Some? then Some(Piece(Unit(s), |Unit(s)|)) else Some(Piece(Encode(0xFFFD), 1)))
    else if c != '\\' then Some(Piece([c], 1))
    else if |s| == 1 then None
    else if Named(s[1]).Some? then Some(Piece([Named(s[1]).value], 2))
    else if s[1] == 'x' then ReadHex(s, 2)
    else if s[1] == 'u' then ReadHex(s, 4)
    else if s[1] == 'U' then ReadHex(s, 8)
    else if IsOctal(s[1]) then ReadOctal(s)
    else None
  }

  function Unescape(s: Text): Option<Text>
    decreases |s|
  {
    if s == "" then Some("")
    else match ReadOne(s)
      case None => None
      case Some(p) =>
        match Unescape(s[p.used..])
        case None => None
        case Some(rest) => Some(p.bytes + rest)
  }

  function TrimQuotesStart(s: Text): Text {
    if s != "" && s[0] == '"' then TrimQuotesStart(s[1..]) else s
  }

  function TrimQuotesEnd(s: Text): Text {
    if s != "" && s[|s| - 1] == '"' then TrimQuotesEnd(s[..|s| - 1]) else s
  }

  /** The first quote from i that no backslash hides, or the end. */
  function Closing(s: Text, i: nat): (j: nat)
    ensures j < |s| ==> s[j] == '"' && i <= j
    decreases |s| - i
  {
    if i >= |s| then |s|
    else if s[i] == '\\' then Closing(s, i + 2)
    else if s[i] == '"' then i
    else Closing(s, i + 1)
  }

  function ParseValue(text: Text): Text {
    var raw := Trim(text);
    if raw != "" && raw[0] == '"' then
      var i := Closing(raw, 1);
      if i < |raw| then
        var v := Unescape(raw[1..i]);
        if v.Some? then v.value else TrimQuotesEnd(TrimQuotesStart(raw[..i + 1]))
      else TrimQuotesEnd(TrimQuotesStart(raw))
    else Trim(raw[..IndexOf(raw, '#')])
  }

  method ParseScalar(text: Text) returns (v: Text)
    ensures v == ParseValue(text)
  {
    var raw := Trim(text);
    if raw != "" && raw[0] == '"' {
      var i := 1;
      while i < |raw|
        invariant 1 <= i && Closing(raw, i) == Closing(raw, 1)
        decreases |raw| - i
      {
        if raw[i] == '\\' {
          i := i + 2;
        } else if raw[i] == '"' {
          var u := Unescape(raw[1..i]);
          if u.Some? {
            return u.value;
          }
          return TrimQuotesEnd(TrimQuotesStart(raw[..i + 1]));
        } else {
          i := i + 1;
        }
      }
      return TrimQuotesEnd(TrimQuotesStart(raw));
    }
    v := Trim(raw[..IndexOf(raw, '#')]);
  }

  // ------------------------------------------------------- reading undoes writing

  /** A byte no scan for the closing quote or the line's end stops at. */
  predicate IsInert(c: Byte) {
    c != '"' && c != '\\' && c != '\n'
  }

  predicate AreInert(t: Text) {
    forall c <- t :: IsInert(c)
  }

  lemma {:induction false} HexIsInert(n: nat, k: nat)
    ensures AreInert(Hex(n, k))
  {
    if k > 0 {
      HexIsInert(n / 16, k - 1);
    }
  }

  function Power16(k: nat): (p: nat)
    ensures p > 0
  {
    if k == 0 then 1 else 16 * Power16(k - 1)
  }

  lemma {:induction false} HexRoundTrip(n: nat, k: nat, rest: Text)
    requires n < Power16(k)
    ensures HexNumber(Hex(n, k) + rest, k) == Some(n)
    decreases k
  {
    if k > 0 {
      var d := HexDigit(n % 16);
      HexRoundTrip(n / 16, k - 1, [d] + rest);
      assert Hex(n, k) + rest == Hex(n / 16, k - 1) + ([d] + rest);
      assert (Hex(n, k) + rest)[k - 1] == d && HexValue(d) == Some(n % 16);
    }
  }

  lemma Powers()
    ensures Power16(2) == 256 && Power16(4) == 0x10000 && Power16(8) == 0x1_0000_0000
  {
    assert Power16(1) == 16 && Power16(3) == 4096 && Power16(5) == 0x10_0000 && Power16(6) == 0x100_0000 && Power16(7) == 0x1000_0000;
  }

  /** What the writer puts for one unit is either inert text or a backslash and a
      letter, with inert text behind. */
  lemma EscapeShape(wide: nat -> bool, s: Text)
    requires s != ""
    ensures var e := Escape(wide, s);
            AreInert(e) || (|e| >= 2 && e[0] == '\\' && e[1] != '\n' && AreInert(e[2..]))
  {
    if Decode(s).Some? {
      var r := Decode(s).value;
      HexIsInert(r, 2);
      HexIsInert(r, 4);
      HexIsInert(r, 8);
    } else {
      HexIsInert(s[0] as int, 2);
    }
  }

  lemma ReadsHex(letter: Byte, n: nat, k: nat, rest: Text)
    requires n < Power16(k) && (if k == 2 then n < 256 else ValidRune(n))
    ensures ReadHex(['\\', letter] + Hex(n, k) + rest, k) == Some(Piece(if k == 2 then [n as char] else Encode(n), 2 + k))
  {
    hide Encode, Hex, HexNumber, HexValue;
    var s := ['\\', letter] + Hex(n, k) + rest;
    assert s[2..] == Hex(n, k) + rest;
    HexRoundTrip(n, k, rest);
  }

  /** Each unit reads back as its own bytes. */
  lemma ReadsUnit(wide: nat -> bool, s: Text, rest: Text)
    requires s != ""
    ensures ReadOne(Escape(wide, s) + rest) == Some(Piece(Unit(s), |Escape(wide, s)|))
  {
    hide Hex, HexNumber, HexValue, ReadHex, ReadOctal;
    Powers();
    var e := Escape(wide, s);
    if Decode(s).None? {
      assert s[..1] == [s[0]];
      ReadsHex('x', s[0] as int, 2, rest);
      assert (e + rest)[0] == '\\' && (e + rest)[1] == 'x';
    } else {
      ReadsRune(wide, Decode(s).value, rest);
    }
  }

  lemma ReadsRune(wide: nat -> bool, r: nat, rest: Text)
    requires ValidRune(r)
    ensures ReadOne(EscapeRune(wide, r) + rest) == Some(Piece(Encode(r), |EscapeRune(wide, r)|))
  {
    hide Hex, HexNumber, HexValue, ReadHex, ReadOctal, Decode;
    Powers();
    var e := EscapeRune(wide, r);
    var t := e + rest;
    assert t[0] == e[0];
    if IsPrint(wide, r) && IsInert(e[0]) && e == Encode(r) {
      DecodeIffEncoded(t, r);
    } else {
      assert t[1] == e[1];
      if r < 32 || r == 127 {
        ReadsHex('x', r, 2, rest);
      } else if r < 0x10000 {
        ReadsHex('u', r, 4, rest);
      } else {
        ReadsHex('U', r, 8, rest);
      }
    }
  }

  lemma {:induction false} UnescapeAll(wide: nat -> bool, s: Text)
    ensures Unescape(EscapeAll(wide, s)) == Some(s)
    decreases |s|
  {
    hide Escape, ReadOne, Unit;
    if s != "" {
      var e, rest := Escape(wide, s), EscapeAll(wide, s[|Unit(s)|..]);
      UnescapeAll(wide, s[|Unit(s)|..]);
      ReadsUnit(wide, s, rest);
      assert (e + rest)[|e|..] == rest;
      assert Unit(s) + s[|Unit(s)|..] == s;
    }
  }

  lemma {:induction false} ClosingSkips(s: Text, i: nat, j: nat)
    requires i <= j <= |s| && AreInert(s[i..j])
    ensures Closing(s, i) == Closing(s, j)
    decreases j - i
  {
    if i < j {
      assert s[i] == s[i..j][0] && s[i + 1..j] == s[i..j][1..];
      assert IsInert(s[i..j][0]);
      ClosingSkips(s, i + 1, j);
    }
  }

  lemma ClosingStep(wide: nat -> bool, p: Text, s: Text, rest: Text)
    requires s != ""
    ensures Closing(p + Escape(wide, s) + rest, |p|) == Closing(p + Escape(wide, s) + rest, |p| + |Escape(wide, s)|)
  {
    hide Escape, IsInert;
    EscapeShape(wide, s);
    var e := Escape(wide, s);
    var t := p + e + rest;
    var n := |p|;
    assert t[n..n + |e|] == e;
    if AreInert(e) {
      ClosingSkips(t, n, n + |e|);
    } else {
      assert t[n] == e[0] && t[n + 2..n + |e|] == e[2..];
      ClosingSkips(t, n + 2, n + |e|);
    }
  }

  lemma Regroup(p: Text, e: Text, tail: Text)
    ensures p + (e + tail) + "\"" == p + e + (tail + "\"") == (p + e) + tail + "\""
  {
  }

  lemma ClosingHere(p: Text)
    ensures Closing(p + "" + "\"", |p|) == |p|
  {
    assert (p + "" + "\"")[|p|] == '"';
  }

  lemma EscapeAllStep(wide: nat -> bool, s: Text)
    ensures EscapeAll(wide, s) == if s == "" then "" else Escape(wide, s) + EscapeAll(wide, s[|Unit(s)|..])
  {
  }

  lemma {:induction false} ClosingAfter(wide: nat -> bool, p: Text, s: Text)
    ensures Closing(p + EscapeAll(wide, s) + "\"", |p|) == |p| + |EscapeAll(wide, s)|
    decreases |s|
  {
    hide Closing, Escape, Unit, EscapeAll;
    EscapeAllStep(wide, s);
    if s == "" {
      ClosingHere(p);
    } else {
      var e, tail := Escape(wide, s), EscapeAll(wide, s[|Unit(s)|..]);
      Regroup(p, e, tail);
      ClosingStep(wide, p, s, tail + "\"");
      ClosingAfter(wide, p + e, s[|Unit(s)|..]);
    }
  }

  /** Reading a quoted value gives back exactly what was written, whatever bytes
      it holds and whichever characters the host prints as they are. */
  lemma ParseUndoesQuoting(wide: nat -> bool, v: Text)
    ensures ParseValue(" " + Quoted(wide, v)) == v
  {
    hide EscapeAll, Unescape, Closing, Trim;
    var q := Quoted(wide, v);
    assert q == "\"" + EscapeAll(wide, v) + "\"";
    assert q[0] == '"' && q[|q| - 1] == '"';
    TrimKeeps(q);
    ClosingAfter(wide, "\"", v);
    assert q[1..|q| - 1] == EscapeAll(wide, v);
    UnescapeAll(wide, v);
  }

  // -------------------------------------------------------------------- lines

  function Lines(text: Text): (ls: seq<Text>)
    ensures |ls| > 0
    decreases |text|
  {
    var i := IndexOf(text, '\n');
    if i == |text| then [text] else [text[..i]] + Lines(text[i + 1..])
  }

  function Unlines(ls: seq<Text>): Text {
    if ls == [] then "" else if |ls| == 1 then ls[0] else ls[0] + "\n" + Unlines(ls[1..])
  }

  predicate OneLine(s: Text) {
    '\n' !in s
  }

  lemma {:induction false} IndexAfter(a: Text, b: Text)
    requires OneLine(a)
    ensures IndexOf(a + "\n" + b, '\n') == |a|
    decreases |a|
  {
    var s := a + "\n" + b;
    if a != "" {
      assert s[0] == a[0] && a[0] in a;
      assert s[1..] == a[1..] + "\n" + b;
      IndexAfter(a[1..], b);
    }
  }

  lemma {:induction false} NoIndex(a: Text)
    requires OneLine(a)
    ensures IndexOf(a, '\n') == |a|
    decreases |a|
  {
    if a != "" {
      assert a[0] in a;
      NoIndex(a[1..]);
    }
  }

  lemma {:induction false} LinesUndoUnlines(ls: seq<Text>)
    requires ls != [] && forall k :: 0 <= k < |ls| ==> OneLine(ls[k])
    ensures Lines(Unlines(ls)) == ls
    decreases |ls|
  {
    var text := Unlines(ls);
    if |ls| == 1 {
      NoIndex(text);
    } else {
      var rest := Unlines(ls[1..]);
      IndexAfter(ls[0], rest);
      assert text[..|ls[0]|] == ls[0] && text[|ls[0]| + 1..] == rest;
      LinesUndoUnlines(ls[1..]);
    }
  }

  lemma {:induction false} LinesAreOneLine(text: Text)
    ensures forall k :: 0 <= k < |Lines(text)| ==> OneLine(Lines(text)[k])
    decreases |text|
  {
    var i := IndexOf(text, '\n');
    if i < |text| {
      LinesAreOneLine(text[i + 1..]);
    } else {
      assert text[..i] == text;
    }
  }

  lemma {:induction false} QuotedIsOneLine(wide: nat -> bool, s: Text)
    ensures OneLine(EscapeAll(wide, s))
    decreases |s|
  {
    hide Escape, Unit;
    if s != "" {
      EscapeShape(wide, s);
      var e := Escape(wide, s);
      assert !AreInert(e) ==> e == [e[0], e[1]] + e[2..];
      QuotedIsOneLine(wide, s[|Unit(s)|..]);
    }
  }
}

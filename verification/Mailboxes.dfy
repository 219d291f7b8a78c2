/** Provider mailboxes: when two addresses reach one inbox, and the ids that
    people get from what is written of them. */
module Mailboxes {

  /** Trimming white space and then lower-casing. */
  type Fold = string -> string

  function LastAt(s: string): (i: nat)
    requires '@' in s
    ensures i < |s| && s[i] == '@' && '@' !in s[i + 1..]
  {
    if s[|s| - 1] == '@' then |s| - 1 else
      assert s == s[..|s| - 1] + [s[|s| - 1]];
      var i := LastAt(s[..|s| - 1]);
      assert s[i + 1..] == s[..|s| - 1][i + 1..] + [s[|s| - 1]];
      i
  }

  function Local(s: string): string
    requires '@' in s
  {
    s[..LastAt(s)]
  }

  function Host(s: string): string
    requires '@' in s
  {
    s[LastAt(s) + 1..]
  }

  function BeforePlus(s: string): string {
    if s == "" || s[0] == '+' then "" else [s[0]] + BeforePlus(s[1..])
  }

  function WithoutDots(s: string): string {
    if s == "" then "" else (if s[0] == '.' then "" else [s[0]]) + WithoutDots(s[1..])
  }

  predicate IsGmail(s: string) {
    '@' in s && (Host(s) == "gmail.com" || Host(s) == "googlemail.com")
  }

  /** What is left of a local part whose provider ignores tags and dots. */
  function Bare(s: string): string
    requires '@' in s
  {
    WithoutDots(BeforePlus(Local(s)))
  }

  function MailboxKey(fold: Fold, addr: string): string {
    var s := fold(addr);
    if '@' !in s then s
    else if IsGmail(s) then Bare(s) + "@" + "gmail.com"
    else Local(s) + "@" + Host(s)
  }

  /** Folding leaves the text alone. */
  predicate IsFolded(fold: Fold, s: string) {
    fold(s) == s
  }

  lemma Rejoined(s: string)
    requires '@' in s
    ensures Local(s) + "@" + Host(s) == s
  {
  }

  /** A text that ends in @host, the host free of '@', is split there. */
  lemma SplitAt(local: string, host: string)
    requires '@' !in host
    ensures var s := local + "@" + host; '@' in s && LastAt(s) == |local| && Local(s) == local && Host(s) == host
  {
    var s := local + "@" + host;
    assert s[|local|] == '@';
    assert forall k :: |local| < k < |s| ==> s[k] == host[k - |local| - 1];
    assert forall k :: 0 <= k <= |local| ==> s[k..][|local| - k] == '@';
    assert s[..|local|] == local && s[|local| + 1..] == host;
  }

  /** The key of folded text keeps whether there is an '@'; where there is none, or
      no such provider, it is the text itself. */
  lemma KeyOfFolded(fold: Fold, s: string)
    requires IsFolded(fold, s)
    ensures '@' in MailboxKey(fold, s) <==> '@' in s
    ensures !IsGmail(s) ==> MailboxKey(fold, s) == s
    ensures IsGmail(s) ==> IsGmail(MailboxKey(fold, s)) && MailboxKey(fold, s) == Bare(s) + "@" + "gmail.com"
  {
    if '@' in s {
      Rejoined(s);
      if IsGmail(s) {
        SplitAt(Bare(s), "gmail.com");
      }
    }
  }

  /** Two folded addresses are one mailbox exactly when they are the same, or both
      are of the provider that ignores dots and tags and agree without them. */
  lemma SameMailbox(fold: Fold, s: string, t: string)
    requires IsFolded(fold, s) && IsFolded(fold, t)
    ensures MailboxKey(fold, s) == MailboxKey(fold, t) <==> s == t || (IsGmail(s) && IsGmail(t) && Bare(s) == Bare(t))
  {
    hide MailboxKey, IsGmail, Bare;
    KeyOfFolded(fold, s);
    KeyOfFolded(fold, t);
    if IsGmail(s) && IsGmail(t) && MailboxKey(fold, s) == MailboxKey(fold, t) {
      var tail := "@" + "gmail.com";
      assert Bare(s) + tail == Bare(s) + "@" + "gmail.com" && Bare(t) + tail == Bare(t) + "@" + "gmail.com";
      assert (Bare(s) + tail)[..|Bare(s)|] == Bare(s) && (Bare(t) + tail)[..|Bare(t)|] == Bare(t);
    }
  }

  // ------------------------------------------------------------------ person ids

  function Address(id: string): string {
    if |id| >= 7 && id[..7] == "person:" then id[7..] else id
  }

  function PersonId(fold: Fold, identity: string): string {
    "person:" + fold(identity)
  }

  /** Folding twice is folding once. */
  ghost predicate FoldsOnce(fold: Fold) {
    forall s: string :: IsFolded(fold, fold(s))
  }

  /** The ids people get carry the prefix and folded text. */
  ghost predicate AreMade(fold: Fold, ids: set<string>) {
    forall id <- ids :: "person:" <= id && IsFolded(fold, Address(id))
  }

  lemma MadeIdIsFolded(fold: Fold, identity: string)
    requires FoldsOnce(fold)
    ensures AreMade(fold, {PersonId(fold, identity)}) && Address(PersonId(fold, identity)) == fold(identity)
  {
    assert PersonId(fold, identity)[7..] == fold(identity);
  }

  // -------------------------------------------------- folding as ASCII has it

  predicate IsSpace(c: char) {
    c == ' ' || '\t' <= c <= '\r'
  }

  function LowerChar(c: char): char {
    if 'A' <= c <= 'Z' then c - 'A' + 'a' else c
  }

  function Lower(s: string): (r: string)
    ensures |r| == |s| && forall i :: 0 <= i < |s| ==> r[i] == LowerChar(s[i])
  {
    if s == "" then "" else [LowerChar(s[0])] + Lower(s[1..])
  }

  function Trim(s: string): (r: string)
    ensures r == "" || (!IsSpace(r[0]) && !IsSpace(r[|r| - 1]))
  {
    if s == "" then ""
    else if IsSpace(s[0]) then Trim(s[1..])
    else if IsSpace(s[|s| - 1]) then Trim(s[..|s| - 1])
    else s
  }

  function AsciiFold(): Fold {
    s => Lower(Trim(s))
  }

  lemma {:induction false} LowerTwice(s: string)
    ensures Lower(Lower(s)) == Lower(s)
  {
  }

  lemma LowerTrimmed(r: string)
    requires r == "" || (!IsSpace(r[0]) && !IsSpace(r[|r| - 1]))
    ensures Trim(Lower(r)) == Lower(r)
  {
    hide Lower;
  }

  /** ... folds once. */
  lemma AsciiFoldsOnce()
    ensures FoldsOnce(AsciiFold())
  {
    hide Lower, Trim, IsSpace;
    forall s: string
      ensures IsFolded(AsciiFold(), AsciiFold()(s))
    {
      LowerTrimmed(Trim(s));
      LowerTwice(Trim(s));
    }
  }
}

/** What makes two spellings one mailbox, said over the letters of the addresses. */
module MailboxLaws {
  import opened Mailboxes

  /** The local part and the host around the last '@'. */
  ghost predicate SplitsInto(s: string, local: string, host: string) {
    s == local + "@" + host && '@' !in host
  }

  lemma SplitsOnce(s: string, local: string, host: string)
    requires SplitsInto(s, local, host)
    ensures '@' in s && Local(s) == local && Host(s) == host
  {
    SplitAt(local, host);
  }

  lemma SplitsSomewhere(s: string)
    requires '@' in s
    ensures SplitsInto(s, Local(s), Host(s))
  {
    Rejoined(s);
  }

  /** The part kept is what stands before the first '+'. */
  lemma {:induction false} BeforePlusIsPrefix(s: string)
    ensures BeforePlus(s) <= s && '+' !in BeforePlus(s)
    ensures BeforePlus(s) != s ==> s[|BeforePlus(s)|] == '+'
  {
    if s != "" && s[0] != '+' {
      BeforePlusIsPrefix(s[1..]);
    }
  }

  /** Dots never matter, and nothing else is dropped. */
  lemma {:induction false} DotsNeverMatter(a: string, b: string)
    ensures WithoutDots(a + "." + b) == WithoutDots(a + b)
    ensures '.' !in a ==> WithoutDots(a) == a
    decreases |a|
  {
    if a == "" {
      assert "" + "." + b == "." + b && "" + b == b;
      assert ("." + b)[1..] == b;
    } else {
      assert (a + "." + b)[1..] == a[1..] + "." + b && (a + b)[1..] == a[1..] + b;
      DotsNeverMatter(a[1..], b);
    }
  }

  lemma GmailIsTwoHosts(s: string, local: string, host: string)
    requires SplitsInto(s, local, host)
    ensures IsGmail(s) <==> host == "gmail.com" || host == "googlemail.com"
  {
    SplitsOnce(s, local, host);
  }

  /** Two folded addresses of that provider are one mailbox exactly when their local
      parts agree once the tag and the dots are gone; any others only when they are
      the same text. */
  lemma OneMailbox(fold: Fold, s: string, t: string, sl: string, sh: string, tl: string, th: string)
    requires IsFolded(fold, s) && IsFolded(fold, t) && SplitsInto(s, sl, sh) && SplitsInto(t, tl, th)
    ensures var one := sh in {"gmail.com", "googlemail.com"};
            var two := th in {"gmail.com", "googlemail.com"};
            MailboxKey(fold, s) == MailboxKey(fold, t) <==>
            if one && two then WithoutDots(BeforePlus(sl)) == WithoutDots(BeforePlus(tl)) else s == t
  {
    SameMailbox(fold, s, t);
    GmailIsTwoHosts(s, sl, sh);
    GmailIsTwoHosts(t, tl, th);
    SplitsOnce(s, sl, sh);
    SplitsOnce(t, tl, th);
  }

  /** A handle is its own key, and shares none with an address. */
  lemma HandleIsItsOwnKey(fold: Fold, s: string, t: string)
    requires IsFolded(fold, s) && IsFolded(fold, t) && '@' !in s
    ensures MailboxKey(fold, s) == MailboxKey(fold, t) <==> s == t
  {
    SameMailbox(fold, s, t);
  }
}

/** What canonicalisation promises a caller, whatever the vault holds. */
module GraphTheorems {
  import opened Connectivity
  import opened Ordering
  import opened Mailboxes
  import opened Graph
  import opened GraphRules

  ghost function Named(confirmed: seq<ConfirmedMerge>): set<(string, string)> {
    set m | m in confirmed :: (m.a, m.b)
  }

  lemma NamedPresent(persons: Persons, confirmed: seq<ConfirmedMerge>)
    ensures ConfirmedPairs(persons, confirmed) == set p | p in Named(confirmed) && p.0 in persons && p.1 in persons
  {
  }

  /** The canonical map depends on which pairs were confirmed, not on their
      order, their repetition or their record ids. */
  lemma ConfirmationOrderIrrelevant(words: Words, persons: Persons, confirmed: seq<ConfirmedMerge>, again: seq<ConfirmedMerge>,
                                    canon: map<string, string>, canonAgain: map<string, string>)
    requires IsCanonical(words, persons, confirmed, canon) && IsCanonical(words, persons, again, canonAgain)
    requires Named(confirmed) == Named(again)
    ensures canon == canonAgain
  {
    hide AutoClusters, WithinClusters, Outranks, Connected, ConfirmedPairs, Named;
    NamedPresent(persons, confirmed);
    NamedPresent(persons, again);
    forall id | id in persons
      ensures canon[id] == canonAgain[id]
    {
      assert CanonicalAt(words, persons, confirmed, canon, id) && CanonicalAt(words, persons, again, canonAgain, id);
      assert SameCluster(words, persons, confirmed, id, canonAgain[id]);
      OutranksTotal(persons, canon[id], canonAgain[id]);
    }
  }

  /** The person map is idempotent: a canonical id is its own canonical id. */
  lemma CanonicalIsIdempotent(words: Words, persons: Persons, confirmed: seq<ConfirmedMerge>, canon: map<string, string>, id: string)
    requires IsCanonical(words, persons, confirmed, canon) && id in persons
    ensures canon[id] in persons && canon[canon[id]] == canon[id]
  {
    hide AutoClusters, WithinClusters, ConfirmedPairs, Outranks, Connected;
    var links := WithinClusters(AutoClusters(words, persons)) + ConfirmedPairs(persons, confirmed);
    assert CanonicalAt(words, persons, confirmed, canon, id);
    var c := canon[id];
    assert CanonicalAt(words, persons, confirmed, canon, c);
    ConnectedTransitive(links, id, c, canon[c]);
    ConnectedSelf(links, c);
    assert SameCluster(words, persons, confirmed, id, canon[c]) && SameCluster(words, persons, confirmed, c, c);
    OutranksTotal(persons, c, canon[c]);
  }

  /** A mailbox or name link joins two people of one kind, and a phone handle to
      itself only, where ids are made the way the program makes them. */
  lemma AutomaticLinkKeepsKind(words: Words, persons: Persons, confirmed: seq<ConfirmedMerge>, l: MergeLink)
    requires AreMade(words.fold, persons.Keys) && Justified(words, persons, confirmed, l) && l.signal != Confirmed
    ensures IsEmail(l.a) <==> IsEmail(l.b)
    ensures !IsEmail(l.a) ==> l.a == l.b
  {
    if l.signal == Mailbox {
      assert IsFolded(words.fold, Address(l.a)) && IsFolded(words.fold, Address(l.b));
      KeyOfFolded(words.fold, Address(l.a));
      KeyOfFolded(words.fold, Address(l.b));
      AddressNamesOne(l.a);
      AddressNamesOne(l.b);
    } else {
      assert Echoes(words, l.a, l.detail) && Echoes(words, l.b, l.detail);
    }
  }

  ghost predicate Crosses(l: MergeLink, persons: Persons, canon: map<string, string>, cluster: string)
    requires canon.Keys == persons.Keys
  {
    && l.signal == Confirmed && l.a in persons && l.b in persons
    && canon[l.a] == canon[l.b] == cluster && (IsEmail(l.a) <==> !IsEmail(l.b))
  }

  /** Every cluster that mixes phone handles and addresses holds a confirmed
      link that crosses the two kinds. */
  lemma MixedClusterWasConfirmed(words: Words, persons: Persons, confirmed: seq<ConfirmedMerge>, canon: map<string, string>,
                                 links: seq<MergeLink>, a: string, b: string)
    requires AreMade(words.fold, persons.Keys) && canon.Keys == persons.Keys
    requires forall l <- links :: Justified(words, persons, confirmed, l)
    requires LinksExplain(persons, canon, Ends(links))
    requires a in persons && b in persons && canon[a] == canon[b] && IsEmail(a) && !IsEmail(b)
    ensures exists l <- links :: Crosses(l, persons, canon, canon[a])
  {
    hide IsEmail;
    var ends := Ends(links);
    var kind := map x | x in persons :: if canon[x] != canon[a] then "elsewhere" else if IsEmail(x) then "email" else "handle";
    assert Connected(ends, a, b);
    if forall e <- ends :: e.0 in kind && e.1 in kind && kind[e.0] == kind[e.1] {
      ConnectedRespects(kind, ends, a, b);
    } else {
      var e :| e in ends && !(e.0 in kind && e.1 in kind && kind[e.0] == kind[e.1]);
      var l :| l in links && e == (l.a, l.b);
      assert Justified(words, persons, confirmed, l);
      assert Adjacent(ends, l.a, l.b);
      ConnectedLink(ends, l.a, l.b);
      assert canon[l.a] == canon[l.b];
      if l.signal != Confirmed {
        AutomaticLinkKeepsKind(words, persons, confirmed, l);
      }
      assert Crosses(l, persons, canon, canon[a]);
    }
  }

  lemma AddressNamesOne(id: string)
    requires "person:" <= id
    ensures id == "person:" + Address(id)
  {
  }

  /** A phone handle that no confirmed pair names is its own canonical id. */
  lemma UnconfirmedHandleStandsAlone(words: Words, persons: Persons, confirmed: seq<ConfirmedMerge>, canon: map<string, string>,
                                     links: seq<MergeLink>, id: string)
    requires AreMade(words.fold, persons.Keys) && IsCanonical(words, persons, confirmed, canon)
    requires forall l <- links :: Justified(words, persons, confirmed, l)
    requires LinksExplain(persons, canon, Ends(links))
    requires id in persons && !IsEmail(id) && forall m <- confirmed :: m.a != id && m.b != id
    ensures forall other <- persons.Keys :: canon[other] == canon[id] ==> other == id
    ensures canon[id] == id
  {
    hide IsEmail, Address, CanonicalAt;
    var alone := map x | x in persons :: if x == id then "alone" else "other";
    forall e <- Ends(links)
      ensures e.0 in alone && e.1 in alone && alone[e.0] == alone[e.1]
    {
      var l :| l in links && e == (l.a, l.b);
      assert Justified(words, persons, confirmed, l);
      if l.signal != Confirmed {
        AutomaticLinkKeepsKind(words, persons, confirmed, l);
      }
    }
    forall other <- persons.Keys | canon[other] == canon[id]
      ensures other == id
    {
      assert Connected(Ends(links), other, id);
      ConnectedRespects(alone, Ends(links), other, id);
    }
    CanonicalIsIdempotent(words, persons, confirmed, canon, id);
  }

  /** Addresses of one provider mailbox and confirmed pairs always end up together. */
  lemma RulesAreApplied(words: Words, persons: Persons, confirmed: seq<ConfirmedMerge>, canon: map<string, string>, a: string, b: string)
    requires IsCanonical(words, persons, confirmed, canon) && a in persons && b in persons
    requires Key(words, a) == Key(words, b) || (exists m <- confirmed :: m.a == a && m.b == b)
    ensures canon[a] == canon[b]
  {
    hide Bridge, Outranks;
    var links := WithinClusters(AutoClusters(words, persons)) + ConfirmedPairs(persons, confirmed);
    if Key(words, a) == Key(words, b) {
      StaysTogether(words, persons, MailboxClusters(words, persons), Ascending(AllNames(words, persons)), a, b);
    }
    assert Adjacent(links, a, b);
    ConnectedLink(links, a, b);
    SameClusterSameCanon(words, persons, confirmed, canon, a, b);
  }

  lemma {:induction false} StaysTogether(words: Words, persons: Persons, c: Clusters, names: seq<string>, a: string, b: string)
    requires c.Keys == persons.Keys && a in persons && b in persons && b in c[a]
    requires forall x, y | x in c && y in c :: y in c[x] <==> c[x] == c[y]
    ensures b in BridgeAll(words, persons, c, names)[a]
    decreases |names|
  {
    hide Bridges, Echoers;
    if names != [] {
      var next := Bridge(words, persons, c, names[0]);
      FuseKeepsClusters(c, Echoers(words, persons, names[0]));
      StaysTogether(words, persons, next, names[1..], a, b);
    }
  }

  lemma FuseKeepsClusters(c: Clusters, group: set<string>)
    requires forall x, y | x in c && y in c :: y in c[x] <==> c[x] == c[y]
    ensures forall x, y | x in c && y in c :: y in Fuse(c, group)[x] <==> Fuse(c, group)[x] == Fuse(c, group)[y]
    ensures forall x, y | x in c && y in c && y in c[x] :: y in Fuse(c, group)[x]
  {
    var d := Fuse(c, group);
    forall x, y | x in c && y in c
      ensures y in d[x] <==> d[x] == d[y]
      ensures y in c[x] ==> y in d[x]
    {
      assert y in c[y] && x in c[x];
    }
  }

  lemma SameClusterSameCanon(words: Words, persons: Persons, confirmed: seq<ConfirmedMerge>, canon: map<string, string>, a: string, b: string)
    requires IsCanonical(words, persons, confirmed, canon) && a in persons && b in persons
    requires SameCluster(words, persons, confirmed, a, b)
    ensures canon[a] == canon[b]
  {
    hide AutoClusters, WithinClusters, ConfirmedPairs, Outranks, Connected;
    var links := WithinClusters(AutoClusters(words, persons)) + ConfirmedPairs(persons, confirmed);
    assert CanonicalAt(words, persons, confirmed, canon, a) && CanonicalAt(words, persons, confirmed, canon, b);
    ConnectedSymmetric(links, a, b);
    ConnectedTransitive(links, a, b, canon[b]);
    ConnectedTransitive(links, b, a, canon[a]);
    assert SameCluster(words, persons, confirmed, a, canon[b]) && SameCluster(words, persons, confirmed, b, canon[a]);
    OutranksTotal(persons, canon[a], canon[b]);
  }
}

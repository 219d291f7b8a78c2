/** What canonicalisation decides, said over the evidence, the ids, the aliases and
    the addresses of the persons. */
module GraphLaws {
  import opened Connectivity
  import opened Ordering
  import opened OrderingLaws
  import opened Mailboxes
  import opened MailboxLaws
  import opened Graph
  import opened GraphRules
  import opened GraphTheorems

  // --------------------------------------------------------- who is canonical

  /** Ids share a canonical id exactly when they are of one cluster. */
  lemma CanonIsByCluster(words: Words, persons: Persons, confirmed: seq<ConfirmedMerge>, canon: map<string, string>, a: string, b: string)
    requires IsCanonical(words, persons, confirmed, canon) && a in persons && b in persons
    ensures canon[a] == canon[b] <==> SameCluster(words, persons, confirmed, a, b)
  {
    hide AutoClusters, WithinClusters, ConfirmedPairs, Outranks, Connected;
    var links := WithinClusters(AutoClusters(words, persons)) + ConfirmedPairs(persons, confirmed);
    assert CanonicalAt(words, persons, confirmed, canon, a) && CanonicalAt(words, persons, confirmed, canon, b);
    if canon[a] == canon[b] {
      ConnectedSymmetric(links, b, canon[b]);
      ConnectedTransitive(links, a, canon[a], b);
    }
    if SameCluster(words, persons, confirmed, a, b) {
      SameClusterSameCanon(words, persons, confirmed, canon, a, b);
    }
  }

  lemma OutranksMeans(persons: Persons, a: string, b: string)
    requires a in persons && b in persons
    ensures Outranks(persons, a, b) <==>
            || |persons[b].evidence| < |persons[a].evidence|
            || (|persons[a].evidence| == |persons[b].evidence| && TextBefore(a, b))
  {
    LessIsTextBefore(a, b);
  }

  /** Nobody of the cluster has more evidence than its canonical member, and of those
      with as much none has the earlier id. */
  lemma CanonicalHasMostEvidence(words: Words, persons: Persons, confirmed: seq<ConfirmedMerge>, canon: map<string, string>,
                                 id: string, other: string)
    requires IsCanonical(words, persons, confirmed, canon) && id in persons && other in persons && canon[other] == canon[id]
    ensures canon[id] in persons && canon[canon[id]] == canon[id]
    ensures |persons[other].evidence| <= |persons[canon[id]].evidence|
    ensures |persons[other].evidence| == |persons[canon[id]].evidence| ==> other == canon[id] || TextBefore(canon[id], other)
  {
    hide CanonicalAt, SameCluster, Outranks;
    CanonicalIsIdempotent(words, persons, confirmed, canon, id);
    CanonIsByCluster(words, persons, confirmed, canon, id, other);
    BestOfCluster(words, persons, confirmed, canon, id, other);
    OutranksMeans(persons, canon[id], other);
  }

  lemma BestOfCluster(words: Words, persons: Persons, confirmed: seq<ConfirmedMerge>, canon: map<string, string>, id: string, other: string)
    requires IsCanonical(words, persons, confirmed, canon) && id in persons && other in persons
    requires SameCluster(words, persons, confirmed, id, other)
    ensures canon[id] in persons && (other == canon[id] || Outranks(persons, canon[id], other))
  {
    hide SameCluster, Outranks;
    assert CanonicalAt(words, persons, confirmed, canon, id);
  }

  // -------------------------------------------------------- what is one cluster

  /** One step of a cluster: the automatic rules put them together, or a person
      confirmed the pair and both are in the vault. */
  ghost predicate OneStep(words: Words, persons: Persons, confirmed: seq<ConfirmedMerge>, a: string, b: string) {
    || (a in persons && b in AutoClusters(words, persons)[a])
    || (a in persons && b in persons && exists m <- confirmed :: m.a == a && m.b == b)
  }

  /** The steps lead from one to the other, each taken either way. */
  ghost predicate IsWalk(words: Words, persons: Persons, confirmed: seq<ConfirmedMerge>, p: seq<string>, a: string, b: string) {
    && |p| > 0 && p[0] == a && p[|p| - 1] == b
    && forall i :: 0 <= i < |p| - 1 ==>
         OneStep(words, persons, confirmed, p[i], p[i + 1]) || OneStep(words, persons, confirmed, p[i + 1], p[i])
  }

  /** A cluster is all that such steps reach. */
  lemma ClustersByStep(words: Words, persons: Persons, confirmed: seq<ConfirmedMerge>, a: string, b: string)
    ensures SameCluster(words, persons, confirmed, a, b) <==> exists p :: IsWalk(words, persons, confirmed, p, a, b)
  {
    var links := WithinClusters(AutoClusters(words, persons)) + ConfirmedPairs(persons, confirmed);
    forall x, y
      ensures (x, y) in links <==> OneStep(words, persons, confirmed, x, y)
    {
      LinkIsStep(words, persons, confirmed, x, y);
    }
    hide AutoClusters, WithinClusters, ConfirmedPairs, OneStep;
    if SameCluster(words, persons, confirmed, a, b) {
      var p :| IsPath(links, p, a, b);
      forall i | 0 <= i < |p| - 1
        ensures OneStep(words, persons, confirmed, p[i], p[i + 1]) || OneStep(words, persons, confirmed, p[i + 1], p[i])
      {
        assert Adjacent(links, p[i], p[i + 1]);
      }
      assert IsWalk(words, persons, confirmed, p, a, b);
    }
    if p :| IsWalk(words, persons, confirmed, p, a, b) {
      assert IsPath(links, p, a, b);
    }
  }

  lemma LinkIsStep(words: Words, persons: Persons, confirmed: seq<ConfirmedMerge>, x: string, y: string)
    ensures (x, y) in WithinClusters(AutoClusters(words, persons)) + ConfirmedPairs(persons, confirmed) <==>
            OneStep(words, persons, confirmed, x, y)
  {
    hide AutoClusters, Outranks;
    if m :| m in confirmed && m.a == x && m.b == y && x in persons && y in persons {
      assert (m.a, m.b) in ConfirmedPairs(persons, confirmed);
    }
  }

  // ------------------------------------------------------- who may be bridged

  /** A trusted name of a person: an alias that is no address and no phone number,
      of two words at least, lower-cased. */
  ghost predicate HasName(words: Words, p: PersonAgg, name: string) {
    exists a <- p.aliases :: '@' !in a && (a == "" || a[0] != '+') && |words.fields(a)| >= 2 && words.lower(a) == name
  }

  /** The words of the address before its last '@'. */
  ghost predicate HasToken(words: Words, id: string, token: string) {
    exists local: string, host: string :: SplitsInto(Address(id), local, host) && token in words.localTokens(words.lower(local))
  }

  /** A person who bears the name and whose address has one of its words. */
  ghost predicate EchoesName(words: Words, persons: Persons, id: string, name: string) {
    && id in persons && words.isPerson(id, persons[id]) && HasName(words, persons[id], name)
    && exists t <- words.fields(name) :: HasToken(words, id, t)
  }

  lemma NameMeans(words: Words, p: PersonAgg, name: string)
    ensures name in TrustedNames(words, p) <==> HasName(words, p, name)
  {
    if a :| a in p.aliases && '@' !in a && (a == "" || a[0] != '+') && |words.fields(a)| >= 2 && words.lower(a) == name {
      assert words.lower(a) in TrustedNames(words, p);
    }
  }

  lemma TokenMeans(words: Words, id: string, token: string)
    ensures token in AddrTokens(words, id) <==> HasToken(words, id, token)
  {
    if '@' in Address(id) {
      SplitsSomewhere(Address(id));
    }
    if local: string, host: string :| SplitsInto(Address(id), local, host) && token in words.localTokens(words.lower(local)) {
      SplitsOnce(Address(id), local, host);
    }
  }

  lemma EchoerMeans(words: Words, persons: Persons, id: string, name: string)
    ensures id in Echoers(words, persons, name) <==> EchoesName(words, persons, id, name)
  {
    hide TrustedNames, HasName, AddrTokens, HasToken;
    forall t: string
      ensures t in AddrTokens(words, id) <==> HasToken(words, id, t)
    {
      TokenMeans(words, id, t);
    }
    if id in persons {
      NameMeans(words, persons[id], name);
    }
  }

  /** A name joins the clusters of those who echo it when these are two to four and
      one of their addresses has all of its words; all of them become one, and
      nothing else moves. */
  lemma BridgeJoins(words: Words, persons: Persons, c: Clusters, name: string, x: string, y: string)
    requires c.Keys == persons.Keys && x in persons && y in persons
    ensures var met := set id | id in persons && EchoesName(words, persons, id, name) :: c[id];
            var joins := 2 <= |met| <= 4 && exists id <- persons.Keys ::
                           EchoesName(words, persons, id, name) && forall t <- words.fields(name) :: HasToken(words, id, t);
            var b := Bridge(words, persons, c, name);
            y in b[x] <==>
            if joins && (exists z <- c[x] :: EchoesName(words, persons, z, name))
            then exists z <- c[y] :: EchoesName(words, persons, z, name)
            else y in c[x]
  {
    hide EchoesName, HasToken, Bears, Echoes;
    var echoers := Echoers(words, persons, name);
    forall id: string
      ensures id in echoers <==> EchoesName(words, persons, id, name)
    {
      EchoerMeans(words, persons, id, name);
    }
    forall id: string, t: string
      ensures t in AddrTokens(words, id) <==> HasToken(words, id, t)
    {
      TokenMeans(words, id, t);
    }
    EchoersKnown(words, persons, name);
    hide Echoers, AddrTokens;
    assert (set id | id in persons && EchoesName(words, persons, id, name) :: c[id]) == set id | id in echoers :: c[id];
    assert (exists id <- echoers :: EchoesFully(words, id, name)) <==>
           exists id <- persons.Keys :: EchoesName(words, persons, id, name) && forall t <- words.fields(name) :: HasToken(words, id, t);
  }

  lemma EchoersKnown(words: Words, persons: Persons, name: string)
    ensures Echoers(words, persons, name) <= persons.Keys
  {
  }

  // ---------------------------------------------------- in which order names go

  /** The mailbox rule first; then each trusted name of a person, once, in the order
      of the text. */
  ghost predicate NamesInTurn(words: Words, persons: Persons, names: seq<string>, stages: seq<Clusters>) {
    && |stages| == |names| + 1
    && (forall name :: name in names <==> exists id <- persons.Keys :: words.isPerson(id, persons[id]) && HasName(words, persons[id], name))
    && (forall i, j :: 0 <= i < j < |names| ==> TextBefore(names[i], names[j]))
    && stages[0] == MailboxClusters(words, persons)
    && (forall i :: 0 <= i < |stages| ==> stages[i].Keys == persons.Keys)
    && forall i :: 0 <= i < |names| ==> stages[i + 1] == Bridge(words, persons, stages[i], names[i])
  }

  lemma {:induction false} StagesOf(words: Words, persons: Persons, c: Clusters, names: seq<string>) returns (stages: seq<Clusters>)
    requires c.Keys == persons.Keys
    ensures |stages| == |names| + 1 && stages[0] == c && stages[|names|] == BridgeAll(words, persons, c, names)
    ensures forall i :: 0 <= i < |stages| ==> stages[i].Keys == persons.Keys
    ensures forall i :: 0 <= i < |names| ==> stages[i + 1] == Bridge(words, persons, stages[i], names[i])
    decreases |names|
  {
    hide Bridge;
    if names == [] {
      stages := [c];
    } else {
      var rest := StagesOf(words, persons, Bridge(words, persons, c, names[0]), names[1..]);
      stages := [c] + rest;
      forall i | 0 <= i < |names|
        ensures stages[i].Keys == persons.Keys && stages[i + 1] == Bridge(words, persons, stages[i], names[i])
      {
        assert i > 0 ==> rest[i - 1 + 1] == Bridge(words, persons, rest[i - 1], names[1..][i - 1]);
      }
    }
  }

  lemma NamesOfPersons(words: Words, persons: Persons, name: string)
    ensures name in Ascending(AllNames(words, persons)) <==>
            exists id <- persons.Keys :: words.isPerson(id, persons[id]) && HasName(words, persons[id], name)
  {
    hide TrustedNames, HasName;
    forall id <- persons.Keys
      ensures name in TrustedNames(words, persons[id]) <==> HasName(words, persons[id], name)
    {
      NameMeans(words, persons[id], name);
    }
  }

  lemma NamesAscend(words: Words, persons: Persons, i: nat, j: nat)
    requires i < j < |Ascending(AllNames(words, persons))|
    ensures TextBefore(Ascending(AllNames(words, persons))[i], Ascending(AllNames(words, persons))[j])
  {
    hide Ascending, AllNames;
    var names := Ascending(AllNames(words, persons));
    AscendingSorted(AllNames(words, persons), i, j);
    LessIsTextBefore(names[i], names[j]);
  }

  /** The two automatic rules, stage by stage. */
  lemma AutomaticRulesInTurn(words: Words, persons: Persons)
    ensures exists names, stages :: NamesInTurn(words, persons, names, stages) && AutoClusters(words, persons) == stages[|names|]
  {
    hide Bridge, HasName, MailboxClusters, AllNames, Ascending, TextBefore;
    var names := Ascending(AllNames(words, persons));
    var stages := StagesOf(words, persons, MailboxClusters(words, persons), names);
    forall name: string
      ensures name in names <==> exists id <- persons.Keys :: words.isPerson(id, persons[id]) && HasName(words, persons[id], name)
    {
      NamesOfPersons(words, persons, name);
    }
    forall i, j | 0 <= i < j < |names|
      ensures TextBefore(names[i], names[j])
    {
      NamesAscend(words, persons, i, j);
    }
    assert NamesInTurn(words, persons, names, stages);
  }

  /** The mailbox rule puts together the ids of one mailbox, and no others. */
  lemma MailboxRuleMeans(words: Words, persons: Persons, x: string, y: string)
    requires x in persons && y in persons
    ensures y in MailboxClusters(words, persons)[x] <==> MailboxKey(words.fold, Address(x)) == MailboxKey(words.fold, Address(y))
  {
  }

  // ------------------------------------------------------------- why, per link

  /** What a provenance link says is so. */
  lemma LinksAreTrue(words: Words, persons: Persons, confirmed: seq<ConfirmedMerge>, l: MergeLink)
    requires Justified(words, persons, confirmed, l)
    ensures l.a in persons && l.b in persons
    ensures l.signal == Mailbox ==> MailboxKey(words.fold, Address(l.a)) == l.detail == MailboxKey(words.fold, Address(l.b))
    ensures l.signal == NameEcho ==> EchoesName(words, persons, l.a, l.detail) && EchoesName(words, persons, l.b, l.detail)
    ensures l.signal == Confirmed ==> exists m <- confirmed :: m.a == l.a && m.b == l.b && m.govId == l.detail
  {
    EchoerMeans(words, persons, l.a, l.detail);
    EchoerMeans(words, persons, l.b, l.detail);
    hide Echoers, EchoesName;
  }
}

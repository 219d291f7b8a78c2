/** The three merge rules and the choice of a canonical id, run on the
    union-find exactly as the graph builder runs them. */
module GraphRules {
  import opened Connectivity
  import opened Ordering
  import opened Mailboxes
  import opened Graph

  /** `buckets` files exactly these (id, key) pairs under their keys. */
  ghost predicate Buckets(pairs: set<(string, string)>, buckets: map<string, seq<string>>) {
    && (forall p <- pairs :: p.1 in buckets)
    && (forall key <- buckets.Keys, id :: id in buckets[key] <==> (id, key) in pairs)
    && (forall key <- buckets.Keys :: buckets[key] != [])
  }

  method File(buckets: map<string, seq<string>>, id: string, key: string, ghost pairs: set<(string, string)>)
    returns (r: map<string, seq<string>>)
    requires Buckets(pairs, buckets)
    ensures Buckets(pairs + {(id, key)}, r)
  {
    r := buckets[key := (if key in buckets then buckets[key] else []) + [id]];
    forall k <- r.Keys, x
      ensures x in r[k] <==> (x, k) in pairs + {(id, key)}
    {
    }
  }

  lemma NoBuckets()
    ensures Buckets({}, map[])
  {
  }

  lemma BucketMembers(pairs: set<(string, string)>, buckets: map<string, seq<string>>, key: string, ids: set<string>)
    requires Buckets(pairs, buckets) && key in buckets
    requires forall id :: (id, key) in pairs <==> id in ids
    ensures Members(buckets[key]) == ids
  {
  }

  // ------------------------------------------------------ rule 1: one mailbox

  ghost function KeyPairs(words: Words, ids: set<string>): set<(string, string)> {
    set id | id in ids :: (id, Key(words, id))
  }

  method GroupByMailbox(words: Words, ids: seq<string>) returns (byMailbox: map<string, seq<string>>)
    ensures Buckets(KeyPairs(words, Members(ids)), byMailbox)
  {
    hide Buckets;
    byMailbox := map[];
    NoBuckets();
    assert KeyPairs(words, Members(ids[..0])) == {};
    for i := 0 to |ids|
      invariant Buckets(KeyPairs(words, Members(ids[..i])), byMailbox)
    {
      byMailbox := File(byMailbox, ids[i], Key(words, ids[i]), KeyPairs(words, Members(ids[..i])));
      assert Members(ids[..i + 1]) == Members(ids[..i]) + {ids[i]};
      assert KeyPairs(words, Members(ids[..i + 1])) == KeyPairs(words, Members(ids[..i])) + {(ids[i], Key(words, ids[i]))};
    }
    assert ids[..|ids|] == ids;
  }

  /** Classes so far: mailboxes already walked are joined, the rest are single. */
  ghost predicate JoinedMailboxes(words: Words, root: map<string, string>, done: set<string>) {
    forall x, y | x in root && y in root ::
      root[x] == root[y] <==> x == y || (Key(words, x) == Key(words, y) && Key(words, x) in done)
  }

  lemma JoinMailbox(words: Words, before: map<string, string>, after: map<string, string>, done: set<string>,
                    key: string, group: set<string>)
    requires JoinedMailboxes(words, before, done) && key !in done
    requires group == set x | x in before && Key(words, x) == key
    requires Fused(before, after, group)
    ensures JoinedMailboxes(words, after, done + {key})
  {
    forall x, y | x in after && y in after
      ensures after[x] == after[y] <==> x == y || (Key(words, x) == Key(words, y) && Key(words, x) in done + {key})
    {
      assert after[x] == after[y] <==> Joined(before, group, x, y);
      TouchesMailbox(words, before, done, key, group, x);
      TouchesMailbox(words, before, done, key, group, y);
    }
  }

  lemma TouchesMailbox(words: Words, root: map<string, string>, done: set<string>, key: string, group: set<string>, x: string)
    requires JoinedMailboxes(words, root, done) && key !in done && x in root
    requires group == set x | x in root && Key(words, x) == key
    ensures Touches(root, x, group) <==> Key(words, x) == key
  {
  }

  method MergeMailbox(uf: UnionFind, words: Words, persons: Persons, key: string, group: seq<string>,
                      confirmed: seq<ConfirmedMerge>, links: seq<MergeLink>, ghost done: set<string>)
    returns (more: seq<MergeLink>)
    requires uf.Valid() && uf.parent.Keys == persons.Keys
    requires Members(group) == set x | x in persons && Key(words, x) == key
    requires JoinedMailboxes(words, uf.root, done) && key !in done
    requires Partitions(uf.root, Ends(links))
    modifies uf
    ensures uf.Valid() && uf.parent.Keys == persons.Keys
    ensures JoinedMailboxes(words, uf.root, done + {key})
    ensures Partitions(uf.root, Ends(links + more))
    ensures forall l <- more :: Justified(words, persons, confirmed, l) && l.signal == Mailbox
  {
    hide Partitions, JoinedMailboxes, Fused, UnionFind.Valid, Justified, LinksFrom, Ends, Connected;
    ghost var before := uf.root;
    more := Chain(uf, group, Mailbox, key, Ends(links));
    JoinMailbox(words, before, uf.root, done, key, Members(group));
    EndsSum(links, more);
    JustifiedMailbox(words, persons, confirmed, group, key, more);
  }

  method MergeMailboxes(uf: UnionFind, words: Words, persons: Persons, ids: seq<string>, confirmed: seq<ConfirmedMerge>)
    returns (links: seq<MergeLink>)
    requires uf.Valid() && uf.root == map x | x in persons :: x
    requires uf.parent.Keys == persons.Keys && Members(ids) == persons.Keys
    modifies uf
    ensures uf.Valid() && uf.parent.Keys == persons.Keys
    ensures ClustersOf(uf.root) == MailboxClusters(words, persons)
    ensures Partitions(uf.root, Ends(links))
    ensures forall l <- links :: Justified(words, persons, confirmed, l) && l.signal == Mailbox
  {
    hide Partitions, JoinedMailboxes, UnionFind.Valid, Buckets, Justified, ClustersOf, MailboxClusters, KeyPairs, Ends, Ascending, Connected, Key;
    var byMailbox := GroupByMailbox(words, ids);
    var keys := Sort(byMailbox.Keys);
    links := [];
    NoLinks(uf.root);
    NoMailbox(words, uf.root);
    EndsSum(links, links);
    assert Members(keys[..0]) == {};
    for i := 0 to |keys|
      invariant uf.Valid() && uf.parent.Keys == persons.Keys
      invariant JoinedMailboxes(words, uf.root, Members(keys[..i]))
      invariant Partitions(uf.root, Ends(links))
      invariant forall l <- links :: Justified(words, persons, confirmed, l) && l.signal == Mailbox
    {
      assert keys[i] in keys;
      MailboxMembers(words, byMailbox, keys[i], uf.root);
      AscendingDistinct(byMailbox.Keys, i);
      var more := MergeMailbox(uf, words, persons, keys[i], byMailbox[keys[i]], confirmed, links, Members(keys[..i]));
      assert Members(keys[..i + 1]) == Members(keys[..i]) + {keys[i]};
      links := links + more;
    }
    AllMailboxes(words, persons, uf.root, byMailbox, Members(keys[..|keys|]));
  }

  lemma NoMailbox(words: Words, root: map<string, string>)
    requires forall x <- root.Keys :: root[x] == x
    ensures JoinedMailboxes(words, root, {})
  {
  }

  lemma MailboxMembers(words: Words, byMailbox: map<string, seq<string>>, key: string, root: map<string, string>)
    requires Buckets(KeyPairs(words, root.Keys), byMailbox) && key in byMailbox
    ensures Members(byMailbox[key]) == set x | x in root && Key(words, x) == key
  {
    BucketMembers(KeyPairs(words, root.Keys), byMailbox, key, set x | x in root && Key(words, x) == key);
  }

  lemma JustifiedMailbox(words: Words, persons: Persons, confirmed: seq<ConfirmedMerge>, group: seq<string>, key: string,
                         links: seq<MergeLink>)
    requires Members(group) == set x | x in persons && Key(words, x) == key
    requires links == LinksFrom(group, Mailbox, key)
    ensures forall l <- links :: Justified(words, persons, confirmed, l) && l.signal == Mailbox
  {
    forall l <- links
      ensures Justified(words, persons, confirmed, l) && l.signal == Mailbox
    {
      LinkEnds(group, Mailbox, key, l);
    }
  }

  lemma AllMailboxes(words: Words, persons: Persons, root: map<string, string>, byMailbox: map<string, seq<string>>,
                     done: set<string>)
    requires Buckets(KeyPairs(words, root.Keys), byMailbox) && root.Keys == persons.Keys
    requires JoinedMailboxes(words, root, done) && done == byMailbox.Keys
    ensures ClustersOf(root) == MailboxClusters(words, persons)
  {
    hide Buckets;
    forall x | x in root
      ensures Key(words, x) in done
    {
      assert (x, Key(words, x)) in KeyPairs(words, root.Keys);
      PairFiled(KeyPairs(words, root.Keys), byMailbox, (x, Key(words, x)));
    }
    forall x | x in root
      ensures ClustersOf(root)[x] == MailboxClusters(words, persons)[x]
    {
    }
  }

  lemma PairFiled(pairs: set<(string, string)>, buckets: map<string, seq<string>>, p: (string, string))
    requires Buckets(pairs, buckets) && p in pairs
    ensures p.1 in buckets
  {
  }

  lemma AscendingDistinct(s: set<string>, i: nat)
    requires i < |s|
    ensures Ascending(s)[i] !in Members(Ascending(s)[..i])
  {
    if Ascending(s)[i] in Members(Ascending(s)[..i]) {
      var j :| 0 <= j < i && Ascending(s)[j] == Ascending(s)[i];
      AscendingSorted(s, j, i);
      LessIrreflexive(Ascending(s)[i]);
    }
  }

  lemma LinkEnds(group: seq<string>, signal: Signal, detail: string, l: MergeLink)
    requires l in LinksFrom(group, signal, detail)
    ensures l.a in Members(group) && l.b in Members(group) && l.signal == signal && l.detail == detail
  {
  }

  // ------------------------------------------------- rule 2: one echoed name

  datatype ClusterEcho = ClusterEcho(rep: string, full: bool)

  method CountCovered(tokens: set<string>, name: seq<string>) returns (covered: nat)
    ensures covered == 0 <==> forall t <- name :: t !in tokens
    ensures covered == |name| <==> forall t <- name :: t in tokens
  {
    covered := 0;
    for i := 0 to |name|
      invariant covered <= i
      invariant covered == 0 <==> forall t <- name[..i] :: t !in tokens
      invariant covered == i <==> forall t <- name[..i] :: t in tokens
    {
      assert name[..i + 1] == name[..i] + [name[i]];
      if name[i] in tokens {
        covered := covered + 1;
      }
    }
    assert name[..|name|] == name;
  }

  /** What the echo table says about the bearers seen so far. */
  ghost predicate EchoTable(words: Words, root: map<string, string>, seen: set<string>, name: string,
                            echoing: map<string, ClusterEcho>)
  {
    && seen <= root.Keys
    && echoing.Keys == (set id | id in seen :: root[id])
    && forall r <- echoing.Keys ::
         && echoing[r].rep in seen && root[echoing[r].rep] == r
         && (echoing[r].full <==> exists id <- seen :: root[id] == r && EchoesFully(words, id, name))
  }

  /** The members of `ids` whose address echoes the name. */
  ghost function EchoersIn(words: Words, ids: seq<string>, name: string): set<string> {
    set id | id in ids && Echoes(words, id, name)
  }

  lemma EchoersInStep(words: Words, ids: seq<string>, i: nat, name: string)
    requires i < |ids|
    ensures EchoersIn(words, ids[..i + 1], name) ==
            if Echoes(words, ids[i], name) then EchoersIn(words, ids[..i], name) + {ids[i]} else EchoersIn(words, ids[..i], name)
  {
    assert ids[..i + 1] == ids[..i] + [ids[i]];
  }

  lemma CoverageMeans(words: Words, id: string, name: string, covered: nat)
    requires covered == 0 <==> forall t <- words.fields(name) :: t !in AddrTokens(words, id)
    requires covered == |words.fields(name)| <==> forall t <- words.fields(name) :: t in AddrTokens(words, id)
    ensures covered == 0 <==> !Echoes(words, id, name)
    ensures covered == |words.fields(name)| <==> EchoesFully(words, id, name)
  {
  }

  method CollectEchoes(uf: UnionFind, words: Words, persons: Persons, name: string, group: seq<string>)
    returns (echoing: map<string, ClusterEcho>)
    requires uf.Valid() && uf.parent.Keys == persons.Keys && Members(group) <= persons.Keys
    modifies uf`parent
    ensures uf.Valid() && uf.parent.Keys == persons.Keys
    ensures EchoTable(words, uf.root, EchoersIn(words, group, name), name, echoing)
  {
    hide EchoTable, UnionFind.Valid, EchoersIn, Echoes, EchoesFully;
    echoing := map[];
    NoEcho(words, uf.root, name);
    NoEchoers(words, name);
    assert group[..0] == [];
    for i := 0 to |group|
      invariant uf.Valid() && uf.parent.Keys == persons.Keys
      invariant EchoTable(words, uf.root, EchoersIn(words, group[..i], name), name, echoing)
    {
      var id := group[i];
      assert id in Members(group);
      EchoersInStep(words, group, i, name);
      var nameToks := words.fields(name);
      var covered := CountCovered(AddrTokens(words, id), nameToks);
      CoverageMeans(words, id, name, covered);
      if covered == 0 {
        continue;
      }
      var root := uf.Find(id);
      ghost var was := echoing;
      var c := if root !in echoing then ClusterEcho(id, false)
               else if Less(id, echoing[root].rep) then echoing[root].(rep := id)
               else echoing[root];
      echoing := echoing[root := if covered == |nameToks| then c.(full := true) else c];
      SeeEcho(words, uf.root, EchoersIn(words, group[..i], name), name, was, id, echoing);
    }
    assert group[..|group|] == group;
  }

  lemma NoEchoers(words: Words, name: string)
    ensures EchoersIn(words, [], name) == {}
  {
  }

  lemma NoEcho(words: Words, root: map<string, string>, name: string)
    ensures EchoTable(words, root, {}, name, map[])
  {
  }

  lemma SeeEcho(words: Words, root: map<string, string>, seen: set<string>, name: string,
                was: map<string, ClusterEcho>, id: string, next: map<string, ClusterEcho>)
    requires EchoTable(words, root, seen, name, was) && id in root
    requires root[id] in next && next == was[root[id] := next[root[id]]]
    requires next[root[id]].rep == id || (root[id] in was && next[root[id]].rep == was[root[id]].rep)
    requires next[root[id]].full <==> (root[id] in was && was[root[id]].full) || EchoesFully(words, id, name)
    ensures EchoTable(words, root, seen + {id}, name, next)
  {
    assert next.Keys == was.Keys + {root[id]};
  }

  method AnyFull(echoing: map<string, ClusterEcho>) returns (any: bool)
    ensures any <==> exists r <- echoing.Keys :: echoing[r].full
  {
    any := false;
    var rest := echoing.Keys;
    while rest != {} && !any
      invariant rest <= echoing.Keys
      invariant any ==> exists r <- echoing.Keys :: echoing[r].full
      invariant !any ==> forall r <- echoing.Keys - rest :: !echoing[r].full
      decreases |rest|
    {
      var r :| r in rest;
      any := echoing[r].full;
      rest := rest - {r};
    }
  }

  /** Two labels that agree on which members are alike have equally many values. */
  lemma ImageWithout<A>(members: set<string>, f: map<string, A>, m: string, rest: set<string>)
    requires members <= f.Keys && m in members && rest == set x | x in members && f[x] != f[m]
    ensures |set x | x in members :: f[x]| == |set x | x in rest :: f[x]| + 1
  {
    var image := set x | x in rest :: f[x];
    assert (set x | x in members :: f[x]) == image + {f[m]};
    assert f[m] !in image;
  }

  lemma {:induction false} SameCount<A, B>(members: set<string>, f: map<string, A>, g: map<string, B>)
    requires members <= f.Keys && members <= g.Keys
    requires forall x, y | x in members && y in members :: f[x] == f[y] <==> g[x] == g[y]
    ensures |set x | x in members :: f[x]| == |set x | x in members :: g[x]|
    decreases |members|
  {
    if members != {} {
      var m :| m in members;
      var rest := set x | x in members && f[x] != f[m];
      assert rest < members && rest == set x | x in members && g[x] != g[m];
      ProperSubsetSize(rest, members);
      SameCount(rest, f, g);
      ImageWithout(members, f, m, rest);
      ImageWithout(members, g, m, rest);
    }
  }

  lemma ProperSubsetSize<T>(small: set<T>, big: set<T>)
    requires small < big
    ensures |small| < |big|
  {
    assert big == small + (big - small);
  }

  lemma CountEchoes(words: Words, root: map<string, string>, echoers: set<string>, name: string,
                    echoing: map<string, ClusterEcho>)
    requires EchoTable(words, root, echoers, name, echoing)
    ensures |set id | id in echoers :: ClustersOf(root)[id]| == |echoing|
    ensures (exists id <- echoers :: EchoesFully(words, id, name)) <==> exists r <- echoing.Keys :: echoing[r].full
  {
    hide EchoesFully;
    var c := ClustersOf(root);
    forall x, y | x in echoers && y in echoers
      ensures root[x] == root[y] <==> c[x] == c[y]
    {
      assert x in c[x];
    }
    SameCount(echoers, root, c);
    if id :| id in echoers && EchoesFully(words, id, name) {
      assert root[id] in echoing.Keys && echoing[root[id]].full;
    }
  }

  lemma TableMeansBridge(words: Words, persons: Persons, root: map<string, string>, name: string,
                         echoing: map<string, ClusterEcho>)
    requires root.Keys == persons.Keys
    requires EchoTable(words, root, Echoers(words, persons, name), name, echoing)
    ensures Bridges(words, persons, ClustersOf(root), name) <==>
            2 <= |echoing| <= MAX_NAME_MERGE_CLUSTERS && exists r <- echoing.Keys :: echoing[r].full
  {
    hide EchoTable, ClustersOf, EchoesFully;
    CountEchoes(words, root, Echoers(words, persons, name), name, echoing);
  }

  method BridgeName(uf: UnionFind, words: Words, persons: Persons, name: string, group: seq<string>,
                    ghost known: set<(string, string)>, confirmed: seq<ConfirmedMerge>)
    returns (links: seq<MergeLink>)
    requires uf.Valid() && uf.parent.Keys == persons.Keys && Partitions(uf.root, known)
    requires Members(group) == set id | id in persons && Bears(words, persons, id, name)
    modifies uf
    ensures uf.Valid() && uf.parent.Keys == persons.Keys
    ensures ClustersOf(uf.root) == Bridge(words, persons, ClustersOf(old(uf.root)), name)
    ensures Partitions(uf.root, known + Ends(links))
    ensures forall l <- links :: Justified(words, persons, confirmed, l) && l.signal == NameEcho
  {
    hide Partitions, Bridges, Fuse, ClustersOf, Fused, UnionFind.Valid, EchoTable, Justified, LinksFrom, Bears, Echoes, EchoersIn;
    links := [];
    assert known + Ends(links) == known;
    var echoing := CollectEchoes(uf, words, persons, name, group);
    ghost var echoers := Echoers(words, persons, name);
    EchoersAreBearers(words, persons, group, name);
    TableMeansBridge(words, persons, uf.root, name, echoing);
    if |echoing| < 2 || |echoing| > MAX_NAME_MERGE_CLUSTERS {
      return;
    }
    var full := AnyFull(echoing);
    if !full {
      return;
    }
    var repSet := set r | r in echoing :: echoing[r].rep;
    RepsEcho(words, uf.root, echoers, name, echoing, repSet);
    var reps := Sort(repSet);
    assert Members(reps) == repSet;
    links := Chain(uf, reps, NameEcho, name, known);
    FusedClusters(old(uf.root), uf.root, repSet);
    RepsReachAll(words, old(uf.root), echoers, name, echoing, repSet);
    JustifiedEcho(words, persons, confirmed, reps, name, links);
  }

  lemma EchoersAreBearers(words: Words, persons: Persons, group: seq<string>, name: string)
    requires Members(group) == set id | id in persons && Bears(words, persons, id, name)
    ensures EchoersIn(words, group, name) == Echoers(words, persons, name)
  {
    hide Bears, Echoes;
    assert forall id :: id in group <==> id in Members(group);
  }

  lemma JustifiedEcho(words: Words, persons: Persons, confirmed: seq<ConfirmedMerge>, reps: seq<string>, name: string,
                      links: seq<MergeLink>)
    requires Members(reps) <= Echoers(words, persons, name) && links == LinksFrom(reps, NameEcho, name)
    ensures forall l <- links :: Justified(words, persons, confirmed, l) && l.signal == NameEcho
  {
    hide Bears, Echoes;
    forall l <- links
      ensures Justified(words, persons, confirmed, l) && l.signal == NameEcho
    {
      LinkEnds(reps, NameEcho, name, l);
    }
  }

  lemma RepsEcho(words: Words, root: map<string, string>, echoers: set<string>, name: string,
                 echoing: map<string, ClusterEcho>, reps: set<string>)
    requires EchoTable(words, root, echoers, name, echoing)
    requires reps == set r | r in echoing :: echoing[r].rep
    ensures reps <= echoers <= root.Keys
  {
  }

  /** Fusing one representative per echoing class fuses all of the echoers. */
  lemma RepsReachAll(words: Words, root: map<string, string>, echoers: set<string>, name: string,
                     echoing: map<string, ClusterEcho>, reps: set<string>)
    requires EchoTable(words, root, echoers, name, echoing)
    requires reps == set r | r in echoing :: echoing[r].rep
    ensures Fuse(ClustersOf(root), reps) == Fuse(ClustersOf(root), echoers)
  {
    hide ClustersOf, Fuse;
    var c := ClustersOf(root);
    forall x | x in c
      ensures c[x] !! reps <==> c[x] !! echoers
    {
      ClusterMeets(root, reps, x);
      ClusterMeets(root, echoers, x);
      if Touches(root, x, echoers) {
        assert echoing[root[x]].rep in reps;
      }
    }
    FuseAlike(c, reps, echoers);
  }

  ghost function NamePairs(words: Words, persons: Persons, ids: set<string>): set<(string, string)> {
    set id, name | id in ids && name in NamesOf(words, persons, id) :: (id, name)
  }

  /** The names a person is merged by; a service has none. */
  ghost function NamesOf(words: Words, persons: Persons, id: string): set<string> {
    if id in persons && words.isPerson(id, persons[id]) then TrustedNames(words, persons[id]) else {}
  }

  ghost function PairsWith(id: string, names: set<string>): set<(string, string)> {
    set name | name in names :: (id, name)
  }

  method GroupByName(words: Words, persons: Persons, ids: seq<string>) returns (byName: map<string, seq<string>>)
    requires Members(ids) == persons.Keys
    ensures Buckets(NamePairs(words, persons, persons.Keys), byName)
    ensures byName.Keys == AllNames(words, persons)
  {
    hide Buckets, TrustedNames, AllNames;
    byName := map[];
    NoBuckets();
    assert NamePairs(words, persons, Members(ids[..0])) == {};
    for i := 0 to |ids|
      invariant Buckets(NamePairs(words, persons, Members(ids[..i])), byName)
    {
      var id := ids[i];
      ghost var pairs := NamePairs(words, persons, Members(ids[..i]));
      assert id in Members(ids) && Members(ids[..i + 1]) == Members(ids[..i]) + {id};
      assert NamePairs(words, persons, Members(ids[..i + 1])) == pairs + PairsWith(id, NamesOf(words, persons, id));
      if !words.isPerson(id, persons[id]) {
        assert pairs + PairsWith(id, NamesOf(words, persons, id)) == pairs;
        continue;
      }
      var names := Sort(TrustedNames(words, persons[id]));
      assert Members(names) == NamesOf(words, persons, id);
      byName := FileAll(byName, id, names, pairs);
    }
    assert ids[..|ids|] == ids;
    NamesComplete(words, persons, byName);
  }

  method FileAll(buckets: map<string, seq<string>>, id: string, names: seq<string>, ghost pairs: set<(string, string)>)
    returns (r: map<string, seq<string>>)
    requires Buckets(pairs, buckets)
    ensures Buckets(pairs + PairsWith(id, Members(names)), r)
  {
    hide Buckets;
    r := buckets;
    assert pairs + PairsWith(id, Members(names[..0])) == pairs;
    for j := 0 to |names|
      invariant Buckets(pairs + PairsWith(id, Members(names[..j])), r)
    {
      assert Members(names[..j + 1]) == Members(names[..j]) + {names[j]};
      assert pairs + PairsWith(id, Members(names[..j + 1])) == pairs + PairsWith(id, Members(names[..j])) + {(id, names[j])};
      r := File(r, id, names[j], pairs + PairsWith(id, Members(names[..j])));
    }
    assert names[..|names|] == names;
  }

  lemma NamesComplete(words: Words, persons: Persons, byName: map<string, seq<string>>)
    requires Buckets(NamePairs(words, persons, persons.Keys), byName)
    ensures byName.Keys == AllNames(words, persons)
  {
    hide TrustedNames;
    forall name | name in byName
      ensures name in AllNames(words, persons)
    {
      assert byName[name][0] in byName[name];
    }
    forall name | name in AllNames(words, persons)
      ensures name in byName
    {
      var id :| id in persons && words.isPerson(id, persons[id]) && name in TrustedNames(words, persons[id]);
      assert (id, name) in NamePairs(words, persons, persons.Keys);
    }
  }

  lemma NameMembers(words: Words, persons: Persons, byName: map<string, seq<string>>, name: string)
    requires Buckets(NamePairs(words, persons, persons.Keys), byName) && name in byName
    ensures Members(byName[name]) == set id | id in persons && Bears(words, persons, id, name)
  {
    hide TrustedNames;
    BucketMembers(NamePairs(words, persons, persons.Keys), byName, name, set id | id in persons && Bears(words, persons, id, name));
  }

  method MergeNames(uf: UnionFind, words: Words, persons: Persons, ids: seq<string>, known: seq<MergeLink>,
                    confirmed: seq<ConfirmedMerge>)
    returns (links: seq<MergeLink>)
    requires uf.Valid() && uf.parent.Keys == persons.Keys && Members(ids) == persons.Keys
    requires Partitions(uf.root, Ends(known)) && ClustersOf(uf.root) == MailboxClusters(words, persons)
    requires forall l <- known :: Justified(words, persons, confirmed, l) && l.signal != Confirmed
    modifies uf
    ensures uf.Valid() && uf.parent.Keys == persons.Keys
    ensures ClustersOf(uf.root) == AutoClusters(words, persons)
    ensures Partitions(uf.root, Ends(links)) && known <= links
    ensures forall l <- links :: Justified(words, persons, confirmed, l) && l.signal != Confirmed
  {
    hide Partitions, Bridge, BridgeAll, AutoClusters, AllNames, Justified, ClustersOf, MailboxClusters, UnionFind.Valid, Buckets, NamePairs;
    var byName := GroupByName(words, persons, ids);
    var names := Sort(byName.Keys);
    links := known;
    BridgeAllStart(words, persons);
    assert names[0..] == names;
    for i := 0 to |names|
      invariant uf.Valid() && uf.parent.Keys == persons.Keys && known <= links
      invariant BridgeAll(words, persons, ClustersOf(uf.root), names[i..]) == AutoClusters(words, persons)
      invariant Partitions(uf.root, Ends(links))
      invariant forall l <- links :: Justified(words, persons, confirmed, l) && l.signal != Confirmed
    {
      assert names[i] in names;
      ghost var before := ClustersOf(uf.root);
      NameMembers(words, persons, byName, names[i]);
      var more := BridgeName(uf, words, persons, names[i], byName[names[i]], Ends(links), confirmed);
      BridgeAllStep(words, persons, before, names, i);
      EndsSum(links, more);
      links := links + more;
    }
    BridgeAllEnd(words, persons, ClustersOf(uf.root), names[|names|..]);
  }

  lemma BridgeAllStart(words: Words, persons: Persons)
    ensures AutoClusters(words, persons) ==
            BridgeAll(words, persons, MailboxClusters(words, persons), Ascending(AllNames(words, persons)))
  {
    hide BridgeAll, MailboxClusters, AllNames;
  }

  lemma BridgeAllStep(words: Words, persons: Persons, c: Clusters, names: seq<string>, i: nat)
    requires c.Keys == persons.Keys && i < |names|
    ensures BridgeAll(words, persons, c, names[i..]) ==
            BridgeAll(words, persons, Bridge(words, persons, c, names[i]), names[i + 1..])
  {
    hide Bridge;
    assert names[i..][0] == names[i] && names[i..][1..] == names[i + 1..];
  }

  lemma BridgeAllEnd(words: Words, persons: Persons, c: Clusters, names: seq<string>)
    requires c.Keys == persons.Keys && names == []
    ensures BridgeAll(words, persons, c, names) == c
  {
  }

  // -------------------------------------------- rule 3: what a human confirmed

  lemma OwnPartition(root: map<string, string>)
    ensures Partitions(root, WithinClusters(ClustersOf(root)))
  {
    var links := WithinClusters(ClustersOf(root));
    forall a, b | a in root && b in root
      ensures root[a] == root[b] <==> Connected(links, a, b)
    {
      if root[a] == root[b] {
        assert b in ClustersOf(root)[a] && (a, b) in links && Adjacent(links, a, b);
        ConnectedLink(links, a, b);
      }
      if Connected(links, a, b) {
        ConnectedRespects(root, links, a, b);
      }
    }
  }

  lemma ConfirmedStep(words: Words, persons: Persons, confirmed: seq<ConfirmedMerge>, i: nat)
    requires i <= |confirmed|
    ensures i == 0 ==> ConfirmedPairs(persons, confirmed[..i]) == {}
    ensures i < |confirmed| ==>
              var cm, pairs := confirmed[i], ConfirmedPairs(persons, confirmed[..i]);
              var here := cm.a in persons && cm.b in persons;
              && ConfirmedPairs(persons, confirmed[..i + 1]) == (if here then pairs + {(cm.a, cm.b)} else pairs)
              && (here ==> Justified(words, persons, confirmed, MergeLink(cm.a, cm.b, Confirmed, cm.govId)))
  {
    if i < |confirmed| {
      assert confirmed[..i + 1] == confirmed[..i] + [confirmed[i]];
    }
  }

  lemma EndsOfOne(l: MergeLink)
    ensures Ends([l]) == {(l.a, l.b)}
  {
  }

  method ConfirmOne(uf: UnionFind, a: string, b: string, ghost pairs: set<(string, string)>, ghost ends: set<(string, string)>)
    requires uf.Valid() && a in uf.parent && b in uf.parent
    requires Partitions(uf.root, pairs) && Partitions(uf.root, ends)
    modifies uf
    ensures uf.Valid() && uf.parent.Keys == old(uf.parent.Keys)
    ensures Partitions(uf.root, pairs + {(a, b)}) && Partitions(uf.root, ends + {(a, b)})
  {
    hide Partitions, Connected, UnionFind.Valid;
    ghost var before := uf.root;
    uf.Union(a, b);
    AddLink(before, pairs, a, b, uf.root);
    AddLink(before, ends, a, b, uf.root);
  }

  ghost predicate AllJustified(words: Words, persons: Persons, confirmed: seq<ConfirmedMerge>, links: seq<MergeLink>) {
    forall l <- links :: Justified(words, persons, confirmed, l)
  }

  lemma AllOf(words: Words, persons: Persons, confirmed: seq<ConfirmedMerge>, links: seq<MergeLink>)
    requires forall l <- links :: Justified(words, persons, confirmed, l)
    ensures AllJustified(words, persons, confirmed, links)
  {
  }

  lemma AllMeans(words: Words, persons: Persons, confirmed: seq<ConfirmedMerge>, links: seq<MergeLink>)
    requires AllJustified(words, persons, confirmed, links)
    ensures forall l <- links :: Justified(words, persons, confirmed, l)
  {
  }

  lemma AndOne(words: Words, persons: Persons, confirmed: seq<ConfirmedMerge>, links: seq<MergeLink>, link: MergeLink)
    requires AllJustified(words, persons, confirmed, links) && Justified(words, persons, confirmed, link)
    ensures AllJustified(words, persons, confirmed, links + [link])
  {
    hide Justified;
  }

  /** One entry of the confirmed list; an entry naming an unknown id is skipped. */
  method ConfirmNext(uf: UnionFind, words: Words, persons: Persons, confirmed: seq<ConfirmedMerge>, i: nat,
                     links: seq<MergeLink>, ghost within: set<(string, string)>)
    returns (next: seq<MergeLink>)
    requires uf.Valid() && uf.parent.Keys == persons.Keys && i < |confirmed|
    requires Partitions(uf.root, within + ConfirmedPairs(persons, confirmed[..i]))
    requires Partitions(uf.root, Ends(links)) && AllJustified(words, persons, confirmed, links)
    modifies uf
    ensures uf.Valid() && uf.parent.Keys == persons.Keys && links <= next
    ensures Partitions(uf.root, within + ConfirmedPairs(persons, confirmed[..i + 1]))
    ensures Partitions(uf.root, Ends(next)) && AllJustified(words, persons, confirmed, next)
  {
    hide Partitions, Connected, UnionFind.Valid, Justified, ConfirmedPairs, Ends, AllJustified;
    var cm := confirmed[i];
    ghost var before := ConfirmedPairs(persons, confirmed[..i]);
    ConfirmedStep(words, persons, confirmed, i);
    if cm.a !in persons || cm.b !in persons {
      return links;
    }
    ConfirmOne(uf, cm.a, cm.b, within + before, Ends(links));
    assert within + (before + {(cm.a, cm.b)}) == within + before + {(cm.a, cm.b)};
    var link := MergeLink(cm.a, cm.b, Confirmed, cm.govId);
    EndsSum(links, [link]);
    EndsOfOne(link);
    AndOne(words, persons, confirmed, links, link);
    next := links + [link];
  }

  method MergeConfirmed(uf: UnionFind, words: Words, persons: Persons, confirmed: seq<ConfirmedMerge>, known: seq<MergeLink>)
    returns (links: seq<MergeLink>)
    requires uf.Valid() && uf.parent.Keys == persons.Keys
    requires Partitions(uf.root, Ends(known)) && ClustersOf(uf.root) == AutoClusters(words, persons)
    requires forall l <- known :: Justified(words, persons, confirmed, l) && l.signal != Confirmed
    modifies uf
    ensures uf.Valid() && uf.parent.Keys == persons.Keys
    ensures Partitions(uf.root, WithinClusters(AutoClusters(words, persons)) + ConfirmedPairs(persons, confirmed))
    ensures Partitions(uf.root, Ends(links)) && known <= links
    ensures forall l <- links :: Justified(words, persons, confirmed, l)
  {
    hide AutoClusters, Partitions, Connected, UnionFind.Valid, Justified, ConfirmedPairs, ClustersOf, WithinClusters, Ends, AllJustified;
    links := known;
    AllOf(words, persons, confirmed, known);
    ghost var within := WithinClusters(AutoClusters(words, persons));
    OwnPartition(uf.root);
    ConfirmedStep(words, persons, confirmed, 0);
    assert within + {} == within;
    for i := 0 to |confirmed|
      invariant uf.Valid() && uf.parent.Keys == persons.Keys && known <= links
      invariant Partitions(uf.root, within + ConfirmedPairs(persons, confirmed[..i]))
      invariant Partitions(uf.root, Ends(links))
      invariant AllJustified(words, persons, confirmed, links)
    {
      links := ConfirmNext(uf, words, persons, confirmed, i, links, within);
    }
    AllMeans(words, persons, confirmed, links);
    assert confirmed[..|confirmed|] == confirmed;
  }

  // ------------------------------------------------------- the canonical id

  predicate Better(persons: Persons, a: string, b: string)
    requires a in persons && b in persons
    ensures Better(persons, a, b) <==> Outranks(persons, a, b)
  {
    || |persons[a].evidence| > |persons[b].evidence|
    || (|persons[a].evidence| == |persons[b].evidence| && Less(a, b))
  }

  lemma OutranksTotal(persons: Persons, a: string, b: string)
    requires a in persons && b in persons
    ensures Outranks(persons, a, b) || Outranks(persons, b, a) || a == b
    ensures Outranks(persons, a, b) ==> !Outranks(persons, b, a) && a != b
  {
    LessTotal(a, b);
    LessIrreflexive(a);
    if Less(a, b) {
      LessAsymmetric(a, b);
    }
  }

  lemma OutranksTransitive(persons: Persons, a: string, b: string, c: string)
    requires a in persons && b in persons && c in persons
    requires Outranks(persons, a, b) && Outranks(persons, b, c)
    ensures Outranks(persons, a, c)
  {
    if Less(a, b) && Less(b, c) {
      LessTransitive(a, b, c);
    }
  }

  /** The best member seen so far of every class seen so far. */
  ghost predicate BestSeen(persons: Persons, root: map<string, string>, seen: set<string>, rep: map<string, string>) {
    && seen <= root.Keys && seen <= persons.Keys
    && rep.Keys == (set id | id in seen :: root[id])
    && (forall r <- rep.Keys :: rep[r] in seen && root[rep[r]] == r)
    && (forall id <- seen :: id == rep[root[id]] || Outranks(persons, rep[root[id]], id))
  }

  lemma SeeOne(persons: Persons, root: map<string, string>, seen: set<string>, rep: map<string, string>, id: string, next: map<string, string>)
    requires BestSeen(persons, root, seen, rep) && id in root && id in persons
    requires next == if root[id] !in rep || Outranks(persons, id, rep[root[id]]) then rep[root[id] := id] else rep
    ensures BestSeen(persons, root, seen + {id}, next)
  {
    forall other <- seen + {id}
      ensures other == next[root[other]] || Outranks(persons, next[root[other]], other)
    {
      if root[other] == root[id] && root[id] in rep {
        OutranksTotal(persons, id, rep[root[id]]);
        if Outranks(persons, id, rep[root[id]]) && other != id && other != rep[root[id]] {
          OutranksTransitive(persons, id, rep[root[id]], other);
        }
      }
    }
  }

  lemma RepsKnown(persons: Persons, root: map<string, string>, seen: set<string>, rep: map<string, string>)
    ensures seen == {} && rep == map[] ==> BestSeen(persons, root, seen, rep)
    ensures BestSeen(persons, root, seen, rep) ==> forall r <- rep.Keys :: rep[r] in persons && rep[r] in root && root[rep[r]] == r
    ensures BestSeen(persons, root, seen, rep) ==> forall id <- seen :: id in root && root[id] in rep
    ensures BestSeen(persons, root, persons.Keys, rep) && root.Keys == persons.Keys ==>
              forall id <- persons.Keys :: id == rep[root[id]] || Outranks(persons, rep[root[id]], id)
  {
  }

  method BestPerClass(uf: UnionFind, persons: Persons, ids: seq<string>) returns (rep: map<string, string>)
    requires uf.Valid() && uf.parent.Keys == persons.Keys && Members(ids) == persons.Keys
    modifies uf`parent
    ensures uf.Valid() && uf.parent.Keys == persons.Keys
    ensures BestSeen(persons, uf.root, persons.Keys, rep)
  {
    hide Outranks, BestSeen, UnionFind.Valid;
    rep := map[];
    RepsKnown(persons, uf.root, {}, rep);
    assert Members(ids[..0]) == {};
    for i := 0 to |ids|
      invariant uf.Valid() && uf.parent.Keys == persons.Keys
      invariant BestSeen(persons, uf.root, Members(ids[..i]), rep)
    {
      var id := ids[i];
      assert id in Members(ids) && Members(ids[..i + 1]) == Members(ids[..i]) + {id};
      var root := uf.Find(id);
      RepsKnown(persons, uf.root, Members(ids[..i]), rep);
      ghost var was := rep;
      if root !in rep || Better(persons, id, rep[root]) {
        rep := rep[root := id];
      }
      SeeOne(persons, uf.root, Members(ids[..i]), was, id, rep);
    }
    assert ids[..|ids|] == ids;
  }

  ghost predicate ChosenAt(persons: Persons, root: map<string, string>, canon: map<string, string>, id: string)
    requires canon.Keys == persons.Keys == root.Keys && id in persons
  {
    && canon[id] in persons && root[canon[id]] == root[id]
    && forall other <- persons.Keys :: root[other] == root[id] ==> other == canon[id] || Outranks(persons, canon[id], other)
  }

  /** Every id is sent to the best member of its class. */
  ghost predicate Chosen(persons: Persons, root: map<string, string>, canon: map<string, string>) {
    && canon.Keys == persons.Keys == root.Keys
    && forall id {:trigger ChosenAt(persons, root, canon, id)} :: id in persons ==> ChosenAt(persons, root, canon, id)
  }

  lemma ChosenByBest(persons: Persons, root: map<string, string>, rep: map<string, string>, canon: map<string, string>)
    requires BestSeen(persons, root, persons.Keys, rep) && root.Keys == persons.Keys
    requires forall id <- persons.Keys :: root[id] in rep
    requires canon == map x | x in persons :: rep[root[x]]
    ensures Chosen(persons, root, canon)
  {
    hide Outranks;
  }

  method ChooseCanonical(uf: UnionFind, persons: Persons, ids: seq<string>) returns (canon: map<string, string>)
    requires uf.Valid() && uf.parent.Keys == persons.Keys && Members(ids) == persons.Keys
    modifies uf`parent
    ensures Chosen(persons, uf.root, canon)
  {
    hide Outranks, BestSeen, UnionFind.Valid, Chosen;
    var rep := BestPerClass(uf, persons, ids);
    RepsKnown(persons, uf.root, persons.Keys, rep);
    canon := map[];
    for i := 0 to |ids|
      invariant uf.Valid() && uf.parent.Keys == persons.Keys
      invariant canon == map x | x in Members(ids[..i]) :: rep[uf.root[x]]
    {
      assert ids[i] in Members(ids) && Members(ids[..i + 1]) == Members(ids[..i]) + {ids[i]};
      var root := uf.Find(ids[i]);
      canon := canon[ids[i] := rep[root]];
    }
    assert ids[..|ids|] == ids;
    ChosenByBest(persons, uf.root, rep, canon);
  }

  /** Two ids share a canonical id exactly when the links connect them. */
  ghost predicate LinksExplain(persons: Persons, canon: map<string, string>, ends: set<(string, string)>)
    requires canon.Keys == persons.Keys
  {
    forall a, b | a in persons && b in persons :: canon[a] == canon[b] <==> Connected(ends, a, b)
  }

  /** Canonicalises a vault's persons; the returned provenance links explain every
      fusion, and each of them is justified by its own signal. */
  method CanonicalizePersons(words: Words, persons: Persons, confirmed: seq<ConfirmedMerge>)
    returns (canon: map<string, string>, links: seq<MergeLink>)
    ensures IsCanonical(words, persons, confirmed, canon)
    ensures forall l <- links :: Justified(words, persons, confirmed, l)
    ensures LinksExplain(persons, canon, Ends(links))
  {
    hide AutoClusters, Partitions, Justified, ClustersOf, MailboxClusters, UnionFind.Valid, Outranks, WithinClusters, ConfirmedPairs, IsCanonical, LinksExplain, Ends, Chosen, Connected;
    var ids := Sort(persons.Keys);
    assert Members(ids) == persons.Keys;
    var uf := new UnionFind(persons.Keys);
    assert uf.parent.Keys == uf.root.Keys;
    links := MergeMailboxes(uf, words, persons, ids, confirmed);
    links := MergeNames(uf, words, persons, ids, links, confirmed);
    links := MergeConfirmed(uf, words, persons, confirmed, links);
    canon := ChooseCanonical(uf, persons, ids);
    CanonByLinks(persons, uf.root, Ends(links), canon);
    CanonIsCanonical(words, persons, confirmed, uf.root, canon);
  }

  lemma CanonByLinks(persons: Persons, root: map<string, string>, ends: set<(string, string)>, canon: map<string, string>)
    requires Partitions(root, ends) && Chosen(persons, root, canon)
    ensures LinksExplain(persons, canon, ends)
  {
    hide Outranks;
    forall a, b | a in persons && b in persons
      ensures canon[a] == canon[b] <==> Connected(ends, a, b)
    {
      assert ChosenAt(persons, root, canon, a) && ChosenAt(persons, root, canon, b);
      if root[a] == root[b] && canon[a] != canon[b] {
        OutranksTotal(persons, canon[a], canon[b]);
      }
    }
  }

  lemma CanonIsCanonical(words: Words, persons: Persons, confirmed: seq<ConfirmedMerge>, root: map<string, string>,
                         canon: map<string, string>)
    requires Partitions(root, WithinClusters(AutoClusters(words, persons)) + ConfirmedPairs(persons, confirmed))
    requires Chosen(persons, root, canon)
    ensures IsCanonical(words, persons, confirmed, canon)
  {
    hide Outranks, AutoClusters, WithinClusters, ConfirmedPairs;
    forall id | id in persons
      ensures CanonicalAt(words, persons, confirmed, canon, id)
    {
      assert ChosenAt(persons, root, canon, id);
    }
  }
}

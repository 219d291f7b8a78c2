/** Entity-graph canonicalisation: three merge rules drive one union-find, and
    each cluster is renamed to its best-attested member. */
module Graph {
  import opened Connectivity
  import opened Forest
  import opened Ordering
  import opened Mailboxes

  const MAX_NAME_MERGE_CLUSTERS := 4

  datatype Signal = Mailbox | NameEcho | Confirmed

  datatype MergeLink = MergeLink(a: string, b: string, signal: Signal, detail: string)

  datatype ConfirmedMerge = ConfirmedMerge(a: string, b: string, govId: string)

  datatype PersonAgg = PersonAgg(aliases: set<string>, evidence: set<string>)

  type Persons = map<string, PersonAgg>

  /** The text and identity helpers the rules call: trimming with lower-casing, the
      person/service classifier, lower-casing, word splitting and the tokens of
      an address's local part. */
  datatype Words = Words(
    fold: Fold,
    isPerson: (string, PersonAgg) -> bool,
    lower: string -> string,
    fields: string -> seq<string>,
    localTokens: string -> set<string>)

  // ---------------------------------------------------------------- addresses

  predicate IsEmail(id: string) {
    '@' in Address(id)
  }

  /** The provider mailbox of a person. */
  function Key(words: Words, id: string): string {
    MailboxKey(words.fold, Address(id))
  }

  function AddrTokens(words: Words, id: string): set<string> {
    if IsEmail(id) then words.localTokens(words.lower(Address(id)[..LastAt(Address(id))])) else {}
  }

  function TrustedNames(words: Words, p: PersonAgg): set<string> {
    set a | a in p.aliases && '@' !in a && !("+" <= a) && |words.fields(a)| >= 2 :: words.lower(a)
  }

  ghost predicate Echoes(words: Words, id: string, name: string) {
    exists t <- words.fields(name) :: t in AddrTokens(words, id)
  }

  ghost predicate EchoesFully(words: Words, id: string, name: string) {
    forall t <- words.fields(name) :: t in AddrTokens(words, id)
  }

  // ------------------------------------------------------- what the rules mean

  type Clusters = map<string, set<string>>

  /** Every cluster that meets `group` becomes one. */
  ghost function Fuse(c: Clusters, group: set<string>): (r: Clusters)
    ensures r.Keys == c.Keys
  {
    map x | x in c :: if c[x] !! group then c[x] else set y | y in c && !(c[y] !! group)
  }

  lemma FuseAlike(c: Clusters, group: set<string>, other: set<string>)
    requires forall x <- c.Keys :: c[x] !! group <==> c[x] !! other
    ensures Fuse(c, group) == Fuse(c, other)
  {
    forall x <- c.Keys
      ensures Fuse(c, group)[x] == Fuse(c, other)[x]
    {
    }
  }

  ghost function MailboxClusters(words: Words, persons: Persons): (r: Clusters)
    ensures r.Keys == persons.Keys
  {
    map x | x in persons ::
      set y | y in persons && Key(words, y) == Key(words, x)
  }

  ghost predicate Bears(words: Words, persons: Persons, id: string, name: string) {
    id in persons && words.isPerson(id, persons[id]) && name in TrustedNames(words, persons[id])
  }

  ghost function Echoers(words: Words, persons: Persons, name: string): set<string> {
    set id | id in persons && Bears(words, persons, id, name) && Echoes(words, id, name)
  }

  /** A name bridges when a few clusters echo it and one address spells it out. */
  ghost predicate Bridges(words: Words, persons: Persons, c: Clusters, name: string)
    requires c.Keys == persons.Keys
  {
    var echoers := Echoers(words, persons, name);
    && 2 <= |set id | id in echoers :: c[id]| <= MAX_NAME_MERGE_CLUSTERS
    && exists id <- echoers :: EchoesFully(words, id, name)
  }

  ghost function Bridge(words: Words, persons: Persons, c: Clusters, name: string): (r: Clusters)
    requires c.Keys == persons.Keys
    ensures r.Keys == persons.Keys
  {
    if Bridges(words, persons, c, name) then Fuse(c, Echoers(words, persons, name)) else c
  }

  ghost function BridgeAll(words: Words, persons: Persons, c: Clusters, names: seq<string>): (r: Clusters)
    requires c.Keys == persons.Keys
    ensures r.Keys == persons.Keys
  {
    if names == [] then c else BridgeAll(words, persons, Bridge(words, persons, c, names[0]), names[1..])
  }

  ghost function AllNames(words: Words, persons: Persons): set<string> {
    set id, name | id in persons && words.isPerson(id, persons[id]) && name in TrustedNames(words, persons[id]) :: name
  }

  /** What the two automatic rules make of a vault. */
  ghost function AutoClusters(words: Words, persons: Persons): (r: Clusters)
    ensures r.Keys == persons.Keys
  {
    BridgeAll(words, persons, MailboxClusters(words, persons), Ascending(AllNames(words, persons)))
  }

  ghost function WithinClusters(c: Clusters): set<(string, string)> {
    set x, y | x in c && y in c[x] :: (x, y)
  }

  ghost function ConfirmedPairs(persons: Persons, confirmed: seq<ConfirmedMerge>): set<(string, string)> {
    set cm | cm in confirmed && cm.a in persons && cm.b in persons :: (cm.a, cm.b)
  }

  ghost predicate SameCluster(words: Words, persons: Persons, confirmed: seq<ConfirmedMerge>, a: string, b: string) {
    Connected(WithinClusters(AutoClusters(words, persons)) + ConfirmedPairs(persons, confirmed), a, b)
  }

  /** Most evidence first, then the smallest id. */
  ghost predicate Outranks(persons: Persons, a: string, b: string)
    requires a in persons && b in persons
  {
    || |persons[a].evidence| > |persons[b].evidence|
    || (|persons[a].evidence| == |persons[b].evidence| && Less(a, b))
  }

  ghost predicate CanonicalAt(words: Words, persons: Persons, confirmed: seq<ConfirmedMerge>, canon: map<string, string>, id: string)
    requires canon.Keys == persons.Keys && id in persons
  {
    && canon[id] in persons
    && SameCluster(words, persons, confirmed, id, canon[id])
    && forall other <- persons.Keys ::
         SameCluster(words, persons, confirmed, id, other) ==>
         other == canon[id] || Outranks(persons, canon[id], other)
  }

  /** `canon` sends every person to the best member of their cluster. */
  ghost predicate IsCanonical(words: Words, persons: Persons, confirmed: seq<ConfirmedMerge>, canon: map<string, string>) {
    && canon.Keys == persons.Keys
    && forall id {:trigger CanonicalAt(words, persons, confirmed, canon, id)} ::
         id in persons ==> CanonicalAt(words, persons, confirmed, canon, id)
  }

  /** Each provenance link meets the condition of the rule it names. */
  ghost predicate Justified(words: Words, persons: Persons, confirmed: seq<ConfirmedMerge>, link: MergeLink) {
    && link.a in persons && link.b in persons
    && match link.signal
       case Mailbox =>
         Key(words, link.a) == Key(words, link.b) == link.detail
       case NameEcho =>
         && link.a in Echoers(words, persons, link.detail)
         && link.b in Echoers(words, persons, link.detail)
       case Confirmed =>
         ConfirmedMerge(link.a, link.b, link.detail) in confirmed
  }

  ghost function Ends(links: seq<MergeLink>): set<(string, string)> {
    set l | l in links :: (l.a, l.b)
  }

  lemma EndsSum(links: seq<MergeLink>, more: seq<MergeLink>)
    ensures Ends(links + more) == Ends(links) + Ends(more)
    ensures Ends([]) == {}
  {
  }

  // -------------------------------------------------------------- union-find

  class UnionFind {
    var parent: map<string, string>
    ghost var root: map<string, string>
    ghost var depth: map<string, nat>

    ghost predicate Valid()
      reads this
      ensures Valid() ==> parent.Keys == root.Keys
    {
      IsForest(parent, root, depth)
    }

    constructor (ids: set<string>)
      ensures Valid() && root == map x | x in ids :: x
    {
      parent := map x | x in ids :: x;
      root := map x | x in ids :: x;
      depth := map x | x in ids :: 0;
      new;
      Singletons(parent);
    }

    method Find(x: string) returns (r: string)
      requires Valid() && x in parent
      modifies this`parent
      ensures Valid() && r == root[x] && parent.Keys == old(parent.Keys)
      ensures r in parent && parent[r] == r
    {
      r := x;
      assert Climbs(parent, root, depth, r);
      while parent[r] != r
        invariant Valid() && r in parent && root[r] == root[x] && parent.Keys == old(parent.Keys)
        invariant Climbs(parent, root, depth, r)
        decreases depth[r]
      {
        Halved(parent, root, depth, r);
        ghost var before := parent;
        parent := parent[r := parent[parent[r]]];
        assert Climbs(before, root, depth, before[r]);
        r := parent[r];
        assert Climbs(parent, root, depth, r);
      }
    }

    /** The smaller root survives; equal roots change nothing. */
    method Union(a: string, b: string)
      requires Valid() && a in parent && b in parent
      modifies this
      ensures Valid() && parent.Keys == old(parent.Keys)
      ensures root == old(if root[a] == root[b] then root
                          else if Less(root[a], root[b]) then Merged(root, root[b], root[a])
                          else Merged(root, root[a], root[b]))
    {
      var ra := Find(a);
      var rb := Find(b);
      if ra == rb {
        return;
      }
      assert Climbs(parent, root, depth, a) && Climbs(parent, root, depth, b);
      if Less(ra, rb) {
        Hung(parent, root, depth, rb, ra);
        depth := DepthAfterUnion(root, depth, rb, ra);
        parent, root := parent[rb := ra], Merged(root, rb, ra);
      } else {
        Hung(parent, root, depth, ra, rb);
        depth := DepthAfterUnion(root, depth, ra, rb);
        parent, root := parent[ra := rb], Merged(root, ra, rb);
      }
    }
  }

  // ------------------------------------------------- classes and their fusing

  ghost predicate Touches(root: map<string, string>, x: string, group: set<string>)
    requires x in root && group <= root.Keys
  {
    exists g <- group :: root[g] == root[x]
  }

  ghost predicate Joined(root: map<string, string>, group: set<string>, x: string, y: string)
    requires x in root && y in root && group <= root.Keys
  {
    root[x] == root[y] || (Touches(root, x, group) && Touches(root, y, group))
  }

  /** `after` differs from `before` in one way: all classes that meet `group`
      are one class. */
  ghost predicate Fused(before: map<string, string>, after: map<string, string>, group: set<string>) {
    && before.Keys == after.Keys && group <= before.Keys
    && forall x, y {:trigger Joined(before, group, x, y)} :: x in before && y in before ==>
         (after[x] == after[y] <==> Joined(before, group, x, y))
  }

  ghost function ClustersOf(root: map<string, string>): (r: Clusters)
    ensures r.Keys == root.Keys
  {
    map x | x in root :: set y | y in root && root[y] == root[x]
  }

  lemma FusedClusters(before: map<string, string>, after: map<string, string>, group: set<string>)
    requires Fused(before, after, group)
    ensures ClustersOf(after) == Fuse(ClustersOf(before), group)
  {
    var c, d := ClustersOf(before), Fuse(ClustersOf(before), group);
    forall x | x in before
      ensures ClustersOf(after)[x] == d[x]
    {
      ClusterMeets(before, group, x);
      forall y | y in before
        ensures y in ClustersOf(after)[x] <==> y in d[x]
      {
        ClusterMeets(before, group, y);
        var joined := Joined(before, group, x, y);
      }
    }
  }

  lemma ClusterMeets(root: map<string, string>, group: set<string>, x: string)
    requires x in root && group <= root.Keys
    ensures !(ClustersOf(root)[x] !! group) <==> Touches(root, x, group)
  {
  }

  lemma FusedStep(before: map<string, string>, mid: map<string, string>, group: set<string>, first: string, next: string,
                  after: map<string, string>)
    requires Fused(before, mid, group) && first in group && next in before
    requires after == Merged(mid, mid[first], mid[next]) || after == Merged(mid, mid[next], mid[first])
    ensures Fused(before, after, group + {next})
  {
    assert Touches(before, first, group);
    forall x, y | x in before && y in before
      ensures after[x] == after[y] <==> Joined(before, group + {next}, x, y)
    {
      TouchesMore(before, x, group, next);
      TouchesMore(before, y, group, next);
      assert mid[x] == mid[y] <==> Joined(before, group, x, y);
      assert mid[x] == mid[first] <==> Joined(before, group, x, first);
      assert mid[y] == mid[first] <==> Joined(before, group, y, first);
      assert mid[x] == mid[next] <==> Joined(before, group, x, next);
      assert mid[y] == mid[next] <==> Joined(before, group, y, next);
    }
  }

  lemma TouchesMore(root: map<string, string>, x: string, group: set<string>, next: string)
    requires x in root && next in root && group <= root.Keys
    ensures Touches(root, x, group + {next}) <==> Touches(root, x, group) || root[x] == root[next]
    ensures Touches(root, x, group) && root[x] == root[next] ==> Touches(root, next, group)
  {
  }

  lemma FusedAlone(root: map<string, string>, x: string)
    requires x in root
    ensures Fused(root, root, {x})
  {
  }

  lemma FusedNone(root: map<string, string>)
    ensures Fused(root, root, {})
  {
  }

  function Members(group: seq<string>): set<string> {
    set g | g in group
  }

  function LinksFrom(group: seq<string>, signal: Signal, detail: string): (r: seq<MergeLink>)
    ensures group == [] ==> r == []
  {
    if group == [] then [] else seq(|group| - 1, i requires 0 <= i < |group| - 1 => MergeLink(group[0], group[i + 1], signal, detail))
  }

  lemma LinksGrow(group: seq<string>, i: nat, signal: Signal, detail: string)
    requires 1 <= i < |group|
    ensures LinksFrom(group[..i + 1], signal, detail) ==
            LinksFrom(group[..i], signal, detail) + [MergeLink(group[0], group[i], signal, detail)]
  {
    var more, fewer := LinksFrom(group[..i + 1], signal, detail), LinksFrom(group[..i], signal, detail);
    assert |more| == i && |fewer| == i - 1;
    forall k | 0 <= k < i
      ensures more[k] == (fewer + [MergeLink(group[0], group[i], signal, detail)])[k]
    {
      assert group[..i + 1][k + 1] == group[k + 1] && group[..i + 1][0] == group[0] && group[..i][0] == group[0];
    }
  }

  lemma EndsGrow(links: seq<MergeLink>, l: MergeLink, known: set<(string, string)>)
    ensures known + Ends(links + [l]) == known + Ends(links) + {(l.a, l.b)}
  {
    EndsSum(links, [l]);
    assert Ends([l]) == {(l.a, l.b)};
  }

  lemma MembersGrow(group: seq<string>, i: nat)
    requires 1 <= i < |group|
    ensures Members(group[..i + 1]) == Members(group[..i]) + {group[i]} && group[0] in Members(group[..i])
  {
    assert group[..i + 1] == group[..i] + [group[i]];
    assert group[..i][0] == group[0];
  }

  /** Joins every member of a group to its first one and logs each join. */
  lemma LinksOfFew(signal: Signal, detail: string)
    ensures LinksFrom([], signal, detail) == [] && forall x: string :: LinksFrom([x], signal, detail) == []
  {
  }

  method Chain(uf: UnionFind, group: seq<string>, signal: Signal, detail: string, ghost known: set<(string, string)>)
    returns (links: seq<MergeLink>)
    requires uf.Valid() && Partitions(uf.root, known)
    requires Members(group) <= uf.parent.Keys
    modifies uf
    ensures uf.Valid() && uf.parent.Keys == old(uf.parent.Keys)
    ensures links == LinksFrom(group, signal, detail)
    ensures Fused(old(uf.root), uf.root, Members(group))
    ensures Partitions(uf.root, known + Ends(links))
  {
    hide Partitions, Connected, UnionFind.Valid, LinksFrom, Fused;
    links := [];
    assert known + Ends(links) == known;
    LinksOfFew(signal, detail);
    if group == [] {
      FusedNone(uf.root);
      assert Members(group) == {};
      return;
    }
    var i := 1;
    assert group[..1] == [group[0]];
    assert group[0] in Members(group) && Members(group[..1]) == {group[0]};
    FusedAlone(uf.root, group[0]);
    while i < |group|
      invariant 1 <= i <= |group| && uf.Valid() && uf.parent.Keys == old(uf.parent.Keys)
      invariant links == LinksFrom(group[..i], signal, detail)
      invariant Fused(old(uf.root), uf.root, Members(group[..i]))
      invariant Partitions(uf.root, known + Ends(links))
    {
      ghost var mid := uf.root;
      assert group[0] in Members(group) && group[i] in Members(group);
      uf.Union(group[0], group[i]);
      LinksGrow(group, i, signal, detail);
      EndsGrow(links, MergeLink(group[0], group[i], signal, detail), known);
      MembersGrow(group, i);
      FusedStep(old(uf.root), mid, Members(group[..i]), group[0], group[i], uf.root);
      AddLink(mid, known + Ends(links), group[0], group[i], uf.root);
      links := links + [MergeLink(group[0], group[i], signal, detail)];
      i := i + 1;
    }
    assert group[..|group|] == group;
  }
}

/** Undirected connectivity over a finite set of links. Two union-finds of the
    program (linked sessions, merged persons) are specified by it. */
module Connectivity {

  ghost predicate Adjacent<T>(links: set<(T, T)>, a: T, b: T) {
    (a, b) in links || (b, a) in links
  }

  ghost predicate IsPath<T>(links: set<(T, T)>, p: seq<T>, a: T, b: T) {
    && |p| > 0 && p[0] == a && p[|p| - 1] == b
    && forall i :: 0 <= i < |p| - 1 ==> Adjacent(links, p[i], p[i + 1])
  }

  ghost predicate Connected<T(!new)>(links: set<(T, T)>, a: T, b: T) {
    exists p :: IsPath(links, p, a, b)
  }

  lemma ConnectedSelf<T(!new)>(links: set<(T, T)>, a: T)
    ensures Connected(links, a, a)
  {
    assert IsPath(links, [a], a, a);
  }

  lemma ConnectedLink<T(!new)>(links: set<(T, T)>, a: T, b: T)
    requires Adjacent(links, a, b)
    ensures Connected(links, a, b)
  {
    assert IsPath(links, [a, b], a, b);
  }

  lemma ConnectedTransitive<T(!new)>(links: set<(T, T)>, a: T, b: T, c: T)
    requires Connected(links, a, b) && Connected(links, b, c)
    ensures Connected(links, a, c)
  {
    var p :| IsPath(links, p, a, b);
    var q :| IsPath(links, q, b, c);
    assert IsPath(links, p + q[1..], a, c);
  }

  lemma ConnectedSymmetric<T(!new)>(links: set<(T, T)>, a: T, b: T)
    requires Connected(links, a, b)
    ensures Connected(links, b, a)
  {
    var p :| IsPath(links, p, a, b);
    var q := seq(|p|, i requires 0 <= i < |p| => p[|p| - 1 - i]);
    forall i | 0 <= i < |q| - 1
      ensures Adjacent(links, q[i], q[i + 1])
    {
      assert Adjacent(links, p[|p| - 2 - i], p[|p| - 2 - i + 1]);
    }
    assert IsPath(links, q, b, a);
  }

  lemma ConnectedMonotone<T(!new)>(links: set<(T, T)>, more: set<(T, T)>, a: T, b: T)
    requires links <= more && Connected(links, a, b)
    ensures Connected(more, a, b)
  {
    var p :| IsPath(links, p, a, b);
    assert IsPath(more, p, a, b);
  }

  /** A labelling splits its keys into classes; it is right for `links` when two
      keys carry one label exactly if the links connect them. */
  ghost predicate Partitions<T(!new)>(root: map<T, T>, links: set<(T, T)>) {
    && (forall e <- links :: e.0 in root && e.1 in root)
    && (forall a, b {:trigger Connected(links, a, b)} ::
         a in root && b in root ==> (root[a] == root[b] <==> Connected(links, a, b)))
  }

  /** The labelling in which every member of class `gone` joins class `into`. */
  function Merged<T(==)>(root: map<T, T>, gone: T, into: T): (r: map<T, T>)
    ensures r.Keys == root.Keys
  {
    map x | x in root :: if root[x] == gone then into else root[x]
  }

  lemma {:induction false} RespectedAlongPath<T(!new)>(root: map<T, T>, links: set<(T, T)>, p: seq<T>, a: T, b: T)
    requires a in root && IsPath(links, p, a, b)
    requires forall e <- links :: e.0 in root && e.1 in root && root[e.0] == root[e.1]
    ensures b in root && root[a] == root[b]
    decreases |p|
  {
    if |p| > 1 {
      assert Adjacent(links, p[0], p[1]);
      forall i | 0 <= i < |p[1..]| - 1
        ensures Adjacent(links, p[1..][i], p[1..][i + 1])
      {
        assert Adjacent(links, p[i + 1], p[i + 1 + 1]);
      }
      RespectedAlongPath(root, links, p[1..], p[1], b);
    }
  }

  /** Whatever labelling agrees with every link agrees with connectivity. */
  lemma ConnectedRespects<T(!new)>(root: map<T, T>, links: set<(T, T)>, a: T, b: T)
    requires a in root && Connected(links, a, b)
    requires forall e <- links :: e.0 in root && e.1 in root && root[e.0] == root[e.1]
    ensures b in root && root[a] == root[b]
  {
    var p :| IsPath(links, p, a, b);
    RespectedAlongPath(root, links, p, a, b);
  }

  lemma NoLinks<T(!new)>(root: map<T, T>)
    requires forall x <- root.Keys :: root[x] == x
    ensures Partitions(root, {})
  {
    forall a, b | a in root && b in root
      ensures root[a] == root[b] <==> Connected({}, a, b)
    {
      ConnectedSelf({}, a);
      if Connected({}, a, b) {
        ConnectedRespects(root, {}, a, b);
      }
    }
  }

  /** One union: merging the classes of two ends is exactly adding their link,
      whichever end's label survives. */
  lemma AddLink<T(!new)>(root: map<T, T>, links: set<(T, T)>, a: T, b: T, merged: map<T, T>)
    requires Partitions(root, links) && a in root && b in root
    requires merged == Merged(root, root[a], root[b]) || merged == Merged(root, root[b], root[a])
    ensures Partitions(merged, links + {(a, b)})
  {
    var more := links + {(a, b)};
    assert Adjacent(more, a, b);
    ConnectedLink(more, a, b);
    ConnectedSymmetric(more, a, b);
    forall e <- more
      ensures e.0 in merged && e.1 in merged && merged[e.0] == merged[e.1]
    {
      if e in links {
        assert Adjacent(links, e.0, e.1);
        ConnectedLink(links, e.0, e.1);
      }
    }
    forall x, y | x in merged && y in merged
      ensures merged[x] == merged[y] <==> Connected(more, x, y)
    {
      if Connected(more, x, y) {
        ConnectedRespects(merged, more, x, y);
      }
      if merged[x] == merged[y] {
        MergedConnects(root, links, a, b, x, y);
      }
    }
  }

  lemma MergedConnects<T(!new)>(root: map<T, T>, links: set<(T, T)>, a: T, b: T, x: T, y: T)
    requires Partitions(root, links) && a in root && b in root && x in root && y in root
    requires root[x] == root[y] || (root[x] in {root[a], root[b]} && root[y] in {root[a], root[b]})
    ensures Connected(links + {(a, b)}, x, y)
  {
    var more := links + {(a, b)};
    assert Adjacent(more, a, b);
    ConnectedLink(more, a, b);
    ConnectedSymmetric(more, a, b);
    if root[x] == root[y] {
      ConnectedMonotone(links, more, x, y);
    } else {
      var c, d := if root[x] == root[a] then a else b, if root[x] == root[a] then b else a;
      ConnectedMonotone(links, more, x, c);
      ConnectedMonotone(links, more, d, y);
      ConnectedTransitive(more, x, c, d);
      ConnectedTransitive(more, x, d, y);
    }
  }

  /** Links that already connect each other's ends give the same connectivity. */
  lemma {:induction false} SameReach<T(!new)>(links: set<(T, T)>, other: set<(T, T)>, p: seq<T>, a: T, b: T)
    requires forall e <- links :: Connected(other, e.0, e.1)
    requires IsPath(links, p, a, b)
    ensures Connected(other, a, b)
    decreases |p|
  {
    if |p| == 1 {
      ConnectedSelf(other, a);
    } else {
      assert Adjacent(links, p[0], p[1]);
      if (p[1], p[0]) in links {
        ConnectedSymmetric(other, p[1], p[0]);
      }
      forall i | 0 <= i < |p[1..]| - 1
        ensures Adjacent(links, p[1..][i], p[1..][i + 1])
      {
        assert Adjacent(links, p[i + 1], p[i + 1 + 1]);
      }
      SameReach(links, other, p[1..], p[1], b);
      ConnectedTransitive(other, a, p[1], b);
    }
  }
}

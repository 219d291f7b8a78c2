/** The parent forest behind both union-finds: a ghost map names each
    element's root and a ghost depth shows that climbing ends. */
module Forest {
  import opened Connectivity

  /** What holds at one element: the climb stays inside, keeps the root and
      loses depth until it stands still there. */
  ghost predicate Climbs<T(!new)>(parent: map<T, T>, root: map<T, T>, depth: map<T, nat>, x: T)
    requires x in parent && parent.Keys == root.Keys == depth.Keys
  {
    && parent[x] in parent && root[x] in parent
    && root[parent[x]] == root[x] && parent[root[x]] == root[x]
    && (parent[x] == x ==> root[x] == x)
    && (parent[x] != x ==> depth[parent[x]] < depth[x])
  }

  ghost predicate IsForest<T(!new)>(parent: map<T, T>, root: map<T, T>, depth: map<T, nat>) {
    && parent.Keys == root.Keys == depth.Keys
    && forall x {:trigger Climbs(parent, root, depth, x)} :: x in parent ==> Climbs(parent, root, depth, x)
  }

  /** Path halving moves one pointer up and keeps every root. */
  lemma Halved<T(!new)>(parent: map<T, T>, root: map<T, T>, depth: map<T, nat>, x: T)
    requires IsForest(parent, root, depth) && x in parent
    ensures Climbs(parent, root, depth, x) && Climbs(parent, root, depth, parent[x])
    ensures IsForest(parent[x := parent[parent[x]]], root, depth)
  {
    assert Climbs(parent, root, depth, x) && Climbs(parent, root, depth, parent[x]);
    var halved := parent[x := parent[parent[x]]];
    forall y | y in halved
      ensures Climbs(halved, root, depth, y)
    {
      assert Climbs(parent, root, depth, y);
    }
  }

  ghost function DepthAfterUnion<T>(root: map<T, T>, depth: map<T, nat>, gone: T, into: T): map<T, nat>
    requires root.Keys == depth.Keys && into in depth
  {
    map x | x in depth :: if root[x] == gone then depth[x] + depth[into] + 1 else depth[x]
  }

  /** Hanging one root under another merges exactly their two classes. */
  lemma Hung<T(!new)>(parent: map<T, T>, root: map<T, T>, depth: map<T, nat>, gone: T, into: T)
    requires IsForest(parent, root, depth) && gone in parent && into in parent
    requires parent[gone] == gone && parent[into] == into && gone != into
    ensures IsForest(parent[gone := into], Merged(root, gone, into), DepthAfterUnion(root, depth, gone, into))
  {
    var hung, merged, deeper := parent[gone := into], Merged(root, gone, into), DepthAfterUnion(root, depth, gone, into);
    assert Climbs(parent, root, depth, gone) && Climbs(parent, root, depth, into);
    forall y | y in hung
      ensures Climbs(hung, merged, deeper, y)
    {
      assert Climbs(parent, root, depth, y);
    }
  }

  lemma Singletons<T(!new)>(parent: map<T, T>)
    requires forall x <- parent.Keys :: parent[x] == x
    ensures IsForest(parent, parent, map x | x in parent :: 0)
  {
    var depth := map x | x in parent :: 0;
    assert forall y <- parent.Keys :: Climbs(parent, parent, depth, y);
  }

  /** A new element that is its own root changes nothing for the others. */
  lemma Grown<T(!new)>(parent: map<T, T>, root: map<T, T>, depth: map<T, nat>, links: set<(T, T)>, x: T)
    requires IsForest(parent, root, depth) && x !in parent && Partitions(root, links)
    ensures IsForest(parent[x := x], root[x := x], depth[x := 0])
    ensures Partitions(root[x := x], links)
  {
    var more, grown := root[x := x], parent[x := x];
    forall y | y in grown
      ensures Climbs(grown, more, depth[x := 0], y)
    {
      assert y != x ==> Climbs(parent, root, depth, y);
    }
    forall e <- links
      ensures e.0 in more && e.1 in more && more[e.0] == more[e.1]
    {
      assert Adjacent(links, e.0, e.1);
      ConnectedLink(links, e.0, e.1);
    }
    forall a, b | a in more && b in more
      ensures more[a] == more[b] <==> Connected(links, a, b)
    {
      assert (a != x ==> Climbs(parent, root, depth, a)) && (b != x ==> Climbs(parent, root, depth, b));
      ConnectedSelf(links, a);
      if Connected(links, a, b) {
        ConnectedRespects(more, links, a, b);
      }
    }
  }
}

/**
 The in-heap disjoint-set union: lowest id wins, path halving on the write path,
 one repair write on the query path, and an append-only index of merge edges.
 */
module DisjointSets {
  import opened Types
  import opened ParentForest

  /** Query walks longer than this make one compressing write. */
  const RO_COMPRESS_DEPTH := 8

  /** A union that joined two classes: root `child` was absorbed by `parent`. */
  datatype Merge = Merge(child: NodeId, parent: NodeId)

  type Children = map<NodeId, seq<NodeId>>

  /** `children` lists every edge of `merged`, downward, exactly once. */
  ghost predicate Inverts(children: Children, merged: Parents) {
    && (forall p | p in children :: Distinct(children[p]))
    && (forall p, c :: p in children && c in children[p] <==> c in merged && merged[c] == p)
  }

  function Kids(children: Children, parent: NodeId): seq<NodeId> {
    if parent in children then children[parent] else []
  }

  /** Recording one fresh merge edge keeps the index an exact inverse. */
  lemma InvertsLink(children: Children, merged: Parents, child: NodeId, parent: NodeId)
    requires Inverts(children, merged) && child !in merged
    ensures Inverts(children[parent := Kids(children, parent) + [child]], merged[child := parent])
  {
    var next := children[parent := Kids(children, parent) + [child]];
    forall p, c
      ensures p in next && c in next[p] <==> c in merged[child := parent] && merged[child := parent][c] == p
    {
      assert p in children && c in children[p] <==> c in merged && merged[c] == p;
    }
  }

  /** The pairs of a hydrated table as a map, self-pairs dropped. */
  ghost function PairMap(pairs: seq<(NodeId, NodeId)>): (m: Parents)
    ensures forall k | k in m :: exists i | 0 <= i < |pairs| :: pairs[i] == (k, m[k])
  {
    if pairs == [] then map[]
    else
      var (node, root) := pairs[|pairs| - 1];
      var before := PairMap(pairs[..|pairs| - 1]);
      assert forall i | 0 <= i < |pairs| - 1 :: pairs[..|pairs| - 1][i] == pairs[i];
      if node == root then before else before[node := root]
  }

  /** Pair `i` is resolved, is the first for its node, and the node is not held yet. */
  ghost predicate FreshPair(pairs: seq<(NodeId, NodeId)>, held: Parents, i: nat)
    requires i < |pairs|
  {
    && pairs[i].1 <= pairs[i].0
    && (pairs[i].0 != pairs[i].1 ==> pairs[i].0 !in held)
    && forall j | 0 <= j < i :: pairs[j].0 != pairs[i].0
  }

  /** Resolved pairs, one per node, for nodes that have no parent in `held` yet. */
  ghost predicate Loadable(pairs: seq<(NodeId, NodeId)>, held: Parents) {
    forall i: nat | i < |pairs| :: FreshPair(pairs, held, i)
  }

  lemma PairMapStep(pairs: seq<(NodeId, NodeId)>, held: Parents, i: nat)
    requires i < |pairs| && Loadable(pairs, held)
    ensures pairs[i].1 <= pairs[i].0
    ensures pairs[i].0 != pairs[i].1 ==> pairs[i].0 !in held + PairMap(pairs[..i])
    ensures PairMap(pairs[..i + 1])
         == (if pairs[i].0 == pairs[i].1 then PairMap(pairs[..i])
             else PairMap(pairs[..i])[pairs[i].0 := pairs[i].1])
  {
    assert FreshPair(pairs, held, i);
    assert pairs[..i + 1][..i] == pairs[..i];
  }

  lemma UpdateOfUnion(a: Parents, m: Parents, k: NodeId, v: NodeId)
    ensures (a + m)[k := v] == a + m[k := v]
  {
  }

  /** The same link made in two forests with equal roots keeps them equal. */
  lemma SameLinked(p: Parents, q: Parents, p': Parents, q': Parents, child: NodeId, parent: NodeId)
    requires Same(p, q) && Linked(p, p', child, parent) && Linked(q, q', child, parent)
    ensures Same(p', q')
  {
    forall x ensures Agree(p', q', x) {
      assert Agree(p, q, x) && Relinked(p, p', child, parent, x) && Relinked(q, q', child, parent, x);
    }
  }

  class Dsu {
    var parents: Parents
    var children: Children
    const tracks: bool
    /** The merge edges themselves, never compressed. */
    ghost var merged: Parents

    ghost predicate Valid()
      reads this
    {
      && Same(parents, merged)
      && (if tracks then Inverts(children, merged) else children == map[])
    }

    constructor (track: bool)
      ensures Valid() && tracks == track
      ensures parents == map[] && merged == map[] && children == map[]
    {
      parents, merged, children, tracks := map[], map[], map[], track;
    }

    method Link(child: NodeId, parent: NodeId)
      requires Valid() && child !in parents && parent !in parents && parent < child
      modifies this
      ensures Valid() && Linked(old(parents), parents, child, parent)
      ensures merged == old(merged)[child := parent]
    {
      ParentForest.Link(parents, child, parent);
      ParentForest.Link(merged, child, parent);
      SameLinked(parents, merged, parents[child := parent], merged[child := parent], child, parent);
      parents := parents[child := parent];
      if tracks {
        InvertsLink(children, merged, child, parent);
        children := children[parent := Kids(children, parent) + [child]];
      }
      merged := merged[child := parent];
    }

    /** The representative of `node`, halving the path on the way. */
    method Find(node: NodeId) returns (r: NodeId)
      requires Valid()
      modifies this`parents
      ensures Valid() && Same(old(parents), parents)
      ensures r == Root(old(parents), node) == Root(parents, node)
    {
      var x := node;
      while true
        invariant Valid() && Same(old(parents), parents) && Agree(old(parents), parents, node)
        invariant Root(parents, x) == Root(old(parents), node)
        decreases x
      {
        if x !in parents {
          return x;
        }
        var p := parents[x];
        if p !in parents {
          return p;
        }
        var gp := parents[p];
        CompressOne(parents, x, gp);
        assert Agree(parents, parents[x := gp], gp);
        SameTransitive(old(parents), parents, parents[x := gp]);
        SameSymmetric(parents, parents[x := gp]);
        SameTransitive(parents[x := gp], parents, merged);
        parents := parents[x := gp];
        x := gp;
      }
    }

    /** The representative of `node`; a long walk leaves one shortcut behind. */
    method FindRo(node: NodeId) returns (r: NodeId)
      requires Valid()
      modifies this`parents
      ensures Valid() && Same(old(parents), parents)
      ensures r == Root(old(parents), node) == Root(parents, node)
    {
      r := node;
      var depth := 0;
      while r in parents
        invariant Root(parents, r) == Root(parents, node)
        invariant depth > 0 ==> node in parents && r < node
        decreases r
      {
        r, depth := parents[r], depth + 1;
      }
      if depth > RO_COMPRESS_DEPTH {
        CompressOne(parents, node, r);
        assert Agree(parents, parents[node := r], node);
        SameSymmetric(parents, parents[node := r]);
        SameTransitive(parents[node := r], parents, merged);
        parents := parents[node := r];
      }
    }

    /** Join the classes of `u` and `v`; the smaller root survives. */
    method Union(u: NodeId, v: NodeId) returns (merge: Option<Merge>)
      requires Valid()
      modifies this
      ensures Valid()
      ensures merge.None? <==> Root(old(parents), u) == Root(old(parents), v)
      ensures merge.None? ==> Same(old(parents), parents) && merged == old(merged)
      ensures merge.Some? ==>
        var Merge(child, parent) := merge.value;
        && child == Max(Root(old(parents), u), Root(old(parents), v))
        && parent == Min(Root(old(parents), u), Root(old(parents), v))
        && Linked(old(parents), parents, child, parent)
        && merged == old(merged)[child := parent]
    {
      var ru := Find(u);
      ghost var once := parents;
      var rv := Find(v);
      assert Agree(old(parents), once, v);
      SameTransitive(old(parents), once, parents);
      if ru == rv {
        return None;
      }
      ghost var compressed := parents;
      var child, parent := Max(ru, rv), Min(ru, rv);
      Link(child, parent);
      LinkedAfterSame(old(parents), compressed, parents, child, parent);
      merge := Some(Merge(child, parent));
    }

    /** Record a fresh pair; `root` may itself already have a parent. */
    method HydratePair(node: NodeId, root: NodeId)
      requires Valid() && root < node && node !in parents
      modifies this
      ensures Valid()
      ensures parents == old(parents)[node := root] && merged == old(merged)[node := root]
    {
      if tracks {
        InvertsLink(children, merged, node, root);
        children := children[root := Kids(children, root) + [node]];
      }
      SameExtended(parents, merged, map[node := root]);
      assert parents[node := root] == parents + map[node := root];
      assert merged[node := root] == merged + map[node := root];
      parents, merged := parents[node := root], merged[node := root];
    }

    /** Load fully resolved `(node, root)` pairs over what is already here. */
    method Hydrate(pairs: seq<(NodeId, NodeId)>)
      requires Valid() && Loadable(pairs, parents)
      modifies this
      ensures Valid()
      ensures parents == old(parents) + PairMap(pairs)
      ensures merged == old(merged) + PairMap(pairs)
    {
      ghost var before, edges := parents, merged;
      for i := 0 to |pairs|
        invariant Valid()
        invariant parents == before + PairMap(pairs[..i])
        invariant merged == edges + PairMap(pairs[..i])
      {
        var (node, root) := pairs[i];
        PairMapStep(pairs, before, i);
        if node != root {
          UpdateOfUnion(before, PairMap(pairs[..i]), node, root);
          UpdateOfUnion(edges, PairMap(pairs[..i]), node, root);
          HydratePair(node, root);
        }
      }
      assert pairs[..|pairs|] == pairs;
    }
  }
}

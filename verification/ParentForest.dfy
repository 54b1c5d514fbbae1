/**
 Parent maps: the pure data behind a disjoint-set forest, and the two facts
 every tier of the engine leans on. *Compression* (re-pointing a node at any
 smaller node of its class) changes no root; *linking* one root under a smaller
 root re-roots exactly one class.
 */
module ParentForest {
  import opened Types

  type Parents = map<NodeId, NodeId>

  /** Every parent is smaller than its child, so every chain is finite. */
  ghost predicate Descending(p: Parents) {
    forall x | x in p :: p[x] < x
  }

  /** Where the chain of parents from `x` ends. */
  ghost function Root(p: Parents, x: NodeId): (r: NodeId)
    requires Descending(p)
    ensures r !in p
    ensures r <= x
    ensures x !in p ==> r == x
    ensures x in p ==> r < x
    decreases x
  {
    if x in p then Root(p, p[x]) else x
  }

  /** Same keys and same roots: what path compression preserves. */
  ghost predicate Same(p: Parents, q: Parents) {
    && Descending(p) && Descending(q)
    && p.Keys == q.Keys
    && forall x :: Agree(p, q, x)
  }

  ghost predicate Agree(p: Parents, q: Parents, x: NodeId)
    requires Descending(p) && Descending(q)
  {
    Root(p, x) == Root(q, x)
  }

  /** `q` is `p` with root `child` absorbed by the smaller root `parent`. */
  ghost predicate Linked(p: Parents, q: Parents, child: NodeId, parent: NodeId) {
    && Descending(p) && Descending(q)
    && child !in p && parent !in p && parent < child
    && q.Keys == p.Keys + {child}
    && forall x :: Relinked(p, q, child, parent, x)
  }

  ghost predicate Relinked(p: Parents, q: Parents, child: NodeId, parent: NodeId, x: NodeId)
    requires Descending(p) && Descending(q)
  {
    Root(q, x) == if Root(p, x) == child then parent else Root(p, x)
  }

  /** `x` takes part in the forest, as a key or as the root of one. */
  ghost predicate Element(p: Parents, x: NodeId)
    requires Descending(p)
  {
    x in p || exists k | k in p :: Root(p, k) == x
  }

  /** Re-pointing nodes at any smaller node of their own class changes no root. */
  lemma {:induction false} CompressRoot(p: Parents, q: Parents, x: NodeId)
    requires Descending(p) && Descending(q) && p.Keys == q.Keys
    requires forall k | k in q :: Root(p, q[k]) == Root(p, k)
    ensures Root(q, x) == Root(p, x)
    decreases x
  {
    if x in q {
      CompressRoot(p, q, q[x]);
    }
  }

  lemma Compress(p: Parents, q: Parents)
    requires Descending(p) && Descending(q) && p.Keys == q.Keys
    requires forall k | k in q :: Root(p, q[k]) == Root(p, k)
    ensures Same(p, q)
  {
    forall x ensures Agree(p, q, x) {
      CompressRoot(p, q, x);
    }
  }

  /** One compressing write: `x` re-pointed at a smaller node of its class. */
  lemma CompressOne(p: Parents, x: NodeId, a: NodeId)
    requires Descending(p) && x in p && a < x && Root(p, a) == Root(p, x)
    ensures Same(p, p[x := a])
  {
    var q := p[x := a];
    assert q.Keys == p.Keys;
    Compress(p, q);
  }

  lemma {:induction false} LinkRoot(p: Parents, child: NodeId, parent: NodeId, x: NodeId)
    requires Descending(p) && child !in p && parent !in p && parent < child
    ensures Root(p[child := parent], x)
         == (if Root(p, x) == child then parent else Root(p, x))
    decreases x
  {
    if x in p {
      LinkRoot(p, child, parent, p[x]);
    } else if x == child {
      assert Root(p[child := parent], parent) == parent;
    }
  }

  lemma Link(p: Parents, child: NodeId, parent: NodeId)
    requires Descending(p) && child !in p && parent !in p && parent < child
    ensures Linked(p, p[child := parent], child, parent)
  {
    var q := p[child := parent];
    forall x ensures Relinked(p, q, child, parent, x) {
      LinkRoot(p, child, parent, x);
    }
  }

  lemma SameSymmetric(p: Parents, q: Parents)
    requires Same(p, q)
    ensures Same(q, p)
  {
    forall x ensures Agree(q, p, x) {
      assert Agree(p, q, x);
    }
  }

  lemma SameTransitive(p: Parents, q: Parents, r: Parents)
    requires Same(p, q) && Same(q, r)
    ensures Same(p, r)
  {
    forall x ensures Agree(p, r, x) {
      assert Agree(p, q, x) && Agree(q, r, x);
    }
  }

  lemma LinkedAfterSame(p: Parents, q: Parents, r: Parents, child: NodeId, parent: NodeId)
    requires Same(p, q) && Linked(q, r, child, parent)
    ensures Linked(p, r, child, parent)
  {
    forall x ensures Relinked(p, r, child, parent, x) {
      assert Agree(p, q, x) && Relinked(q, r, child, parent, x);
    }
  }

  /** A root that is not its own node was stored as somebody's parent. */
  lemma {:induction false} RootIsStored(p: Parents, x: NodeId) returns (k: NodeId)
    requires Descending(p) && x in p
    ensures k in p && p[k] == Root(p, x)
    decreases x
  {
    if p[x] in p {
      k := RootIsStored(p, p[x]);
    } else {
      k := x;
    }
  }

  /**
   Layering. `upper` sits over `lower` when its keys and the roots of its keys
   are roots of `lower` - the invariant that keeps a memtable over a base, and a
   run over the runs below it.
   */
  ghost predicate Over(lower: Parents, upper: Parents) {
    && Descending(lower) && Descending(upper)
    && upper.Keys !! lower.Keys
    && forall k | k in upper :: Root(upper, k) !in lower
  }

  lemma DescendingUnion(p: Parents, q: Parents)
    requires Descending(p) && Descending(q)
    ensures Descending(p + q)
  {
  }

  /** Resolution composes: first through the lower forest, then the upper. */
  lemma {:induction false} Compose(lower: Parents, upper: Parents, x: NodeId)
    requires Over(lower, upper)
    ensures Descending(lower + upper)
    ensures Root(lower + upper, x) == Root(upper, Root(lower, x))
    decreases x
  {
    var both := lower + upper;
    if x in upper {
      Compose(lower, upper, upper[x]);
      if upper[x] !in upper {
        assert Root(upper, x) == upper[x];
        assert upper[x] !in lower;
      }
    } else if x in lower {
      Compose(lower, upper, lower[x]);
    } else {
      assert x !in both;
    }
  }

  /** Compressing the upper forest compresses the composition. */
  lemma SameUnderLower(lower: Parents, upper: Parents, upper': Parents)
    requires Over(lower, upper) && Same(upper, upper')
    ensures Over(lower, upper')
    ensures Same(lower + upper, lower + upper')
  {
    assert (lower + upper).Keys == (lower + upper').Keys;
    forall k | k in upper' ensures Root(upper', k) !in lower {
      assert Agree(upper, upper', k);
    }
    forall x ensures Agree(lower + upper, lower + upper', x) {
      assert Agree(upper, upper', Root(lower, x));
      Compose(lower, upper, x);
      Compose(lower, upper', x);
    }
  }

  /** Linking two composed roots in the upper forest links the composition. */
  lemma LinkedUnderLower(lower: Parents, upper: Parents, upper': Parents,
                         child: NodeId, parent: NodeId)
    requires Over(lower, upper) && Linked(upper, upper', child, parent)
    requires child !in lower && parent !in lower
    ensures Over(lower, upper')
    ensures Linked(lower + upper, lower + upper', child, parent)
  {
    forall k | k in upper' ensures Root(upper', k) !in lower {
      assert Relinked(upper, upper', child, parent, k);
      assert k !in upper ==> k == child;
    }
    forall x ensures Relinked(lower + upper, lower + upper', child, parent, x) {
      assert Relinked(upper, upper', child, parent, Root(lower, x));
      Compose(lower, upper, x);
      Compose(lower, upper', x);
    }
    assert (lower + upper').Keys == (lower + upper).Keys + {child};
  }

  /** Adding the same fresh pairs to two forests with equal roots keeps them equal. */
  lemma {:induction false} ExtendRoot(p: Parents, q: Parents, m: Parents, x: NodeId)
    requires Same(p, q) && Descending(m) && m.Keys !! p.Keys
    ensures Descending(p + m) && Descending(q + m)
    ensures Root(p + m, x) == Root(q + m, x)
    decreases x
  {
    var r := Root(p, x);
    assert Agree(p, q, x);
    ThroughRoot(p, m, x);
    ThroughRoot(q, m, x);
    if r in m {
      ExtendRoot(p, q, m, m[r]);
    }
  }

  /** A chain in `p + m` first runs to its root in `p`. */
  lemma {:induction false} ThroughRoot(p: Parents, m: Parents, x: NodeId)
    requires Descending(p) && Descending(m) && m.Keys !! p.Keys
    ensures Descending(p + m)
    ensures Root(p + m, x) == Root(p + m, Root(p, x))
    decreases x
  {
    if x in p {
      ThroughRoot(p, m, p[x]);
    }
  }

  lemma SameExtended(p: Parents, q: Parents, m: Parents)
    requires Same(p, q) && Descending(m) && m.Keys !! p.Keys
    ensures Same(p + m, q + m)
  {
    assert (p + m).Keys == (q + m).Keys;
    forall x ensures Agree(p + m, q + m, x) {
      ExtendRoot(p, q, m, x);
    }
  }

  // --- joining two classes ---------------------------------------------

  /** `q` is `p` after a union of `u` and `v`: the smaller root absorbs the larger. */
  ghost predicate Joined(p: Parents, q: Parents, u: NodeId, v: NodeId) {
    && Descending(p)
    && var ru, rv := Root(p, u), Root(p, v);
       if ru == rv then Same(p, q) else Linked(p, q, Max(ru, rv), Min(ru, rv))
  }

  lemma JoinedRoot(p: Parents, q: Parents, u: NodeId, v: NodeId, x: NodeId)
    requires Joined(p, q, u, v)
    ensures Descending(q)
    ensures var ru, rv := Root(p, u), Root(p, v);
            Root(q, x) == if Root(p, x) == ru || Root(p, x) == rv then Min(ru, rv) else Root(p, x)
  {
    var ru, rv := Root(p, u), Root(p, v);
    if ru == rv {
      assert Agree(p, q, x);
    } else {
      assert Relinked(p, q, Max(ru, rv), Min(ru, rv), x);
    }
  }

  /** A union makes elements of the two roots it joins, and of nothing else. */
  lemma JoinedElement(p: Parents, q: Parents, u: NodeId, v: NodeId, x: NodeId)
    requires Joined(p, q, u, v)
    ensures Descending(q)
    ensures var ru, rv := Root(p, u), Root(p, v);
            Element(q, x) <==> Element(p, x) || (ru != rv && (x == ru || x == rv))
  {
    var ru, rv := Root(p, u), Root(p, v);
    if ru != rv {
      var c, r := Max(ru, rv), Min(ru, rv);
      assert c in q && Relinked(p, q, c, r, c);
      if k :| k in p && Root(p, k) == x {
        assert k in q && Relinked(p, q, c, r, k);
      }
      if k :| k in q && Root(q, k) == x {
        assert Relinked(p, q, c, r, k);
      }
    } else {
      SameElement(p, q, x);
    }
  }

  lemma SameElement(p: Parents, q: Parents, x: NodeId)
    requires Same(p, q)
    ensures Element(p, x) <==> Element(q, x)
  {
    if k :| k in p && Root(p, k) == x {
      assert Agree(p, q, k);
    }
    if k :| k in q && Root(q, k) == x {
      assert Agree(p, q, k);
    }
  }

  /** A node whose root differs from it is an element, and so is that root. */
  lemma MovedIsElement(p: Parents, x: NodeId)
    requires Descending(p) && Root(p, x) != x
    ensures Element(p, x) && Element(p, Root(p, x))
  {
    assert x in p;
  }

  /** Joining two composed roots in the upper forest joins the composition. */
  lemma JoinedUnderLower(lower: Parents, upper: Parents, upper': Parents, u: NodeId, v: NodeId)
    requires Over(lower, upper) && Joined(upper, upper', u, v)
    requires u !in lower + upper && v !in lower + upper
    ensures Over(lower, upper') && Joined(lower + upper, lower + upper', u, v)
  {
    Compose(lower, upper, u);
    Compose(lower, upper, v);
    if u == v {
      SameUnderLower(lower, upper, upper');
    } else {
      LinkedUnderLower(lower, upper, upper', Max(u, v), Min(u, v));
    }
  }

  /** A union after compression is a union of the uncompressed forest. */
  lemma JoinedAfterSame(p: Parents, q: Parents, r: Parents, u: NodeId, v: NodeId)
    requires Same(p, q) && Joined(q, r, u, v)
    ensures Joined(p, r, u, v)
  {
    assert Agree(p, q, u) && Agree(p, q, v);
    if Root(q, u) == Root(q, v) {
      SameTransitive(p, q, r);
    } else {
      LinkedAfterSame(p, q, r, Max(Root(q, u), Root(q, v)), Min(Root(q, u), Root(q, v)));
    }
  }

  /** Joining two nodes is joining their roots. */
  lemma JoinedRoots(p: Parents, q: Parents, u: NodeId, v: NodeId)
    requires Descending(p) && Joined(p, q, Root(p, u), Root(p, v))
    ensures Joined(p, q, u, v)
  {
    assert Root(p, Root(p, u)) == Root(p, u) && Root(p, Root(p, v)) == Root(p, v);
  }
}

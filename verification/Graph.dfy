/**
 The specification every query is measured against: connectivity of an
 undirected edge set, and the lowest node id of a connected component.
 */
module Graph {
  import opened Types

  type Edge = (NodeId, NodeId)

  ghost predicate Adjacent(edges: set<Edge>, u: NodeId, v: NodeId) {
    (u, v) in edges || (v, u) in edges
  }

  ghost predicate IsPath(edges: set<Edge>, path: seq<NodeId>) {
    && path != []
    && forall i | 0 <= i < |path| - 1 :: Adjacent(edges, path[i], path[i + 1])
  }

  ghost predicate PathBetween(edges: set<Edge>, path: seq<NodeId>, u: NodeId, v: NodeId) {
    IsPath(edges, path) && path[0] == u && path[|path| - 1] == v
  }

  ghost predicate Connected(edges: set<Edge>, u: NodeId, v: NodeId) {
    exists path :: PathBetween(edges, path, u, v)
  }

  /** `r` is the lowest node id in the connected component of `x`. */
  ghost predicate IsComponentMin(edges: set<Edge>, x: NodeId, r: NodeId) {
    && Connected(edges, x, r)
    && forall y | Connected(edges, x, y) :: r <= y
  }

  lemma ConnectedSelf(edges: set<Edge>, u: NodeId)
    ensures Connected(edges, u, u)
  {
    assert PathBetween(edges, [u], u, u);
  }

  lemma ConnectedEdge(edges: set<Edge>, u: NodeId, v: NodeId)
    requires Adjacent(edges, u, v)
    ensures Connected(edges, u, v)
  {
    assert PathBetween(edges, [u, v], u, v);
  }

  lemma ConnectedSymmetric(edges: set<Edge>, u: NodeId, v: NodeId)
    requires Connected(edges, u, v)
    ensures Connected(edges, v, u)
  {
    var path :| PathBetween(edges, path, u, v);
    var back := seq(|path|, i requires 0 <= i < |path| => path[|path| - 1 - i]);
    forall i | 0 <= i < |back| - 1
      ensures Adjacent(edges, back[i], back[i + 1])
    {
      var j := |path| - 2 - i;
      assert Adjacent(edges, path[j], path[j + 1]);
    }
    assert PathBetween(edges, back, v, u);
  }

  lemma ConnectedTransitive(edges: set<Edge>, u: NodeId, v: NodeId, w: NodeId)
    requires Connected(edges, u, v) && Connected(edges, v, w)
    ensures Connected(edges, u, w)
  {
    var p :| PathBetween(edges, p, u, v);
    var q :| PathBetween(edges, q, v, w);
    var pq := p + q[1..];
    forall i | 0 <= i < |pq| - 1
      ensures Adjacent(edges, pq[i], pq[i + 1])
    {
      if i >= |p| - 1 {
        var j := i - (|p| - 1);
        assert Adjacent(edges, q[j], q[j + 1]);
      }
    }
    assert PathBetween(edges, pq, u, w);
  }

  lemma ConnectedMonotone(edges: set<Edge>, more: set<Edge>, u: NodeId, v: NodeId)
    requires edges <= more
    requires Connected(edges, u, v)
    ensures Connected(more, u, v)
  {
    var p :| PathBetween(edges, p, u, v);
    assert PathBetween(more, p, u, v);
  }

  /** A labelling constant across every edge is constant on every component. */
  lemma TagConstantOnComponent(edges: set<Edge>, tag: NodeId -> NodeId, u: NodeId, v: NodeId)
    requires forall a, b | (a, b) in edges :: tag(a) == tag(b)
    requires Connected(edges, u, v)
    ensures tag(u) == tag(v)
  {
    var p :| PathBetween(edges, p, u, v);
    var i := 0;
    while i < |p| - 1
      invariant 0 <= i < |p|
      invariant tag(p[i]) == tag(u)
    {
      assert Adjacent(edges, p[i], p[i + 1]);
      i := i + 1;
    }
  }

  /**
   What makes a labelling *the* component minimum: it is constant across edges,
   it stays inside the component, and it never exceeds the node it labels.
   */
  lemma TagIsComponentMin(edges: set<Edge>, tag: NodeId -> NodeId, x: NodeId)
    requires forall a, b | (a, b) in edges :: tag(a) == tag(b)
    requires Connected(edges, x, tag(x))
    requires forall y :: tag(y) <= y
    ensures IsComponentMin(edges, x, tag(x))
  {
    forall y | Connected(edges, x, y)
      ensures tag(x) <= y
    {
      TagConstantOnComponent(edges, tag, x, y);
    }
  }

  /** The component minimum is unique, so two correct answers are equal. */
  lemma ComponentMinUnique(edges: set<Edge>, x: NodeId, r: NodeId, q: NodeId)
    requires IsComponentMin(edges, x, r) && IsComponentMin(edges, x, q)
    ensures r == q
  {
  }

  /** Nodes of one component have the same minimum, and different ones differ. */
  lemma ComponentMinDecidesConnected(edges: set<Edge>, x: NodeId, y: NodeId, r: NodeId, q: NodeId)
    requires IsComponentMin(edges, x, r) && IsComponentMin(edges, y, q)
    ensures r == q <==> Connected(edges, x, y)
  {
    if r == q {
      ConnectedSymmetric(edges, y, q);
      ConnectedTransitive(edges, x, r, y);
    }
    if Connected(edges, x, y) {
      ConnectedSymmetric(edges, x, y);
      ConnectedTransitive(edges, y, x, r);
      ConnectedTransitive(edges, x, y, q);
    }
  }
}

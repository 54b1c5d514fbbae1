/**
 What one scope sees: a shared forest `g` and that scope's overlay forest `o`,
 measured against the global edges `eg` and the scope's own edges `es`. An
 overlay is keyed by shared roots, some of them stale by now; the invariant says
 which stale keys are harmless, and why notifying only the scopes registered on
 an absorbed root is enough.
 */
module ScopedView {
  import opened Types
  import opened Graph
  import opened ParentForest

  /** The shared forest resolves every global edge and invents no connection. */
  ghost predicate SharedInv(g: Parents, eg: set<Edge>) {
    && Descending(g)
    && (forall a, b | (a, b) in eg :: Root(g, a) == Root(g, b))
    && (forall x | x in g :: Connected(eg, x, Root(g, x)))
  }

  /** A stale overlay element shares a class with its live root, also an element. */
  ghost predicate Tracks(g: Parents, o: Parents, e: NodeId)
    requires Descending(g) && Descending(o)
  {
    Element(o, Root(g, e)) && Root(o, Root(g, e)) == Root(o, e)
  }

  ghost predicate OverlayInv(g: Parents, o: Parents, eg: set<Edge>, es: set<Edge>) {
    && Descending(g) && Descending(o)
    && (forall a, b | (a, b) in es :: Root(o, Root(g, a)) == Root(o, Root(g, b)))
    && (forall x | x in o :: Connected(eg + es, x, Root(o, x)))
    && (forall e | Element(o, e) :: Tracks(g, o, e))
  }

  /** Every overlay element that is still a shared root is registered. */
  ghost predicate Notifiable(g: Parents, o: Parents, registered: iset<NodeId>)
    requires Descending(o)
  {
    forall e | Element(o, e) && e !in g :: e in registered
  }

  ghost function ViewRoot(g: Parents, o: Parents, x: NodeId): NodeId
    requires Descending(g) && Descending(o)
  {
    Root(o, Root(g, x))
  }

  // --- what the invariant is for -----------------------------------------

  lemma SharedReach(g: Parents, eg: set<Edge>, x: NodeId)
    requires SharedInv(g, eg)
    ensures Connected(eg, x, Root(g, x))
  {
    if x !in g {
      ConnectedSelf(eg, x);
    }
  }

  lemma OverlayReach(g: Parents, o: Parents, eg: set<Edge>, es: set<Edge>, x: NodeId)
    requires OverlayInv(g, o, eg, es)
    ensures Connected(eg + es, x, Root(o, x))
  {
    if x !in o {
      ConnectedSelf(eg + es, x);
    }
  }

  /** The shared root is the lowest id of the global component. */
  lemma SharedRootIsMin(g: Parents, eg: set<Edge>, x: NodeId)
    requires SharedInv(g, eg)
    ensures IsComponentMin(eg, x, Root(g, x))
  {
    SharedReach(g, eg, x);
    TagIsComponentMin(eg, y => Root(g, y), x);
  }

  /** The composed root is the lowest id of the component the scope sees. */
  lemma ViewRootIsMin(g: Parents, o: Parents, eg: set<Edge>, es: set<Edge>, x: NodeId)
    requires SharedInv(g, eg) && OverlayInv(g, o, eg, es)
    ensures IsComponentMin(eg + es, x, ViewRoot(g, o, x))
  {
    SharedReach(g, eg, x);
    ConnectedMonotone(eg, eg + es, x, Root(g, x));
    OverlayReach(g, o, eg, es, Root(g, x));
    ConnectedTransitive(eg + es, x, Root(g, x), ViewRoot(g, o, x));
    TagIsComponentMin(eg + es, y => ViewRoot(g, o, y), x);
  }

  // --- compression -------------------------------------------------------

  lemma SharedInvSame(g: Parents, g': Parents, eg: set<Edge>)
    requires SharedInv(g, eg) && Same(g, g')
    ensures SharedInv(g', eg)
  {
    forall a, b | (a, b) in eg ensures Root(g', a) == Root(g', b) {
      assert Agree(g, g', a) && Agree(g, g', b);
    }
    forall x | x in g' ensures Connected(eg, x, Root(g', x)) {
      assert Agree(g, g', x);
    }
  }

  lemma OverlayInvSame(g: Parents, g': Parents, o: Parents, o': Parents, eg: set<Edge>, es: set<Edge>)
    requires OverlayInv(g, o, eg, es) && Same(g, g') && Same(o, o')
    ensures OverlayInv(g', o', eg, es)
  {
    forall a, b | (a, b) in es ensures Root(o', Root(g', a)) == Root(o', Root(g', b)) {
      assert Agree(g, g', a) && Agree(g, g', b);
      assert Agree(o, o', Root(g, a)) && Agree(o, o', Root(g, b));
    }
    forall x | x in o' ensures Connected(eg + es, x, Root(o', x)) {
      assert Agree(o, o', x);
    }
    forall e | Element(o', e) ensures Tracks(g', o', e) {
      SameElement(o, o', e);
      SameElement(o, o', Root(g, e));
      assert Agree(g, g', e) && Tracks(g, o, e);
      assert Agree(o, o', Root(g, e)) && Agree(o, o', e);
    }
  }

  // --- a global edge -------------------------------------------------------

  /** A union of the endpoints keeps the shared forest exact. */
  lemma SharedJoin(g: Parents, g': Parents, eg: set<Edge>, u: NodeId, v: NodeId)
    requires SharedInv(g, eg) && Joined(g, g', u, v)
    ensures SharedInv(g', eg + {(u, v)})
  {
    var eg' := eg + {(u, v)};
    forall a, b | (a, b) in eg' ensures Root(g', a) == Root(g', b) {
      JoinedRoot(g, g', u, v, a);
      JoinedRoot(g, g', u, v, b);
    }
    ConnectedEdge(eg', u, v);
    forall x | x in g' ensures Connected(eg', x, Root(g', x)) {
      JoinedReach(g, g', eg, eg', u, v, x);
    }
  }

  /** Joining two connected classes connects nothing that was not connected. */
  lemma JoinedReach(p: Parents, q: Parents, edges: set<Edge>, more: set<Edge>, u: NodeId, v: NodeId, x: NodeId)
    requires Joined(p, q, u, v) && edges <= more && Connected(more, u, v)
    requires forall k | k in p :: Connected(edges, k, Root(p, k))
    ensures Descending(q) && Connected(more, x, Root(q, x))
  {
    JoinedRoot(p, q, u, v, x);
    RootReach(p, edges, more, x);
    RootReach(p, edges, more, u);
    RootReach(p, edges, more, v);
    ConnectedSymmetric(more, u, v);
    ConnectedSymmetric(more, u, Root(p, u));
    ConnectedSymmetric(more, v, Root(p, v));
    ConnectedTransitive(more, Root(p, u), u, v);
    ConnectedTransitive(more, Root(p, u), v, Root(p, v));
    ConnectedTransitive(more, Root(p, v), v, u);
    ConnectedTransitive(more, Root(p, v), u, Root(p, u));
    if Root(p, x) == Root(p, u) {
      ConnectedTransitive(more, x, Root(p, u), Root(p, v));
    } else if Root(p, x) == Root(p, v) {
      ConnectedTransitive(more, x, Root(p, v), Root(p, u));
    }
  }

  lemma RootReach(p: Parents, edges: set<Edge>, more: set<Edge>, x: NodeId)
    requires Descending(p) && edges <= more
    requires forall k | k in p :: Connected(edges, k, Root(p, k))
    ensures Connected(more, x, Root(p, x))
  {
    if x in p {
      ConnectedMonotone(edges, more, x, Root(p, x));
    } else {
      ConnectedSelf(more, x);
    }
  }

  /** A global edge inside one shared class changes nothing a scope can see. */
  lemma OverlayMoreEdges(g: Parents, o: Parents, eg: set<Edge>, es: set<Edge>, more: set<Edge>)
    requires OverlayInv(g, o, eg, es) && eg <= more
    ensures OverlayInv(g, o, more, es)
  {
    forall x | x in o ensures Connected(more + es, x, Root(o, x)) {
      ConnectedMonotone(eg + es, more + es, x, Root(o, x));
    }
  }

  /**
   A scope registered on the absorbed root joins `child` and `parent` in its
   overlay, and is exact again.
   */
  lemma OverlayFixup(g: Parents, g': Parents, o: Parents, o': Parents,
                     eg: set<Edge>, eg': set<Edge>, es: set<Edge>, child: NodeId, parent: NodeId)
    requires OverlayInv(g, o, eg, es) && SharedInv(g', eg') && eg <= eg'
    requires Linked(g, g', child, parent) && Joined(o, o', child, parent)
    ensures OverlayInv(g', o', eg', es)
  {
    var edges := eg' + es;
    assert Connected(edges, child, parent) by {
      assert Relinked(g, g', child, parent, child);
      SharedReach(g', eg', child);
      ConnectedMonotone(eg', edges, child, parent);
    }
    JoinedRoot(o, o', child, parent, child);
    JoinedRoot(o, o', child, parent, parent);
    forall a, b | (a, b) in es ensures Root(o', Root(g', a)) == Root(o', Root(g', b)) {
      assert Relinked(g, g', child, parent, a) && Relinked(g, g', child, parent, b);
      JoinedRoot(o, o', child, parent, Root(g, a));
      JoinedRoot(o, o', child, parent, Root(g, b));
    }
    forall x | x in o' ensures Connected(edges, x, Root(o', x)) {
      JoinedReach(o, o', eg + es, edges, child, parent, x);
    }
    forall e | Element(o', e) ensures Tracks(g', o', e) {
      FixupTracks(g, g', o, o', child, parent, e);
    }
  }

  lemma FixupTracks(g: Parents, g': Parents, o: Parents, o': Parents,
                    child: NodeId, parent: NodeId, e: NodeId)
    requires Linked(g, g', child, parent) && Joined(o, o', child, parent)
    requires forall x | Element(o, x) :: Tracks(g, o, x)
    requires Descending(o') && Element(o', e)
    ensures Tracks(g', o', e)
  {
    var live := Root(g, e);
    var a, b := Root(o, child), Root(o, parent);
    assert Relinked(g, g', child, parent, e);
    JoinedElement(o, o', child, parent, e);
    JoinedElement(o, o', child, parent, live);
    JoinedElement(o, o', child, parent, parent);
    JoinedRoot(o, o', child, parent, e);
    JoinedRoot(o, o', child, parent, live);
    JoinedRoot(o, o', child, parent, child);
    JoinedRoot(o, o', child, parent, parent);
    if Element(o, e) {
      assert Tracks(g, o, e);
    }
    if b != parent {
      MovedIsElement(o, parent);
    }
    if a != child {
      MovedIsElement(o, child);
    }
  }

  /** A scope not registered on the absorbed root needs no fix-up at all. */
  lemma OverlayUntouched(g: Parents, g': Parents, o: Parents,
                         eg: set<Edge>, eg': set<Edge>, es: set<Edge>, child: NodeId, parent: NodeId)
    requires OverlayInv(g, o, eg, es) && eg <= eg'
    requires Linked(g, g', child, parent) && !Element(o, child)
    ensures OverlayInv(g', o, eg', es)
  {
    OverlayMoreEdges(g, o, eg, es, eg');
    forall a, b | (a, b) in es ensures Root(o, Root(g', a)) == Root(o, Root(g', b)) {
      assert Relinked(g, g', child, parent, a) && Relinked(g, g', child, parent, b);
      OnlyItself(o, child, Root(g, a));
      OnlyItself(o, child, Root(g, b));
    }
    forall e | Element(o, e) ensures Tracks(g', o, e) {
      assert Relinked(g, g', child, parent, e) && Tracks(g, o, e);
    }
  }

  /** A node that is no element is alone in its class. */
  lemma OnlyItself(o: Parents, x: NodeId, y: NodeId)
    requires Descending(o) && !Element(o, x)
    ensures Root(o, y) == x <==> y == x
  {
  }

  /** After the merge every live element is registered, `parent` newly so. */
  lemma NotifiableAfterFixup(g: Parents, g': Parents, o: Parents, o': Parents,
                             before: iset<NodeId>, after: iset<NodeId>, child: NodeId, parent: NodeId)
    requires Linked(g, g', child, parent) && Joined(o, o', child, parent)
    requires Notifiable(g, o, before)
    requires before - iset{child} <= after && parent in after
    requires forall e | Element(o, e) :: Tracks(g, o, e)
    ensures Descending(o') && Notifiable(g', o', after)
  {
    JoinedRoot(o, o', child, parent, child);
    forall e | Element(o', e) && e !in g' ensures e in after {
      JoinedElement(o, o', child, parent, e);
      if !Element(o, e) {
        assert e == Root(o, child) || e == Root(o, parent);
        if Root(o, child) != child {
          MovedIsElement(o, child);
        }
        if Root(o, parent) != parent {
          MovedIsElement(o, parent);
        }
      }
    }
  }

  lemma NotifiableUntouched(g: Parents, g': Parents, o: Parents, before: iset<NodeId>, after: iset<NodeId>,
                            child: NodeId, parent: NodeId)
    requires Linked(g, g', child, parent) && Descending(o) && Notifiable(g, o, before)
    requires before - iset{child} <= after
    ensures Notifiable(g', o, after)
  {
  }

  // --- a scoped edge -------------------------------------------------------

  lemma OverlayJoin(g: Parents, o: Parents, o': Parents, eg: set<Edge>, es: set<Edge>, u: NodeId, v: NodeId)
    requires SharedInv(g, eg) && OverlayInv(g, o, eg, es)
    requires Joined(o, o', Root(g, u), Root(g, v))
    ensures OverlayInv(g, o', eg, es + {(u, v)})
  {
    var ru, rv := Root(g, u), Root(g, v);
    var es' := es + {(u, v)};
    var edges := eg + es';
    JoinedRoot(o, o', ru, rv, ru);
    assert Connected(edges, ru, rv) by {
      ScopedEndpoints(g, eg, edges, u, v);
    }
    forall a, b | (a, b) in es' ensures Root(o', Root(g, a)) == Root(o', Root(g, b)) {
      JoinedRoot(o, o', ru, rv, Root(g, a));
      JoinedRoot(o, o', ru, rv, Root(g, b));
    }
    forall x | x in o' ensures Connected(edges, x, Root(o', x)) {
      JoinedReach(o, o', eg + es, edges, ru, rv, x);
    }
    forall e | Element(o', e) ensures Tracks(g, o', e) {
      JoinTracks(g, o, o', u, v, e);
    }
  }

  lemma ScopedEndpoints(g: Parents, eg: set<Edge>, edges: set<Edge>, u: NodeId, v: NodeId)
    requires SharedInv(g, eg) && eg <= edges && (u, v) in edges
    ensures Connected(edges, Root(g, u), Root(g, v))
  {
    SharedReach(g, eg, u);
    SharedReach(g, eg, v);
    ConnectedMonotone(eg, edges, u, Root(g, u));
    ConnectedMonotone(eg, edges, v, Root(g, v));
    ConnectedEdge(edges, u, v);
    ConnectedSymmetric(edges, u, Root(g, u));
    ConnectedTransitive(edges, Root(g, u), u, v);
    ConnectedTransitive(edges, Root(g, u), v, Root(g, v));
  }

  lemma JoinTracks(g: Parents, o: Parents, o': Parents, u: NodeId, v: NodeId, e: NodeId)
    requires Descending(g) && Joined(o, o', Root(g, u), Root(g, v))
    requires forall x | Element(o, x) :: Tracks(g, o, x)
    requires Descending(o') && Element(o', e)
    ensures Tracks(g, o', e)
  {
    var ru, rv, live := Root(g, u), Root(g, v), Root(g, e);
    JoinedElement(o, o', ru, rv, e);
    JoinedElement(o, o', ru, rv, live);
    JoinedRoot(o, o', ru, rv, e);
    JoinedRoot(o, o', ru, rv, live);
    if Element(o, e) {
      assert Tracks(g, o, e);
    } else {
      if Root(o, ru) != ru {
        MovedIsElement(o, ru);
      }
      if Root(o, rv) != rv {
        MovedIsElement(o, rv);
      }
    }
  }

  lemma NotifiableAfterJoin(g: Parents, o: Parents, o': Parents, before: iset<NodeId>, after: iset<NodeId>,
                            u: NodeId, v: NodeId)
    requires Descending(g) && Joined(o, o', Root(g, u), Root(g, v)) && Notifiable(g, o, before)
    requires before <= after && Root(g, u) in after && Root(g, v) in after
    ensures Descending(o') && Notifiable(g, o', after)
  {
    var ru, rv := Root(g, u), Root(g, v);
    JoinedRoot(o, o', ru, rv, ru);
    forall e | Element(o', e) && e !in g ensures e in after {
      JoinedElement(o, o', ru, rv, e);
      if !Element(o, e) {
        if Root(o, ru) != ru {
          MovedIsElement(o, ru);
        }
        if Root(o, rv) != rv {
          MovedIsElement(o, rv);
        }
      }
    }
  }

  lemma NotifiableSame(g: Parents, g': Parents, o: Parents, o': Parents, registered: iset<NodeId>)
    requires Same(g, g') && Same(o, o') && Notifiable(g, o, registered)
    ensures Notifiable(g', o', registered)
  {
    forall e | Element(o', e) && e !in g' ensures e in registered {
      SameElement(o, o', e);
    }
  }

  // --- the component a scope sees -----------------------------------------

  /**
   A node is in the component of composed root `r` exactly when some element of
   `r`'s overlay class has the node in its own shared class. This is why listing
   members walks the overlay first and the shared forest second.
   */
  lemma ComponentThroughOverlay(g: Parents, o: Parents, eg: set<Edge>, es: set<Edge>, r: NodeId, x: NodeId, e: NodeId)
    requires SharedInv(g, eg) && OverlayInv(g, o, eg, es)
    requires Root(o, e) == r && Root(g, e) == Root(g, x)
    requires Element(o, e) || e == Root(g, e)
    ensures ViewRoot(g, o, x) == r
  {
    if Element(o, e) {
      assert Tracks(g, o, e);
    }
  }
}

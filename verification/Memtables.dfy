/** The in-heap half of a generation, behind a value view of its forests. */
module Memtables {
  import opened Types
  import opened ParentForest
  import opened ForestState
  import opened DisjointSets

  /** Which forest of a memtable is meant. */
  datatype Part = Global | Scope(scope: ScopeId)

  class Memtable {
    var global: Dsu
    var overlays: map<ScopeId, Dsu>
    const memberIndex: bool
    /** The objects held here, and their parents as values. */
    ghost var repr: set<Dsu>
    ghost var shared: Parents
    ghost var scoped: Overlays

    ghost predicate Keeps(d: Dsu, p: Parents)
      reads this, d
    {
      d in repr && d.Valid() && d.tracks == memberIndex && d.parents == p
    }

    /** The global forest, or the overlay of `s` if there is one, is well kept. */
    ghost predicate Slot(which: Part)
      reads this, repr
    {
      match which
      case Global => global in repr && Keeps(global, shared)
      case Scope(s) =>
        && (s in overlays <==> s in scoped)
        && (s in overlays ==>
              && overlays[s] in repr && overlays[s] != global
              && Keeps(overlays[s], scoped[s])
              && forall s' | s' in overlays && s' != s :: overlays[s'] != overlays[s])
    }

    /** Every disjoint-set object is well formed, and no two scopes share one. */
    ghost predicate Valid()
      reads this, repr
    {
      forall which :: Slot(which)
    }

    constructor (trackMembers: bool)
      ensures Valid() && fresh(repr) && memberIndex == trackMembers
      ensures shared == map[] && scoped == map[]
    {
      overlays, memberIndex := map[], trackMembers;
      shared, scoped := map[], map[];
      global := new Dsu(trackMembers);
      repr := {global};
    }

    lemma Forests()
      requires Valid()
      ensures Descending(shared) && forall s :: Descending(OverlayOf(scoped, s))
    {
      assert Slot(Global);
      forall s ensures Descending(OverlayOf(scoped, s)) {
        assert Slot(Scope(s));
      }
    }

    static method FindIn(d: Dsu, node: NodeId, compress: bool) returns (r: NodeId)
      requires d.Valid()
      modifies d`parents
      ensures d.Valid() && Same(old(d.parents), d.parents)
      ensures r == Root(old(d.parents), node)
    {
      if compress {
        r := d.Find(node);
      } else {
        r := d.FindRo(node);
      }
    }

    method FindShared(node: NodeId, compress: bool) returns (r: NodeId)
      requires Valid()
      modifies this`shared, repr`parents
      ensures Valid() && Same(old(shared), shared)
      ensures r == Root(old(shared), node)
    {
      assert Slot(Global);
      r := FindIn(global, node, compress);
      shared := global.parents;
      forall which ensures Slot(which) {
        assert old(Slot(which));
      }
    }

    /** Find inside `scope`'s overlay, if it has one. */
    method FindOverlay(scope: ScopeId, x: NodeId, compress: bool) returns (r: NodeId)
      requires Valid()
      modifies this`scoped, repr`parents
      ensures Valid()
      ensures Same(OverlayOf(old(scoped), scope), OverlayOf(scoped, scope))
      ensures forall s | s != scope :: OverlayOf(scoped, s) == OverlayOf(old(scoped), s)
      ensures r == Root(OverlayOf(old(scoped), scope), x)
    {
      assert Slot(Scope(scope));
      if scope !in overlays {
        return x;
      }
      r := FindIn(overlays[scope], x, compress);
      scoped := scoped[scope := overlays[scope].parents];
      forall which ensures Slot(which) {
        assert old(Slot(which));
      }
    }

    method UnionShared(u: NodeId, v: NodeId) returns (merge: Option<Merge>)
      requires Valid()
      modifies this`shared, repr
      ensures Valid() && Joined(old(shared), shared, u, v)
      ensures merge.None? <==> Root(old(shared), u) == Root(old(shared), v)
      ensures merge.Some? ==>
        && merge.value.child == Max(Root(old(shared), u), Root(old(shared), v))
        && merge.value.parent == Min(Root(old(shared), u), Root(old(shared), v))
    {
      assert Slot(Global);
      merge := global.Union(u, v);
      shared := global.parents;
      forall which ensures Slot(which) {
        assert old(Slot(which));
      }
    }

    /** `scope`'s overlay, created on demand with this memtable's index setting. */
    method EnsureOverlay(scope: ScopeId)
      requires Valid()
      modifies this`overlays, this`scoped, this`repr
      ensures Valid() && fresh(repr - old(repr)) && scope in overlays
      ensures forall s :: OverlayOf(scoped, s) == OverlayOf(old(scoped), s)
    {
      if scope !in overlays {
        var d := new Dsu(memberIndex);
        assert Slot(Scope(scope));
        overlays, scoped, repr := overlays[scope := d], scoped[scope := map[]], repr + {d};
        forall which ensures Slot(which) {
          assert old(Slot(which)) && old(Slot(Global));
        }
      }
    }

    method UnionIn(scope: ScopeId, a: NodeId, b: NodeId)
      requires Valid() && scope in overlays
      modifies this`scoped, repr
      ensures Valid()
      ensures forall s | s != scope :: OverlayOf(scoped, s) == OverlayOf(old(scoped), s)
      ensures Joined(OverlayOf(old(scoped), scope), OverlayOf(scoped, scope), a, b)
    {
      assert Slot(Scope(scope));
      var _ := overlays[scope].Union(a, b);
      scoped := scoped[scope := overlays[scope].parents];
      forall which ensures Slot(which) {
        assert old(Slot(which));
      }
    }

    method UnionOverlay(scope: ScopeId, a: NodeId, b: NodeId)
      requires Valid()
      modifies this`overlays, this`scoped, this`repr, repr
      ensures Valid() && fresh(repr - old(repr))
      ensures forall s | s != scope :: OverlayOf(scoped, s) == OverlayOf(old(scoped), s)
      ensures Joined(OverlayOf(old(scoped), scope), OverlayOf(scoped, scope), a, b)
    {
      EnsureOverlay(scope);
      UnionIn(scope, a, b);
    }

    /** Load resolved shared pairs for nodes not held yet. */
    method HydrateShared(pairs: seq<(NodeId, NodeId)>)
      requires Valid() && Loadable(pairs, shared)
      modifies this`shared, repr
      ensures Valid() && shared == old(shared) + PairMap(pairs)
    {
      assert Slot(Global);
      global.Hydrate(pairs);
      shared := global.parents;
      forall which ensures Slot(which) {
        assert old(Slot(which));
      }
    }

    method HydrateIn(scope: ScopeId, pairs: seq<(NodeId, NodeId)>)
      requires Valid() && scope in overlays && Loadable(pairs, OverlayOf(scoped, scope))
      modifies this`scoped, repr
      ensures Valid()
      ensures forall s | s != scope :: OverlayOf(scoped, s) == OverlayOf(old(scoped), s)
      ensures OverlayOf(scoped, scope) == OverlayOf(old(scoped), scope) + PairMap(pairs)
    {
      assert Slot(Scope(scope));
      overlays[scope].Hydrate(pairs);
      scoped := scoped[scope := overlays[scope].parents];
      forall which ensures Slot(which) {
        assert old(Slot(which));
      }
    }

    /** Load resolved overlay pairs for nodes not held in `scope` yet. */
    method HydrateOverlay(scope: ScopeId, pairs: seq<(NodeId, NodeId)>)
      requires Valid() && Loadable(pairs, OverlayOf(scoped, scope))
      modifies this`overlays, this`scoped, this`repr, repr
      ensures Valid() && fresh(repr - old(repr))
      ensures forall s | s != scope :: OverlayOf(scoped, s) == OverlayOf(old(scoped), s)
      ensures OverlayOf(scoped, scope) == OverlayOf(old(scoped), scope) + PairMap(pairs)
    {
      EnsureOverlay(scope);
      HydrateIn(scope, pairs);
    }
  }
}

/**
 The scoped forest itself: one global disjoint-set forest, sparse per-scope
 overlays keyed by global roots, and the registry that says which scopes to
 notify when a global root is absorbed - all of it layered over committed runs.
 */
module Forest {
  import opened Types
  import opened Graph
  import opened ParentForest
  import opened Layers
  import opened ForestState
  import opened Folds
  import opened DisjointSets
  import opened Memtables

  /** Scopes some run recorded overlay state for, keyed on `root`. */
  method ScopesForRoot(runs: seq<Run>, root: NodeId) returns (out: set<ScopeId>)
    ensures forall s :: s in out <==> Recorded(runs, root, s)
  {
    out := {};
    for i := 0 to |runs|
      invariant forall s :: s in out <==> Recorded(runs[..i], root, s)
    {
      out := out + set e | e in runs[i].registry && e.0 == root :: e.1;
      assert runs[..i + 1] == runs[..i] + [runs[i]];
      forall s ensures s in out <==> Recorded(runs[..i + 1], root, s) {
        RecordedStep(runs[..i], runs[i], root, s);
      }
    }
    assert runs[..|runs|] == runs;
  }

  lemma RecordedStep(runs: seq<Run>, run: Run, root: NodeId, s: ScopeId)
    ensures Recorded(runs + [run], root, s) <==> Recorded(runs, root, s) || (root, s) in run.registry
  {
    var more := runs + [run];
    if i :| 0 <= i < |runs| && (root, s) in runs[i].registry {
      assert more[i] == runs[i];
    }
    if (root, s) in run.registry {
      assert more[|runs|] == run;
    }
  }

  /** What holds between the scopes of one edge. */
  datatype Aspect = TheTables | TheAnswers | TheSteps

  class ScopedForest {
    var runs: seq<Run>
    var mem: Memtable
    var registry: map<NodeId, set<ScopeId>>
    /** The edges applied so far: visible to everyone, and per scope. */
    ghost var eg: set<Edge>
    ghost var es: ScopeEdges

    ghost function State(): Tier
      reads this, mem
    {
      Tier(runs, mem.shared, mem.scoped, registry)
    }

    ghost predicate Valid()
      reads this, mem, mem.repr
    {
      mem.Valid() && TierInv(State(), eg, es)
    }

    constructor (trackMembers: bool)
      ensures Valid() && eg == {} && es == map[] && runs == []
      ensures fresh(mem) && fresh(mem.repr) && mem.memberIndex == trackMembers
    {
      runs, registry := [], map[];
      eg, es := {}, map[];
      mem := new Memtable(trackMembers);
      new;
      EmptyInv();
      assert State() == EMPTY;
    }

    // --- composed resolution ---------------------------------------------------

    /** Shared root of `node`; `compress` is the write path, otherwise the query path. */
    method SharedRoot(node: NodeId, compress: bool) returns (r: NodeId)
      requires mem.Valid() && Stacked(SharedTables(runs)) && Over(BaseShared(runs), mem.shared)
      modifies mem`shared, mem.repr`parents
      ensures mem.Valid() && Same(old(mem.shared), mem.shared)
      ensures Descending(old(Shared(State()))) && r == Root(old(Shared(State())), node)
    {
      ghost var m := mem.shared;
      Compose(BaseShared(runs), m, node);
      r := mem.FindShared(node, compress);
      if r != node {
        return;
      }
      var b := Resolve(SharedTables(runs), node);
      if b.Some? {
        ghost var once := mem.shared;
        assert Agree(m, once, b.value);
        r := mem.FindShared(b.value, compress);
        SameTransitive(m, once, mem.shared);
      }
    }

    /** What the runs make of `x`, and the memtable of that. */
    method OverlayBehind(scope: ScopeId, x: NodeId, compress: bool) returns (r: NodeId)
      requires mem.Valid() && Stacked(OverlayTables(runs, scope)) && Descending(OverlayOf(mem.scoped, scope))
      modifies mem`scoped, mem.repr`parents
      ensures mem.Valid() && Same(OverlayOf(old(mem.scoped), scope), OverlayOf(mem.scoped, scope))
      ensures forall s | s != scope :: OverlayOf(mem.scoped, s) == OverlayOf(old(mem.scoped), s)
      ensures Descending(BaseOverlay(runs, scope))
      ensures r == if x in BaseOverlay(runs, scope) then Root(OverlayOf(old(mem.scoped), scope),
                                                             Root(BaseOverlay(runs, scope), x)) else x
    {
      var b := Resolve(OverlayTables(runs, scope), x);
      if b.None? {
        SameItself(OverlayOf(mem.scoped, scope));
        return x;
      }
      r := mem.FindOverlay(scope, b.value, compress);
    }

    /** Overlay root of `x` in `scope`, composing base and memtable. */
    method OverlayRoot(scope: ScopeId, x: NodeId, compress: bool) returns (r: NodeId)
      requires mem.Valid() && Stacked(OverlayTables(runs, scope))
      requires Over(BaseOverlay(runs, scope), OverlayOf(mem.scoped, scope))
      modifies mem`scoped, mem.repr`parents
      ensures mem.Valid() && Same(OverlayOf(old(mem.scoped), scope), OverlayOf(mem.scoped, scope))
      ensures forall s | s != scope :: OverlayOf(mem.scoped, s) == OverlayOf(old(mem.scoped), s)
      ensures Descending(old(Overlay(State(), scope))) && r == Root(old(Overlay(State(), scope)), x)
    {
      ghost var base, m := BaseOverlay(runs, scope), OverlayOf(mem.scoped, scope);
      TwoSteps(base, m, x);
      r := mem.FindOverlay(scope, x, compress);
      if r != x {
        return;
      }
      ghost var once := OverlayOf(mem.scoped, scope);
      r := OverlayBehind(scope, x, compress);
      assert x in base ==> Agree(m, once, Root(base, x));
      SameTransitive(m, once, OverlayOf(mem.scoped, scope));
    }

    /** Component representative of `node` as `scope` sees it. */
    method ScopeRootOf(scope: ScopeId, node: NodeId) returns (r: NodeId)
      requires Valid()
      modifies mem`shared, mem`scoped, mem.repr`parents
      ensures Valid() && Quiet(old(State()), State())
      ensures IsComponentMin(Visible(eg, es, scope), node, r)
    {
      ghost var t := State();
      ScopeRootIsMin(t, eg, es, scope, node);
      mem.Forests();
      var g := SharedRoot(node, false);
      ghost var t1 := State();
      CompressedShared(t, t1);
      CompressedInv(t, t1, eg, es);
      if scope == GLOBAL_SCOPE {
        return g;
      }
      mem.Forests();
      assert BaseScopeInv(runs, scope) && ScopeInv(t1, scope, eg, EdgesOf(es, scope));
      r := OverlayRoot(scope, g, false);
      CompressedOverlay(t1, State(), scope);
      CompressedInv(t1, State(), eg, es);
      CompressedTransitive(t, t1, State());
    }

    // --- applying edges ----------------------------------------------------------

    /** Join the overlay classes of `x` and `y`; `always` opens the overlay regardless. */
    method JoinOverlay(scope: ScopeId, x: NodeId, y: NodeId, always: bool)
      requires mem.Valid() && Stacked(OverlayTables(runs, scope))
      requires Over(BaseOverlay(runs, scope), OverlayOf(mem.scoped, scope))
      modifies mem`overlays, mem`scoped, mem`repr, mem.repr
      ensures mem.Valid() && fresh(mem.repr - old(mem.repr))
      ensures forall s | s != scope :: OverlayOf(mem.scoped, s) == OverlayOf(old(mem.scoped), s)
      ensures Over(BaseOverlay(runs, scope), OverlayOf(mem.scoped, scope))
      ensures Joined(old(Overlay(State(), scope)), Overlay(State(), scope), x, y)
    {
      ghost var base, m0 := BaseOverlay(runs, scope), OverlayOf(mem.scoped, scope);
      var a := OverlayRoot(scope, x, true);
      ghost var m1 := OverlayOf(mem.scoped, scope);
      SameUnderLower(base, m0, m1);
      var b := OverlayRoot(scope, y, true);
      ghost var m2 := OverlayOf(mem.scoped, scope);
      if always || a != b {
        mem.UnionOverlay(scope, a, b);
      }
      ComposedJoin(base, m0, m1, m2, OverlayOf(mem.scoped, scope), x, y);
    }

    /** Join the shared classes of `u` and `v`. */
    method JoinShared(u: NodeId, v: NodeId) returns (merge: Option<Merge>)
      requires mem.Valid() && Stacked(SharedTables(runs)) && Over(BaseShared(runs), mem.shared)
      modifies mem`shared, mem.repr
      ensures mem.Valid() && Over(BaseShared(runs), mem.shared)
      ensures Joined(old(Shared(State())), Shared(State()), u, v)
      ensures merge.None? ==> Same(old(mem.shared), mem.shared)
      ensures var ru, rv := Root(old(Shared(State())), u), Root(old(Shared(State())), v);
              if ru == rv then merge.None? else merge == Some(Merge(Max(ru, rv), Min(ru, rv)))
    {
      ghost var base, m0 := BaseShared(runs), mem.shared;
      var ru := SharedRoot(u, true);
      ghost var m1 := mem.shared;
      SameUnderLower(base, m0, m1);
      var rv := SharedRoot(v, true);
      ghost var m2 := mem.shared;
      merge := mem.UnionShared(ru, rv);
      assert Agree(base + m0, base + m1, v);
      ComposedJoin(base, m0, m1, m2, mem.shared, u, v);
      SameTransitive(m0, m1, m2);
      if merge.None? {
        SameTransitive(m0, m2, mem.shared);
      }
    }

    /** Send one more scope its fix-up; `o` is where this round started. */
    method NotifyScope(scope: ScopeId, child: NodeId, parent: NodeId, ghost o: Overlays, ghost done: set<ScopeId>)
      requires mem.Valid() && Layered(runs, o) && scope !in done
      requires Fixed(runs, o, mem.scoped, done, child, parent)
      modifies mem`overlays, mem`scoped, mem`repr, mem.repr
      ensures mem.Valid() && fresh(mem.repr - old(mem.repr))
      ensures Fixed(runs, o, mem.scoped, done + {scope}, child, parent)
    {
      ghost var before := mem.scoped;
      FixedLayers(runs, o, before, done, child, parent, scope);
      JoinOverlay(scope, child, parent, false);
      FixedStep(runs, o, before, mem.scoped, done, scope, child, parent);
    }

    /** Send every scope in `scopes` the fix-up for `child` absorbed by `parent`. */
    method NotifyScopes(scopes: set<ScopeId>, child: NodeId, parent: NodeId)
      requires mem.Valid() && Layered(runs, mem.scoped)
      modifies mem`overlays, mem`scoped, mem`repr, mem.repr
      ensures mem.Valid() && fresh(mem.repr - old(mem.repr))
      ensures Fixed(runs, old(mem.scoped), mem.scoped, scopes, child, parent)
    {
      ghost var o, done: set<ScopeId> := mem.scoped, {};
      var todo := scopes;
      while todo != {}
        invariant done + todo == scopes && done !! todo
        invariant mem.Valid() && fresh(mem.repr - old(mem.repr))
        invariant Fixed(runs, o, mem.scoped, done, child, parent)
      {
        var scope :| scope in todo;
        NotifyScope(scope, child, parent, o, done);
        todo, done := todo - {scope}, done + {scope};
      }
    }

    /** Notify the scopes registered on `child`, and register them on `parent`. */
    method Absorb(child: NodeId, parent: NodeId, ghost t: Tier)
      requires mem.Valid() && Layered(t.runs, t.overlays) && State() == t.(shared := mem.shared)
      modifies this`registry, mem`overlays, mem`scoped, mem`repr, mem.repr
      ensures mem.Valid() && fresh(mem.repr - old(mem.repr))
      ensures Notified(t, State(), child, parent)
    {
      var scopes := if child in registry then registry[child] else {};
      var recorded := ScopesForRoot(runs, child);
      scopes := scopes + recorded;
      NotifyScopes(scopes, child, parent);
      registry := Reregister(registry, scopes, child, parent);
      Notifies(t, State(), scopes, child, parent);
    }

    /** Join two shared classes and pass the merge on to the scopes it concerns. */
    method MergeGlobal(u: NodeId, v: NodeId)
      requires mem.Valid() && Stacked(SharedTables(runs)) && Over(BaseShared(runs), mem.shared)
      requires Layered(runs, mem.scoped)
      modifies this`registry, mem, mem.repr
      ensures mem.Valid() && fresh(mem.repr - old(mem.repr))
      ensures GlobalApplied(old(State()), State(), u, v)
    {
      ghost var t := State();
      mem.Forests();
      var merge := JoinShared(u, v);
      if merge.None? {
        CompressedShared(t, State());
      } else {
        Absorb(merge.value.child, merge.value.parent, t);
      }
    }

    /** An edge every scope sees. */
    method ApplyGlobal(u: NodeId, v: NodeId)
      requires Valid()
      modifies this`registry, this`eg, mem, mem.repr
      ensures Valid() && fresh(mem.repr - old(mem.repr))
      ensures eg == old(eg) + {(u, v)} && GlobalApplied(old(State()), State(), u, v)
    {
      ghost var t := State();
      ScopesLayered(t, eg, es);
      MergeGlobal(u, v);
      ghost var t' := State();
      GlobalAppliedInv(t, t', eg, es, u, v);
      eg := eg + {(u, v)};
      assert State() == t';
    }

    /** Link one scope's overlay across a scoped edge whose shared roots are known. */
    method LinkScope(scope: ScopeId, u: NodeId, v: NodeId, ru: NodeId, rv: NodeId)
      requires mem.Valid() && Over(BaseShared(runs), mem.shared) && Resolved(State(), u, v, ru, rv)
      requires Layered(runs, mem.scoped)
      modifies this`registry, mem`overlays, mem`scoped, mem`repr, mem.repr
      ensures mem.Valid() && fresh(mem.repr - old(mem.repr))
      ensures ScopedApplied(old(State()), State(), u, v, scope)
    {
      ghost var t := State();
      mem.Forests();
      assert LayeredScope(runs, mem.scoped, scope);
      registry := WithScope(WithScope(registry, ru, scope), rv, scope);
      JoinOverlay(scope, ru, rv, true);
      ScopedEffect(t, State(), u, v, scope);
    }

    /** One scope of a scoped edge, `seen` being the scoped edges applied before it. */
    method ApplyToScope(scope: ScopeId, u: NodeId, v: NodeId, ru: NodeId, rv: NodeId, ghost seen: ScopeEdges)
      requires mem.Valid() && TierInv(State(), eg, seen) && Resolved(State(), u, v, ru, rv)
      modifies this`registry, mem`overlays, mem`scoped, mem`repr, mem.repr
      ensures mem.Valid() && fresh(mem.repr - old(mem.repr))
      ensures TierInv(State(), eg, WithEdge(seen, scope, (u, v))) && Resolved(State(), u, v, ru, rv)
      ensures Takes(old(State()), State(), u, v, scope)
    {
      ghost var t := State();
      ScopesLayered(t, eg, seen);
      LinkScope(scope, u, v, ru, rv);
      ScopedAppliedInv(t, State(), eg, seen, u, v, scope);
    }

    /** The scopes in `done` have the edge already. */
    ghost predicate Partway(t0: Tier, u: NodeId, v: NodeId, done: seq<ScopeId>, ru: NodeId, rv: NodeId, a: Aspect)
      reads this, mem, mem.repr
    {
      match a
      case TheTables => mem.Valid()
      case TheAnswers => TierInv(State(), eg, WithEdges(es, done, (u, v))) && Resolved(State(), u, v, ru, rv)
      case TheSteps => AllTake(t0, State(), u, v, done)
    }

    method ApplyToScopes(scopes: seq<ScopeId>, u: NodeId, v: NodeId, ru: NodeId, rv: NodeId, ghost t0: Tier)
      requires forall a :: Partway(t0, u, v, [], ru, rv, a)
      modifies this`registry, mem`overlays, mem`scoped, mem`repr, mem.repr
      ensures fresh(mem.repr - old(mem.repr))
      ensures forall a :: Partway(t0, u, v, scopes, ru, rv, a)
    {
      for i := 0 to |scopes|
        invariant fresh(mem.repr - old(mem.repr))
        invariant forall a :: Partway(t0, u, v, scopes[..i], ru, rv, a)
      {
        NextScope(scopes, i, i + 1, u, v, ru, rv, t0);
      }
      assert scopes[..|scopes|] == scopes;
    }

    method NextScope(scopes: seq<ScopeId>, i: nat, next: nat, u: NodeId, v: NodeId, ru: NodeId, rv: NodeId,
                     ghost t0: Tier)
      requires i < |scopes| && next == i + 1 && forall a :: Partway(t0, u, v, scopes[..i], ru, rv, a)
      modifies this`registry, mem`overlays, mem`scoped, mem`repr, mem.repr
      ensures fresh(mem.repr - old(mem.repr))
      ensures forall a :: Partway(t0, u, v, scopes[..next], ru, rv, a)
    {
      ghost var t, done := State(), scopes[..i];
      assert Partway(t0, u, v, done, ru, rv, TheTables) && Partway(t0, u, v, done, ru, rv, TheAnswers);
      assert Partway(t0, u, v, done, ru, rv, TheSteps);
      WithEdgesStep(es, scopes, i, (u, v));
      ApplyToScope(scopes[i], u, v, ru, rv, WithEdges(es, done, (u, v)));
      NextTakes(t0, t, State(), u, v, scopes, i);
    }

    /** An edge only the listed scopes see. */
    method ApplyScoped(u: NodeId, v: NodeId, scopes: seq<ScopeId>)
      requires Valid()
      modifies this`registry, this`es, mem, mem.repr
      ensures Valid() && fresh(mem.repr - old(mem.repr))
      ensures es == WithEdges(old(es), scopes, (u, v)) && AllTake(old(State()), State(), u, v, scopes)
    {
      ghost var t := State();
      var ru, rv := ScopedEndpointRoots(u, v);
      ApplyToScopes(scopes, u, v, ru, rv, t);
      assert Partway(t, u, v, scopes, ru, rv, TheTables) && Partway(t, u, v, scopes, ru, rv, TheAnswers);
      assert Partway(t, u, v, scopes, ru, rv, TheSteps);
      ghost var t' := State();
      es := WithEdges(es, scopes, (u, v));
      assert State() == t';
    }

    // --- generations ---------------------------------------------------------------

    /**
     Adopt a run that holds what this forest streamed - the memtable's own pairs,
     or with `full` the whole composed state - and start an empty memtable.
     */
    method AdoptFold(run: Run, full: bool)
      requires Valid() && FoldsTo(State(), run, full)
      modifies this`runs, this`mem, this`registry
      ensures Valid() && fresh(mem) && fresh(mem.repr) && mem.memberIndex == old(mem.memberIndex)
      ensures State() == Folded(old(State()), run, full)
    {
      FoldInv(State(), run, full, eg, es);
      runs := if full then [run] else runs + [run];
      mem := new Memtable(mem.memberIndex);
      registry := map[];
    }

    /** Install runs that resolve as the current ones do, keeping the memtable. */
    method SwapBase(next: seq<Run>)
      requires Valid() && Equivalent(runs, next)
      modifies this`runs
      ensures Valid() && State() == old(State()).(runs := next)
    {
      SwapInv(State(), next, eg, es);
      runs := next;
    }

    method ScopedEndpointRoots(u: NodeId, v: NodeId) returns (ru: NodeId, rv: NodeId)
      requires Valid()
      modifies mem`shared, mem.repr`parents
      ensures Valid() && Resolved(State(), u, v, ru, rv) && AllTake(old(State()), State(), u, v, [])
    {
      ghost var t := State();
      mem.Forests();
      ru := SharedRoot(u, true);
      ghost var t1 := State();
      CompressedShared(t, t1);
      CompressedInv(t, t1, eg, es);
      mem.Forests();
      rv := SharedRoot(v, true);
      CompressedShared(t1, State());
      CompressedInv(t1, State(), eg, es);
      CompressedTransitive(t, t1, State());
      RootsSurvive(t, t1, State(), u, v);
    }
  }

  ghost predicate Resolved(t: Tier, u: NodeId, v: NodeId, ru: NodeId, rv: NodeId) {
    Descending(Shared(t)) && ru == Root(Shared(t), u) && rv == Root(Shared(t), v)
  }

  lemma WithEdgesStep(es: ScopeEdges, scopes: seq<ScopeId>, i: nat, e: Edge)
    requires i < |scopes|
    ensures WithEdges(es, scopes[..i + 1], e) == WithEdge(WithEdges(es, scopes[..i], e), scopes[i], e)
  {
    assert scopes[..i + 1][..i] == scopes[..i];
  }

  lemma RootsSurvive(t: Tier, t1: Tier, t2: Tier, u: NodeId, v: NodeId)
    requires Over(BaseShared(t.runs), t.shared) && t1.runs == t.runs && t2.runs == t.runs
    requires Same(t.shared, t1.shared) && Same(t1.shared, t2.shared)
    ensures Descending(Shared(t)) && Descending(Shared(t1)) && Descending(Shared(t2))
    ensures Root(Shared(t), u) == Root(Shared(t2), u) && Root(Shared(t1), v) == Root(Shared(t2), v)
  {
    SameUnderLower(BaseShared(t.runs), t.shared, t1.shared);
    SameUnderLower(BaseShared(t.runs), t1.shared, t2.shared);
    assert Agree(Shared(t), Shared(t1), u) && Agree(Shared(t1), Shared(t2), u) && Agree(Shared(t1), Shared(t2), v);
  }

  ghost function WithEdges(es: ScopeEdges, scopes: seq<ScopeId>, e: Edge): ScopeEdges {
    if scopes == [] then es
    else WithEdge(WithEdges(es, scopes[..|scopes| - 1], e), scopes[|scopes| - 1], e)
  }

  function WithScope(registry: map<NodeId, set<ScopeId>>, root: NodeId, scope: ScopeId): (r: map<NodeId, set<ScopeId>>)
    ensures forall x, s :: InMemory(r, x, s) <==> InMemory(registry, x, s) || (x == root && s == scope)
  {
    registry[root := (if root in registry then registry[root] else {}) + {scope}]
  }

  lemma SameItself(p: Parents)
    requires Descending(p)
    ensures Same(p, p)
  {
  }

  /** The memtable's answer if it moved the node, otherwise its answer for the base's. */
  lemma TwoSteps(base: Parents, mem: Parents, x: NodeId)
    requires Over(base, mem)
    ensures Descending(base + mem)
    ensures Root(base + mem, x)
         == if Root(mem, x) != x then Root(mem, x) else if x in base then Root(mem, Root(base, x)) else x
  {
    Compose(base, mem, x);
  }

  lemma ScopedRegisters(t: Tier, t': Tier, a: NodeId, b: NodeId, scope: ScopeId)
    requires t'.runs == t.runs && t'.registry == WithScope(WithScope(t.registry, a, scope), b, scope)
    ensures forall r, s | Registered(t, r, s) :: Registered(t', r, s)
    ensures Registered(t', a, scope) && Registered(t', b, scope)
  {
  }

  lemma ScopedEffect(t: Tier, t': Tier, u: NodeId, v: NodeId, scope: ScopeId)
    requires Descending(Shared(t)) && Over(BaseShared(t.runs), t.shared)
    requires forall s :: Descending(OverlayOf(t.overlays, s))
    requires t' == t.(overlays := t'.overlays,
      registry := WithScope(WithScope(t.registry, Root(Shared(t), u), scope), Root(Shared(t), v), scope))
    requires forall s | s != scope :: OverlayOf(t'.overlays, s) == OverlayOf(t.overlays, s)
    requires Over(BaseOverlay(t'.runs, scope), OverlayOf(t'.overlays, scope))
    requires Joined(Overlay(t, scope), Overlay(t', scope), Root(Shared(t), u), Root(Shared(t), v))
    ensures ScopedApplied(t, t', u, v, scope)
  {
    ScopedRegisters(t, t', Root(Shared(t), u), Root(Shared(t), v), scope);
  }

  /** The registry once `child` is absorbed: its scopes are `parent`'s now. */
  function Reregister(registry: map<NodeId, set<ScopeId>>, scopes: set<ScopeId>, child: NodeId, parent: NodeId)
    : (r: map<NodeId, set<ScopeId>>)
    ensures forall x | x in registry && x != child :: x in r && registry[x] <= r[x]
    ensures scopes != {} ==> parent in r && scopes <= r[parent]
  {
    var kept := registry - {child};
    if scopes == {} then kept
    else kept[parent := (if parent in kept then kept[parent] else {}) + scopes]
  }

  /** Every overlay of the memtable sits over the runs' tables for its scope. */
  ghost predicate Layered(runs: seq<Run>, o: Overlays) {
    forall s :: LayeredScope(runs, o, s)
  }

  ghost predicate LayeredScope(runs: seq<Run>, o: Overlays, s: ScopeId) {
    Stacked(OverlayTables(runs, s)) && Over(BaseOverlay(runs, s), OverlayOf(o, s))
  }

  /** What a round of fix-ups did to one scope's overlay. */
  ghost predicate FixedScope(runs: seq<Run>, o: Overlays, o': Overlays, scopes: set<ScopeId>,
                             child: NodeId, parent: NodeId, s: ScopeId) {
    if s in scopes
    then Over(BaseOverlay(runs, s), OverlayOf(o', s))
         && Joined(BaseOverlay(runs, s) + OverlayOf(o, s), BaseOverlay(runs, s) + OverlayOf(o', s), child, parent)
    else OverlayOf(o', s) == OverlayOf(o, s)
  }

  ghost predicate Fixed(runs: seq<Run>, o: Overlays, o': Overlays, scopes: set<ScopeId>,
                        child: NodeId, parent: NodeId) {
    forall s :: FixedScope(runs, o, o', scopes, child, parent, s)
  }

  lemma FixedLayers(runs: seq<Run>, o: Overlays, o': Overlays, done: set<ScopeId>,
                    child: NodeId, parent: NodeId, s: ScopeId)
    requires Layered(runs, o) && Fixed(runs, o, o', done, child, parent)
    ensures LayeredScope(runs, o', s)
  {
    assert LayeredScope(runs, o, s) && FixedScope(runs, o, o', done, child, parent, s);
  }

  lemma FixedStep(runs: seq<Run>, o: Overlays, o': Overlays, o'': Overlays, done: set<ScopeId>,
                  scope: ScopeId, child: NodeId, parent: NodeId)
    requires Fixed(runs, o, o', done, child, parent) && scope !in done
    requires forall s | s != scope :: OverlayOf(o'', s) == OverlayOf(o', s)
    requires Over(BaseOverlay(runs, scope), OverlayOf(o'', scope))
    requires Joined(BaseOverlay(runs, scope) + OverlayOf(o', scope),
                    BaseOverlay(runs, scope) + OverlayOf(o'', scope), child, parent)
    ensures Fixed(runs, o, o'', done + {scope}, child, parent)
  {
    forall s ensures FixedScope(runs, o, o'', done + {scope}, child, parent, s) {
      assert FixedScope(runs, o, o', done, child, parent, s);
    }
  }

  lemma ScopesLayered(t: Tier, eg: set<Edge>, es: ScopeEdges)
    requires TierInv(t, eg, es)
    ensures Layered(t.runs, t.overlays)
  {
    forall s ensures LayeredScope(t.runs, t.overlays, s) {
      assert BaseScopeInv(t.runs, s) && ScopeInv(t, s, eg, EdgesOf(es, s));
    }
  }

  /** Fixing exactly the registered scopes, and registering them anew, notifies everyone. */
  lemma Notifies(t: Tier, t': Tier, scopes: set<ScopeId>, child: NodeId, parent: NodeId)
    requires forall s :: s in scopes <==> Registered(t, child, s)
    requires t'.runs == t.runs && t'.registry == Reregister(t.registry, scopes, child, parent)
    requires Layered(t.runs, t.overlays) && Fixed(t.runs, t.overlays, t'.overlays, scopes, child, parent)
    ensures Notified(t, t', child, parent)
  {
    forall s ensures ScopeNotified(t, t', child, parent, s) {
      assert FixedScope(t.runs, t.overlays, t'.overlays, scopes, child, parent, s);
      assert LayeredScope(t.runs, t.overlays, s);
      DescendingUnion(BaseOverlay(t.runs, s), OverlayOf(t.overlays, s));
    }
  }

  lemma CompressedShared(t: Tier, t': Tier)
    requires t' == t.(shared := t'.shared) && Same(t.shared, t'.shared)
    requires forall s :: Descending(OverlayOf(t.overlays, s))
    ensures Compressed(t, t')
  {
  }

  lemma CompressedOverlay(t: Tier, t': Tier, scope: ScopeId)
    requires t' == t.(overlays := t'.overlays) && Descending(t.shared)
    requires Same(OverlayOf(t.overlays, scope), OverlayOf(t'.overlays, scope))
    requires forall s | s != scope :: OverlayOf(t'.overlays, s) == OverlayOf(t.overlays, s)
    requires forall s :: Descending(OverlayOf(t.overlays, s))
    ensures Compressed(t, t')
  {
  }

  /** Two compressing finds and a union of what they returned join `x` and `y`. */
  lemma ComposedJoin(base: Parents, m0: Parents, m1: Parents, m2: Parents, m3: Parents, x: NodeId, y: NodeId)
    requires Over(base, m0) && Same(m0, m1) && Same(m1, m2)
    requires Descending(base + m0) && Descending(base + m1)
    requires var a, b := Root(base + m0, x), Root(base + m1, y);
             Joined(m2, m3, a, b) || (a == b && m3 == m2)
    ensures Over(base, m3) && Joined(base + m0, base + m3, x, y)
  {
    var a, b := Root(base + m0, x), Root(base + m1, y);
    SameTransitive(m0, m1, m2);
    SameUnderLower(base, m0, m1);
    SameUnderLower(base, m0, m2);
    assert Agree(base + m0, base + m1, y);
    if Joined(m2, m3, a, b) {
      JoinedUnderLower(base, m2, m3, a, b);
      JoinedAfterSame(base + m0, base + m2, base + m3, a, b);
    }
    JoinedRoots(base + m0, base + m3, x, y);
  }
}

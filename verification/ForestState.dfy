/**
 One generation of forest state as a value: a stack of committed runs, and the
 memtable of everything applied since. The module states what every generation
 keeps, and proves that applying an edge, folding the memtable out as a delta,
 compacting everything into one run, and swapping in an equivalent base all keep
 it. Queries are answered from the composition, so none of the folds can be seen.
 */
module ForestState {
  import opened Types
  import opened Graph
  import opened ParentForest
  import opened Layers
  import opened ScopedView

  type Overlays = map<ScopeId, Parents>
  type ScopeEdges = map<ScopeId, set<Edge>>

  /** One immutable run: resolved tables, and `shared root -> scope` entries. */
  datatype Run = Run(shared: Parents, overlays: Overlays, registry: set<(NodeId, ScopeId)>)

  /** Runs oldest first (none in RAM mode), and the memtable over them. */
  datatype Tier = Tier(
    runs: seq<Run>,
    shared: Parents,
    overlays: Overlays,
    registry: map<NodeId, set<ScopeId>>)

  function OverlayOf(overlays: Overlays, scope: ScopeId): Parents {
    if scope in overlays then overlays[scope] else map[]
  }

  function EdgesOf(es: ScopeEdges, scope: ScopeId): set<Edge> {
    if scope in es then es[scope] else {}
  }

  function SharedTables(runs: seq<Run>): Tables {
    seq(|runs|, i requires 0 <= i < |runs| => runs[i].shared)
  }

  function OverlayTables(runs: seq<Run>, scope: ScopeId): Tables {
    seq(|runs|, i requires 0 <= i < |runs| => OverlayOf(runs[i].overlays, scope))
  }

  ghost function BaseShared(runs: seq<Run>): Parents {
    Flat(SharedTables(runs))
  }

  ghost function BaseOverlay(runs: seq<Run>, scope: ScopeId): Parents {
    Flat(OverlayTables(runs, scope))
  }

  ghost function Shared(t: Tier): Parents {
    BaseShared(t.runs) + t.shared
  }

  ghost function Overlay(t: Tier, scope: ScopeId): Parents {
    BaseOverlay(t.runs, scope) + OverlayOf(t.overlays, scope)
  }

  // --- the registry ---------------------------------------------------------

  /** Some run's registry says `scope` keyed overlay state on `root`. */
  ghost predicate Recorded(runs: seq<Run>, root: NodeId, scope: ScopeId) {
    exists i | 0 <= i < |runs| :: (root, scope) in runs[i].registry
  }

  ghost predicate InMemory(registry: map<NodeId, set<ScopeId>>, root: NodeId, scope: ScopeId) {
    root in registry && scope in registry[root]
  }

  ghost predicate Registered(t: Tier, root: NodeId, scope: ScopeId) {
    InMemory(t.registry, root, scope) || Recorded(t.runs, root, scope)
  }

  ghost function RecordedRoots(runs: seq<Run>, scope: ScopeId): iset<NodeId> {
    iset r | Recorded(runs, r, scope)
  }

  ghost function RegisteredRoots(t: Tier, scope: ScopeId): iset<NodeId> {
    iset r | Registered(t, r, scope)
  }

  // --- invariants -------------------------------------------------------------

  /** A registry root of run `i` had no parent in run `i` or any older one. */
  ghost predicate RootsLive(runs: seq<Run>) {
    forall i, j {:trigger LiveIn(runs[i], runs[j])} | 0 <= j <= i < |runs| :: LiveIn(runs[i], runs[j])
  }

  ghost predicate LiveIn(run: Run, older: Run) {
    forall e | e in run.registry :: e.0 !in older.shared
  }

  /** `scope`'s tables are layered, and every live element of them is recorded. */
  ghost predicate BaseScopeInv(runs: seq<Run>, scope: ScopeId) {
    && Stacked(OverlayTables(runs, scope))
    && Descending(BaseOverlay(runs, scope))
    && Notifiable(BaseShared(runs), BaseOverlay(runs, scope), RecordedRoots(runs, scope))
  }

  ghost predicate BaseInv(runs: seq<Run>) {
    && Stacked(SharedTables(runs))
    && Descending(BaseShared(runs))
    && RootsLive(runs)
    && forall s :: BaseScopeInv(runs, s)
  }

  ghost predicate ScopeInv(t: Tier, scope: ScopeId, eg: set<Edge>, es: set<Edge>) {
    && Over(BaseOverlay(t.runs, scope), OverlayOf(t.overlays, scope))
    && OverlayInv(Shared(t), Overlay(t, scope), eg, es)
    && Notifiable(Shared(t), Overlay(t, scope), RegisteredRoots(t, scope))
  }

  /** Everything a generation keeps, for the edges applied so far. */
  ghost predicate TierInv(t: Tier, eg: set<Edge>, es: ScopeEdges) {
    && BaseInv(t.runs)
    && Over(BaseShared(t.runs), t.shared)
    && SharedInv(Shared(t), eg)
    && forall s :: ScopeInv(t, s, eg, EdgesOf(es, s))
  }

  /** The answer to a query: the global view stops at the shared root. */
  ghost function ScopeRoot(t: Tier, scope: ScopeId, x: NodeId): NodeId
    requires Descending(Shared(t)) && Descending(Overlay(t, scope))
  {
    if scope == GLOBAL_SCOPE then Root(Shared(t), x) else ViewRoot(Shared(t), Overlay(t, scope), x)
  }

  /** The edges `scope` sees. */
  ghost function Visible(eg: set<Edge>, es: ScopeEdges, scope: ScopeId): set<Edge> {
    if scope == GLOBAL_SCOPE then eg else eg + EdgesOf(es, scope)
  }

  /** Every generation answers every query with the component's lowest id. */
  lemma ScopeRootIsMin(t: Tier, eg: set<Edge>, es: ScopeEdges, scope: ScopeId, x: NodeId)
    requires TierInv(t, eg, es)
    ensures Descending(Shared(t)) && Descending(Overlay(t, scope))
    ensures IsComponentMin(Visible(eg, es, scope), x, ScopeRoot(t, scope, x))
  {
    assert ScopeInv(t, scope, eg, EdgesOf(es, scope));
    if scope == GLOBAL_SCOPE {
      SharedRootIsMin(Shared(t), eg, x);
    } else {
      ViewRootIsMin(Shared(t), Overlay(t, scope), eg, EdgesOf(es, scope), x);
    }
  }

  // --- the empty generation ---------------------------------------------------

  const EMPTY := Tier([], map[], map[], map[])

  /** Runs under an empty memtable. */
  function OnlyRuns(runs: seq<Run>): Tier {
    Tier(runs, map[], map[], map[])
  }

  lemma EmptyInv()
    ensures TierInv(EMPTY, {}, map[])
  {
    forall s ensures BaseScopeInv([], s) && ScopeInv(EMPTY, s, {}, EdgesOf(map[], s)) {
      assert OverlayTables([], s) == [];
      assert Overlay(EMPTY, s) == map[];
    }
    assert Shared(EMPTY) == map[];
  }

  // --- compression --------------------------------------------------------------

  /** Only path compression happened between `t` and `t'`. */
  ghost predicate Compressed(t: Tier, t': Tier) {
    && t'.runs == t.runs && t'.registry == t.registry
    && Same(t.shared, t'.shared)
    && forall s :: Same(OverlayOf(t.overlays, s), OverlayOf(t'.overlays, s))
  }

  ghost predicate QuietAs(t: Tier, t': Tier, x: Unfold) {
    Compressed(t, t')
  }

  /** Nothing happened but path compression. */
  ghost predicate Quiet(t: Tier, t': Tier) {
    forall x :: QuietAs(t, t', x)
  }

  lemma CompressedTransitive(t: Tier, t': Tier, t'': Tier)
    requires Compressed(t, t') && Compressed(t', t'')
    ensures Compressed(t, t'')
  {
    SameTransitive(t.shared, t'.shared, t''.shared);
    forall s ensures Same(OverlayOf(t.overlays, s), OverlayOf(t''.overlays, s)) {
      SameTransitive(OverlayOf(t.overlays, s), OverlayOf(t'.overlays, s), OverlayOf(t''.overlays, s));
    }
  }

  lemma CompressedMaps(t: Tier, t': Tier, scope: ScopeId)
    requires Compressed(t, t') && Over(BaseShared(t.runs), t.shared)
    requires Over(BaseOverlay(t.runs, scope), OverlayOf(t.overlays, scope))
    ensures Over(BaseShared(t'.runs), t'.shared)
    ensures Over(BaseOverlay(t'.runs, scope), OverlayOf(t'.overlays, scope))
    ensures Same(Shared(t), Shared(t')) && Same(Overlay(t, scope), Overlay(t', scope))
  {
    SameUnderLower(BaseShared(t.runs), t.shared, t'.shared);
    SameUnderLower(BaseOverlay(t.runs, scope), OverlayOf(t.overlays, scope), OverlayOf(t'.overlays, scope));
  }

  lemma CompressedInv(t: Tier, t': Tier, eg: set<Edge>, es: ScopeEdges)
    requires TierInv(t, eg, es) && Compressed(t, t')
    ensures TierInv(t', eg, es)
  {
    forall s ensures ScopeInv(t', s, eg, EdgesOf(es, s)) {
      assert ScopeInv(t, s, eg, EdgesOf(es, s));
      CompressedMaps(t, t', s);
      OverlayInvSame(Shared(t), Shared(t'), Overlay(t, s), Overlay(t', s), eg, EdgesOf(es, s));
      assert RegisteredRoots(t, s) == RegisteredRoots(t', s);
      NotifiableSame(Shared(t), Shared(t'), Overlay(t, s), Overlay(t', s), RegisteredRoots(t, s));
    }
    SameUnderLower(BaseShared(t.runs), t.shared, t'.shared);
    SharedInvSame(Shared(t), Shared(t'), eg);
  }

  // --- applying a global edge ---------------------------------------------------

  /**
   The effect of `apply_global(u, v)`: the shared classes are joined, and every
   scope registered on the absorbed root joins that root with the surviving one.
   */
  ghost predicate GlobalApplied(t: Tier, t': Tier, u: NodeId, v: NodeId) {
    && t'.runs == t.runs
    && Descending(Shared(t)) && Over(BaseShared(t'.runs), t'.shared)
    && Joined(Shared(t), Shared(t'), u, v)
    && var ru, rv := Root(Shared(t), u), Root(Shared(t), v);
       if ru == rv then Compressed(t, t')
       else Notified(t, t', Max(ru, rv), Min(ru, rv))
  }

  ghost predicate Notified(t: Tier, t': Tier, child: NodeId, parent: NodeId) {
    && (forall s :: ScopeNotified(t, t', child, parent, s))
    && (forall r, s | r != child && Registered(t, r, s) :: Registered(t', r, s))
  }

  ghost predicate ScopeNotified(t: Tier, t': Tier, child: NodeId, parent: NodeId, s: ScopeId) {
    && Over(BaseOverlay(t'.runs, s), OverlayOf(t'.overlays, s))
    && if Registered(t, child, s)
       then Registered(t', parent, s) && Joined(Overlay(t, s), Overlay(t', s), child, parent)
       else Same(Overlay(t, s), Overlay(t', s))
  }

  lemma GlobalScope(t: Tier, t': Tier, eg: set<Edge>, es: ScopeEdges, u: NodeId, v: NodeId, s: ScopeId)
    requires TierInv(t, eg, es) && GlobalApplied(t, t', u, v)
    requires Root(Shared(t), u) != Root(Shared(t), v)
    ensures ScopeInv(t', s, eg + {(u, v)}, EdgesOf(es, s))
  {
    var g, g', o, o' := Shared(t), Shared(t'), Overlay(t, s), Overlay(t', s);
    var child, parent := Max(Root(g, u), Root(g, v)), Min(Root(g, u), Root(g, v));
    var eg' := eg + {(u, v)};
    assert ScopeInv(t, s, eg, EdgesOf(es, s)) && ScopeNotified(t, t', child, parent, s);
    SharedJoin(g, g', eg, u, v);
    assert RegisteredRoots(t, s) - iset{child} <= RegisteredRoots(t', s);
    if Registered(t, child, s) {
      OverlayFixup(g, g', o, o', eg, eg', EdgesOf(es, s), child, parent);
      NotifiableAfterFixup(g, g', o, o', RegisteredRoots(t, s), RegisteredRoots(t', s), child, parent);
    } else {
      assert child !in RegisteredRoots(t, s);
      OverlayUntouched(g, g', o, eg, eg', EdgesOf(es, s), child, parent);
      NotifiableUntouched(g, g', o, RegisteredRoots(t, s), RegisteredRoots(t', s), child, parent);
      OverlayInvSame(g', g', o, o', eg', EdgesOf(es, s));
      NotifiableSame(g', g', o, o', RegisteredRoots(t', s));
    }
  }

  /** A global edge keeps the invariant, for every scope at once. */
  lemma GlobalAppliedInv(t: Tier, t': Tier, eg: set<Edge>, es: ScopeEdges, u: NodeId, v: NodeId)
    requires TierInv(t, eg, es) && GlobalApplied(t, t', u, v)
    ensures TierInv(t', eg + {(u, v)}, es)
  {
    SharedJoin(Shared(t), Shared(t'), eg, u, v);
    forall s ensures ScopeInv(t', s, eg + {(u, v)}, EdgesOf(es, s)) {
      if Root(Shared(t), u) == Root(Shared(t), v) {
        CompressedInv(t, t', eg, es);
        assert ScopeInv(t', s, eg, EdgesOf(es, s));
        OverlayMoreEdges(Shared(t'), Overlay(t', s), eg, EdgesOf(es, s), eg + {(u, v)});
      } else {
        GlobalScope(t, t', eg, es, u, v, s);
      }
    }
  }

  // --- applying a scoped edge ---------------------------------------------------

  function WithEdge(es: ScopeEdges, scope: ScopeId, e: Edge): ScopeEdges {
    es[scope := EdgesOf(es, scope) + {e}]
  }

  /** The effect of `apply_scoped(u, v)` on one listed scope. */
  ghost predicate ScopedApplied(t: Tier, t': Tier, u: NodeId, v: NodeId, scope: ScopeId) {
    && t'.runs == t.runs
    && Over(BaseShared(t.runs), t.shared) && Same(t.shared, t'.shared)
    && (forall s | s != scope :: Same(OverlayOf(t.overlays, s), OverlayOf(t'.overlays, s)))
    && Over(BaseOverlay(t'.runs, scope), OverlayOf(t'.overlays, scope))
    && Descending(Shared(t))
    && Joined(Overlay(t, scope), Overlay(t', scope), Root(Shared(t), u), Root(Shared(t), v))
    && (forall r, s | Registered(t, r, s) :: Registered(t', r, s))
    && Registered(t', Root(Shared(t), u), scope) && Registered(t', Root(Shared(t), v), scope)
  }

  /** One scope after another takes the edge. */
  ghost predicate AppliedToScopes(t: Tier, t': Tier, u: NodeId, v: NodeId, scopes: seq<ScopeId>)
    decreases |scopes|
  {
    if scopes == [] then Compressed(t, t')
    else
      var front, last := scopes[..|scopes| - 1], scopes[|scopes| - 1];
      exists m :: AppliedToScopes(t, m, u, v, front) && ScopedApplied(m, t', u, v, last)
  }

  ghost predicate TakesAs(t: Tier, t': Tier, u: NodeId, v: NodeId, scope: ScopeId, x: Unfold) {
    ScopedApplied(t, t', u, v, scope)
  }

  ghost predicate Takes(t: Tier, t': Tier, u: NodeId, v: NodeId, scope: ScopeId) {
    forall x :: TakesAs(t, t', u, v, scope, x)
  }

  ghost predicate AllTakeAs(t: Tier, t': Tier, u: NodeId, v: NodeId, scopes: seq<ScopeId>, x: Unfold) {
    AppliedToScopes(t, t', u, v, scopes)
  }

  ghost predicate AllTake(t: Tier, t': Tier, u: NodeId, v: NodeId, scopes: seq<ScopeId>) {
    forall x :: AllTakeAs(t, t', u, v, scopes, x)
  }

  lemma NextTakes(t: Tier, m: Tier, t': Tier, u: NodeId, v: NodeId, scopes: seq<ScopeId>, i: nat)
    requires i < |scopes| && AllTake(t, m, u, v, scopes[..i]) && Takes(m, t', u, v, scopes[i])
    ensures AllTake(t, t', u, v, scopes[..i + 1])
  {
    assert AllTakeAs(t, m, u, v, scopes[..i], Unfolded) && TakesAs(m, t', u, v, scopes[i], Unfolded);
    assert scopes[..i + 1][..i] == scopes[..i];
  }

  /** The scope that takes the edge. */
  lemma ScopeTakes(t: Tier, t': Tier, eg: set<Edge>, es: set<Edge>, u: NodeId, v: NodeId, s: ScopeId)
    requires ScopedApplied(t, t', u, v, s) && SharedInv(Shared(t), eg) && ScopeInv(t, s, eg, es)
    requires Same(Shared(t), Shared(t'))
    ensures ScopeInv(t', s, eg, es + {(u, v)})
  {
    var g, g', o, o' := Shared(t), Shared(t'), Overlay(t, s), Overlay(t', s);
    assert RegisteredRoots(t, s) <= RegisteredRoots(t', s);
    OverlayJoin(g, o, o', eg, es, u, v);
    NotifiableAfterJoin(g, o, o', RegisteredRoots(t, s), RegisteredRoots(t', s), u, v);
    OverlayInvSame(g, g', o', o', eg, es + {(u, v)});
    NotifiableSame(g, g', o', o', RegisteredRoots(t', s));
  }

  /** The others. */
  lemma ScopeStays(t: Tier, t': Tier, eg: set<Edge>, es: set<Edge>, u: NodeId, v: NodeId, scope: ScopeId, s: ScopeId)
    requires ScopedApplied(t, t', u, v, scope) && s != scope && ScopeInv(t, s, eg, es)
    requires Same(Shared(t), Shared(t'))
    ensures ScopeInv(t', s, eg, es)
  {
    var g, g', o, o' := Shared(t), Shared(t'), Overlay(t, s), Overlay(t', s);
    assert RegisteredRoots(t, s) <= RegisteredRoots(t', s);
    SameUnderLower(BaseOverlay(t.runs, s), OverlayOf(t.overlays, s), OverlayOf(t'.overlays, s));
    OverlayInvSame(g, g', o, o', eg, es);
    NotifiableSame(g, g', o, o', RegisteredRoots(t', s));
  }

  lemma ScopeAfter(t: Tier, t': Tier, eg: set<Edge>, es: ScopeEdges, u: NodeId, v: NodeId, scope: ScopeId, s: ScopeId)
    requires ScopedApplied(t, t', u, v, scope) && SharedInv(Shared(t), eg) && ScopeInv(t, s, eg, EdgesOf(es, s))
    requires Same(Shared(t), Shared(t'))
    ensures ScopeInv(t', s, eg, EdgesOf(WithEdge(es, scope, (u, v)), s))
  {
    if s == scope {
      ScopeTakes(t, t', eg, EdgesOf(es, s), u, v, s);
    } else {
      ScopeStays(t, t', eg, EdgesOf(es, s), u, v, scope, s);
    }
  }

  lemma ScopedAppliedInv(t: Tier, t': Tier, eg: set<Edge>, es: ScopeEdges, u: NodeId, v: NodeId, scope: ScopeId)
    requires TierInv(t, eg, es) && ScopedApplied(t, t', u, v, scope)
    ensures TierInv(t', eg, WithEdge(es, scope, (u, v)))
  {
    var g, g' := Shared(t), Shared(t');
    SameUnderLower(BaseShared(t.runs), t.shared, t'.shared);
    SharedInvSame(g, g', eg);
    forall s ensures ScopeInv(t', s, eg, EdgesOf(WithEdge(es, scope, (u, v)), s)) {
      assert ScopeInv(t, s, eg, EdgesOf(es, s));
      ScopeAfter(t, t', eg, es, u, v, scope, s);
    }
  }
}

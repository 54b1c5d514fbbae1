/**
 Startup in RAM mode: committed runs are loaded one after another, oldest first,
 into an empty memtable. Each run's overlay pairs are registered under the live
 roots of that moment; roots absorbed by a later run make those entries stale,
 and the proof is that every root still live at the end was registered anyway.
 */
module Hydration {
  import opened Types
  import opened Graph
  import opened ParentForest
  import opened Layers
  import opened ScopedView
  import opened ForestState
  import opened Folds
  import opened DisjointSets
  import opened Memtables
  import opened Forest

  type Pairs = seq<(NodeId, NodeId)>
  type Registry = map<NodeId, set<ScopeId>>

  /** A decoded snapshot: the shared pairs, and each scope's pairs. */
  datatype Snapshot = Snapshot(global: Pairs, scopes: seq<(ScopeId, Pairs)>)

  /** `pairs` lists `table`, each key once. */
  ghost predicate Lists(pairs: Pairs, table: Parents) {
    && Loadable(pairs, map[]) && PairMap(pairs) == table
    && forall i | 0 <= i < |pairs| :: pairs[i].0 in table && pairs[i].1 == table[pairs[i].0]
  }

  ghost predicate DescribesScope(snap: Snapshot, run: Run, i: nat)
    requires i < |snap.scopes|
  {
    && Lists(snap.scopes[i].1, OverlayOf(run.overlays, snap.scopes[i].0))
    && forall j | 0 <= j < i :: snap.scopes[j].0 != snap.scopes[i].0
  }

  ghost predicate Mentions(snap: Snapshot, s: ScopeId) {
    exists i | 0 <= i < |snap.scopes| :: snap.scopes[i].0 == s
  }

  ghost predicate Describes(snap: Snapshot, run: Run) {
    && Lists(snap.global, run.shared)
    && (forall i: nat | i < |snap.scopes| :: DescribesScope(snap, run, i))
    && (forall s | OverlayOf(run.overlays, s) != map[] :: Mentions(snap, s))
  }

  /** The memtable holds exactly what the runs hold, for one scope. */
  ghost predicate HoldsScope(runs: seq<Run>, t: Tier, s: ScopeId) {
    && Same(BaseOverlay(runs, s), OverlayOf(t.overlays, s))
    && Enrolled(BaseShared(runs), BaseOverlay(runs, s), t.registry, s)
  }

  /** Every live element of `o` is in the in-memory registry. */
  ghost predicate Enrolled(g: Parents, o: Parents, registry: Registry, s: ScopeId)
    requires Descending(o)
  {
    forall e | Element(o, e) && e !in g :: InMemory(registry, e, s)
  }

  ghost predicate HoldsRuns(runs: seq<Run>, t: Tier) {
    && t.runs == []
    && Same(BaseShared(runs), t.shared)
    && forall s :: HoldsScope(runs, t, s)
  }

  ghost function InHeap(m: Memtable, registry: Registry): Tier
    reads m
  {
    Tier([], m.shared, m.scoped, registry)
  }

  /** Holding everything the runs hold, in heap, is as good as the runs themselves. */
  lemma HydratedInv(runs: seq<Run>, t: Tier, eg: set<Edge>, es: ScopeEdges)
    requires TierInv(Tier(runs, map[], map[], map[]), eg, es) && HoldsRuns(runs, t)
    ensures TierInv(t, eg, es)
  {
    var base := Tier(runs, map[], map[], map[]);
    EmptyMem(BaseShared(runs));
    NoRuns(t);
    EmptyInv();
    SharedInvSame(Shared(base), Shared(t), eg);
    forall s ensures ScopeInv(t, s, eg, EdgesOf(es, s)) {
      assert ScopeInv(base, s, eg, EdgesOf(es, s)) && HoldsScope(runs, t, s);
      EmptyMem(BaseOverlay(runs, s));
      NoRunsOverlay(t, s);
      OverlayInvSame(Shared(base), Shared(t), Overlay(base, s), Overlay(t, s), eg, EdgesOf(es, s));
      forall e | Element(Overlay(t, s), e) && e !in Shared(t) ensures e in RegisteredRoots(t, s) {
        SameElement(Overlay(base, s), Overlay(t, s), e);
      }
    }
  }

  lemma NoRuns(t: Tier)
    requires t.runs == []
    ensures Shared(t) == t.shared
  {
  }

  lemma NoRunsOverlay(t: Tier, s: ScopeId)
    requires t.runs == []
    ensures BaseOverlay(t.runs, s) == map[] && Overlay(t, s) == OverlayOf(t.overlays, s)
  {
    assert OverlayTables(t.runs, s) == [];
  }

  // --- one more run ---------------------------------------------------------------

  lemma PushedTables(runs: seq<Run>, run: Run, s: ScopeId)
    ensures SharedTables(runs + [run]) == SharedTables(runs) + [run.shared]
    ensures OverlayTables(runs + [run], s) == OverlayTables(runs, s) + [OverlayOf(run.overlays, s)]
  {
  }

  /** Loading one more table over an equal forest yields the taller stack's forest. */
  lemma LoadTable(ts: Tables, table: Parents, held: Parents)
    requires Stacked(ts + [table]) && Stacked(ts) && Same(Flat(ts), held)
    ensures Same(Flat(ts + [table]), held + table)
    ensures forall k | k in table :: k !in held && table[k] < k
  {
    PushFlat(ts, table);
    var all := ts + [table];
    assert all[|ts|] == table && DepthOne(all[|ts|]);
    forall k | k in table ensures k !in Flat(ts) {
      forall j | 0 <= j < |ts| ensures k !in ts[j] {
        assert Above(all[j], all[|ts|]);
      }
      FlatLacks(ts, k);
    }
    SameExtended(Flat(ts), held, table);
  }

  /** An element of the taller stack was one before, or is an end of a new pair. */
  lemma LoadedElement(o: Parents, table: Parents, e: NodeId)
    requires Descending(o) && Descending(o + table) && table.Keys !! o.Keys && DepthOne(table)
    requires Element(o + table, e) && !Element(o, e)
    ensures exists k | k in table :: e == k || e == table[k]
  {
    var both := o + table;
    if e !in both {
      var k :| k in both && Root(both, k) == e;
      var x := RootIsStored(both, k);
      assert x in o ==> Root(o, x) == e;
    }
  }

  // --- the loading loops -------------------------------------------------------------

  ghost predicate Grown(registry: Registry, more: Registry) {
    forall r, s | InMemory(registry, r, s) :: InMemory(more, r, s)
  }

  /** Register `scope` under the live root of `node`. */
  method EnrollNode(m: Memtable, registry: Registry, scope: ScopeId, node: NodeId) returns (out: Registry)
    requires m.Valid()
    modifies m`shared, m.repr`parents
    ensures m.Valid() && Same(old(m.shared), m.shared)
    ensures Grown(registry, out)
    ensures node !in old(m.shared) ==> InMemory(out, node, scope)
  {
    var live := m.FindShared(node, true);
    out := WithScope(registry, live, scope);
  }

  ghost predicate PairEnrolled(g: Parents, registry: Registry, scope: ScopeId, pair: (NodeId, NodeId)) {
    && (pair.0 !in g ==> InMemory(registry, pair.0, scope))
    && (pair.1 !in g ==> InMemory(registry, pair.1, scope))
  }

  /** Register `scope` under the live root of both ends of every pair. */
  method EnrollPairs(m: Memtable, registry: Registry, scope: ScopeId, pairs: Pairs) returns (out: Registry)
    requires m.Valid()
    modifies m`shared, m.repr`parents
    ensures m.Valid() && Same(old(m.shared), m.shared)
    ensures Grown(registry, out)
    ensures forall i | 0 <= i < |pairs| :: PairEnrolled(old(m.shared), out, scope, pairs[i])
  {
    m.Forests();
    ghost var g := m.shared;
    out := registry;
    for i := 0 to |pairs|
      invariant m.Valid() && Same(g, m.shared)
      invariant Grown(registry, out)
      invariant forall j | 0 <= j < i :: PairEnrolled(g, out, scope, pairs[j])
    {
      ghost var m0 := m.shared;
      out := EnrollNode(m, out, scope, pairs[i].0);
      ghost var m1 := m.shared;
      out := EnrollNode(m, out, scope, pairs[i].1);
      SameTransitive(m0, m1, m.shared);
      SameTransitive(g, m0, m.shared);
    }
  }

  /** What loading `run` needs of one scope, and what it leaves. */
  lemma LoadedScope(runs: seq<Run>, run: Run, t: Tier, t': Tier, s: ScopeId, pairs: Pairs)
    requires HoldsScope(runs, t, s) && Lists(pairs, OverlayOf(run.overlays, s))
    requires Stacked(OverlayTables(runs, s)) && Stacked(OverlayTables(runs + [run], s))
    requires BaseShared(runs).Keys <= BaseShared(runs + [run]).Keys
    requires OverlayOf(t'.overlays, s) == OverlayOf(t.overlays, s) + OverlayOf(run.overlays, s)
    requires Grown(t.registry, t'.registry)
    requires forall i | 0 <= i < |pairs| :: PairEnrolled(BaseShared(runs + [run]), t'.registry, s, pairs[i])
    ensures HoldsScope(runs + [run], t', s)
  {
    var table, ts := OverlayOf(run.overlays, s), OverlayTables(runs, s);
    var o, o' := BaseOverlay(runs, s), BaseOverlay(runs + [run], s);
    PushedTables(runs, run, s);
    LoadTable(ts, table, OverlayOf(t.overlays, s));
    PushFlat(ts, table);
    assert DepthOne((ts + [table])[|ts|]);
    forall e | Element(o', e) && e !in BaseShared(runs + [run]) ensures InMemory(t'.registry, e, s) {
      if !Element(o, e) {
        LoadedElement(o, table, e);
        var k :| k in table && (e == k || e == table[k]);
        var i :| 0 <= i < |pairs| && pairs[i] == (k, table[k]);
        assert PairEnrolled(BaseShared(runs + [run]), t'.registry, s, pairs[i]);
      }
    }
  }

  /** A scope the run says nothing about is held as before. */
  lemma SkippedScope(runs: seq<Run>, run: Run, t: Tier, t': Tier, s: ScopeId)
    requires HoldsScope(runs, t, s) && OverlayOf(run.overlays, s) == map[]
    requires Stacked(OverlayTables(runs, s)) && Stacked(OverlayTables(runs + [run], s))
    requires BaseShared(runs).Keys <= BaseShared(runs + [run]).Keys
    requires OverlayOf(t'.overlays, s) == OverlayOf(t.overlays, s) && Grown(t.registry, t'.registry)
    ensures HoldsScope(runs + [run], t', s)
  {
    PushedTables(runs, run, s);
    PushFlat(OverlayTables(runs, s), map[]);
    EmptyMem(BaseOverlay(runs, s));
  }

  /** Load one more scope's pairs of one run. */
  method LoadScope(m: Memtable, registry: Registry, scope: ScopeId, pairs: Pairs,
                   ghost runs: seq<Run>, ghost run: Run, ghost done: set<ScopeId>)
    returns (out: Registry)
    requires m.Valid() && Loading(runs, run) && Progress(runs, run, InHeap(m, registry), done)
    requires scope !in done && Lists(pairs, OverlayOf(run.overlays, scope))
    modifies m, m.repr
    ensures m.Valid() && fresh(m.repr - old(m.repr))
    ensures Progress(runs, run, InHeap(m, out), done + {scope})
  {
    ghost var t := InHeap(m, registry);
    assert LoadingScope(runs, run, scope) && ProgressScope(runs, run, t, done, scope);
    ScopeLoadable(runs, run, t, scope, pairs);
    m.HydrateOverlay(scope, pairs);
    out := EnrollPairs(m, registry, scope, pairs);
    LoadedScope(runs, run, t, InHeap(m, out), scope, pairs);
    ProgressStep(runs, run, t, InHeap(m, out), done, scope);
  }

  lemma ScopeLoadable(runs: seq<Run>, run: Run, t: Tier, scope: ScopeId, pairs: Pairs)
    requires LoadingScope(runs, run, scope) && HoldsScope(runs, t, scope)
    requires Lists(pairs, OverlayOf(run.overlays, scope))
    ensures Loadable(pairs, OverlayOf(t.overlays, scope))
  {
    PushedTables(runs, run, scope);
    LoadTable(OverlayTables(runs, scope), OverlayOf(run.overlays, scope), OverlayOf(t.overlays, scope));
    ListsLoadable(pairs, OverlayOf(run.overlays, scope), OverlayOf(t.overlays, scope));
  }

  lemma ListsLoadable(pairs: Pairs, table: Parents, held: Parents)
    requires Lists(pairs, table) && forall k | k in table :: k !in held
    ensures Loadable(pairs, held)
  {
    forall i: nat | i < |pairs| ensures FreshPair(pairs, held, i) {
      assert FreshPair(pairs, map[], i);
    }
  }

  /** Partway through a run: the scopes in `done` hold it too, the others not yet. */
  ghost predicate Progress(runs: seq<Run>, run: Run, t: Tier, done: set<ScopeId>) {
    forall s :: ProgressScope(runs, run, t, done, s)
  }

  ghost predicate ProgressScope(runs: seq<Run>, run: Run, t: Tier, done: set<ScopeId>, s: ScopeId) {
    && Same(BaseShared(runs + [run]), t.shared)
    && HoldsScope(if s in done then runs + [run] else runs, t, s)
  }

  lemma HeldStill(runs: seq<Run>, t: Tier, t': Tier, s: ScopeId)
    requires HoldsScope(runs, t, s) && Grown(t.registry, t'.registry)
    requires OverlayOf(t'.overlays, s) == OverlayOf(t.overlays, s)
    ensures HoldsScope(runs, t', s)
  {
  }

  lemma ProgressStep(runs: seq<Run>, run: Run, t: Tier, t': Tier, done: set<ScopeId>, scope: ScopeId)
    requires Progress(runs, run, t, done) && Grown(t.registry, t'.registry)
    requires forall s | s != scope :: OverlayOf(t'.overlays, s) == OverlayOf(t.overlays, s)
    requires HoldsScope(runs + [run], t', scope) && Same(t.shared, t'.shared)
    ensures Progress(runs, run, t', done + {scope})
  {
    forall s ensures ProgressScope(runs, run, t', done + {scope}, s) {
      assert ProgressScope(runs, run, t, done, s);
      SameTransitive(BaseShared(runs + [run]), t.shared, t'.shared);
      if s != scope {
        HeldStill(if s in done then runs + [run] else runs, t, t', s);
      }
    }
  }

  /** Two consecutive prefixes of a committed stack, ready for loading the last run. */
  ghost predicate Loading(runs: seq<Run>, run: Run) {
    forall s :: LoadingScope(runs, run, s)
  }

  ghost predicate LoadingScope(runs: seq<Run>, run: Run, s: ScopeId) {
    && Stacked(SharedTables(runs)) && Stacked(SharedTables(runs + [run]))
    && BaseShared(runs).Keys <= BaseShared(runs + [run]).Keys
    && Stacked(OverlayTables(runs, s)) && Stacked(OverlayTables(runs + [run], s))
  }

  ghost function ScopesOf(snap: Snapshot, n: nat): set<ScopeId>
    requires n <= |snap.scopes|
  {
    set i | 0 <= i < n :: snap.scopes[i].0
  }

  lemma ProgressDone(runs: seq<Run>, run: Run, snap: Snapshot, t: Tier)
    requires Loading(runs, run) && Describes(snap, run) && t.runs == []
    requires Progress(runs, run, t, ScopesOf(snap, |snap.scopes|))
    ensures HoldsRuns(runs + [run], t)
  {
    var all := ScopesOf(snap, |snap.scopes|);
    assert ProgressScope(runs, run, t, all, GLOBAL_SCOPE) && LoadingScope(runs, run, GLOBAL_SCOPE);
    forall s ensures HoldsScope(runs + [run], t, s) {
      assert ProgressScope(runs, run, t, all, s) && LoadingScope(runs, run, s);
      if s !in all {
        assert !Mentions(snap, s);
        SkippedScope(runs, run, t, t, s);
      }
    }
  }

  /** Load the shared pairs of one run. */
  method LoadShared(m: Memtable, snap: Snapshot, ghost runs: seq<Run>, ghost run: Run)
    requires m.Valid() && Lists(snap.global, run.shared) && Same(BaseShared(runs), m.shared)
    requires Stacked(SharedTables(runs)) && Stacked(SharedTables(runs + [run]))
    modifies m`shared, m.repr
    ensures m.Valid() && Same(BaseShared(runs + [run]), m.shared)
  {
    PushedTables(runs, run, GLOBAL_SCOPE);
    LoadTable(SharedTables(runs), run.shared, m.shared);
    ListsLoadable(snap.global, run.shared, m.shared);
    m.HydrateShared(snap.global);
  }

  /** Load every scope of one run whose shared pairs are already in. */
  method LoadScopes(m: Memtable, registry: Registry, snap: Snapshot, ghost runs: seq<Run>, ghost run: Run)
    returns (out: Registry)
    requires m.Valid() && Loading(runs, run) && Describes(snap, run)
    requires Progress(runs, run, InHeap(m, registry), {})
    modifies m, m.repr
    ensures m.Valid() && fresh(m.repr - old(m.repr))
    ensures Progress(runs, run, InHeap(m, out), ScopesOf(snap, |snap.scopes|))
  {
    assert ScopesOf(snap, 0) == {};
    out := registry;
    for i := 0 to |snap.scopes|
      invariant m.Valid() && fresh(m.repr - old(m.repr))
      invariant Progress(runs, run, InHeap(m, out), ScopesOf(snap, i))
    {
      out := LoadNext(m, out, snap, i, runs, run);
    }
  }

  /** Load one run on top of the older ones already held. */
  method HydrateRun(m: Memtable, registry: Registry, snap: Snapshot, ghost runs: seq<Run>, ghost run: Run)
    returns (out: Registry)
    requires m.Valid() && HoldsRuns(runs, InHeap(m, registry)) && Loading(runs, run) && Describes(snap, run)
    modifies m, m.repr
    ensures m.Valid() && fresh(m.repr - old(m.repr)) && HoldsRuns(runs + [run], InHeap(m, out))
  {
    ghost var t := InHeap(m, registry);
    assert LoadingScope(runs, run, GLOBAL_SCOPE);
    LoadShared(m, snap, runs, run);
    ProgressStart(runs, run, t, InHeap(m, registry));
    out := LoadScopes(m, registry, snap, runs, run);
    ProgressDone(runs, run, snap, InHeap(m, out));
  }

  lemma ProgressStart(runs: seq<Run>, run: Run, t: Tier, t': Tier)
    requires HoldsRuns(runs, t) && t' == t.(shared := t'.shared)
    requires Same(BaseShared(runs + [run]), t'.shared)
    ensures Progress(runs, run, t', {})
  {
    forall s ensures ProgressScope(runs, run, t', {}, s) {
      assert HoldsScope(runs, t, s);
    }
  }

  method LoadNext(m: Memtable, registry: Registry, snap: Snapshot, i: nat, ghost runs: seq<Run>, ghost run: Run)
    returns (out: Registry)
    requires m.Valid() && i < |snap.scopes| && Loading(runs, run) && Describes(snap, run)
    requires Progress(runs, run, InHeap(m, registry), ScopesOf(snap, i))
    modifies m, m.repr
    ensures m.Valid() && fresh(m.repr - old(m.repr))
    ensures Progress(runs, run, InHeap(m, out), ScopesOf(snap, i + 1))
  {
    ghost var done := ScopesOf(snap, i);
    var (scope, pairs) := snap.scopes[i];
    assert DescribesScope(snap, run, i) && scope !in done;
    out := LoadScope(m, registry, scope, pairs, runs, run, done);
    assert ScopesOf(snap, i + 1) == done + {scope};
  }

  /** Every pair of neighbouring prefixes of a well-formed stack can be loaded. */
  lemma PrefixLoading(runs: seq<Run>, i: nat)
    requires BaseInv(runs) && i < |runs|
    ensures Loading(runs[..i], runs[i])
  {
    var older, run := runs[..i], runs[i];
    assert older + [run] == runs[..i + 1];
    PrefixStacked(SharedTables(runs), SharedTables(older), i);
    PrefixStacked(SharedTables(runs), SharedTables(older + [run]), i + 1);
    PushedTables(older, run, GLOBAL_SCOPE);
    PushFlat(SharedTables(older), run.shared);
    forall s ensures LoadingScope(older, run, s) {
      assert BaseScopeInv(runs, s);
      PrefixStacked(OverlayTables(runs, s), OverlayTables(older, s), i);
      PrefixStacked(OverlayTables(runs, s), OverlayTables(older + [run], s), i + 1);
    }
  }

  lemma PrefixStacked(ts: Tables, prefix: Tables, n: nat)
    requires Stacked(ts) && n <= |ts| && prefix == ts[..n]
    ensures Stacked(prefix)
  {
    assert ts[..n] == ts[0..n];
    SliceStacked(ts, 0, n);
  }

  method HydrateRuns(m: Memtable, snaps: seq<Snapshot>, ghost runs: seq<Run>) returns (out: Registry)
    requires m.Valid() && m.shared == map[] && m.scoped == map[] && BaseInv(runs)
    requires |snaps| == |runs| && forall i | 0 <= i < |runs| :: Describes(snaps[i], runs[i])
    modifies m, m.repr
    ensures m.Valid() && fresh(m.repr - old(m.repr)) && HoldsRuns(runs, InHeap(m, out))
  {
    HoldsNothing();
    out := map[];
    for i := 0 to |snaps|
      invariant m.Valid() && fresh(m.repr - old(m.repr)) && HoldsRuns(runs[..i], InHeap(m, out))
    {
      PrefixLoading(runs, i);
      out := HydrateRun(m, out, snaps[i], runs[..i], runs[i]);
      assert runs[..i + 1] == runs[..i] + [runs[i]];
    }
    assert runs[..|runs|] == runs;
  }

  /**
   Hydrating every committed run, oldest first, into a fresh forest: the result
   is a valid forest for exactly the edges the runs hold.
   */
  method Hydrate(f: ScopedForest, snaps: seq<Snapshot>, ghost runs: seq<Run>, ghost eg: set<Edge>, ghost es: ScopeEdges)
    requires f.mem.Valid() && f.State() == EMPTY
    requires TierInv(Tier(runs, map[], map[], map[]), eg, es)
    requires |snaps| == |runs| && forall i | 0 <= i < |runs| :: Describes(snaps[i], runs[i])
    modifies f`registry, f`eg, f`es, f.mem, f.mem.repr
    ensures f.Valid() && f.eg == eg && f.es == es && f.runs == []
    ensures fresh(f.mem.repr - old(f.mem.repr))
  {
    f.eg, f.es := eg, es;
    var registry := HydrateRuns(f.mem, snaps, runs);
    f.registry := registry;
    HydratedInv(runs, f.State(), eg, es);
  }

  lemma HoldsNothing()
    ensures HoldsRuns([], EMPTY)
  {
    forall s ensures HoldsScope([], EMPTY, s) {
      assert OverlayTables([], s) == [];
    }
  }
}

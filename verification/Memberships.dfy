/**
 Component listing: a capped walk of the shared forest in the global view, and in
 a tenant view a walk of the overlay whose elements then seed the shared walk.
 */
module Memberships {
  import opened Types
  import opened Graph
  import opened ParentForest
  import opened Layers
  import opened ScopedView
  import opened ForestState
  import opened DisjointSets
  import opened Memtables
  import opened Forest
  import opened Walks
  import Compaction
  import Folds
  import Streaming

  datatype Members = Complete(nodes: seq<NodeId>) | Truncated(nodes: seq<NodeId>)

  /** `m` lists `component` up to `cap`: all of it, or exactly `cap` of it marked as such. */
  ghost predicate Lists(m: Members, component: set<NodeId>, cap: nat) {
    && Distinct(m.nodes) && Elements(m.nodes) <= component
    && |m.nodes| == Min(cap, |component|)
    && (m.Truncated? <==> |component| > cap)
  }

  /** A run with no shared pairs carries no member index, whatever it was written with. */
  predicate Indexed(runs: seq<Run>) {
    forall i | 0 <= i < |runs| :: runs[i].shared != map[]
  }

  // --- what the two walks reach ---------------------------------------------------

  lemma ClassReached(m: Parents, p: Parents, r: NodeId, x: NodeId)
    requires Same(p, m) && r !in m
    ensures x in Reach(m, {r}) <==> Root(p, x) == r
  {
    UnderRoot(m, r, x);
    assert Agree(p, m, x);
  }

  lemma {:induction false} UnderSameRoot(m: Parents, top: set<NodeId>, x: NodeId) returns (e: NodeId)
    requires Descending(m) && Under(m, top, x)
    ensures e in top && Root(m, e) == Root(m, x)
    decreases x
  {
    if x in top {
      e := x;
    } else {
      e := UnderSameRoot(m, top, m[x]);
    }
  }

  lemma {:induction false} RootUnder(m: Parents, top: set<NodeId>, x: NodeId)
    requires Descending(m) && Root(m, x) in top
    ensures Under(m, top, x) && x in Reach(m, top)
    decreases x
  {
    if x in m {
      RootUnder(m, top, m[x]);
    }
  }

  lemma {:induction false} UnderMonotone(m: Parents, top: set<NodeId>, more: set<NodeId>, x: NodeId)
    requires Descending(m) && top <= more && Under(m, top, x)
    ensures Under(m, more, x)
    decreases x
  {
    if x !in top {
      UnderMonotone(m, top, more, m[x]);
    }
  }

  /** Below the overlay class of `r`, through the shared forest, lies `r`'s whole component. */
  lemma ComponentReached(g: Parents, o: Parents, mg: Parents, mo: Parents, eg: set<Edge>, es: set<Edge>,
                         r: NodeId, node: NodeId, x: NodeId)
    requires SharedInv(g, eg) && OverlayInv(g, o, eg, es)
    requires Same(g, mg) && Same(o, mo) && r == ViewRoot(g, o, node)
    ensures x in Reach(mg, Reach(mo, {r})) <==> ViewRoot(g, o, x) == r
  {
    var top := Reach(mo, {r});
    assert Agree(g, mg, x);
    if x in Reach(mg, top) {
      var e := UnderSameRoot(mg, top, x);
      ClassReached(mo, o, r, e);
      assert Agree(g, mg, e);
      assert e != r ==> Element(o, e);
      assert !Element(o, r) ==> r == Root(g, node);
      ComponentThroughOverlay(g, o, eg, es, r, x, e);
    }
    if ViewRoot(g, o, x) == r {
      ClassReached(mo, o, r, Root(g, x));
      RootUnder(mg, top, x);
    }
  }

  lemma ViewRootDecides(g: Parents, o: Parents, eg: set<Edge>, es: set<Edge>, x: NodeId, y: NodeId)
    requires SharedInv(g, eg) && OverlayInv(g, o, eg, es)
    ensures ViewRoot(g, o, x) == ViewRoot(g, o, y) <==> Connected(eg + es, x, y)
  {
    ViewRootIsMin(g, o, eg, es, x);
    ViewRootIsMin(g, o, eg, es, y);
    ComponentMinDecidesConnected(eg + es, x, y, ViewRoot(g, o, x), ViewRoot(g, o, y));
  }

  /** A finished walk lists what it reached. */
  lemma WalkLists(out: seq<NodeId>, seen: set<NodeId>, truncated: bool, component: set<NodeId>, cap: nat)
    requires Distinct(out) && |out| <= cap && Elements(out) <= seen <= component
    requires truncated ==> |out| == cap && seen != Elements(out)
    requires !truncated ==> seen == Elements(out) == component
    ensures Lists(if truncated then Truncated(out) else Complete(out), component, cap)
  {
    DistinctCount(out);
    SubsetCount(Elements(out), component);
  }

  /** Seeds past the cap truncate the second walk; otherwise they are the whole overlay class. */
  lemma SeedsSuffice(mg: Parents, top: set<NodeId>, seeds: seq<NodeId>, full: bool, out: seq<NodeId>, seen: set<NodeId>,
                     truncated: bool, cap: nat)
    requires Descending(mg) && Distinct(seeds) && Elements(seeds) <= top
    requires full ==> |seeds| == cap + 1
    requires !full ==> Elements(seeds) == top
    requires Distinct(out) && |out| <= cap && seen <= Reach(mg, Elements(seeds))
    requires !truncated ==> seen == Elements(out) == Reach(mg, Elements(seeds))
    ensures seen <= Reach(mg, top)
    ensures !truncated ==> seen == Reach(mg, top)
  {
    forall x | x in seen ensures x in Reach(mg, top) {
      UnderMonotone(mg, Elements(seeds), top, x);
    }
    if full && !truncated {
      DistinctCount(seeds);
      DistinctCount(out);
      SubsetCount(Elements(seeds), seen);
      assert false;
    }
  }

  // --- the query --------------------------------------------------------------------

  /** The shared forest's downward edges: its merge edges, over the runs' tables. */
  method SharedSource(mem: Memtable, runs: seq<Run>) returns (src: Source, ghost merged: Parents)
    requires mem.Valid() && mem.memberIndex
    requires Stacked(SharedTables(runs)) && Over(BaseShared(runs), mem.shared)
    ensures Indexes(src, merged)
    ensures Same(BaseShared(runs) + mem.shared, Edges(src, merged))
  {
    assert mem.Slot(Global);
    src, merged := Source(SharedTables(runs), mem.global.children), mem.global.merged;
    SameUnderLower(BaseShared(runs), mem.shared, merged);
  }

  method OverlaySource(mem: Memtable, runs: seq<Run>, scope: ScopeId) returns (src: Source, ghost merged: Parents)
    requires mem.Valid() && mem.memberIndex
    requires Stacked(OverlayTables(runs, scope)) && Over(BaseOverlay(runs, scope), OverlayOf(mem.scoped, scope))
    ensures Indexes(src, merged)
    ensures Same(BaseOverlay(runs, scope) + OverlayOf(mem.scoped, scope), Edges(src, merged))
  {
    assert mem.Slot(Scope(scope));
    src, merged := Source(OverlayTables(runs, scope), map[]), map[];
    if scope in mem.overlays {
      src, merged := src.(children := mem.overlays[scope].children), mem.overlays[scope].merged;
    }
    SameUnderLower(BaseOverlay(runs, scope), OverlayOf(mem.scoped, scope), merged);
  }

  method WalkShared(src: Source, r: NodeId, cap: nat, ghost merged: Parents)
    returns (m: Members, ghost component: set<NodeId>)
    requires Indexes(src, merged)
    ensures Descending(Edges(src, merged)) && component == Reach(Edges(src, merged), {r})
    ensures Lists(m, component, cap)
  {
    var walk := new Walk(cap);
    ghost var work := walk.Expand([r], src, merged);
    assert Elements([r]) == {r};
    component := Reach(Edges(src, merged), {r});
    WalkLists(walk.out, walk.seen, walk.truncated, component, cap);
    m := if walk.truncated then Truncated(walk.out) else Complete(walk.out);
  }

  /** The overlay walk stops past `cap` seeds: every overlay element is itself a member. */
  method WalkTenant(over: Source, shared: Source, r: NodeId, cap: nat, ghost mo: Parents, ghost mg: Parents)
    returns (m: Members, ghost component: set<NodeId>)
    requires Indexes(over, mo) && Indexes(shared, mg)
    ensures Descending(Edges(over, mo)) && Descending(Edges(shared, mg))
    ensures component == Reach(Edges(shared, mg), Reach(Edges(over, mo), {r}))
    ensures Lists(m, component, cap)
  {
    var seeds := new Walk(cap + 1);
    ghost var work := seeds.Expand([r], over, mo);
    assert Elements([r]) == {r};
    ghost var top := Reach(Edges(over, mo), {r});
    var walk := new Walk(cap);
    work := walk.Expand(seeds.out, shared, mg);
    SeedsSuffice(Edges(shared, mg), top, seeds.out, seeds.truncated, walk.out, walk.seen, walk.truncated, cap);
    component := Reach(Edges(shared, mg), top);
    WalkLists(walk.out, walk.seen, walk.truncated, component, cap);
    m := if walk.truncated then Truncated(walk.out) else Complete(walk.out);
  }

  lemma SharedComponent(t: Tier, m: Parents, eg: set<Edge>, es: ScopeEdges, node: NodeId, r: NodeId, x: NodeId)
    requires TierInv(t, eg, es) && Same(Shared(t), m) && IsComponentMin(eg, node, r)
    ensures x in Reach(m, {r}) <==> Connected(eg, node, x)
  {
    SharedRootIsMin(Shared(t), eg, node);
    SharedRootIsMin(Shared(t), eg, x);
    ComponentMinUnique(eg, node, r, Root(Shared(t), node));
    ComponentMinDecidesConnected(eg, node, x, r, Root(Shared(t), x));
    ClassReached(m, Shared(t), r, x);
  }

  lemma TenantComponent(t: Tier, scope: ScopeId, mo: Parents, mg: Parents, eg: set<Edge>, es: ScopeEdges,
                        node: NodeId, r: NodeId, x: NodeId)
    requires TierInv(t, eg, es) && Same(Overlay(t, scope), mo) && Same(Shared(t), mg)
    requires IsComponentMin(eg + EdgesOf(es, scope), node, r)
    ensures x in Reach(mg, Reach(mo, {r})) <==> Connected(eg + EdgesOf(es, scope), node, x)
  {
    var g, o, own := Shared(t), Overlay(t, scope), EdgesOf(es, scope);
    assert ScopeInv(t, scope, eg, own);
    ViewRootIsMin(g, o, eg, own, node);
    ComponentMinUnique(eg + own, node, r, ViewRoot(g, o, node));
    ViewRootDecides(g, o, eg, own, node, x);
    ComponentReached(g, o, mg, mo, eg, own, r, node, x);
  }

  lemma NothingDone(f: ScopedForest)
    requires f.Valid()
    ensures Quiet(f.State(), f.State())
  {
    f.mem.Forests();
  }

  /** Up to `cap` members of `node`'s component as `scope` sees it. */
  method MembersOf(f: ScopedForest, scope: ScopeId, node: NodeId, cap: nat)
    returns (m: Option<Members>, ghost component: set<NodeId>)
    requires f.Valid()
    modifies f.mem`shared, f.mem`scoped, f.mem.repr`parents
    ensures f.Valid() && Quiet(old(f.State()), f.State())
    ensures m.None? <==> !f.mem.memberIndex || !Indexed(f.runs)
    ensures m.Some? ==> Lists(m.value, component, cap)
    ensures m.Some? ==> forall x :: x in component <==> Connected(Visible(f.eg, f.es, scope), node, x)
  {
    component := {};
    if !f.mem.memberIndex || !Indexed(f.runs) {
      NothingDone(f);
      return None, {};
    }
    var r := f.ScopeRootOf(scope, node);
    ghost var t := f.State();
    assert ScopeInv(t, scope, f.eg, EdgesOf(f.es, scope)) && BaseScopeInv(f.runs, scope);
    var shared, mg := SharedSource(f.mem, f.runs);
    var found;
    if scope == GLOBAL_SCOPE {
      found, component := WalkShared(shared, r, cap, mg);
      forall x ensures x in component <==> Connected(f.eg, node, x) {
        SharedComponent(t, Edges(shared, mg), f.eg, f.es, node, r, x);
      }
    } else {
      var over, mo := OverlaySource(f.mem, f.runs, scope);
      found, component := WalkTenant(over, shared, r, cap, mo, mg);
      forall x ensures x in component <==> Connected(f.eg + EdgesOf(f.es, scope), node, x) {
        TenantComponent(t, scope, Edges(over, mo), Edges(shared, mg), f.eg, f.es, node, r, x);
      }
    }
    m := Some(found);
  }

  // --- what a fold does to the answer --------------------------------------------------------

  /** A fold leaves the stack indexed exactly when it wrote some shared pair, and a delta's base was. */
  lemma FoldIndexedIff(t: Tier, run: Run, full: bool)
    requires Folds.FoldsTo(t, run, full)
    ensures Indexed(Folds.Folded(t, run, full).runs)
        <==> if full then Shared(t) != map[] else Indexed(t.runs) && t.shared != map[]
  {
    var runs := Folds.Folded(t, run, full).runs;
    assert runs[|runs| - 1] == run;
    assert run.shared == map[] <==> run.shared.Keys == {};
    if !full {
      assert t.shared == map[] <==> t.shared.Keys == {};
      assert forall i | 0 <= i < |t.runs| :: runs[i] == t.runs[i];
    } else {
      assert Shared(t) == map[] <==> Shared(t).Keys == {};
    }
  }

  lemma SomeShared(t: Tier, eg: set<Edge>, es: ScopeEdges, u: NodeId, v: NodeId)
    requires TierInv(t, eg, es) && (u, v) in eg && u != v
    ensures Shared(t) != map[]
  {
  }

  /** A scoped edge leaves the runs and the shared memtable's keys alone. */
  lemma TakersKeep(t: Tier, t': Tier, u: NodeId, v: NodeId, scopes: seq<ScopeId>)
    requires AllTake(t, t', u, v, scopes)
    ensures t'.runs == t.runs && t'.shared.Keys == t.shared.Keys
  {
    assert AllTakeAs(t, t', u, v, scopes, Unfolded);
    AppliedKeeps(t, t', u, v, scopes);
  }

  lemma {:induction false} AppliedKeeps(t: Tier, t': Tier, u: NodeId, v: NodeId, scopes: seq<ScopeId>)
    requires AppliedToScopes(t, t', u, v, scopes)
    ensures t'.runs == t.runs && t'.shared.Keys == t.shared.Keys
    decreases |scopes|
  {
    if scopes != [] {
      var front, last := scopes[..|scopes| - 1], scopes[|scopes| - 1];
      var m :| AppliedToScopes(t, m, u, v, front) && ScopedApplied(m, t', u, v, last);
      AppliedKeeps(t, m, u, v, front);
    }
  }

  ghost predicate AnswersAs(m: Option<Members>, component: set<NodeId>, cap: nat, edges: set<Edge>, node: NodeId,
                            u: Unfold) {
    && m.Some? && Lists(m.value, component, cap)
    && forall x :: x in component <==> Connected(edges, node, x)
  }

  /** An answer, and it lists `node`'s component as `edges` make it. */
  ghost predicate Answers(m: Option<Members>, component: set<NodeId>, cap: nat, edges: set<Edge>, node: NodeId) {
    forall u :: AnswersAs(m, component, cap, edges, node, u)
  }

  /** Folding out a memtable of overlay links alone: every listing answers before it, and none after. */
  method ScopedFoldSilences(f: ScopedForest, files: seq<Compaction.RunFile>, scope: ScopeId, node: NodeId, cap: nat)
    returns (before: Option<Members>, after: Option<Members>, ghost component: set<NodeId>)
    requires f.Valid() && Compaction.EncodesAll(files, f.runs)
    requires f.mem.memberIndex && Indexed(f.runs) && f.mem.shared == map[]
    modifies f`runs, f`mem, f`registry, f.mem`shared, f.mem`scoped, f.mem.repr`parents
    ensures f.Valid() && f.eg == old(f.eg) && f.es == old(f.es)
    ensures |f.runs| == |old(f.runs)| + 1 && f.runs[..|old(f.runs)|] == old(f.runs)
    ensures f.mem.memberIndex && !Indexed(f.runs)
    ensures Answers(before, component, cap, Visible(f.eg, f.es, scope), node) && after.None?
  {
    ghost var t0 := f.State();
    before, component := MembersOf(f, scope, node, cap);
    ghost var t := f.State();
    assert QuietAs(t0, t, Unfolded);
    var next := Streaming.FoldOut(f, files, false);
    FoldIndexedIff(t, f.runs[|f.runs| - 1], false);
    ghost var none;
    after, none := MembersOf(f, scope, node, cap);
  }

  /** A forest with one shared edge. */
  method OneEdge(u: NodeId, v: NodeId) returns (f: ScopedForest)
    requires u != v
    ensures fresh(f) && fresh(f.mem) && fresh(f.mem.repr) && f.Valid() && f.mem.memberIndex && f.runs == []
    ensures f.eg == {(u, v)} && f.es == map[] && Shared(f.State()) != map[]
  {
    f := new ScopedForest(true);
    f.ApplyGlobal(u, v);
    SomeShared(f.State(), f.eg, f.es, u, v);
  }

  /** A forest with one shared edge, folded out. */
  method FoldedEdge(u: NodeId, v: NodeId) returns (f: ScopedForest, files: seq<Compaction.RunFile>)
    requires u != v
    ensures fresh(f) && fresh(f.mem) && fresh(f.mem.repr) && f.Valid() && Compaction.EncodesAll(files, f.runs)
    ensures f.mem.memberIndex && Indexed(f.runs) && f.mem.shared == map[]
    ensures |f.runs| == 1 && f.eg == {(u, v)} && f.es == map[]
  {
    f := OneEdge(u, v);
    ghost var t := f.State();
    files := Streaming.FoldOut(f, [], true);
    FoldIndexedIff(t, f.runs[0], true);
  }

  /** A scoped edge puts nothing into an empty shared memtable. */
  method LinkOnly(f: ScopedForest, files: seq<Compaction.RunFile>, u: NodeId, w: NodeId, scope: ScopeId)
    requires f.Valid() && Compaction.EncodesAll(files, f.runs)
    requires f.mem.memberIndex && Indexed(f.runs) && f.mem.shared == map[]
    modifies f`registry, f`es, f.mem, f.mem.repr
    ensures f.Valid() && Compaction.EncodesAll(files, f.runs) && fresh(f.mem.repr - old(f.mem.repr))
    ensures f.mem.memberIndex && Indexed(f.runs) && f.mem.shared == map[]
    ensures f.runs == old(f.runs) && f.eg == old(f.eg) && f.es == WithEdges(old(f.es), [scope], (u, w))
  {
    ghost var t := f.State();
    f.ApplyScoped(u, w, [scope]);
    TakersKeep(t, f.State(), u, w, [scope]);
  }

  /** One shared edge, a fold, one scoped edge: the next fold silences the listing. */
  method Silenced(u: NodeId, v: NodeId, w: NodeId, scope: ScopeId, cap: nat)
    returns (f: ScopedForest, before: Option<Members>, after: Option<Members>, ghost component: set<NodeId>)
    requires u != v && scope != GLOBAL_SCOPE
    ensures fresh(f) && f.Valid() && |f.runs| == 2
    ensures f.eg == {(u, v)} && f.es == WithEdges(map[], [scope], (u, w))
    ensures f.mem.memberIndex && !Indexed(f.runs)
    ensures Answers(before, component, cap, Visible(f.eg, f.es, scope), u) && after.None?
  {
    var files;
    f, files := FoldedEdge(u, v);
    LinkOnly(f, files, u, w, scope);
    before, after, component := ScopedFoldSilences(f, files, scope, u, cap);
  }
}

/**
 Moving state out of the heap and between runs. A fold writes what it emits as a
 run and drops the memtable, registry included; a compaction replaces a stretch
 of runs by one. None of them changes a composed root, and each leaves every
 overlay element that is still a shared root recorded in some run's registry,
 which is all a later global merge needs to find the scopes it must notify.
 */
module Folds {
  import opened Types
  import opened Graph
  import opened ParentForest
  import opened Layers
  import opened ScopedView
  import opened ForestState

  /** `p` restricted to `keys`, each pointed straight at its root. */
  ghost predicate Emitted(p: Parents, keys: set<NodeId>, table: Parents) {
    && Descending(p)
    && table.Keys == keys && keys <= p.Keys
    && forall k {:trigger table[k]} | k in table :: table[k] == Root(p, k)
  }

  /** The keys a fold writes: the memtable's own, or everything composed. */
  ghost function FoldKeys(base: Parents, mem: Parents, full: bool): set<NodeId> {
    if full then (base + mem).Keys else mem.Keys
  }

  /** `r` is the live shared root of an endpoint of an emitted overlay pair. */
  ghost predicate Endpoint(g: Parents, table: Parents, r: NodeId)
    requires Descending(g)
  {
    exists k | k in table :: r == Root(g, k) || r == Root(g, table[k])
  }

  ghost predicate FoldsShared(t: Tier, run: Run, full: bool) {
    Emitted(Shared(t), FoldKeys(BaseShared(t.runs), t.shared, full), run.shared)
  }

  ghost predicate FoldsOverlay(t: Tier, run: Run, full: bool, s: ScopeId) {
    Emitted(Overlay(t, s), FoldKeys(BaseOverlay(t.runs, s), OverlayOf(t.overlays, s), full),
            OverlayOf(run.overlays, s))
  }

  ghost predicate FoldsRegistry(g: Parents, run: Run)
    requires Descending(g)
  {
    forall r: NodeId, s: ScopeId :: (r, s) in run.registry <==> Endpoint(g, OverlayOf(run.overlays, s), r)
  }

  /** `run` is what a fold of `t` writes: a delta, or the full composed state. */
  ghost predicate FoldsTo(t: Tier, run: Run, full: bool) {
    && FoldsShared(t, run, full)
    && (forall s :: FoldsOverlay(t, run, full, s))
    && FoldsRegistry(Shared(t), run)
  }

  function Folded(t: Tier, run: Run, full: bool): Tier {
    Tier(if full then [run] else t.runs + [run], map[], map[], map[])
  }

  // --- one tier of a fold ---------------------------------------------------

  ghost function FoldTables(ts: Tables, table: Parents, full: bool): Tables {
    if full then [table] else ts + [table]
  }

  lemma SingleTable(table: Parents)
    requires DepthOne(table)
    ensures Stacked([table]) && Flat([table]) == table
  {
    assert TableKeys([table]) == table.Keys by {
      assert [table][0] == table;
    }
  }

  /** Folding one tier keeps the layer invariant, every key and every root. */
  lemma FoldTier(ts: Tables, mem: Parents, table: Parents, full: bool)
    requires Stacked(ts) && Over(Flat(ts), mem)
    requires Emitted(Flat(ts) + mem, FoldKeys(Flat(ts), mem, full), table)
    ensures Stacked(FoldTables(ts, table, full))
    ensures Same(Flat(ts) + mem, Flat(FoldTables(ts, table, full)))
  {
    var base := Flat(ts);
    if full {
      ResolvesSame(base + mem, table);
      SingleTable(table);
    } else {
      forall k | k in mem ensures table[k] == Root(mem, k) {
        Compose(base, mem, k);
      }
      ResolvesSame(mem, table);
      SameUnderLower(base, mem, table);
      PushStacked(ts, table);
    }
  }

  lemma FoldedTables(t: Tier, run: Run, full: bool, s: ScopeId)
    ensures SharedTables(Folded(t, run, full).runs)
         == FoldTables(SharedTables(t.runs), run.shared, full)
    ensures OverlayTables(Folded(t, run, full).runs, s)
         == FoldTables(OverlayTables(t.runs, s), OverlayOf(run.overlays, s), full)
  {
  }

  /** With an empty memtable the composition is the base alone. */
  lemma EmptyMem(p: Parents)
    ensures p + map[] == p
  {
  }

  lemma SharedFolded(t: Tier, run: Run, full: bool)
    requires Stacked(SharedTables(t.runs)) && Over(BaseShared(t.runs), t.shared) && FoldsShared(t, run, full)
    ensures var t' := Folded(t, run, full);
            && Stacked(SharedTables(t'.runs)) && Same(Shared(t), BaseShared(t'.runs))
            && Shared(t') == BaseShared(t'.runs)
  {
    FoldTier(SharedTables(t.runs), t.shared, run.shared, full);
    FoldedTables(t, run, full, GLOBAL_SCOPE);
    EmptyMem(BaseShared(Folded(t, run, full).runs));
  }

  lemma OverlayFolded(t: Tier, run: Run, full: bool, s: ScopeId)
    requires Stacked(OverlayTables(t.runs, s)) && Over(BaseOverlay(t.runs, s), OverlayOf(t.overlays, s))
    requires FoldsOverlay(t, run, full, s)
    ensures var t' := Folded(t, run, full);
            && Stacked(OverlayTables(t'.runs, s)) && Same(Overlay(t, s), BaseOverlay(t'.runs, s))
            && Overlay(t', s) == BaseOverlay(t'.runs, s)
  {
    FoldTier(OverlayTables(t.runs, s), OverlayOf(t.overlays, s), OverlayOf(run.overlays, s), full);
    FoldedTables(t, run, full, s);
    EmptyMem(BaseOverlay(Folded(t, run, full).runs, s));
  }

  // --- the registry of a fold -----------------------------------------------

  /** Every composed element is a base element or an endpoint of an emitted pair. */
  lemma ElementEmitted(base: Parents, mem: Parents, table: Parents, full: bool, e: NodeId)
    requires Over(base, mem) && Emitted(base + mem, FoldKeys(base, mem, full), table)
    requires Descending(base + mem) && Element(base + mem, e)
    ensures (!full && Element(base, e)) || exists k | k in table :: e == k || e == table[k]
  {
    var both := base + mem;
    if e in both {
      assert full || e in mem ==> e in table;
    } else {
      var k :| k in both && Root(both, k) == e;
      if full || k in mem {
        assert k in table && table[k] == e;
      } else {
        Compose(base, mem, k);
        var r := Root(base, k);
        if r in mem {
          Compose(base, mem, r);
          assert r in table && table[r] == e;
        } else {
          assert Root(base, k) == e;
        }
      }
    }
  }

  /** The last run of a folded stack is the fold itself; the others are as before. */
  lemma FoldedRun(t: Tier, run: Run, full: bool, i: nat)
    requires i < |Folded(t, run, full).runs|
    ensures var runs' := Folded(t, run, full).runs;
            if i == |runs'| - 1 then runs'[i] == run else i < |t.runs| && runs'[i] == t.runs[i]
  {
  }

  /** An end of an emitted pair that is still a shared root is in the fold's registry. */
  lemma EndRecorded(t: Tier, run: Run, full: bool, s: ScopeId, e: NodeId, k: NodeId)
    requires Descending(Shared(t)) && FoldsRegistry(Shared(t), run) && e !in Shared(t)
    requires k in OverlayOf(run.overlays, s) && (e == k || e == OverlayOf(run.overlays, s)[k])
    ensures Recorded(Folded(t, run, full).runs, e, s)
  {
    var runs' := Folded(t, run, full).runs;
    assert Endpoint(Shared(t), OverlayOf(run.overlays, s), e);
    FoldedRun(t, run, full, |runs'| - 1);
  }

  lemma StillRecorded(runs: seq<Run>, run: Run, e: NodeId, s: ScopeId)
    requires Recorded(runs, e, s)
    ensures Recorded(runs + [run], e, s)
  {
    var i :| 0 <= i < |runs| && (e, s) in runs[i].registry;
    assert (runs + [run])[i] == runs[i];
  }

  lemma FoldRecords(t: Tier, run: Run, full: bool, s: ScopeId, e: NodeId)
    requires Descending(Shared(t)) && FoldsRegistry(Shared(t), run) && FoldsOverlay(t, run, full, s)
    requires Over(BaseOverlay(t.runs, s), OverlayOf(t.overlays, s))
    requires Element(BaseOverlay(t.runs, s), e) ==> Recorded(t.runs, e, s)
    requires Element(Overlay(t, s), e) && e !in Shared(t)
    ensures Recorded(Folded(t, run, full).runs, e, s)
  {
    var table := OverlayOf(run.overlays, s);
    ElementEmitted(BaseOverlay(t.runs, s), OverlayOf(t.overlays, s), table, full, e);
    if k :| k in table && (e == k || e == table[k]) {
      EndRecorded(t, run, full, s, e, k);
    } else {
      StillRecorded(t.runs, run, e, s);
    }
  }

  lemma FoldRootsLive(t: Tier, run: Run, full: bool)
    requires Stacked(SharedTables(t.runs)) && RootsLive(t.runs) && FoldsShared(t, run, full)
    requires FoldsRegistry(Shared(t), run)
    ensures RootsLive(Folded(t, run, full).runs)
  {
    var runs' := Folded(t, run, full).runs;
    forall i, j | 0 <= j <= i < |runs'| ensures LiveIn(runs'[i], runs'[j]) {
      FoldedRun(t, run, full, i);
      FoldedRun(t, run, full, j);
      if i == |runs'| - 1 {
        forall e | e in run.registry ensures e.0 !in runs'[j].shared {
          var (r, s) := e;
          assert Endpoint(Shared(t), OverlayOf(run.overlays, s), r);
          assert r !in Shared(t);
          if j < i {
            assert r !in TableKeys(SharedTables(t.runs));
            assert SharedTables(t.runs)[j] == t.runs[j].shared;
          }
        }
      } else {
        assert LiveIn(t.runs[i], t.runs[j]);
      }
    }
  }

  lemma FoldNotifiable(t: Tier, run: Run, full: bool, s: ScopeId)
    requires Stacked(OverlayTables(t.runs, s)) && Over(BaseOverlay(t.runs, s), OverlayOf(t.overlays, s))
    requires Over(BaseShared(t.runs), t.shared) && Descending(Shared(t))
    requires Notifiable(BaseShared(t.runs), BaseOverlay(t.runs, s), RecordedRoots(t.runs, s))
    requires FoldsRegistry(Shared(t), run) && FoldsOverlay(t, run, full, s)
    ensures Descending(BaseOverlay(Folded(t, run, full).runs, s))
    ensures Notifiable(Shared(t), BaseOverlay(Folded(t, run, full).runs, s),
                       RecordedRoots(Folded(t, run, full).runs, s))
  {
    var runs' := Folded(t, run, full).runs;
    OverlayFolded(t, run, full, s);
    forall e | Element(BaseOverlay(runs', s), e) && e !in Shared(t) ensures Recorded(runs', e, s) {
      SameElement(Overlay(t, s), BaseOverlay(runs', s), e);
      assert Element(BaseOverlay(t.runs, s), e) ==> e in RecordedRoots(t.runs, s);
      FoldRecords(t, run, full, s, e);
    }
  }

  lemma FoldScopeInv(t: Tier, t': Tier, eg: set<Edge>, es: set<Edge>, s: ScopeId)
    requires OverlayInv(Shared(t), Overlay(t, s), eg, es) && OverlayOf(t'.overlays, s) == map[]
    requires Same(Shared(t), Shared(t')) && Same(Overlay(t, s), Overlay(t', s))
    requires Shared(t') == BaseShared(t'.runs) && Overlay(t', s) == BaseOverlay(t'.runs, s)
    requires Stacked(OverlayTables(t'.runs, s))
    requires Notifiable(Shared(t), Overlay(t', s), RecordedRoots(t'.runs, s))
    ensures BaseScopeInv(t'.runs, s) && ScopeInv(t', s, eg, es)
  {
    OverlayInvSame(Shared(t), Shared(t'), Overlay(t, s), Overlay(t', s), eg, es);
    assert RegisteredRoots(t', s) >= RecordedRoots(t'.runs, s);
  }

  /** Either fold keeps the invariant, with the memtable and its registry gone. */
  lemma FoldInv(t: Tier, run: Run, full: bool, eg: set<Edge>, es: ScopeEdges)
    requires TierInv(t, eg, es) && FoldsTo(t, run, full)
    ensures TierInv(Folded(t, run, full), eg, es)
  {
    var t' := Folded(t, run, full);
    SharedFolded(t, run, full);
    SharedInvSame(Shared(t), Shared(t'), eg);
    FoldRootsLive(t, run, full);
    forall s ensures BaseScopeInv(t'.runs, s) && ScopeInv(t', s, eg, EdgesOf(es, s)) {
      assert BaseScopeInv(t.runs, s) && ScopeInv(t, s, eg, EdgesOf(es, s)) && FoldsOverlay(t, run, full, s);
      OverlayFolded(t, run, full, s);
      FoldNotifiable(t, run, full, s);
      FoldScopeInv(t, t', eg, EdgesOf(es, s), s);
    }
  }

  // --- swapping in an equivalent base ------------------------------------------

  /** `runs'` resolves as `runs` does, and still records every live root. */
  ghost predicate Equivalent(runs: seq<Run>, runs': seq<Run>) {
    && BaseInv(runs')
    && Same(BaseShared(runs), BaseShared(runs'))
    && (forall s :: Same(BaseOverlay(runs, s), BaseOverlay(runs', s)))
    && (forall r, s | Recorded(runs, r, s) && r !in BaseShared(runs) :: Recorded(runs', r, s))
  }

  lemma OverSame(lower: Parents, lower': Parents, upper: Parents)
    requires Over(lower, upper) && Same(lower, lower')
    ensures Over(lower', upper) && Same(lower + upper, lower' + upper)
  {
    SameExtended(lower, lower', upper);
  }

  /** Swapping in an equivalent base under a live memtable keeps the invariant. */
  lemma SwapInv(t: Tier, runs': seq<Run>, eg: set<Edge>, es: ScopeEdges)
    requires TierInv(t, eg, es) && Equivalent(t.runs, runs')
    ensures TierInv(t.(runs := runs'), eg, es)
  {
    var t' := t.(runs := runs');
    OverSame(BaseShared(t.runs), BaseShared(runs'), t.shared);
    SharedInvSame(Shared(t), Shared(t'), eg);
    forall s ensures ScopeInv(t', s, eg, EdgesOf(es, s)) {
      assert ScopeInv(t, s, eg, EdgesOf(es, s));
      OverSame(BaseOverlay(t.runs, s), BaseOverlay(runs', s), OverlayOf(t.overlays, s));
      OverlayInvSame(Shared(t), Shared(t'), Overlay(t, s), Overlay(t', s), eg, EdgesOf(es, s));
      forall e | Element(Overlay(t', s), e) && e !in Shared(t') ensures Registered(t', e, s) {
        SameElement(Overlay(t, s), Overlay(t', s), e);
        assert e in RegisteredRoots(t, s);
      }
    }
  }

  // --- compacting a stretch of runs ---------------------------------------------

  /** `m` is what compacting `slice` writes: tables resolved, registry re-rooted. */
  ghost predicate Compacts(slice: seq<Run>, m: Run) {
    && Resolves(BaseShared(slice), m.shared)
    && (forall s :: Resolves(BaseOverlay(slice, s), OverlayOf(m.overlays, s)))
    && (forall r: NodeId, s: ScopeId :: (r, s) in m.registry <==> Rerooted(slice, r, s))
  }

  /** Some entry of the slice for scope `s` has `r` as its root by now. */
  ghost predicate Rerooted(slice: seq<Run>, r: NodeId, s: ScopeId)
    requires Descending(BaseShared(slice))
  {
    exists e | Recorded(slice, e, s) :: Root(BaseShared(slice), e) == r
  }

  lemma SplicedTables(runs: seq<Run>, lo: nat, hi: nat, m: Run, s: ScopeId)
    requires lo < hi <= |runs|
    ensures SharedTables(runs[lo..hi]) == SharedTables(runs)[lo..hi]
    ensures OverlayTables(runs[lo..hi], s) == OverlayTables(runs, s)[lo..hi]
    ensures SharedTables(Spliced(runs, lo, hi, m)) == Spliced(SharedTables(runs), lo, hi, m.shared)
    ensures OverlayTables(Spliced(runs, lo, hi, m), s)
         == Spliced(OverlayTables(runs, s), lo, hi, OverlayOf(m.overlays, s))
  {
  }

  /** Neither lookups nor the layer invariant notice the splice, in either tier. */
  lemma SplicedMaps(runs: seq<Run>, lo: nat, hi: nat, m: Run, s: ScopeId)
    requires BaseInv(runs) && lo < hi <= |runs| && Compacts(runs[lo..hi], m)
    ensures var out := Spliced(runs, lo, hi, m);
            && Stacked(SharedTables(out)) && Same(BaseShared(runs), BaseShared(out))
            && Stacked(OverlayTables(out, s)) && Same(BaseOverlay(runs, s), BaseOverlay(out, s))
  {
    assert BaseScopeInv(runs, s);
    SplicedTables(runs, lo, hi, m, s);
    SpliceInvisible(SharedTables(runs), lo, hi, m.shared);
    SpliceInvisible(OverlayTables(runs, s), lo, hi, OverlayOf(m.overlays, s));
  }

  /** A recorded root that has not moved is still recorded after the splice. */
  lemma SplicedRecords(runs: seq<Run>, lo: nat, hi: nat, m: Run, r: NodeId, s: ScopeId)
    requires BaseInv(runs) && lo < hi <= |runs| && Compacts(runs[lo..hi], m)
    requires Recorded(runs, r, s) && r !in BaseShared(runs)
    ensures Recorded(Spliced(runs, lo, hi, m), r, s)
  {
    var out, slice := Spliced(runs, lo, hi, m), runs[lo..hi];
    var i :| 0 <= i < |runs| && (r, s) in runs[i].registry;
    if i < lo {
      assert out[i] == runs[i];
    } else if i < hi {
      assert slice[i - lo] == runs[i];
      SplicedTables(runs, lo, hi, m, s);
      SliceSubMap(SharedTables(runs), lo, hi);
      assert Root(BaseShared(slice), r) == r;
      assert Rerooted(slice, r, s);
      assert out[lo] == m;
    } else {
      assert out[i - hi + lo + 1] == runs[i];
    }
  }

  /** A re-rooted entry of the merged run has no parent below it. */
  lemma MergedRootLive(runs: seq<Run>, lo: nat, hi: nat, root: NodeId, s: ScopeId, j: nat)
    requires Stacked(SharedTables(runs)) && RootsLive(runs) && j < lo < hi <= |runs|
    requires Descending(BaseShared(runs[lo..hi])) && Rerooted(runs[lo..hi], root, s)
    ensures root !in runs[j].shared
  {
    var slice := runs[lo..hi];
    var r: NodeId :| Recorded(slice, r, s) && Root(BaseShared(slice), r) == root;
    if r == root {
      var i :| 0 <= i < |slice| && (r, s) in slice[i].registry;
      assert runs[lo + i] == slice[i] && LiveIn(runs[lo + i], runs[j]);
    } else {
      StoredAbove(runs, lo, hi, r, j);
    }
  }

  /** What a slice resolves to below the node itself, it stores, and so stands above older runs. */
  lemma StoredAbove(runs: seq<Run>, lo: nat, hi: nat, r: NodeId, j: nat)
    requires Stacked(SharedTables(runs)) && j < lo < hi <= |runs|
    requires Descending(BaseShared(runs[lo..hi])) && Root(BaseShared(runs[lo..hi]), r) != r
    ensures Root(BaseShared(runs[lo..hi]), r) !in runs[j].shared
  {
    var ts, slice := SharedTables(runs), runs[lo..hi];
    assert SharedTables(slice) == ts[lo..hi];
    var x := RootIsStored(BaseShared(slice), r);
    var i := SliceFrom(ts, lo, hi, x);
    assert Above(ts[j], ts[i]);
  }

  lemma MergedLiveIn(runs: seq<Run>, lo: nat, hi: nat, m: Run, j: nat)
    requires BaseInv(runs) && lo < hi <= |runs| && Compacts(runs[lo..hi], m) && j < lo
    ensures LiveIn(m, runs[j])
  {
    forall e | e in m.registry ensures e.0 !in runs[j].shared {
      assert (e.0, e.1) in m.registry && Rerooted(runs[lo..hi], e.0, e.1);
      MergedRootLive(runs, lo, hi, e.0, e.1, j);
    }
  }

  lemma MergedLiveInItself(slice: seq<Run>, m: Run)
    requires Compacts(slice, m)
    ensures LiveIn(m, m)
  {
    forall e | e in m.registry ensures e.0 !in m.shared {
      assert (e.0, e.1) in m.registry;
    }
  }

  lemma NewerLiveInMerged(runs: seq<Run>, lo: nat, hi: nat, m: Run, newer: nat)
    requires BaseInv(runs) && lo < hi <= newer < |runs| && Compacts(runs[lo..hi], m)
    ensures LiveIn(runs[newer], m)
  {
    forall r | r in m.shared ensures forall e | e in runs[newer].registry :: e.0 != r {
      SplicedTables(runs, lo, hi, m, GLOBAL_SCOPE);
      var i := SliceFrom(SharedTables(runs), lo, hi, r);
      assert runs[i].shared == SharedTables(runs)[i] && LiveIn(runs[newer], runs[i]);
    }
  }

  lemma RootsLiveAfterSplice(runs: seq<Run>, lo: nat, hi: nat, m: Run)
    requires RootsLive(runs) && lo < hi <= |runs| && LiveIn(m, m)
    requires forall j | 0 <= j < lo :: LiveIn(m, runs[j])
    requires forall i | hi <= i < |runs| :: LiveIn(runs[i], m)
    ensures RootsLive(Spliced(runs, lo, hi, m))
  {
    var out := Spliced(runs, lo, hi, m);
    forall i, j | 0 <= j <= i < |out| ensures LiveIn(out[i], out[j]) {
      var a, b := Source(lo, hi, i), Source(lo, hi, j);
      assert i != lo ==> a < |runs| && out[i] == runs[a];
      assert j != lo ==> b < |runs| && out[j] == runs[b];
      assert i != lo && j != lo ==> LiveIn(runs[a], runs[b]);
    }
  }

  lemma SplicedRootsLive(runs: seq<Run>, lo: nat, hi: nat, m: Run)
    requires BaseInv(runs) && lo < hi <= |runs| && Compacts(runs[lo..hi], m)
    ensures RootsLive(Spliced(runs, lo, hi, m))
  {
    MergedLiveInItself(runs[lo..hi], m);
    forall j | 0 <= j < lo ensures LiveIn(m, runs[j]) {
      MergedLiveIn(runs, lo, hi, m, j);
    }
    forall i | hi <= i < |runs| ensures LiveIn(runs[i], m) {
      NewerLiveInMerged(runs, lo, hi, m, i);
    }
    RootsLiveAfterSplice(runs, lo, hi, m);
  }

  /**
   Compacting any contiguous stretch and splicing it back yields an equivalent
   base: same resolution for every key of both tiers, layer invariant kept, every
   live registry root still recorded.
   */
  lemma SpliceEquivalent(runs: seq<Run>, lo: nat, hi: nat, m: Run)
    requires BaseInv(runs) && lo < hi <= |runs| && Compacts(runs[lo..hi], m)
    ensures Equivalent(runs, Spliced(runs, lo, hi, m))
  {
    var out := Spliced(runs, lo, hi, m);
    SplicedMaps(runs, lo, hi, m, GLOBAL_SCOPE);
    SplicedRootsLive(runs, lo, hi, m);
    forall r, s | Recorded(runs, r, s) && r !in BaseShared(runs) ensures Recorded(out, r, s) {
      SplicedRecords(runs, lo, hi, m, r, s);
    }
    forall s ensures BaseScopeInv(out, s) && Same(BaseOverlay(runs, s), BaseOverlay(out, s)) {
      SplicedMaps(runs, lo, hi, m, s);
      assert BaseScopeInv(runs, s);
      forall e | Element(BaseOverlay(out, s), e) && e !in BaseShared(out) ensures Recorded(out, e, s) {
        SameElement(BaseOverlay(runs, s), BaseOverlay(out, s), e);
        assert e in RecordedRoots(runs, s);
      }
    }
  }
}

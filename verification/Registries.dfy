/**
 What the registries of a stack come to. Each run's entries, followed to the roots the
 stack has by now, are the live roots of that run's own overlay pairs, no more and no
 fewer; folds and merges keep it so. Merging a whole stack therefore writes the very
 run that a self-contained fold of the same stack writes.
 */
module Registries {
  import opened Types
  import opened ParentForest
  import opened Layers
  import opened ForestState
  import opened Folds

  /** Some entry of the run for scope `s` has `r` as its root in `g`. */
  ghost predicate MovedTo(g: Parents, run: Run, r: NodeId, s: ScopeId)
    requires Descending(g)
  {
    exists e: NodeId | (e, s) in run.registry :: Root(g, e) == r
  }

  /** The run's entries and its overlay pairs' ends come to the same roots in `g`. */
  ghost predicate ExactIn(g: Parents, run: Run, s: ScopeId)
    requires Descending(g)
  {
    forall r :: MovedTo(g, run, r, s) <==> Endpoint(g, OverlayOf(run.overlays, s), r)
  }

  ghost predicate AllExact(g: Parents, runs: seq<Run>)
    requires Descending(g)
  {
    forall i, s | 0 <= i < |runs| :: ExactIn(g, runs[i], s)
  }

  ghost predicate ExactStack(runs: seq<Run>) {
    Descending(BaseShared(runs)) && AllExact(BaseShared(runs), runs)
  }

  // --- along a growing forest ---------------------------------------------------------------

  /** `g'` resolves whatever `g` does, and goes on from there. */
  ghost predicate Onward(g: Parents, g': Parents) {
    Descending(g) && Descending(g') && forall x :: Through(g, g', x)
  }

  ghost predicate Through(g: Parents, g': Parents, x: NodeId)
    requires Descending(g) && Descending(g')
  {
    Root(g', Root(g, x)) == Root(g', x)
  }

  lemma EndpointOnward(g: Parents, g': Parents, table: Parents, r: NodeId)
    requires Onward(g, g') && Endpoint(g, table, r)
    ensures Endpoint(g', table, Root(g', r))
  {
    var k :| k in table && (r == Root(g, k) || r == Root(g, table[k]));
    assert Through(g, g', k) && Through(g, g', table[k]);
  }

  lemma EndpointBack(g: Parents, g': Parents, table: Parents, r': NodeId) returns (r: NodeId)
    requires Onward(g, g') && Endpoint(g', table, r')
    ensures Endpoint(g, table, r) && Root(g', r) == r'
  {
    var k :| k in table && (r' == Root(g', k) || r' == Root(g', table[k]));
    assert Through(g, g', k) && Through(g, g', table[k]);
    r := if r' == Root(g', k) then Root(g, k) else Root(g, table[k]);
  }

  lemma ExactOnward(g: Parents, g': Parents, run: Run, s: ScopeId)
    requires Onward(g, g') && ExactIn(g, run, s)
    ensures ExactIn(g', run, s)
  {
    var table := OverlayOf(run.overlays, s);
    forall r ensures MovedTo(g', run, r, s) <==> Endpoint(g', table, r) {
      if MovedTo(g', run, r, s) {
        var e: NodeId :| (e, s) in run.registry && Root(g', e) == r;
        assert MovedTo(g, run, Root(g, e), s) && Through(g, g', e);
        EndpointOnward(g, g', table, Root(g, e));
      }
      if Endpoint(g', table, r) {
        var q := EndpointBack(g, g', table, r);
        assert MovedTo(g, run, q, s);
        var e: NodeId :| (e, s) in run.registry && Root(g, e) == q;
        assert Through(g, g', e);
      }
    }
  }

  lemma AllOnward(g: Parents, g': Parents, runs: seq<Run>)
    requires Onward(g, g') && AllExact(g, runs)
    ensures AllExact(g', runs)
  {
    forall i, s | 0 <= i < |runs| ensures ExactIn(g', runs[i], s) {
      ExactOnward(g, g', runs[i], s);
    }
  }

  lemma SameOnward(g: Parents, g': Parents)
    requires Same(g, g')
    ensures Onward(g, g') && Onward(g', g)
  {
    forall x ensures Through(g, g', x) && Through(g', g, x) {
      assert Agree(g, g', x) && Agree(g, g', Root(g, x)) && Agree(g, g', Root(g', x));
    }
  }

  lemma MemOnward(base: Parents, mem: Parents)
    requires Over(base, mem)
    ensures Onward(base, base + mem)
  {
    DescendingUnion(base, mem);
    forall x ensures Through(base, base + mem, x) {
      ThroughRoot(base, mem, x);
    }
  }

  // --- folds ----------------------------------------------------------------------------------

  /** A fold writes roots of the moment, so its entries are its pairs' ends. */
  lemma FoldExact(g: Parents, run: Run, s: ScopeId)
    requires Descending(g) && FoldsRegistry(g, run)
    ensures ExactIn(g, run, s)
  {
    var table := OverlayOf(run.overlays, s);
    forall r ensures MovedTo(g, run, r, s) <==> Endpoint(g, table, r) {
      if MovedTo(g, run, r, s) {
        var e: NodeId :| (e, s) in run.registry && Root(g, e) == r;
        assert Endpoint(g, table, e);
      }
      if Endpoint(g, table, r) {
        assert (r, s) in run.registry;
      }
    }
  }

  lemma FoldKeepsExact(t: Tier, run: Run, full: bool)
    requires Stacked(SharedTables(t.runs)) && Over(BaseShared(t.runs), t.shared)
    requires FoldsTo(t, run, full) && (full || ExactStack(t.runs))
    ensures ExactStack(Folded(t, run, full).runs)
  {
    var runs', g := Folded(t, run, full).runs, Shared(t);
    MemOnward(BaseShared(t.runs), t.shared);
    if !full {
      AllOnward(BaseShared(t.runs), g, t.runs);
    }
    forall i, s | 0 <= i < |runs'| ensures ExactIn(g, runs'[i], s) {
      FoldedRun(t, run, full, i);
      FoldExact(g, run, s);
    }
    SharedFolded(t, run, full);
    SameOnward(g, BaseShared(runs'));
    AllOnward(g, BaseShared(runs'), runs');
  }

  // --- merges ----------------------------------------------------------------------------------

  /** What a stretch's entries, and a stretch's merged overlay, come to in `g`. */
  ghost predicate Come(g: Parents, slice: seq<Run>, r: NodeId, s: ScopeId)
    requires Descending(g)
  {
    exists e | Recorded(slice, e, s) :: Root(g, e) == r
  }

  /** An end of a run's pair is an end of the merged overlay's. */
  lemma EndMerged(g: Parents, ts: Tables, merged: Parents, i: nat, r: NodeId)
    requires Descending(g) && Stacked(ts) && Resolves(Flat(ts), merged) && i < |ts| && Endpoint(g, ts[i], r)
    ensures Endpoint(g, merged, r)
  {
    var k :| k in ts[i] && (r == Root(g, k) || r == Root(g, ts[i][k]));
    FlatHas(ts, i, k);
    var v := ts[i][k];
    assert k in merged;
    if v in Flat(ts) {
      assert v in merged;
    } else {
      assert Root(Flat(ts), k) == v && merged[k] == v;
    }
  }

  /** And an end of the merged overlay is one of some run's. */
  lemma EndFrom(g: Parents, ts: Tables, merged: Parents, r: NodeId) returns (i: nat)
    requires Descending(g) && Stacked(ts) && Resolves(Flat(ts), merged) && Endpoint(g, merged, r)
    ensures i < |ts| && Endpoint(g, ts[i], r)
  {
    var k :| k in merged && (r == Root(g, k) || r == Root(g, merged[k]));
    if r == Root(g, k) {
      i := FlatFrom(ts, k);
    } else {
      var x := RootIsStored(Flat(ts), k);
      i := FlatFrom(ts, x);
    }
  }

  lemma MergeComes(g: Parents, slice: seq<Run>, merged: Parents, r: NodeId, s: ScopeId)
    requires Descending(g) && AllExact(g, slice)
    requires Stacked(OverlayTables(slice, s)) && Resolves(BaseOverlay(slice, s), merged)
    ensures Come(g, slice, r, s) <==> Endpoint(g, merged, r)
  {
    var ts := OverlayTables(slice, s);
    if Come(g, slice, r, s) {
      var e: NodeId :| Recorded(slice, e, s) && Root(g, e) == r;
      var i :| 0 <= i < |slice| && (e, s) in slice[i].registry;
      assert ExactIn(g, slice[i], s) && MovedTo(g, slice[i], r, s);
      EndMerged(g, ts, merged, i, r);
    }
    if Endpoint(g, merged, r) {
      var i := EndFrom(g, ts, merged, r);
      assert ExactIn(g, slice[i], s) && MovedTo(g, slice[i], r, s);
      var e: NodeId :| (e, s) in slice[i].registry && Root(g, e) == r;
      assert Recorded(slice, e, s);
    }
  }

  lemma MergedExact(g: Parents, slice: seq<Run>, m: Run, s: ScopeId)
    requires Compacts(slice, m) && Onward(BaseShared(slice), g) && AllExact(g, slice)
    requires Stacked(OverlayTables(slice, s))
    ensures ExactIn(g, m, s)
  {
    var gs, merged := BaseShared(slice), OverlayOf(m.overlays, s);
    forall r ensures MovedTo(g, m, r, s) <==> Endpoint(g, merged, r) {
      MergeComes(g, slice, merged, r, s);
      if MovedTo(g, m, r, s) {
        var q: NodeId :| (q, s) in m.registry && Root(g, q) == r;
        assert Rerooted(slice, q, s);
        var e: NodeId :| Recorded(slice, e, s) && Root(gs, e) == q;
        assert Through(gs, g, e);
      }
      if Come(g, slice, r, s) {
        var e: NodeId :| Recorded(slice, e, s) && Root(g, e) == r;
        assert Through(gs, g, e) && Rerooted(slice, Root(gs, e), s);
      }
    }
  }

  lemma SliceOnward(runs: seq<Run>, lo: nat, hi: nat)
    requires Stacked(SharedTables(runs)) && Descending(BaseShared(runs)) && lo <= hi <= |runs|
    ensures Onward(BaseShared(runs[lo..hi]), BaseShared(runs))
  {
    var ts, slice := SharedTables(runs), runs[lo..hi];
    assert SharedTables(slice) == ts[lo..hi];
    SliceStacked(ts, lo, hi);
    SliceSubMap(ts, lo, hi);
    forall x ensures Through(BaseShared(slice), BaseShared(runs), x) {
      SubMapRoot(BaseShared(slice), BaseShared(runs), x);
    }
  }

  lemma MergeKeepsExact(runs: seq<Run>, lo: nat, hi: nat, m: Run)
    requires BaseInv(runs) && lo < hi <= |runs| && Compacts(runs[lo..hi], m) && ExactStack(runs)
    ensures ExactStack(Spliced(runs, lo, hi, m))
  {
    var out, slice, g := Spliced(runs, lo, hi, m), runs[lo..hi], BaseShared(runs);
    SliceOnward(runs, lo, hi);
    assert AllExact(g, slice);
    forall i, s | 0 <= i < |out| ensures ExactIn(g, out[i], s) {
      if i == lo {
        assert BaseScopeInv(runs, s);
        SplicedTables(runs, lo, hi, m, s);
        SliceStacked(OverlayTables(runs, s), lo, hi);
        MergedExact(g, slice, m, s);
      } else {
        assert ExactIn(g, runs[if i < lo then i else i + hi - lo - 1], s);
      }
    }
    SplicedMaps(runs, lo, hi, m, GLOBAL_SCOPE);
    SameOnward(g, BaseShared(out));
    AllOnward(g, BaseShared(out), out);
  }

  // --- a merge of everything is a fold of everything ---------------------------------------------

  lemma BareEmits(base: Parents, table: Parents)
    requires Descending(base)
    ensures Folds.Emitted(base + map[], FoldKeys(base, map[], true), table) <==> Resolves(base, table)
  {
    EmptyMem(base);
  }

  lemma RegistryFolds(runs: seq<Run>, m: Run)
    requires BaseInv(runs) && ExactStack(runs)
    requires forall s :: Resolves(BaseOverlay(runs, s), OverlayOf(m.overlays, s))
    ensures FoldsRegistry(BaseShared(runs), m)
       <==> forall r: NodeId, s: ScopeId :: (r, s) in m.registry <==> Rerooted(runs, r, s)
  {
    var g := BaseShared(runs);
    forall r: NodeId, s: ScopeId ensures Rerooted(runs, r, s) <==> Endpoint(g, OverlayOf(m.overlays, s), r) {
      assert BaseScopeInv(runs, s);
      MergeComes(g, runs, OverlayOf(m.overlays, s), r, s);
    }
  }

  lemma SharedFolds(runs: seq<Run>, m: Run)
    requires BaseInv(runs)
    ensures Shared(OnlyRuns(runs)) == BaseShared(runs)
    ensures FoldsShared(OnlyRuns(runs), m, true) <==> Resolves(BaseShared(runs), m.shared)
  {
    EmptyMem(BaseShared(runs));
    BareEmits(BaseShared(runs), m.shared);
  }

  lemma OverlayFolds(runs: seq<Run>, m: Run, s: ScopeId)
    requires BaseInv(runs)
    ensures FoldsOverlay(OnlyRuns(runs), m, true, s) <==> Resolves(BaseOverlay(runs, s), OverlayOf(m.overlays, s))
  {
    assert BaseScopeInv(runs, s);
    BareEmits(BaseOverlay(runs, s), OverlayOf(m.overlays, s));
  }

  lemma CompactedFolds(runs: seq<Run>, m: Run)
    requires BaseInv(runs) && ExactStack(runs) && Compacts(runs, m)
    ensures FoldsTo(OnlyRuns(runs), m, true)
  {
    SharedFolds(runs, m);
    RegistryFolds(runs, m);
    forall s ensures FoldsOverlay(OnlyRuns(runs), m, true, s) {
      OverlayFolds(runs, m, s);
    }
  }

  lemma FoldedCompacts(runs: seq<Run>, m: Run)
    requires BaseInv(runs) && ExactStack(runs) && FoldsTo(OnlyRuns(runs), m, true)
    ensures Compacts(runs, m)
  {
    SharedFolds(runs, m);
    forall s ensures Resolves(BaseOverlay(runs, s), OverlayOf(m.overlays, s)) {
      assert FoldsOverlay(OnlyRuns(runs), m, true, s);
      OverlayFolds(runs, m, s);
    }
    RegistryFolds(runs, m);
  }

  /** What merging a whole stack writes is what folding it out self-contained does, and the other way. */
  lemma CompactsIffFolds(runs: seq<Run>, m: Run)
    requires BaseInv(runs) && ExactStack(runs)
    ensures Compacts(runs, m) <==> FoldsTo(OnlyRuns(runs), m, true)
  {
    if Compacts(runs, m) {
      CompactedFolds(runs, m);
    }
    if FoldsTo(OnlyRuns(runs), m, true) {
      FoldedCompacts(runs, m);
    }
  }
}

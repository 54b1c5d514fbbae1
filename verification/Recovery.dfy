/**
 What a restart gets back. In every reachable state of the worker each committed
 snapshot's runs hold every record at or below its position, and nothing that was
 never applied; so a worker that has caught up with the log, after any number of
 crashes, answers as one that was never interrupted.
 */
module Recovery {
  import opened Types
  import opened Graph
  import opened ParentForest
  import opened Layers
  import opened ForestState
  import opened Folds
  import Hydration
  import opened Events
  import opened Streams
  import opened Ingest
  import opened RunLists
  import opened Protocol

  ghost function EventsFrom(records: set<Record>): set<EdgeEvent> {
    set r | r in records :: r.event
  }

  /** A forest on exactly these records. */
  ghost predicate ServesAs(t: Tier, records: set<Record>, u: Unfold) {
    Serves(t, EventsFrom(records))
  }

  ghost predicate ServesRecords(t: Tier, records: set<Record>) {
    forall u :: ServesAs(t, records, u)
  }

  // --- the invariant ------------------------------------------------------------------------

  ghost predicate SnapshotOk(log: set<Record>, ever: set<Record>, s: Snapshot) {
    ServesRecords(OnRuns(s.stack), s.contains) && UpTo(log, s.position) <= s.contains <= ever
  }

  /** The forest holds what was applied, and its runs what was folded. */
  ghost predicate ForestOk(w: Worker) {
    && ServesRecords(w.tier, w.applied)
    && (w.disk ==> w.tier.runs == Contents(w.local) && ServesRecords(OnRuns(w.local), w.folded))
  }

  /** Everything at or below the position is applied; committed positions are behind it. */
  ghost predicate PositionOk(log: set<Record>, ever: set<Record>, committed: Position, w: Worker) {
    && UpTo(log, w.position) <= w.applied <= ever
    && Dominates(w.position, committed)
    && (w.disk ==> UpTo(log, committed) <= w.folded <= ever)
    && (w.inHand.Some? ==> w.inHand.value in w.applied && IsNext(log, w.position, w.inHand.value))
  }

  ghost predicate BufferOk(w: Worker) {
    && (forall r | r in w.held.active :: Covers(w.position, r))
    && forall i, r | 0 <= i < |w.held.sealed| && r in w.held.sealed[i] :: Covers(w.position, r)
  }

  /** What is about to be committed holds all its position will claim. */
  ghost predicate PhaseOk(log: set<Record>, ever: set<Record>, committed: Position, w: Worker) {
    w.phase.Folded? ==>
      && ServesRecords(OnRuns(w.phase.stack), w.phase.contains)
      && (w.disk ==> w.phase.stack == w.local && w.phase.contains == w.folded)
      && UpTo(log, Reached(committed, w.held.sealed)) <= w.phase.contains <= ever
  }

  /** Run files are written once: the same file has the same contents and span. */
  ghost predicate SameFile(a: LocalRun, b: LocalRun) {
    a.id == b.id ==> a.content == b.content && a.min == b.min && a.max == b.max
  }

  ghost predicate MergeOk(w: Worker) {
    w.pending.Merging? ==>
      && w.disk && Compacts(Contents(w.pending.inputs), w.pending.output)
      && forall i, j | 0 <= i < |w.pending.inputs| && 0 <= j < |w.local| :: SameFile(w.pending.inputs[i], w.local[j])
  }

  /** Distinct files, all written already. */
  ghost predicate Written(files: nat, stack: seq<LocalRun>) {
    && (forall i | 0 <= i < |stack| :: stack[i].id < files)
    && forall i, j | 0 <= i < j < |stack| :: stack[i].id != stack[j].id
  }

  ghost predicate FilesOk(files: nat, w: Worker) {
    && Written(files, w.local)
    && (w.pending.Merging? ==> Written(files, w.pending.inputs))
    && (w.phase.Folded? ==> Written(files, w.phase.stack))
  }

  datatype Aspect = TheForest | ThePosition | TheBuffer | ThePhase | TheMerge | TheFiles

  ghost predicate Holds(log: set<Record>, m: Machine, w: Worker, a: Aspect) {
    match a
    case TheForest => ForestOk(w)
    case ThePosition => PositionOk(log, m.ever, LatestPosition(m.catalog), w)
    case TheBuffer => BufferOk(w)
    case ThePhase => PhaseOk(log, m.ever, LatestPosition(m.catalog), w)
    case TheMerge => MergeOk(w)
    case TheFiles => FilesOk(m.files, w)
  }

  ghost predicate WorkerOk(log: set<Record>, m: Machine, w: Worker) {
    forall a :: Holds(log, m, w, a)
  }

  ghost predicate CatalogHolds(log: set<Record>, ever: set<Record>, files: nat, catalog: seq<Snapshot>) {
    && ever <= log
    && forall i | 0 <= i < |catalog| :: SnapshotOk(log, ever, catalog[i]) && Written(files, catalog[i].stack)
  }

  ghost predicate CatalogOk(log: set<Record>, m: Machine) {
    CatalogHolds(log, m.ever, m.files, m.catalog)
  }

  ghost predicate Inv(log: set<Record>, m: Machine) {
    CatalogOk(log, m) && (m.up.Some? ==> WorkerOk(log, m, m.up.value))
  }

  // --- forests ---------------------------------------------------------------------------------

  lemma ApplyServes(t: Tier, t': Tier, records: set<Record>, r: Record)
    requires ServesRecords(t, records) && Events.Applied(t, t', r.event)
    ensures ServesRecords(t', records + {r})
  {
    assert ServesAs(t, records, Unfolded);
    StepServes(t, t', Apply(r.event), EventsFrom(records));
    EventsFromAdd(records, r);
  }

  lemma EventsFromAdd(records: set<Record>, r: Record)
    ensures EventsFrom(records + {r}) == EventsFrom(records) + {r.event}
  {
  }

  lemma FoldServes(t: Tier, run: Run, full: bool, records: set<Record>)
    requires ServesRecords(t, records) && FoldsTo(t, run, full)
    ensures ServesRecords(Folds.Folded(t, run, full), records)
  {
    assert ServesAs(t, records, Unfolded);
    StepServes(t, Folds.Folded(t, run, full), if full then FoldAll(run) else FoldDelta(run), EventsFrom(records));
  }

  lemma SpliceServes(t: Tier, lo: nat, hi: nat, slice: seq<Run>, m: Run, records: set<Record>)
    requires ServesRecords(t, records) && lo < hi <= |t.runs| && slice == t.runs[lo..hi] && Compacts(slice, m)
    ensures ServesRecords(t.(runs := Spliced(t.runs, lo, hi, m)), records)
  {
    var runs := Spliced(t.runs, lo, hi, m);
    assert ServesAs(t, records, Unfolded) && BaseInv(t.runs);
    SpliceEquivalent(t.runs, lo, hi, m);
    StepServes(t, t.(runs := runs), SwapRuns(runs), EventsFrom(records));
  }

  lemma RestoreServes(stack: seq<LocalRun>, disk: bool, t: Tier, records: set<Record>)
    requires ServesRecords(OnRuns(stack), records) && Restored(stack, disk, t)
    ensures ServesRecords(t, records)
  {
    assert ServesAs(OnRuns(stack), records, Unfolded);
    if !disk {
      var eg, es :| TierInv(OnRuns(stack), eg, es) && HoldsEdges(eg, es, EventsFrom(records));
      Hydration.HydratedInv(Contents(stack), t, eg, es);
    }
  }

  lemma EmptyServes()
    ensures ServesRecords(EMPTY, {}) && ServesRecords(OnRuns([]), {})
  {
    EmptyInv();
    assert HoldsEdges({}, map[], EventsFrom({}));
    assert OnRuns([]) == EMPTY;
  }

  // --- positions -----------------------------------------------------------------------------------

  /** A worker position that covers the held records covers what their commit claims. */
  lemma ReachedCovered(position: Position, committed: Position, batches: seq<seq<Record>>)
    requires Dominates(position, committed)
    requires forall i, r | 0 <= i < |batches| && r in batches[i] :: Covers(position, r)
    ensures Dominates(position, Reached(committed, batches))
  {
    if batches != [] {
      var front, last := batches[..|batches| - 1], batches[|batches| - 1];
      ReachedCovered(position, committed, front);
      DominatesExtent(position, last);
      MergedIsJoin(Reached(committed, front), Extent(last), position);
    }
  }

  lemma UpToMonotone(log: set<Record>, p: Position, q: Position)
    requires Dominates(q, p)
    ensures UpTo(log, p) <= UpTo(log, q)
  {
    DominatesEverywhere(q, p);
  }

  // --- the ingest thread --------------------------------------------------------------------------

  lemma EverGrows(log: set<Record>, m: Machine, ever: set<Record>)
    requires Inv(log, m) && m.ever <= ever <= log
    ensures Inv(log, m.(ever := ever))
  {
    var m' := m.(ever := ever);
    forall i | 0 <= i < |m'.catalog| ensures SnapshotOk(log, m'.ever, m'.catalog[i]) {
      assert SnapshotOk(log, m.ever, m.catalog[i]);
    }
    if m.up.Some? {
      forall a ensures Holds(log, m', m.up.value, a) {
        assert Holds(log, m, m.up.value, a);
      }
    }
  }

  lemma DeliverKeeps(log: set<Record>, m: Machine, r: Record, tier: Tier)
    requires Inv(log, m) && m.up.Some? && CanDeliver(log, m.up.value, r, tier)
    requires !Covers(m.up.value.position, r)
    ensures Inv(log, Next(log, m, Deliver(r, tier)))
  {
    var w, m1 := m.up.value, m.(ever := m.ever + {r});
    EverGrows(log, m, m1.ever);
    assert Holds(log, m1, w, TheForest);
    DeliverForest(w, r, tier);
    DeliverWorker(log, m1, w, r, tier);
  }

  lemma DeliverWorker(log: set<Record>, m: Machine, w: Worker, r: Record, tier: Tier)
    requires WorkerOk(log, m, w) && r in m.ever && IsNext(log, w.position, r)
    requires ForestOk(w.(tier := tier, applied := w.applied + {r}, inHand := Some(r)))
    ensures WorkerOk(log, m.(up := Some(Delivered(w, r, tier))), Delivered(w, r, tier))
  {
    var w' := Delivered(w, r, tier);
    var m' := m.(up := Some(w'));
    forall a ensures Holds(log, m', w', a) {
      assert Holds(log, m, w, a);
    }
  }

  lemma DeliverForest(w: Worker, r: Record, tier: Tier)
    requires ForestOk(w) && Events.Applied(w.tier, tier, r.event)
    ensures ForestOk(w.(tier := tier, applied := w.applied + {r}, inHand := Some(r)))
  {
    ApplyServes(w.tier, tier, w.applied, r);
    AppliedKeepsRuns(w.tier, tier, r.event);
  }

  /** Applying writes the memtable only. */
  lemma AppliedKeepsRuns(t: Tier, t': Tier, e: EdgeEvent)
    requires Events.Applied(t, t', e)
    ensures t'.runs == t.runs
  {
    if Normalize(e.visibility).Scoped? {
      ScopesKeepRuns(t, t', e.src, e.dst, Normalize(e.visibility).scopes);
    }
  }

  lemma {:induction false} ScopesKeepRuns(t: Tier, t': Tier, u: NodeId, v: NodeId, scopes: seq<ScopeId>)
    requires AppliedToScopes(t, t', u, v, scopes)
    ensures t'.runs == t.runs
    decreases |scopes|
  {
    if scopes != [] {
      var front, last := scopes[..|scopes| - 1], scopes[|scopes| - 1];
      var mid :| AppliedToScopes(t, mid, u, v, front) && ScopedApplied(mid, t', u, v, last);
      ScopesKeepRuns(t, mid, u, v, front);
    }
  }

  lemma AppendKeeps(log: set<Record>, m: Machine)
    requires IsLog(log) && Inv(log, m) && m.up.Some? && m.up.value.inHand.Some?
    ensures Inv(log, Next(log, m, Append))
  {
    var w, m' := m.up.value, Next(log, m, Append);
    var w', r := m'.up.value, w.inHand.value;
    assert Holds(log, m, w, ThePosition);
    NextCovered(log, w.position, r);
    AdvanceDominates(w.position, r);
    DominatesTransitive(w'.position, w.position, LatestPosition(m.catalog));
    forall a ensures Holds(log, m', w', a) {
      assert Holds(log, m, w, a);
    }
  }

  lemma AdvanceDominates(p: Position, r: Record)
    ensures Dominates(Advance(p, r.partition, r.offset), p)
    ensures forall q | Covers(p, q) :: Covers(Advance(p, r.partition, r.offset), q)
  {
  }

  lemma QueryKeeps(log: set<Record>, m: Machine, tier: Tier)
    requires Inv(log, m) && m.up.Some? && Compressed(m.up.value.tier, tier)
    ensures Inv(log, Next(log, m, Event.Query(tier)))
  {
    var w, m' := m.up.value, Next(log, m, Event.Query(tier));
    assert Holds(log, m, w, TheForest);
    assert ServesAs(w.tier, w.applied, Unfolded);
    StepServes(w.tier, tier, Step.Query, EventsFrom(w.applied));
    forall a ensures Holds(log, m', m'.up.value, a) {
      assert Holds(log, m, w, a);
    }
  }

  // --- the flush thread ------------------------------------------------------------------------------

  lemma {:induction false} UndurableFrom(batches: seq<seq<Record>>, p: Position, i: nat) returns (j: nat)
    requires i < |Undurable(batches, p)|
    ensures j < |batches| && batches[j] == Undurable(batches, p)[i]
    ensures !Dominates(p, Extent(batches[j]))
  {
    var front := batches[..|batches| - 1];
    if i < |Undurable(front, p)| {
      j := UndurableFrom(front, p, i);
    } else {
      j := |batches| - 1;
    }
  }

  lemma StartTickKeeps(log: set<Record>, m: Machine, w: Worker)
    requires WorkerOk(log, m, w)
    ensures WorkerOk(log, m, Started(w, LatestPosition(m.catalog)))
  {
    var w', sealed := Started(w, LatestPosition(m.catalog)), Sealed(w.held);
    assert Holds(log, m, w, TheBuffer);
    forall i, r | 0 <= i < |w'.held.sealed| && r in w'.held.sealed[i] ensures Covers(w.position, r) {
      var j := UndurableFrom(sealed.sealed, LatestPosition(m.catalog), i);
    }
    forall a ensures Holds(log, m, w', a) {
      assert Holds(log, m, w, a);
    }
  }

  lemma PlanKeeps(log: set<Record>, m: Machine, w: Worker, lo: nat, hi: nat, output: Run)
    requires WorkerOk(log, m, w) && CanPlan(w, lo, hi, output)
    ensures WorkerOk(log, m, w.(pending := Merging(w.local[lo..hi], output)))
  {
    var w' := w.(pending := Merging(w.local[lo..hi], output));
    assert Holds(log, m, w, TheFiles);
    forall a ensures Holds(log, m, w', a) {
      assert Holds(log, m, w, a);
    }
  }

  lemma RestKeeps(log: set<Record>, m: Machine, w: Worker, pending: Pending, phase: Phase)
    requires WorkerOk(log, m, w)
    requires pending == w.pending || pending == NoMerge
    requires phase == w.phase || phase == Resting
    ensures WorkerOk(log, m, w.(pending := pending, phase := phase))
  {
    var w' := w.(pending := pending, phase := phase);
    forall a ensures Holds(log, m, w', a) {
      assert Holds(log, m, w, a);
    }
  }

  // --- folding and committing ----------------------------------------------------------------------------

  lemma FoldedStack(w: Worker, run: Run, id: nat, sequence: nat)
    requires w.disk ==> w.tier.runs == Contents(w.local)
    ensures OnRuns(FoldedOut(w, run, id, sequence).phase.stack)
         == Folds.Folded(w.tier, run, !w.disk || w.local == [] || !AllCommitted(w.local))
  {
    var stack := FoldedOut(w, run, id, sequence).phase.stack;
    var full := !w.disk || w.local == [] || !AllCommitted(w.local);
    assert Contents(stack) == Folds.Folded(w.tier, run, full).runs;
  }

  lemma FoldForest(w: Worker, run: Run, id: nat, sequence: nat)
    requires ForestOk(w) && CanFold(w, run)
    ensures var w' := FoldedOut(w, run, id, sequence);
      ForestOk(w') && ServesRecords(OnRuns(w'.phase.stack), w.applied)
  {
    var full := !w.disk || w.local == [] || !AllCommitted(w.local);
    FoldServes(w.tier, run, full, w.applied);
    FoldedStack(w, run, id, sequence);
  }

  lemma FoldKeeps(log: set<Record>, m: Machine, w: Worker, run: Run)
    requires WorkerOk(log, m, w) && CanFold(w, run)
    ensures WorkerOk(log, m.(files := m.files + 1), FoldedOut(w, run, m.files, |m.catalog| + 1))
  {
    var w', m' := FoldedOut(w, run, m.files, |m.catalog| + 1), m.(files := m.files + 1);
    var committed := LatestPosition(m.catalog);
    assert Holds(log, m, w, TheForest) && Holds(log, m, w, ThePosition) && Holds(log, m, w, TheBuffer);
    FoldForest(w, run, m.files, |m.catalog| + 1);
    ReachedCovered(w.position, committed, w.held.sealed);
    UpToMonotone(log, Reached(committed, w.held.sealed), w.position);
    UpToMonotone(log, committed, w.position);
    FoldRest(log, m, w, run);
  }

  lemma FoldRest(log: set<Record>, m: Machine, w: Worker, run: Run)
    requires WorkerOk(log, m, w)
    requires var w' := FoldedOut(w, run, m.files, |m.catalog| + 1);
      ForestOk(w') && ServesRecords(OnRuns(w'.phase.stack), w.applied)
    requires UpTo(log, Reached(LatestPosition(m.catalog), w.held.sealed)) <= w.applied
    requires UpTo(log, LatestPosition(m.catalog)) <= w.applied
    ensures WorkerOk(log, m.(files := m.files + 1), FoldedOut(w, run, m.files, |m.catalog| + 1))
  {
    var w', m' := FoldedOut(w, run, m.files, |m.catalog| + 1), m.(files := m.files + 1);
    assert Holds(log, m, w, ThePosition) && Holds(log, m, w, TheFiles);
    forall a ensures Holds(log, m', w', a) {
      assert Holds(log, m, w, a);
    }
  }

  lemma CatalogGrows(log: set<Record>, m: Machine, s: Snapshot, files: nat)
    requires CatalogOk(log, m) && m.files <= files && SnapshotOk(log, m.ever, s) && Written(files, s.stack)
    ensures CatalogOk(log, m.(catalog := m.catalog + [s], files := files))
  {
    var m' := m.(catalog := m.catalog + [s], files := files);
    forall i | 0 <= i < |m'.catalog|
      ensures SnapshotOk(log, m'.ever, m'.catalog[i]) && Written(m'.files, m'.catalog[i].stack)
    {
      assert i < |m.catalog| ==> SnapshotOk(log, m.ever, m.catalog[i]) && Written(m.files, m.catalog[i].stack);
    }
  }

  /** What the commit publishes is what the fold left, at a position the worker has reached. */
  lemma CommitPublishes(log: set<Record>, m: Machine, w: Worker)
    requires CatalogOk(log, m) && WorkerOk(log, m, w) && w.phase.Folded?
    ensures var s := DataSnapshot(w, LatestPosition(m.catalog));
      CatalogOk(log, m.(catalog := m.catalog + [s])) && Dominates(w.position, s.position)
  {
    var s := DataSnapshot(w, LatestPosition(m.catalog));
    assert Holds(log, m, w, ThePhase) && Holds(log, m, w, TheFiles);
    assert Holds(log, m, w, ThePosition) && Holds(log, m, w, TheBuffer);
    ReachedCovered(w.position, LatestPosition(m.catalog), w.held.sealed);
    CatalogGrows(log, m, s, m.files);
  }

  lemma CommitRests(log: set<Record>, m: Machine, w: Worker)
    requires CatalogOk(log, m) && WorkerOk(log, m, w) && w.phase.Folded?
    ensures var s := DataSnapshot(w, LatestPosition(m.catalog));
      WorkerOk(log, m.(catalog := m.catalog + [s]), w.(phase := Resting))
  {
    var s := DataSnapshot(w, LatestPosition(m.catalog));
    var m', w' := m.(catalog := m.catalog + [s]), w.(phase := Resting);
    CommitPublishes(log, m, w);
    assert LatestPosition(m'.catalog) == s.position;
    assert Holds(log, m, w, ThePhase);
    forall a ensures Holds(log, m', w', a) {
      assert Holds(log, m, w, a);
    }
  }

  /** A resting worker may drop segments and note that its newest run is committed. */
  lemma DropKeeps(log: set<Record>, m: Machine, w: Worker, position: Position)
    requires WorkerOk(log, m, w) && w.phase.Resting?
    ensures WorkerOk(log, m, AfterCommit(w, position))
  {
    var w' := AfterCommit(w, position);
    assert Contents(w'.local) == Contents(w.local);
    assert Holds(log, m, w, TheBuffer);
    forall i, r | 0 <= i < |w'.held.sealed| && r in w'.held.sealed[i] ensures Covers(w.position, r) {
      var j := UndurableFrom(w.held.sealed, position, i);
    }
    forall a ensures Holds(log, m, w', a) {
      assert Holds(log, m, w, a);
    }
  }

  // --- adopting a merge ---------------------------------------------------------------------------------------

  /** The located window still holds what the merge read, so its output compacts it. */
  lemma WindowContents(local: seq<LocalRun>, inputs: seq<LocalRun>, at: nat)
    requires Located(local, inputs, at)
    requires forall i, j | 0 <= i < |inputs| && 0 <= j < |local| :: SameFile(inputs[i], local[j])
    ensures Contents(local)[at..at + |inputs|] == Contents(inputs)
  {
    forall i | 0 <= i < |inputs| ensures Contents(local)[at + i] == Contents(inputs)[i] {
      assert SameFile(inputs[i], local[at + i]);
    }
  }

  lemma AdoptedContents(local: seq<LocalRun>, p: Pending, at: nat, id: nat, sequence: nat)
    requires p.Merging? && Located(local, p.inputs, at)
    ensures Contents(Adopted(local, p, at, id, sequence)) == Spliced(Contents(local), at, at + |p.inputs|, p.output)
  {
  }

  lemma AdoptedServes(t: Tier, local: seq<LocalRun>, p: Pending, at: nat, id: nat, sequence: nat, records: set<Record>)
    requires ServesRecords(t, records) && t.runs == Contents(local) && p.Merging? && Located(local, p.inputs, at)
    requires Compacts(Contents(p.inputs), p.output)
    requires Contents(local)[at..at + |p.inputs|] == Contents(p.inputs)
    ensures ServesRecords(t.(runs := Contents(Adopted(local, p, at, id, sequence))), records)
  {
    AdoptedContents(local, p, at, id, sequence);
    SpliceServes(t, at, at + |p.inputs|, Contents(p.inputs), p.output, records);
  }

  lemma AdoptForest(w: Worker, at: nat, id: nat, sequence: nat)
    requires ForestOk(w) && MergeOk(w) && CanAdopt(w, at) && w.disk
    ensures var local := Adopted(w.local, w.pending, at, id, sequence);
      && ServesRecords(OnRuns(local), w.folded)
      && ForestOk(w.(local := local, tier := w.tier.(runs := Contents(local)), pending := NoMerge))
  {
    WindowContents(w.local, w.pending.inputs, at);
    AdoptedServes(w.tier, w.local, w.pending, at, id, sequence, w.applied);
    AdoptedServes(OnRuns(w.local), w.local, w.pending, at, id, sequence, w.folded);
  }

  lemma AdoptedWritten(local: seq<LocalRun>, p: Pending, at: nat, files: nat, sequence: nat)
    requires p.Merging? && Located(local, p.inputs, at) && Written(files, local)
    ensures Written(files + 1, Adopted(local, p, at, files, sequence))
  {
  }

  lemma AdoptPublishes(log: set<Record>, m: Machine, w: Worker, at: nat)
    requires CatalogOk(log, m) && WorkerOk(log, m, w) && CanAdopt(w, at) && w.disk
    ensures var local := Adopted(w.local, w.pending, at, m.files, |m.catalog| + 1);
      CatalogOk(log, m.(catalog := m.catalog + [MergeSnapshot(w, local, LatestPosition(m.catalog))],
                        files := m.files + 1))
  {
    var local := Adopted(w.local, w.pending, at, m.files, |m.catalog| + 1);
    assert Holds(log, m, w, TheForest) && Holds(log, m, w, TheMerge);
    assert Holds(log, m, w, ThePosition) && Holds(log, m, w, TheFiles);
    AdoptForest(w, at, m.files, |m.catalog| + 1);
    AdoptedWritten(w.local, w.pending, at, m.files, |m.catalog| + 1);
    CatalogGrows(log, m, MergeSnapshot(w, local, LatestPosition(m.catalog)), m.files + 1);
  }

  /** Publishing at the same position leaves a worker that is between ticks as it was. */
  lemma SamePosition(log: set<Record>, m: Machine, m': Machine, w: Worker)
    requires WorkerOk(log, m, w) && m'.ever == m.ever && m.files <= m'.files
    requires LatestPosition(m'.catalog) == LatestPosition(m.catalog)
    ensures WorkerOk(log, m', w)
  {
    forall a ensures Holds(log, m', w, a) {
      assert Holds(log, m, w, a);
    }
  }

  lemma AdoptWorker(log: set<Record>, m: Machine, w: Worker, local: seq<LocalRun>)
    requires WorkerOk(log, m, w) && w.phase.Ready? && Written(m.files, local)
    requires ForestOk(w.(local := local, tier := w.tier.(runs := Contents(local)), pending := NoMerge))
    ensures WorkerOk(log, m, w.(local := local, tier := w.tier.(runs := Contents(local)), pending := NoMerge))
  {
    var w' := w.(local := local, tier := w.tier.(runs := Contents(local)), pending := NoMerge);
    forall a ensures Holds(log, m, w', a) {
      assert Holds(log, m, w, a);
    }
  }

  // --- starting --------------------------------------------------------------------------------------------------

  lemma StartKeeps(log: set<Record>, m: Machine, disk: bool, tier: Tier)
    requires IsLog(log) && CatalogOk(log, m) && m.up.None? && Enabled(log, m, Start(disk, tier))
    ensures Inv(log, Next(log, m, Start(disk, tier)))
  {
    var m' := Next(log, m, Start(disk, tier));
    var w' := m'.up.value;
    if m.catalog == [] {
      EmptyServes();
    } else {
      var s := m.catalog[|m.catalog| - 1];
      assert SnapshotOk(log, m.ever, s);
      RestoreServes(s.stack, disk, tier, s.contains);
      assert Contents(Opened(s.stack)) == Contents(s.stack);
    }
    assert UpTo(log, map[]) == {};
    forall a ensures Holds(log, m', w', a) {
    }
  }

  // --- every step ------------------------------------------------------------------------------------------------

  lemma CommitKeeps(log: set<Record>, m: Machine, w: Worker, verdict: Verdict)
    requires Inv(log, m) && m.up == Some(w) && w.phase.Folded? && w.held.sealed != []
    ensures Inv(log, Next(log, m, Commit(verdict)))
  {
    var m' := Next(log, m, Commit(verdict));
    if verdict.Failed? {
      RestKeeps(log, m, w, w.pending, Resting);
      SamePosition(log, m, m', m'.up.value);
    } else {
      var s := DataSnapshot(w, LatestPosition(m.catalog));
      var m1 := m.(catalog := m.catalog + [s]);
      CommitPublishes(log, m, w);
      CommitRests(log, m, w);
      DropKeeps(log, m1, w.(phase := Resting), s.position);
      SamePosition(log, m1, m', m'.up.value);
    }
  }

  lemma AdoptFails(log: set<Record>, m: Machine, w: Worker, at: nat)
    requires Inv(log, m) && m.up == Some(w) && CanAdopt(w, at)
    ensures Inv(log, Next(log, m, AdoptMerge(at, Failed)))
  {
    var m' := Next(log, m, AdoptMerge(at, Failed));
    RestKeeps(log, m, w, NoMerge, w.phase);
    SamePosition(log, m, m', m'.up.value);
  }

  lemma AdoptWins(log: set<Record>, m: Machine, w: Worker, at: nat)
    requires Inv(log, m) && m.up == Some(w) && CanAdopt(w, at)
    ensures Inv(log, Next(log, m, AdoptMerge(at, Committed)))
  {
    assert Holds(log, m, w, TheMerge);
    AdoptPublishes(log, m, w, at);
    AdoptInstalls(log, m, Next(log, m, AdoptMerge(at, Committed)), w, at);
  }

  lemma AdoptLost(log: set<Record>, m: Machine, w: Worker, at: nat)
    requires Inv(log, m) && m.up == Some(w) && CanAdopt(w, at)
    ensures Inv(log, Next(log, m, AdoptMerge(at, Lost)))
  {
    assert Holds(log, m, w, TheMerge);
    AdoptPublishes(log, m, w, at);
    AdoptRests(log, m, Next(log, m, AdoptMerge(at, Lost)), w);
  }

  lemma AdoptRests(log: set<Record>, m: Machine, m': Machine, w: Worker)
    requires WorkerOk(log, m, w) && m'.ever == m.ever && m'.files == m.files + 1
    requires LatestPosition(m'.catalog) == LatestPosition(m.catalog)
    ensures WorkerOk(log, m', w.(pending := NoMerge, phase := Resting))
  {
    RestKeeps(log, m, w, NoMerge, Resting);
    SamePosition(log, m, m', w.(pending := NoMerge, phase := Resting));
  }

  lemma AdoptInstalls(log: set<Record>, m: Machine, m': Machine, w: Worker, at: nat)
    requires WorkerOk(log, m, w) && CanAdopt(w, at)
    requires m'.ever == m.ever && m'.files == m.files + 1
    requires LatestPosition(m'.catalog) == LatestPosition(m.catalog)
    ensures var local := Adopted(w.local, w.pending, at, m.files, |m.catalog| + 1);
      WorkerOk(log, m', w.(local := local, tier := w.tier.(runs := Contents(local)), pending := NoMerge))
  {
    var local := Adopted(w.local, w.pending, at, m.files, |m.catalog| + 1);
    assert Holds(log, m, w, TheForest) && Holds(log, m, w, TheMerge) && Holds(log, m, w, TheFiles);
    SamePosition(log, m, m', w);
    AdoptForest(w, at, m.files, |m.catalog| + 1);
    AdoptedWritten(w.local, w.pending, at, m.files, |m.catalog| + 1);
    AdoptWorker(log, m', w, local);
  }

  lemma FoldEventKeeps(log: set<Record>, m: Machine, w: Worker, run: Run)
    requires Inv(log, m) && m.up == Some(w) && CanFold(w, run)
    ensures Inv(log, Next(log, m, Fold(run)))
  {
    var m' := Next(log, m, Fold(run));
    FoldKeeps(log, m, w, run);
    SamePosition(log, m.(files := m.files + 1), m', m'.up.value);
  }

  lemma EventKeeps(log: set<Record>, m: Machine, e: Event)
    requires IsLog(log) && Inv(log, m) && Enabled(log, m, e)
    ensures Inv(log, Next(log, m, e))
  {
    if e.Start? {
      StartKeeps(log, m, e.disk, e.tier);
    } else {
      var w := m.up.value;
      match e
      case Deliver(r, tier) =>
        if !Covers(w.position, r) {
          DeliverKeeps(log, m, r, tier);
        }
      case Append => AppendKeeps(log, m);
      case Query(tier) => QueryKeeps(log, m, tier);
      case AdoptMerge(at, verdict) =>
        match verdict {
          case Failed => AdoptFails(log, m, w, at);
          case Committed => AdoptWins(log, m, w, at);
          case Lost => AdoptLost(log, m, w, at);
        }
      case Fold(run) => FoldEventKeeps(log, m, w, run);
      case Commit(verdict) => CommitKeeps(log, m, w, verdict);
      case Crash =>
      case _ => QuietKeeps(log, m, w, e);
    }
  }

  lemma QuietKeeps(log: set<Record>, m: Machine, w: Worker, e: Event)
    requires Inv(log, m) && m.up == Some(w) && Enabled(log, m, e)
    requires e.StartTick? || e.PlanMerge? || e.DropMerge? || e.EndTick?
    ensures Inv(log, Next(log, m, e))
  {
    var m' := Next(log, m, e);
    match e {
      case StartTick => StartTickKeeps(log, m, w);
      case PlanMerge(lo, hi, output) => PlanKeeps(log, m, w, lo, hi, output);
      case DropMerge => RestKeeps(log, m, w, NoMerge, w.phase);
      case EndTick => RestKeeps(log, m, w, w.pending, Resting);
    }
    SamePosition(log, m, m', m'.up.value);
  }

  lemma {:induction false} Invariant(log: set<Record>, trace: seq<Machine>, es: seq<Event>, i: nat)
    requires IsLog(log) && Protocol.Run(log, trace, es) && i <= |es|
    ensures Inv(log, trace[i])
  {
    if i > 0 {
      Invariant(log, trace, es, i - 1);
      assert Protocol.StepAt(log, trace, es, i - 1);
      EventKeeps(log, trace[i - 1], es[i - 1]);
    }
  }

  // --- what recovery promises --------------------------------------------------------------------

  /** The committed runs hold every record at or below the position, and only records once applied. */
  lemma CommittedState(log: set<Record>, trace: seq<Machine>, es: seq<Event>, i: nat, k: nat)
    requires IsLog(log) && Protocol.Run(log, trace, es) && i <= |es| && k < |trace[i].catalog|
    ensures var s := trace[i].catalog[k];
      && UpTo(log, s.position) <= s.contains <= trace[i].ever <= log
      && Serves(OnRuns(s.stack), EventsFrom(s.contains))
  {
    Invariant(log, trace, es, i);
    assert SnapshotOk(log, trace[i].ever, trace[i].catalog[k]);
    assert ServesAs(OnRuns(trace[i].catalog[k].stack), trace[i].catalog[k].contains, Unfolded);
  }

  /**
    However often it crashed and whatever was redelivered, folded, merged or lost
    on the way, a worker that has consumed the log answers every query with the
    lowest id of the component the whole log forms in that scope.
    */
  lemma CaughtUpAnswers(log: set<Record>, trace: seq<Machine>, es: seq<Event>, i: nat, scope: ScopeId, x: NodeId)
    requires IsLog(log) && Protocol.Run(log, trace, es) && i <= |es| && trace[i].up.Some?
    requires forall r | r in log :: Covers(trace[i].up.value.position, r)
    ensures var t := trace[i].up.value.tier;
      && Descending(Shared(t)) && Descending(Overlay(t, scope))
      && IsComponentMin(VisibleEdges(EventsFrom(log), scope), x, ScopeRoot(t, scope, x))
  {
    var m, w := trace[i], trace[i].up.value;
    Invariant(log, trace, es, i);
    assert Holds(log, m, w, ThePosition) && Holds(log, m, w, TheForest);
    assert UpTo(log, w.position) == log;
    assert w.applied == log;
    assert ServesAs(w.tier, log, Unfolded);
    Answer(w.tier, EventsFrom(log), scope, x);
  }
}

/**
 The worker's stacks keep their registries exact through every run of the protocol, so
 that a background merge of the whole stack always writes what the worker itself would
 have written by folding everything out while holding its lock.
 */
module Merges {
  import opened Types
  import opened Layers
  import opened ForestState
  import opened Folds
  import opened Streams
  import opened RunLists
  import opened Protocol
  import opened Registries
  import Recovery

  ghost predicate ExactAs(stack: seq<LocalRun>, u: Unfold) {
    ExactStack(Contents(stack))
  }

  ghost predicate Exact(stack: seq<LocalRun>) {
    forall u :: ExactAs(stack, u)
  }

  ghost predicate WorkerExact(w: Worker) {
    Exact(w.local) && (w.phase.Folded? ==> Exact(w.phase.stack))
  }

  ghost predicate CatalogExact(catalog: seq<Snapshot>) {
    forall i | 0 <= i < |catalog| :: Exact(catalog[i].stack)
  }

  ghost predicate Inv(m: Machine) {
    && CatalogExact(m.catalog)
    && (m.up.Some? ==> WorkerExact(m.up.value))
  }

  lemma SameContents(stack: seq<LocalRun>, stack': seq<LocalRun>)
    requires Exact(stack) && Contents(stack) == Contents(stack')
    ensures Exact(stack')
  {
    assert ExactAs(stack, Unfolded);
  }

  lemma CatalogGrows(catalog: seq<Snapshot>, s: Snapshot)
    requires CatalogExact(catalog) && Exact(s.stack)
    ensures CatalogExact(catalog + [s])
  {
  }

  lemma NothingExact()
    ensures Exact([])
  {
    assert Contents([]) == [] && SharedTables([]) == [];
  }

  // --- steps ----------------------------------------------------------------------------------

  lemma FoldServed(t: Tier, run: ForestState.Run, full: bool, records: set<Record>)
    requires Recovery.ServesRecords(t, records) && FoldsTo(t, run, full) && (full || ExactStack(t.runs))
    ensures ExactStack(Folds.Folded(t, run, full).runs)
  {
    assert Recovery.ServesAs(t, records, Unfolded);
    FoldKeepsExact(t, run, full);
  }

  /** What a fold is about to commit. */
  function FoldStack(w: Worker, run: ForestState.Run, id: nat, sequence: nat): seq<LocalRun> {
    if w.disk then Grown(w.local, run, id, sequence) else [LocalRun(id, run, sequence, sequence, false)]
  }

  lemma GrownContents(w: Worker, run: ForestState.Run, id: nat, sequence: nat)
    requires w.disk ==> w.tier.runs == Contents(w.local)
    ensures var full := !w.disk || w.local == [] || !AllCommitted(w.local);
      Contents(FoldStack(w, run, id, sequence)) == Folds.Folded(w.tier, run, full).runs
  {
  }

  lemma FoldExactly(w: Worker, run: ForestState.Run, id: nat, sequence: nat)
    requires Recovery.ForestOk(w) && CanFold(w, run) && Exact(w.local)
    ensures Exact(FoldStack(w, run, id, sequence))
  {
    assert ExactAs(w.local, Unfolded);
    FoldServed(w.tier, run, !w.disk || w.local == [] || !AllCommitted(w.local), w.applied);
    GrownContents(w, run, id, sequence);
  }

  lemma FoldNext(log: set<Record>, m: Machine, w: Worker, run: ForestState.Run)
    requires m.up == Some(w) && CanFold(w, run)
    ensures var m', stack := Next(log, m, Fold(run)), FoldStack(w, run, m.files, |m.catalog| + 1);
      && m'.catalog == m.catalog && m'.up.Some? && m'.up.value.local == (if w.disk then stack else w.local)
      && m'.up.value.phase == Folded(stack, w.applied)
  {
  }

  lemma FoldKeeps(log: set<Record>, m: Machine, w: Worker, run: ForestState.Run)
    requires Inv(m) && m.up == Some(w) && CanFold(w, run) && Exact(FoldStack(w, run, m.files, |m.catalog| + 1))
    ensures Inv(Next(log, m, Fold(run)))
  {
    FoldNext(log, m, w, run);
  }

  lemma CommitNext(log: set<Record>, m: Machine, w: Worker, verdict: Verdict)
    requires m.up == Some(w) && w.phase.Folded? && w.held.sealed != []
    ensures var m' := Next(log, m, Commit(verdict));
      && m'.up.Some? && !m'.up.value.phase.Folded? && Contents(m'.up.value.local) == Contents(w.local)
      && (m'.catalog == m.catalog || m'.catalog == m.catalog + [DataSnapshot(w, LatestPosition(m.catalog))])
  {
    assert Contents(MarkCommitted(w.local)) == Contents(w.local);
  }

  lemma CommitKeeps(log: set<Record>, m: Machine, w: Worker, verdict: Verdict)
    requires Inv(m) && m.up == Some(w) && w.phase.Folded? && w.held.sealed != []
    ensures Inv(Next(log, m, Commit(verdict)))
  {
    CommitNext(log, m, w, verdict);
    SameContents(w.local, Next(log, m, Commit(verdict)).up.value.local);
    CatalogGrows(m.catalog, DataSnapshot(w, LatestPosition(m.catalog)));
  }

  lemma SpliceServed(runs: seq<ForestState.Run>, lo: nat, hi: nat, m: ForestState.Run, t: Tier, records: set<Record>)
    requires Recovery.ServesRecords(t, records) && t.runs == runs && ExactStack(runs)
    requires lo < hi <= |runs| && Compacts(runs[lo..hi], m)
    ensures ExactStack(Spliced(runs, lo, hi, m))
  {
    assert Recovery.ServesAs(t, records, Unfolded);
    MergeKeepsExact(runs, lo, hi, m);
  }

  ghost predicate CompactsAs(slice: seq<ForestState.Run>, m: ForestState.Run, u: Unfold) {
    Compacts(slice, m)
  }

  ghost predicate Compacted(slice: seq<ForestState.Run>, m: ForestState.Run) {
    forall u :: CompactsAs(slice, m, u)
  }

  lemma CompactedHere(slice: seq<ForestState.Run>, m: ForestState.Run, here: seq<ForestState.Run>)
    requires Compacts(slice, m) && here == slice
    ensures Compacted(here, m)
  {
  }

  /** What the merge read is still there. */
  lemma AdoptWindow(w: Worker, at: nat)
    requires Recovery.MergeOk(w) && CanAdopt(w, at)
    ensures w.disk && Compacted(Contents(w.local)[at..at + |w.pending.inputs|], w.pending.output)
  {
    Recovery.WindowContents(w.local, w.pending.inputs, at);
    CompactedHere(Contents(w.pending.inputs), w.pending.output, Contents(w.local)[at..at + |w.pending.inputs|]);
  }

  lemma SplicedExactly(stack: seq<LocalRun>, stack': seq<LocalRun>, lo: nat, hi: nat, m: ForestState.Run,
                       records: set<Record>)
    requires Recovery.ServesRecords(OnRuns(stack), records) && Exact(stack) && lo < hi <= |stack|
    requires Compacted(Contents(stack)[lo..hi], m) && Contents(stack') == Spliced(Contents(stack), lo, hi, m)
    ensures Exact(stack')
  {
    assert ExactAs(stack, Unfolded) && CompactsAs(Contents(stack)[lo..hi], m, Unfolded);
    SpliceServed(Contents(stack), lo, hi, m, OnRuns(stack), records);
  }

  lemma AdoptExactly(w: Worker, at: nat, id: nat, sequence: nat)
    requires w.disk && Recovery.ServesRecords(OnRuns(w.local), w.folded) && CanAdopt(w, at) && Exact(w.local)
    requires Compacted(Contents(w.local)[at..at + |w.pending.inputs|], w.pending.output)
    ensures Exact(Adopted(w.local, w.pending, at, id, sequence))
  {
    var local, n := Adopted(w.local, w.pending, at, id, sequence), |w.pending.inputs|;
    Recovery.AdoptedContents(w.local, w.pending, at, id, sequence);
    SplicedExactly(w.local, local, at, at + n, w.pending.output, w.folded);
  }

  lemma AdoptNext(log: set<Record>, m: Machine, w: Worker, at: nat, verdict: Verdict)
    requires m.up == Some(w) && CanAdopt(w, at)
    ensures var m', local := Next(log, m, AdoptMerge(at, verdict)),
                             Adopted(w.local, w.pending, at, m.files, |m.catalog| + 1);
      && m'.up.Some? && !m'.up.value.phase.Folded? && (m'.up.value.local == w.local || m'.up.value.local == local)
      && (m'.catalog == m.catalog || m'.catalog == m.catalog + [MergeSnapshot(w, local, LatestPosition(m.catalog))])
  {
  }

  lemma AdoptKeeps(log: set<Record>, m: Machine, w: Worker, at: nat, verdict: Verdict)
    requires Inv(m) && m.up == Some(w) && CanAdopt(w, at)
    requires Exact(Adopted(w.local, w.pending, at, m.files, |m.catalog| + 1))
    ensures Inv(Next(log, m, AdoptMerge(at, verdict)))
  {
    var local := Adopted(w.local, w.pending, at, m.files, |m.catalog| + 1);
    AdoptNext(log, m, w, at, verdict);
    CatalogGrows(m.catalog, MergeSnapshot(w, local, LatestPosition(m.catalog)));
  }

  lemma StartKeeps(log: set<Record>, m: Machine, e: Event)
    requires Inv(m) && e.Start? && Enabled(log, m, e)
    ensures Inv(Next(log, m, e))
  {
    NothingExact();
    if m.catalog != [] {
      var s := m.catalog[|m.catalog| - 1];
      assert Contents(Opened(s.stack)) == Contents(s.stack);
      SameContents(s.stack, Opened(s.stack));
    }
  }

  lemma AdoptReady(log: set<Record>, m: Machine, w: Worker, at: nat)
    requires Recovery.WorkerOk(log, m, w) && CanAdopt(w, at)
    ensures w.disk && Recovery.ServesRecords(OnRuns(w.local), w.folded)
    ensures Compacted(Contents(w.local)[at..at + |w.pending.inputs|], w.pending.output)
  {
    assert Recovery.Holds(log, m, w, Recovery.TheForest) && Recovery.Holds(log, m, w, Recovery.TheMerge);
    AdoptWindow(w, at);
  }

  lemma AdoptEvent(log: set<Record>, m: Machine, w: Worker, at: nat, verdict: Verdict)
    requires Inv(m) && m.up == Some(w) && Recovery.WorkerOk(log, m, w) && CanAdopt(w, at)
    ensures Inv(Next(log, m, AdoptMerge(at, verdict)))
  {
    AdoptReady(log, m, w, at);
    AdoptExactly(w, at, m.files, |m.catalog| + 1);
    AdoptKeeps(log, m, w, at, verdict);
  }

  lemma FoldEvent(log: set<Record>, m: Machine, w: Worker, run: ForestState.Run)
    requires Inv(m) && m.up == Some(w) && Recovery.WorkerOk(log, m, w) && CanFold(w, run)
    ensures Inv(Next(log, m, Fold(run)))
  {
    assert Recovery.Holds(log, m, w, Recovery.TheForest);
    FoldExactly(w, run, m.files, |m.catalog| + 1);
    FoldKeeps(log, m, w, run);
  }

  lemma EventKeeps(log: set<Record>, m: Machine, e: Event)
    requires Inv(m) && Recovery.Inv(log, m) && Enabled(log, m, e)
    ensures Inv(Next(log, m, e))
  {
    if e.Start? {
      StartKeeps(log, m, e);
    } else {
      var w := m.up.value;
      if e.AdoptMerge? {
        AdoptEvent(log, m, w, e.at, e.verdict);
      } else if e.Commit? {
        CommitKeeps(log, m, w, e.verdict);
      } else if e.Fold? {
        FoldEvent(log, m, w, e.run);
      }
    }
  }

  lemma StepKeeps(log: set<Record>, trace: seq<Machine>, es: seq<Event>, i: nat)
    requires |trace| == |es| + 1 && i < |es| && Protocol.StepAt(log, trace, es, i)
    requires Inv(trace[i]) && Recovery.Inv(log, trace[i])
    ensures Inv(trace[i + 1])
  {
    EventKeeps(log, trace[i], es[i]);
  }

  /** Every stack a worker serves from or publishes is exact. */
  lemma {:induction false} Invariant(log: set<Record>, trace: seq<Machine>, es: seq<Event>, i: nat)
    requires IsLog(log) && Protocol.Run(log, trace, es) && i <= |es|
    ensures Inv(trace[i])
  {
    if i > 0 {
      Invariant(log, trace, es, i - 1);
      Recovery.Invariant(log, trace, es, i - 1);
      assert Protocol.StepAt(log, trace, es, i - 1);
      StepKeeps(log, trace, es, i - 1);
    }
  }

  // --- a merge of the whole stack ---------------------------------------------------------------

  /**
    Whatever a worker went through, merging the runs it serves from writes what folding
    them out self-contained would, and nothing else does.
    */
  lemma WholeMerge(log: set<Record>, trace: seq<Machine>, es: seq<Event>, i: nat, output: ForestState.Run)
    requires IsLog(log) && Protocol.Run(log, trace, es) && i <= |es| && trace[i].up.Some? && trace[i].up.value.disk
    ensures var local := trace[i].up.value.local;
      Compacts(Contents(local), output) <==> FoldsTo(OnRuns(local), output, true)
  {
    var w := trace[i].up.value;
    Invariant(log, trace, es, i);
    Recovery.Invariant(log, trace, es, i);
    assert Recovery.Holds(log, trace[i], w, Recovery.TheForest);
    assert ExactAs(w.local, Unfolded) && Recovery.ServesAs(OnRuns(w.local), w.folded, Unfolded);
    assert BaseInv(Contents(w.local)) && OnRuns(w.local) == OnlyRuns(Contents(w.local));
    CompactsIffFolds(Contents(w.local), output);
  }
}

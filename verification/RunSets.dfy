/**
 The run sets a worker publishes. Each is in order and ends at its own sequence,
 through deltas, late merges and self-contained folds; so a reader accepts it
 exactly when nothing is missing between its runs. The outcome of a merge lost on
 the worker is what leaves something missing, and what closes it again is stated
 commit by commit.
 */
module RunSets {
  import opened Types
  import opened Layers
  import opened Streams
  import opened RunLists
  import opened Protocol
  import ForestState
  import Recovery

  // --- what every run keeps -------------------------------------------------------------

  ghost predicate EndsAt(runs: seq<LocalRun>, sequence: nat) {
    runs != [] && Rising(runs) && runs[|runs| - 1].max == sequence
  }

  /** Only the newest run may be uncommitted, and no run is beyond the commit being made. */
  ghost predicate LocalOk(latest: nat, local: seq<LocalRun>) {
    && Rising(local)
    && (forall i | 0 <= i < |local| - 1 :: local[i].committed)
    && (local != [] ==>
          && local[|local| - 1].max <= latest + 1
          && (local[|local| - 1].committed ==> local[|local| - 1].max <= latest))
  }

  ghost predicate WorkerOk(latest: nat, w: Worker) {
    && LocalOk(latest, w.local) && (!w.disk ==> w.local == [])
    && (w.phase.Folded? ==> EndsAt(w.phase.stack, latest + 1))
    && (w.phase.Folded? && w.disk ==> w.phase.stack == w.local && !w.local[|w.local| - 1].committed)
    && (w.phase.Folded? && !w.disk ==> |w.phase.stack| == 1 && w.phase.stack[0].min == latest + 1)
  }

  /** A listed run set ends at its own sequence; a whole-forest snapshot is one run at it. */
  ghost predicate SnapshotOk(s: Snapshot, sequence: nat) {
    && EndsAt(s.stack, sequence)
    && (!s.runSet ==> |s.stack| == 1 && s.stack[0].min == sequence)
  }

  ghost predicate CatalogOk(catalog: seq<Snapshot>) {
    forall k | 0 <= k < |catalog| :: SnapshotOk(catalog[k], k + 1)
  }

  ghost predicate Inv(m: Machine) {
    && CatalogOk(m.catalog)
    && (m.up.Some? ==> WorkerOk(|m.catalog|, m.up.value))
  }

  lemma GrownOk(latest: nat, local: seq<LocalRun>, run: ForestState.Run, id: nat)
    requires LocalOk(latest, local)
    ensures var next := Grown(local, run, id, latest + 1);
      LocalOk(latest, next) && EndsAt(next, latest + 1) && !next[|next| - 1].committed
  {
    if local != [] {
      RisingSpan(local, 0, |local| - 1);
    }
  }

  lemma SplicedRising(local: seq<LocalRun>, lo: nat, hi: nat, merged: LocalRun)
    requires Rising(local) && lo < hi <= |local|
    requires merged.min == local[lo].min && merged.max == local[hi - 1].max
    ensures var next := Spliced(local, lo, hi, merged); Rising(next) && next[|next| - 1].max == local[|local| - 1].max
  {
    var next := Spliced(local, lo, hi, merged);
    RisingSpan(local, lo, hi - 1);
    forall i | 0 < i < |next| ensures next[i - 1].max < next[i].min {
      SplicedPair(local, lo, hi, merged, i);
    }
  }

  /** Neighbours in the spliced stack are, by their spans, neighbours in the old one. */
  lemma SplicedPair(local: seq<LocalRun>, lo: nat, hi: nat, merged: LocalRun, i: nat)
    requires lo < hi <= |local| && merged.min == local[lo].min && merged.max == local[hi - 1].max
    requires 0 < i < |Spliced(local, lo, hi, merged)|
    ensures var next, k := Spliced(local, lo, hi, merged), if i <= lo then i else i + hi - lo - 1;
      0 < k < |local| && next[i - 1].max == local[k - 1].max && next[i].min == local[k].min && !(lo < k < hi)
  {
  }

  lemma ExtendOk(runs: seq<LocalRun>, latest: nat)
    requires runs != [] && Rising(runs) && AllCommitted(runs) && runs[|runs| - 1].max <= latest
    ensures var next := Extend(runs, latest + 1);
      LocalOk(latest + 1, next) && EndsAt(next, latest + 1) && AllCommitted(next)
  {
  }

  /** The runs still have the spans the merge was planned on. */
  ghost predicate SpansMatch(local: seq<LocalRun>, p: Pending, at: nat) {
    && p.Merging? && Located(local, p.inputs, at)
    && p.inputs[0].min == local[at].min
    && p.inputs[|p.inputs| - 1].max == local[at + |p.inputs| - 1].max
  }

  /** The window replaced by the merge, before the newest run is extended. */
  ghost function WithMerge(local: seq<LocalRun>, p: Pending, at: nat, id: nat): seq<LocalRun>
    requires p.Merging? && Located(local, p.inputs, at)
  {
    var n := |p.inputs|;
    Spliced(local, at, at + n, LocalRun(id, p.output, p.inputs[0].min, p.inputs[n - 1].max, true))
  }

  lemma WithMergeOk(local: seq<LocalRun>, p: Pending, at: nat, id: nat)
    requires Rising(local) && AllCommitted(local) && SpansMatch(local, p, at)
    ensures var next := WithMerge(local, p, at, id);
      next != [] && Rising(next) && AllCommitted(next) && next[|next| - 1].max == local[|local| - 1].max
  {
    var n := |p.inputs|;
    var merged := LocalRun(id, p.output, p.inputs[0].min, p.inputs[n - 1].max, true);
    SplicedRising(local, at, at + n, merged);
    SplicedCommitted(local, at, at + n, merged);
  }

  /** Splicing a merge over the window it read keeps the order, and extends the newest. */
  lemma AdoptedOk(latest: nat, local: seq<LocalRun>, p: Pending, at: nat, id: nat)
    requires LocalOk(latest, local) && AllCommitted(local) && SpansMatch(local, p, at)
    ensures var next := Adopted(local, p, at, id, latest + 1);
      LocalOk(latest + 1, next) && EndsAt(next, latest + 1) && AllCommitted(next)
  {
    WithMergeOk(local, p, at, id);
    assert local[|local| - 1].committed;
    ExtendOk(WithMerge(local, p, at, id), latest);
  }

  lemma SplicedCommitted(local: seq<LocalRun>, lo: nat, hi: nat, merged: LocalRun)
    requires AllCommitted(local) && lo < hi <= |local| && merged.committed
    ensures AllCommitted(Spliced(local, lo, hi, merged))
  {
  }

  /** The window found by file still has the span the merge was planned on. */
  lemma WindowSpan(log: set<Record>, m: Machine, w: Worker, at: nat)
    requires Recovery.WorkerOk(log, m, w) && CanAdopt(w, at)
    ensures w.disk && SpansMatch(w.local, w.pending, at)
  {
    assert Recovery.Holds(log, m, w, Recovery.TheMerge);
    var n := |w.pending.inputs|;
    assert Recovery.SameFile(w.pending.inputs[0], w.local[at]);
    assert Recovery.SameFile(w.pending.inputs[n - 1], w.local[at + n - 1]);
  }

  /** Nothing but a fold, a commit or a merge touches the stack. */
  lemma Untouched(latest: nat, w: Worker, w': Worker)
    requires WorkerOk(latest, w) && w'.local == w.local && w'.disk == w.disk
    requires w'.phase == w.phase || !w'.phase.Folded?
    ensures WorkerOk(latest, w')
  {
  }

  /** A worker that did not learn of a commit is a commit behind. */
  lemma Behind(latest: nat, w: Worker, w': Worker)
    requires WorkerOk(latest, w) && w'.local == w.local && w'.disk == w.disk && !w'.phase.Folded?
    ensures WorkerOk(latest + 1, w')
  {
  }

  lemma CatalogGrows(catalog: seq<Snapshot>, s: Snapshot)
    requires CatalogOk(catalog) && SnapshotOk(s, |catalog| + 1)
    ensures CatalogOk(catalog + [s])
  {
  }

  lemma AdoptKeeps(log: set<Record>, m: Machine, w: Worker, at: nat, verdict: Verdict)
    requires Inv(m) && m.up == Some(w) && CanAdopt(w, at) && w.disk && SpansMatch(w.local, w.pending, at)
    ensures Inv(Next(log, m, AdoptMerge(at, verdict)))
  {
    var m', local := Next(log, m, AdoptMerge(at, verdict)), Adopted(w.local, w.pending, at, m.files, |m.catalog| + 1);
    AdoptedOk(|m.catalog|, w.local, w.pending, at, m.files);
    CatalogGrows(m.catalog, MergeSnapshot(w, local, LatestPosition(m.catalog)));
    if verdict.Lost? {
      Behind(|m.catalog|, w, m'.up.value);
    } else if verdict.Failed? {
      Untouched(|m.catalog|, w, m'.up.value);
    }
  }

  lemma CommitKeeps(log: set<Record>, m: Machine, w: Worker, verdict: Verdict)
    requires Inv(m) && m.up == Some(w) && w.phase.Folded? && w.held.sealed != []
    ensures Inv(Next(log, m, Commit(verdict)))
  {
    var m' := Next(log, m, Commit(verdict));
    CatalogGrows(m.catalog, DataSnapshot(w, LatestPosition(m.catalog)));
    if verdict.Failed? {
      Untouched(|m.catalog|, w, m'.up.value);
    } else if verdict.Lost? {
      Behind(|m.catalog|, w, m'.up.value);
    } else {
      MarkedOk(|m.catalog|, w.local);
    }
  }

  lemma MarkedOk(latest: nat, local: seq<LocalRun>)
    requires LocalOk(latest, local)
    ensures LocalOk(latest + 1, MarkCommitted(local))
  {
  }

  lemma FoldKeeps(log: set<Record>, m: Machine, w: Worker, run: ForestState.Run)
    requires Inv(m) && m.up == Some(w) && CanFold(w, run)
    ensures Inv(Next(log, m, Fold(run)))
  {
    if w.disk {
      GrownOk(|m.catalog|, w.local, run, m.files);
    }
  }

  lemma StartKeeps(log: set<Record>, m: Machine, e: Event)
    requires Inv(m) && e.Start? && Enabled(log, m, e)
    ensures Inv(Next(log, m, e))
  {
    if m.catalog != [] {
      assert SnapshotOk(m.catalog[|m.catalog| - 1], |m.catalog|);
    }
  }

  lemma QuietKeeps(log: set<Record>, m: Machine, w: Worker, e: Event)
    requires Inv(m) && m.up == Some(w) && Enabled(log, m, e)
    requires !e.AdoptMerge? && !e.Commit? && !e.Fold? && !e.Start?
    ensures Inv(Next(log, m, e))
  {
    var m' := Next(log, m, e);
    assert m'.catalog == m.catalog;
    if m'.up.Some? {
      Untouched(|m.catalog|, w, m'.up.value);
    }
  }

  lemma EventKeeps(log: set<Record>, m: Machine, e: Event)
    requires Inv(m) && Recovery.Inv(log, m) && Enabled(log, m, e)
    ensures Inv(Next(log, m, e))
  {
    if e.Start? {
      StartKeeps(log, m, e);
    } else {
      var w := m.up.value;
      if e.AdoptMerge? {
        WindowSpan(log, m, w, e.at);
        AdoptKeeps(log, m, w, e.at, e.verdict);
      } else if e.Commit? {
        CommitKeeps(log, m, w, e.verdict);
      } else if e.Fold? {
        FoldKeeps(log, m, w, e.run);
      } else {
        QuietKeeps(log, m, w, e);
      }
    }
  }

  lemma {:induction false} Invariant(log: set<Record>, trace: seq<Machine>, es: seq<Event>, i: nat)
    requires IsLog(log) && Protocol.Run(log, trace, es) && i <= |es|
    ensures Inv(trace[i])
  {
    if i > 0 {
      Invariant(log, trace, es, i - 1);
      Recovery.Invariant(log, trace, es, i - 1);
      assert Protocol.StepAt(log, trace, es, i - 1);
      EventKeeps(log, trace[i - 1], es[i - 1]);
    }
  }

  // --- when what is published reads ----------------------------------------------------------

  /** A listed set reads as written, or is refused because a sequence is missing between two runs. */
  lemma PublishedReads(log: set<Record>, trace: seq<Machine>, es: seq<Event>, i: nat, k: nat)
    requires IsLog(log) && Protocol.Run(log, trace, es) && i <= |es| && k < |trace[i].catalog|
    ensures var s := trace[i].catalog[k];
      if s.runSet then
        ReadRunSet(true, k + 1, 0, s.stack)
          == if Adjacent(s.stack) then Accepted(Runs(s.stack)) else Refused(NotAdjacent)
      else ReadRunSet(false, k + 1, k + 1, []) == Accepted(SequencesOnly(k + 1, k + 1)) && |s.stack| == 1
  {
    Invariant(log, trace, es, i);
    assert SnapshotOk(trace[i].catalog[k], k + 1);
    RisingRead(k + 1, trace[i].catalog[k].stack);
  }

  /** The stack has no gap and, where a delta would go on top, ends at the newest snapshot. */
  predicate Whole(latest: nat, local: seq<LocalRun>) {
    local == [] || !AllCommitted(local) || (Adjacent(local) && local[|local| - 1].max == latest)
  }

  lemma GrownAdjacent(latest: nat, local: seq<LocalRun>, run: ForestState.Run, id: nat)
    requires LocalOk(latest, local)
    ensures Adjacent(Grown(local, run, id, latest + 1)) <==> Whole(latest, local)
  {
    if local != [] && AllCommitted(local) {
      var next := Grown(local, run, id, latest + 1);
      assert next[|local| - 1] == local[|local| - 1];
      assert forall i | 0 <= i < |local| :: next[i] == local[i];
      if Adjacent(next) {
        assert next[|local| - 1].max + 1 == next[|local|].min;
      }
    }
  }

  /** The machine after a fold is committed, whether or not the worker learns of it. */
  ghost function FoldCommitted(log: set<Record>, m: Machine, run: ForestState.Run, verdict: Verdict): Machine
    requires m.up.Some? && CanFold(m.up.value, run) && m.up.value.held.sealed != []
  {
    Next(log, Next(log, m, Fold(run)), Commit(verdict))
  }

  /**
    The set a fold publishes reads exactly when the worker's stack was whole before
    it: empty, not fully committed, or contiguous up to the newest snapshot.
    */
  lemma FoldReadsIff(log: set<Record>, trace: seq<Machine>, es: seq<Event>, i: nat, run: ForestState.Run,
                     verdict: Verdict)
    requires IsLog(log) && Protocol.Run(log, trace, es) && i <= |es| && trace[i].up.Some? && !verdict.Failed?
    requires var w := trace[i].up.value; w.disk && CanFold(w, run) && w.held.sealed != []
    ensures FoldReadsWhen(log, trace[i], run, verdict, Whole(|trace[i].catalog|, trace[i].up.value.local))
  {
    Invariant(log, trace, es, i);
    FoldPublishes(log, trace[i], run, verdict);
    FoldReads(|trace[i].catalog|, trace[i].up.value.local, run, trace[i].files);
  }

  /** The fold's run set is published next, and reads as written or not at all. */
  ghost predicate FoldReadsWhen(log: set<Record>, m: Machine, run: ForestState.Run, verdict: Verdict, whole: bool)
    requires m.up.Some? && CanFold(m.up.value, run) && m.up.value.held.sealed != []
  {
    var catalog, latest := FoldCommitted(log, m, run, verdict).catalog, |m.catalog|;
    && |catalog| == latest + 1 && catalog[latest].runSet
    && ReadRunSet(true, latest + 1, 0, catalog[latest].stack)
       == if whole then Accepted(Runs(catalog[latest].stack)) else Refused(NotAdjacent)
  }

  lemma FoldReads(latest: nat, local: seq<LocalRun>, run: ForestState.Run, id: nat)
    requires LocalOk(latest, local)
    ensures var next := Grown(local, run, id, latest + 1);
      ReadRunSet(true, latest + 1, 0, next)
        == if Whole(latest, local) then Accepted(Runs(next)) else Refused(NotAdjacent)
  {
    GrownOk(latest, local, run, id);
    GrownAdjacent(latest, local, run, id);
    RisingRead(latest + 1, Grown(local, run, id, latest + 1));
  }

  lemma FoldPublishes(log: set<Record>, m: Machine, run: ForestState.Run, verdict: Verdict)
    requires m.up.Some? && !verdict.Failed?
    requires var w := m.up.value; w.disk && CanFold(w, run) && w.held.sealed != []
    ensures var catalog := FoldCommitted(log, m, run, verdict).catalog;
      && |catalog| == |m.catalog| + 1 && catalog[|m.catalog|].runSet
      && catalog[|m.catalog|].stack == Grown(m.up.value.local, run, m.files, |m.catalog| + 1)
  {
  }

  /** Every gap in the stack lies inside the window. */
  predicate GapsWithin(local: seq<LocalRun>, lo: nat, hi: nat) {
    forall k | 0 < k < |local| && !(lo < k < hi) :: local[k - 1].max + 1 == local[k].min
  }

  lemma MergeAdjacent(local: seq<LocalRun>, p: Pending, at: nat, id: nat, sequence: nat)
    requires SpansMatch(local, p, at)
    ensures Adjacent(Adopted(local, p, at, id, sequence)) <==> GapsWithin(local, at, at + |p.inputs|)
  {
    var n := |p.inputs|;
    var merged := LocalRun(id, p.output, p.inputs[0].min, p.inputs[n - 1].max, true);
    ExtendAdjacent(Spliced(local, at, at + n, merged), sequence);
    SplicedAdjacent(local, at, at + n, merged);
  }

  lemma ExtendAdjacent(runs: seq<LocalRun>, sequence: nat)
    requires runs != []
    ensures Adjacent(Extend(runs, sequence)) <==> Adjacent(runs)
  {
    var next := Extend(runs, sequence);
    assert forall i | 0 <= i < |runs| :: next[i].min == runs[i].min && (i < |runs| - 1 ==> next[i].max == runs[i].max);
  }

  lemma SplicedAdjacent(local: seq<LocalRun>, lo: nat, hi: nat, merged: LocalRun)
    requires lo < hi <= |local| && merged.min == local[lo].min && merged.max == local[hi - 1].max
    ensures Adjacent(Spliced(local, lo, hi, merged)) <==> GapsWithin(local, lo, hi)
  {
    var next := Spliced(local, lo, hi, merged);
    if GapsWithin(local, lo, hi) {
      forall i | 0 < i < |next| ensures next[i - 1].max + 1 == next[i].min {
        SplicedPair(local, lo, hi, merged, i);
      }
    }
    if Adjacent(next) {
      forall k | 0 < k < |local| && !(lo < k < hi) ensures local[k - 1].max + 1 == local[k].min {
        var i := if k <= lo then k else k - (hi - lo) + 1;
        SplicedPair(local, lo, hi, merged, i);
        assert next[i - 1].max + 1 == next[i].min;
      }
    }
  }

  /** The set a merge publishes reads exactly when every gap lies inside what it merged. */
  lemma MergeReadsIff(log: set<Record>, trace: seq<Machine>, es: seq<Event>, i: nat, at: nat, verdict: Verdict)
    requires IsLog(log) && Protocol.Run(log, trace, es) && i <= |es| && trace[i].up.Some? && !verdict.Failed?
    requires CanAdopt(trace[i].up.value, at)
    ensures var w, latest := trace[i].up.value, |trace[i].catalog|;
      var s := Next(log, trace[i], AdoptMerge(at, verdict)).catalog[latest];
      ReadRunSet(true, latest + 1, 0, s.stack)
        == if GapsWithin(w.local, at, at + |w.pending.inputs|) then Accepted(Runs(s.stack)) else Refused(NotAdjacent)
  {
    Invariant(log, trace, es, i);
    Recovery.Invariant(log, trace, es, i);
    WindowSpan(log, trace[i], trace[i].up.value, at);
    MergePublishes(log, trace[i], at, verdict);
    MergeReads(|trace[i].catalog|, trace[i].up.value.local, trace[i].up.value.pending, at, trace[i].files);
  }

  lemma MergeReads(latest: nat, local: seq<LocalRun>, p: Pending, at: nat, id: nat)
    requires LocalOk(latest, local) && AllCommitted(local) && SpansMatch(local, p, at)
    ensures var next := Adopted(local, p, at, id, latest + 1);
      ReadRunSet(true, latest + 1, 0, next)
        == if GapsWithin(local, at, at + |p.inputs|) then Accepted(Runs(next)) else Refused(NotAdjacent)
  {
    AdoptedOk(latest, local, p, at, id);
    MergeAdjacent(local, p, at, id, latest + 1);
    RisingRead(latest + 1, Adopted(local, p, at, id, latest + 1));
  }

  lemma MergePublishes(log: set<Record>, m: Machine, at: nat, verdict: Verdict)
    requires m.up.Some? && CanAdopt(m.up.value, at) && !verdict.Failed?
    ensures var catalog := Next(log, m, AdoptMerge(at, verdict)).catalog;
      && |catalog| == |m.catalog| + 1
      && catalog[|m.catalog|].stack == Adopted(m.up.value.local, m.up.value.pending, at, m.files, |m.catalog| + 1)
  {
  }

  // --- losing a merge's outcome ----------------------------------------------------------------

  /** A merge whose commit may have happened without the worker knowing. */
  predicate LosesMerge(e: Event) {
    e.AdoptMerge? && e.verdict.Lost?
  }

  /** The worker hears nothing of its merge, then commits what it has consumed since. */
  ghost function AfterLoss(log: set<Record>, m: Machine, at: nat): Machine
    requires m.up.Some? && CanAdopt(m.up.value, at)
  {
    Next(log, Next(log, m, AdoptMerge(at, Lost)), StartTick)
  }

  /** The delta committed next is refused to every reader: the merge's own sequence is missing. */
  lemma LostMergeGap(log: set<Record>, trace: seq<Machine>, es: seq<Event>, i: nat, at: nat, run: ForestState.Run)
    requires IsLog(log) && Protocol.Run(log, trace, es) && i <= |es| && trace[i].up.Some?
    requires CanAdopt(trace[i].up.value, at)
    requires var w := AfterLoss(log, trace[i], at).up.value; CanFold(w, run) && w.held.sealed != []
    ensures var m := FoldCommitted(log, AfterLoss(log, trace[i], at), run, Committed);
      && |m.catalog| == |trace[i].catalog| + 2
      && ReadRunSet(true, |m.catalog|, 0, m.catalog[|m.catalog| - 1].stack) == Refused(NotAdjacent)
      && !Readable(m.catalog[|m.catalog| - 1], |m.catalog|)
  {
    var m, latest := trace[i], |trace[i].catalog|;
    Invariant(log, trace, es, i);
    Recovery.Invariant(log, trace, es, i);
    WindowSpan(log, m, m.up.value, at);
    LossKeeps(log, m, at);
    StillLocalOk(latest, m.up.value.local);
    var lost := AfterLoss(log, m, at);
    FoldPublishes(log, lost, run, Committed);
    FoldReads(latest + 1, m.up.value.local, run, lost.files);
  }

  lemma LossKeeps(log: set<Record>, m: Machine, at: nat)
    requires m.up.Some? && CanAdopt(m.up.value, at)
    ensures var lost := AfterLoss(log, m, at);
      && lost.up.Some? && lost.up.value.local == m.up.value.local && lost.up.value.disk == m.up.value.disk
      && |lost.catalog| == |m.catalog| + 1
  {
  }

  /** A fully committed stack is not whole once the catalog has moved on. */
  lemma StillLocalOk(latest: nat, local: seq<LocalRun>)
    requires LocalOk(latest, local)
    ensures LocalOk(latest + 1, local)
    ensures local != [] && AllCommitted(local) ==> !Whole(latest + 1, local)
  {
  }

  /** Nothing is missing anywhere. */
  ghost predicate Complete(m: Machine) {
    && (forall k | 0 <= k < |m.catalog| :: Adjacent(m.catalog[k].stack))
    && (m.up.Some? ==>
          && Adjacent(m.up.value.local) && Whole(|m.catalog|, m.up.value.local)
          && (m.up.value.phase.Folded? ==> Adjacent(m.up.value.phase.stack)))
  }

  lemma AdoptCompletes(log: set<Record>, m: Machine, w: Worker, at: nat, verdict: Verdict)
    requires Inv(m) && Complete(m) && m.up == Some(w) && CanAdopt(w, at) && w.disk && SpansMatch(w.local, w.pending, at)
    requires !verdict.Lost?
    ensures Complete(Next(log, m, AdoptMerge(at, verdict)))
  {
    MergeAdjacent(w.local, w.pending, at, m.files, |m.catalog| + 1);
    AdoptedOk(|m.catalog|, w.local, w.pending, at, m.files);
  }

  lemma CommitCompletes(log: set<Record>, m: Machine, w: Worker, verdict: Verdict)
    requires Inv(m) && Complete(m) && m.up == Some(w) && w.phase.Folded? && w.held.sealed != []
    ensures Complete(Next(log, m, Commit(verdict)))
  {
    if w.disk {
      assert !AllCommitted(w.local);
    }
  }

  lemma FoldCompletes(log: set<Record>, m: Machine, w: Worker, run: ForestState.Run)
    requires Inv(m) && Complete(m) && m.up == Some(w) && CanFold(w, run)
    ensures Complete(Next(log, m, Fold(run)))
  {
    if w.disk {
      GrownAdjacent(|m.catalog|, w.local, run, m.files);
      GrownOk(|m.catalog|, w.local, run, m.files);
    }
  }

  lemma StartCompletes(log: set<Record>, m: Machine, e: Event)
    requires Inv(m) && Complete(m) && e.Start? && Enabled(log, m, e)
    ensures Complete(Next(log, m, e))
  {
    if m.catalog != [] {
      var s := m.catalog[|m.catalog| - 1];
      assert SnapshotOk(s, |m.catalog|) && Adjacent(s.stack);
      OpenedWhole(|m.catalog|, s.stack);
    }
  }

  lemma OpenedWhole(latest: nat, stack: seq<LocalRun>)
    requires Adjacent(stack) && EndsAt(stack, latest)
    ensures Adjacent(Opened(stack)) && Whole(latest, Opened(stack))
  {
    assert forall i | 0 <= i < |stack| :: Opened(stack)[i].min == stack[i].min && Opened(stack)[i].max == stack[i].max;
  }

  lemma EventCompletes(log: set<Record>, m: Machine, e: Event)
    requires Inv(m) && Complete(m) && Recovery.Inv(log, m) && Enabled(log, m, e) && !LosesMerge(e)
    ensures Complete(Next(log, m, e))
  {
    if e.Start? {
      StartCompletes(log, m, e);
    } else {
      var w := m.up.value;
      if e.AdoptMerge? {
        WindowSpan(log, m, w, e.at);
        AdoptCompletes(log, m, w, e.at, e.verdict);
      } else if e.Commit? {
        CommitCompletes(log, m, w, e.verdict);
      } else if e.Fold? {
        FoldCompletes(log, m, w, e.run);
      }
    }
  }

  lemma {:induction false} Completeness(log: set<Record>, trace: seq<Machine>, es: seq<Event>, i: nat)
    requires IsLog(log) && Protocol.Run(log, trace, es) && i <= |es|
    requires forall k | 0 <= k < i :: !LosesMerge(es[k])
    ensures Complete(trace[i])
  {
    if i > 0 {
      Completeness(log, trace, es, i - 1);
      Invariant(log, trace, es, i - 1);
      Recovery.Invariant(log, trace, es, i - 1);
      assert Protocol.StepAt(log, trace, es, i - 1);
      EventCompletes(log, trace[i - 1], es[i - 1]);
    }
  }

  /** Where no merge's outcome is lost, every snapshot published reads as written. */
  lemma PublishedAccepted(log: set<Record>, trace: seq<Machine>, es: seq<Event>, i: nat, k: nat)
    requires IsLog(log) && Protocol.Run(log, trace, es) && i <= |es| && k < |trace[i].catalog|
    requires forall j | 0 <= j < i :: !LosesMerge(es[j])
    ensures var s := trace[i].catalog[k];
      if s.runSet then ReadRunSet(true, k + 1, 0, s.stack) == Accepted(Runs(s.stack))
      else ReadRunSet(false, k + 1, k + 1, []) == Accepted(SequencesOnly(k + 1, k + 1)) && |s.stack| == 1
  {
    Completeness(log, trace, es, i);
    PublishedReads(log, trace, es, i, k);
  }

  /** So a worker that went down can always be started from its newest snapshot. */
  lemma StartEnabled(log: set<Record>, trace: seq<Machine>, es: seq<Event>, i: nat)
    requires IsLog(log) && Protocol.Run(log, trace, es) && i <= |es| && trace[i].up.None? && trace[i].catalog != []
    requires forall j | 0 <= j < i :: !LosesMerge(es[j])
    ensures var n := |trace[i].catalog|; Enabled(log, trace[i], Start(true, OnRuns(trace[i].catalog[n - 1].stack)))
  {
    PublishedAccepted(log, trace, es, i, |trace[i].catalog| - 1);
  }
}

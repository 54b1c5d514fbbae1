/**
 One committing worker as a step system. An ingest thread applies records and
 appends them to the buffer; a flush thread seals, folds, publishes snapshots and
 adopts background merges; and the worker may crash between any two steps, to be
 started again from the newest snapshot while the log redelivers what it likes.
 */
module Protocol {
  import opened Types
  import opened Layers
  import opened ForestState
  import opened Folds
  import Hydration
  import opened Events
  import opened Streams
  import opened Ingest
  import opened RunLists

  /**
    A committed snapshot: where the stream stands, the rows of its data file, and
    its runs. `runSet` tells the run-set format from the whole-forest one, which
    lists no runs and is read back as one run at its own sequence. `contains` only
    describes: the records folded into the runs.
    */
  datatype Snapshot = Snapshot(
    position: Position,
    file: seq<Record>,
    runSet: bool,
    stack: seq<LocalRun>,
    contains: set<Record>)

  /** A merge at work on some runs of the stack, and what it will write. */
  datatype Pending = NoMerge | Merging(inputs: seq<LocalRun>, output: Run)

  /** Where the flush thread is: what it folded is what it is about to commit. */
  datatype Phase = Resting | Ready | Folded(stack: seq<LocalRun>, contains: set<Record>)

  /** `disk` tells mapped runs from an all-heap forest. `applied` and `folded` only describe. */
  datatype Worker = Worker(
    disk: bool,
    tier: Tier,
    applied: set<Record>,
    folded: set<Record>,
    position: Position,
    inHand: Option<Record>,
    held: Held,
    local: seq<LocalRun>,
    pending: Pending,
    phase: Phase)

  /** `catalog[i]` is sequence `i + 1`; `ever` is every record some worker has applied. */
  datatype Machine = Machine(catalog: seq<Snapshot>, ever: set<Record>, files: nat, up: Option<Worker>)

  /** A commit wins and says so, does not happen, or happens with the answer lost. */
  datatype Verdict = Committed | Failed | Lost

  datatype Event =
    | Deliver(record: Record, tier: Tier)
    | Append
    | Query(tier: Tier)
    | StartTick
    | PlanMerge(lo: nat, hi: nat, output: Run)
    | AdoptMerge(at: nat, verdict: Verdict)
    | DropMerge
    | Fold(run: Run)
    | Commit(verdict: Verdict)
    | EndTick
    | Crash
    | Start(disk: bool, tier: Tier)

  const EMPTY_MACHINE := Machine([], {}, 0, None)

  // --- parts ---------------------------------------------------------------------------

  function LatestPosition(catalog: seq<Snapshot>): Position {
    if catalog == [] then map[] else catalog[|catalog| - 1].position
  }

  function Flatten(batches: seq<seq<Record>>): seq<Record> {
    if batches == [] then [] else Flatten(batches[..|batches| - 1]) + batches[|batches| - 1]
  }

  /** The position a commit of these segments publishes: cumulative over the last one. */
  function Reached(start: Position, batches: seq<seq<Record>>): Position {
    if batches == [] then start
    else Merged(Reached(start, batches[..|batches| - 1]), Extent(batches[|batches| - 1]))
  }

  /** What a commit of these segments claims: the position before it, and each record's. */
  lemma {:induction false} ReachedGet(start: Position, batches: seq<seq<Record>>, k: PartitionId)
    ensures Get(Reached(start, batches), k) == Max(Get(start, k), Get(Extent(Flatten(batches)), k))
  {
    if batches != [] {
      var front, last := batches[..|batches| - 1], batches[|batches| - 1];
      ReachedGet(start, front, k);
      ExtentAppend(Flatten(front), last, k);
    }
  }

  lemma {:induction false} ReachedFrom(start: Position, batches: seq<seq<Record>>)
    ensures Reached(start, batches) == Merged(start, Reached(map[], batches))
  {
    if batches == [] {
      assert forall k | k in start :: Get(start, k) == start[k];
    } else {
      var front, last := batches[..|batches| - 1], Extent(batches[|batches| - 1]);
      ReachedFrom(start, front);
      MergedAssociates(start, Reached(map[], front), last);
    }
  }

  /** Merge the segments' extents, then the position before them: cumulative over the last commit. */
  method CommitPosition(committed: Position, segments: seq<Segment>, ghost batches: seq<seq<Record>>)
    returns (position: Position)
    requires DescribeAll(segments, batches)
    ensures position == Reached(committed, batches)
  {
    var last: Position := map[];
    for i := 0 to |segments|
      invariant last == Reached(map[], batches[..i])
    {
      assert Describes(segments[i], batches[i]) && batches[..i + 1][..i] == batches[..i];
      last := Merge(last, segments[i].last);
    }
    assert batches[..|batches|] == batches;
    ReachedFrom(committed, batches);
    position := Merge(committed, last);
  }

  function Contents(local: seq<LocalRun>): seq<Run> {
    seq(|local|, i requires 0 <= i < |local| => local[i].content)
  }

  predicate AllCommitted(local: seq<LocalRun>) {
    forall i | 0 <= i < |local| :: local[i].committed
  }

  function MarkCommitted(local: seq<LocalRun>): seq<LocalRun> {
    if local == [] then [] else local[|local| - 1 := local[|local| - 1].(committed := true)]
  }

  /** The window of `local` at `at` is, run for run, what the merge read. */
  predicate Located(local: seq<LocalRun>, inputs: seq<LocalRun>, at: nat) {
    && inputs != [] && at + |inputs| <= |local|
    && forall i | 0 <= i < |inputs| :: local[at + i].id == inputs[i].id
  }

  /** The newest run also describes `sequence`. */
  function Extend(runs: seq<LocalRun>, sequence: nat): seq<LocalRun>
    requires runs != []
  {
    runs[|runs| - 1 := runs[|runs| - 1].(max := sequence)]
  }

  /** The stack with the window replaced by the merge, its newest run extended to `sequence`. */
  function Adopted(local: seq<LocalRun>, p: Pending, at: nat, id: nat, sequence: nat): seq<LocalRun>
    requires p.Merging? && Located(local, p.inputs, at)
  {
    var n := |p.inputs|;
    var merged := LocalRun(id, p.output, p.inputs[0].min, p.inputs[n - 1].max, true);
    Extend(Spliced(local, at, at + n, merged), sequence)
  }

  /** The stack a fold leaves: one self-contained run, or one more delta. */
  function Grown(local: seq<LocalRun>, run: Run, id: nat, sequence: nat): seq<LocalRun> {
    if local == [] || !AllCommitted(local)
    then [LocalRun(id, run, if local == [] then sequence else local[0].min, sequence, false)]
    else local + [LocalRun(id, run, sequence, sequence, false)]
  }

  /** A stack as a cold start maps it: everything it names is committed. */
  function Opened(stack: seq<LocalRun>): seq<LocalRun> {
    seq(|stack|, i requires 0 <= i < |stack| => stack[i].(committed := true))
  }

  function OnRuns(stack: seq<LocalRun>): Tier {
    Tier(Contents(stack), map[], map[], map[])
  }

  // --- the ingest thread ------------------------------------------------------------------

  /** The log hands out a partition in order: nothing beyond `position` precedes `r`. */
  ghost predicate IsNext(log: set<Record>, position: Position, r: Record) {
    && r in log && !Covers(position, r)
    && forall q | q in log && q.partition == r.partition && q.offset < r.offset :: Covers(position, q)
  }

  lemma NextCovered(log: set<Record>, position: Position, r: Record)
    requires IsLog(log) && IsNext(log, position, r)
    ensures UpTo(log, Advance(position, r.partition, r.offset)) == UpTo(log, position) + {r}
  {
  }

  ghost predicate CanDeliver(log: set<Record>, w: Worker, r: Record, tier: Tier) {
    && w.inHand.None? && r in log
    && (Covers(w.position, r) || (IsNext(log, w.position, r) && Events.Applied(w.tier, tier, r.event)))
  }

  /** Apply a record, or skip one already applied. */
  function Delivered(w: Worker, r: Record, tier: Tier): Worker {
    if Covers(w.position, r) then w
    else w.(tier := tier, applied := w.applied + {r}, inHand := Some(r))
  }

  function Taken(w: Worker): Worker
    requires w.inHand.Some?
  {
    var r := w.inHand.value;
    w.(inHand := None, position := Advance(w.position, r.partition, r.offset),
       held := w.held.(active := w.held.active + [r]))
  }

  // --- the flush thread -------------------------------------------------------------------

  function Started(w: Worker, committed: Position): Worker {
    var sealed := Sealed(w.held);
    w.(phase := Ready, held := sealed.(sealed := Undurable(sealed.sealed, committed)))
  }

  ghost predicate CanPlan(w: Worker, lo: nat, hi: nat, output: Run) {
    && w.phase.Ready? && w.disk && w.pending.NoMerge? && AllCommitted(w.local) && lo < hi <= |w.local|
    && Compacts(Contents(w.local[lo..hi]), output)
  }

  predicate CanAdopt(w: Worker, at: nat) {
    w.phase.Ready? && w.pending.Merging? && AllCommitted(w.local) && Located(w.local, w.pending.inputs, at)
  }

  ghost predicate CanFold(w: Worker, run: Run) {
    && w.phase.Ready?
    && FoldsTo(w.tier, run, !w.disk || w.local == [] || !AllCommitted(w.local))
  }

  /** Disk mode folds the memtable out and serves from the runs; RAM mode only writes it out. */
  function FoldedOut(w: Worker, run: Run, id: nat, sequence: nat): Worker {
    if w.disk then
      var local := Grown(w.local, run, id, sequence);
      w.(tier := OnRuns(local), local := local, folded := w.applied, phase := Folded(local, w.applied))
    else w.(phase := Folded([LocalRun(id, run, sequence, sequence, false)], w.applied))
  }

  function DataSnapshot(w: Worker, committed: Position): Snapshot
    requires w.phase.Folded?
  {
    Snapshot(Reached(committed, w.held.sealed), Flatten(w.held.sealed), w.disk, w.phase.stack, w.phase.contains)
  }

  function AfterCommit(w: Worker, position: Position): Worker {
    w.(phase := Resting, local := MarkCommitted(w.local),
       held := w.held.(sealed := Undurable(w.held.sealed, position)))
  }

  /** A merge republishes the last position, with no rows of its own. */
  function MergeSnapshot(w: Worker, local: seq<LocalRun>, committed: Position): Snapshot {
    Snapshot(committed, [], true, local, w.folded)
  }

  // --- starting ------------------------------------------------------------------------------

  /** What a worker serves after reading a snapshot's runs: mapped, or copied into heap. */
  ghost predicate Restored(stack: seq<LocalRun>, disk: bool, tier: Tier) {
    if disk then tier == OnRuns(stack) else Hydration.HoldsRuns(Contents(stack), tier)
  }

  /** A whole-forest snapshot lists no runs; a listed set must read. */
  predicate Readable(s: Snapshot, sequence: nat) {
    s.runSet ==> ReadRunSet(true, sequence, 0, s.stack).Accepted?
  }

  function Blank(disk: bool, tier: Tier): Worker {
    Worker(disk, tier, {}, {}, map[], None, Held([], []), [], NoMerge, Resting)
  }

  function Resumed(s: Snapshot, disk: bool, tier: Tier): Worker {
    Worker(disk, tier, s.contains, s.contains, s.position, None, Held([], []),
           if disk then Opened(s.stack) else [], NoMerge, Resting)
  }

  // --- steps ------------------------------------------------------------------------------------

  ghost predicate Enabled(log: set<Record>, m: Machine, e: Event) {
    if e.Start? then
      && m.up.None?
      && (if m.catalog == [] then e.tier == EMPTY
          else
            && Readable(m.catalog[|m.catalog| - 1], |m.catalog|)
            && Restored(m.catalog[|m.catalog| - 1].stack, e.disk, e.tier))
    else m.up.Some? && var w := m.up.value;
      match e
      case Deliver(r, tier) => CanDeliver(log, w, r, tier)
      case Append => w.inHand.Some?
      case Query(tier) => Compressed(w.tier, tier)
      case StartTick => w.phase.Resting?
      case PlanMerge(lo, hi, output) => CanPlan(w, lo, hi, output)
      case AdoptMerge(at, verdict) => CanAdopt(w, at)
      case DropMerge => true
      case Fold(run) => CanFold(w, run)
      case Commit(verdict) => w.phase.Folded? && w.held.sealed != []
      case EndTick => true
      case Crash => true
  }

  ghost function Next(log: set<Record>, m: Machine, e: Event): Machine
    requires Enabled(log, m, e)
  {
    var committed, sequence := LatestPosition(m.catalog), |m.catalog| + 1;
    if e.Start? then
      if m.catalog == [] then m.(up := Some(Blank(e.disk, e.tier)))
      else m.(up := Some(Resumed(m.catalog[|m.catalog| - 1], e.disk, e.tier)))
    else
      var w := m.up.value;
      match e
      case Deliver(r, tier) =>
        m.(up := Some(Delivered(w, r, tier)), ever := if Covers(w.position, r) then m.ever else m.ever + {r})
      case Append => m.(up := Some(Taken(w)))
      case Query(tier) => m.(up := Some(w.(tier := tier)))
      case StartTick => m.(up := Some(Started(w, committed)))
      case PlanMerge(lo, hi, output) => m.(up := Some(w.(pending := Merging(w.local[lo..hi], output))))
      case AdoptMerge(at, verdict) =>
        var local := Adopted(w.local, w.pending, at, m.files, sequence);
        var published := m.catalog + [MergeSnapshot(w, local, committed)];
        (match verdict
         case Committed =>
           var w' := w.(local := local, tier := w.tier.(runs := Contents(local)), pending := NoMerge);
           m.(catalog := published, files := m.files + 1, up := Some(w'))
         case Failed => m.(up := Some(w.(pending := NoMerge)))
         case Lost =>
           m.(catalog := published, files := m.files + 1, up := Some(w.(pending := NoMerge, phase := Resting))))
      case DropMerge => m.(up := Some(w.(pending := NoMerge)))
      case Fold(run) => m.(files := m.files + 1, up := Some(FoldedOut(w, run, m.files, sequence)))
      case Commit(verdict) =>
        var snapshot := DataSnapshot(w, committed);
        (match verdict
         case Committed => m.(catalog := m.catalog + [snapshot], up := Some(AfterCommit(w, snapshot.position)))
         case Failed => m.(up := Some(w.(phase := Resting)))
         case Lost => m.(catalog := m.catalog + [snapshot], up := Some(w.(phase := Resting))))
      case EndTick => m.(up := Some(w.(phase := Resting)))
      case Crash => m.(up := None)
  }

  ghost predicate StepAt(log: set<Record>, trace: seq<Machine>, es: seq<Event>, i: nat)
    requires |trace| == |es| + 1 && i < |es|
  {
    Enabled(log, trace[i], es[i]) && trace[i + 1] == Next(log, trace[i], es[i])
  }

  ghost predicate Run(log: set<Record>, trace: seq<Machine>, es: seq<Event>) {
    && |trace| == |es| + 1 && trace[0] == EMPTY_MACHINE
    && forall i | 0 <= i < |es| :: StepAt(log, trace, es, i)
  }
}

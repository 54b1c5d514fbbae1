/**
 Rows are committed exactly once. Whatever is redelivered and however commits
 fail, get lost or race with crashes, every record at or below the committed
 position is in exactly one committed data file, and no other record in any.
 */
module ExactlyOnce {
  import opened Types
  import opened Events
  import opened Streams
  import opened Ingest
  import opened Protocol

  // --- sequences of batches ---------------------------------------------------------------

  /** The rows of all data files, oldest first. */
  ghost function Durable(catalog: seq<Snapshot>): seq<Record> {
    if catalog == [] then [] else Durable(catalog[..|catalog| - 1]) + catalog[|catalog| - 1].file
  }

  /** Buffered records that no committed position covers yet. */
  ghost function Owed(held: Held, committed: Position): seq<Record> {
    Flatten(Undurable(held.sealed, committed)) + held.active
  }

  lemma FlattenPush(batches: seq<seq<Record>>, b: seq<Record>)
    ensures Flatten(batches + [b]) == Flatten(batches) + b
  {
    assert (batches + [b])[..|batches|] == batches;
  }

  lemma DurablePush(catalog: seq<Snapshot>, s: Snapshot)
    ensures Durable(catalog + [s]) == Durable(catalog) + s.file
  {
    assert (catalog + [s])[..|catalog|] == catalog;
  }

  lemma {:induction false} UndurableIdempotent(batches: seq<seq<Record>>, p: Position)
    ensures Undurable(Undurable(batches, p), p) == Undurable(batches, p)
  {
    if batches != [] {
      var front, last := batches[..|batches| - 1], batches[|batches| - 1];
      UndurableIdempotent(front, p);
      if !Dominates(p, Extent(last)) {
        UndurablePush(Undurable(front, p), last, p);
      }
    }
  }

  lemma UndurablePush(batches: seq<seq<Record>>, b: seq<Record>, p: Position)
    ensures Undurable(batches + [b], p) == Undurable(batches, p) + if Dominates(p, Extent(b)) then [] else [b]
  {
    assert (batches + [b])[..|batches|] == batches;
  }

  lemma {:induction false} AllDurable(batches: seq<seq<Record>>, p: Position)
    requires forall r | r in Flatten(batches) :: Covers(p, r)
    ensures Undurable(batches, p) == []
  {
    if batches != [] {
      var front, last := batches[..|batches| - 1], batches[|batches| - 1];
      AllDurable(front, p);
      DominatesExtent(p, last);
    }
  }

  // --- the invariant ----------------------------------------------------------------------

  ghost predicate CatalogOk(log: set<Record>, catalog: seq<Snapshot>) {
    Distinct(Durable(catalog)) && Elements(Durable(catalog)) == UpTo(log, LatestPosition(catalog))
  }

  /** The buffer owes exactly what is applied and not committed, once, sealed before active. */
  ghost predicate OwedOk(log: set<Record>, committed: Position, w: Worker) {
    && Distinct(Owed(w.held, committed))
    && Elements(Owed(w.held, committed)) == UpTo(log, w.position) - UpTo(log, committed)
  }

  ghost predicate Before(a: Record, b: Record) {
    a.partition == b.partition ==> a.offset < b.offset
  }

  ghost predicate OrderOk(committed: Position, w: Worker) {
    && Dominates(w.position, committed)
    && (forall a, b | a in Flatten(Undurable(w.held.sealed, committed)) && b in w.held.active :: Before(a, b))
    && (!w.phase.Resting? ==> Undurable(w.held.sealed, committed) == w.held.sealed)
  }

  ghost predicate HandOk(log: set<Record>, w: Worker) {
    w.inHand.Some? ==> IsNext(log, w.position, w.inHand.value)
  }

  ghost predicate WorkerOk(log: set<Record>, committed: Position, w: Worker) {
    OwedOk(log, committed, w) && OrderOk(committed, w) && HandOk(log, w)
  }

  ghost predicate Inv(log: set<Record>, m: Machine) {
    && CatalogOk(log, m.catalog)
    && (m.up.Some? ==> WorkerOk(log, LatestPosition(m.catalog), m.up.value))
  }

  // --- steps --------------------------------------------------------------------------------

  lemma AppendKeeps(log: set<Record>, committed: Position, w: Worker)
    requires IsLog(log) && WorkerOk(log, committed, w) && w.inHand.Some?
    ensures WorkerOk(log, committed, Taken(w))
  {
    var r, w' := w.inHand.value, Taken(w);
    DominatesEverywhere(w.position, committed);
    DominatesEverywhere(w'.position, committed);
    NextCovered(log, w.position, r);
    assert Owed(w'.held, committed) == Owed(w.held, committed) + [r];
    PushElement(Owed(w.held, committed), r);
    forall a, b | a in Flatten(Undurable(w.held.sealed, committed)) && b in w'.held.active ensures Before(a, b) {
      assert a in Owed(w.held, committed) && a in Elements(Owed(w.held, committed));
    }
  }

  lemma PushElement(s: seq<Record>, r: Record)
    requires Distinct(s) && r !in Elements(s)
    ensures Distinct(s + [r]) && Elements(s + [r]) == Elements(s) + {r}
  {
  }

  /** Sealing moves the active records; the committed ones it drops were owed no more. */
  lemma SealingOwed(held: Held, committed: Position)
    requires held.active != [] ==> !Dominates(committed, Extent(held.active))
    ensures var sealed := Sealed(held);
      var kept := Undurable(sealed.sealed, committed);
      && Undurable(kept, committed) == kept
      && Flatten(kept) + sealed.active == Owed(held, committed)
  {
    UndurableIdempotent(Sealed(held).sealed, committed);
    if held.active != [] {
      UndurablePush(held.sealed, held.active, committed);
      FlattenPush(Undurable(held.sealed, committed), held.active);
    }
  }

  lemma StartTickKeeps(log: set<Record>, committed: Position, w: Worker)
    requires WorkerOk(log, committed, w)
    ensures WorkerOk(log, committed, Started(w, committed))
  {
    if w.held.active != [] {
      var r := w.held.active[0];
      assert r in Owed(w.held, committed) && r in Elements(Owed(w.held, committed));
      DominatesExtent(committed, w.held.active);
    }
    SealingOwed(w.held, committed);
  }

  // --- committing ------------------------------------------------------------------------------

  /** What the new position claims beyond the old is exactly what the data file holds. */
  lemma CommitClaims(log: set<Record>, committed: Position, w: Worker, r: Record)
    requires WorkerOk(log, committed, w) && !w.phase.Resting?
    ensures var claimed := Reached(committed, w.held.sealed);
      r in UpTo(log, claimed) <==> r in UpTo(log, committed) || r in Flatten(w.held.sealed)
  {
    var file, claimed := Flatten(w.held.sealed), Reached(committed, w.held.sealed);
    var k := r.partition;
    ReachedGet(committed, w.held.sealed, k);
    assert Owed(w.held, committed) == file + w.held.active;
    if r in file {
      ExtentCovers(file, r);
      assert r in Elements(Owed(w.held, committed));
    }
    if r in UpTo(log, claimed) && r !in UpTo(log, committed) {
      var i := ExtentReached(file, k);
      assert file[i] in file && file[i] in Elements(Owed(w.held, committed));
      assert r in UpTo(log, w.position);
      assert r in Elements(Owed(w.held, committed));
      assert r in w.held.active ==> Before(file[i], r);
    }
  }

  lemma CommitCatalog(log: set<Record>, catalog: seq<Snapshot>, w: Worker)
    requires CatalogOk(log, catalog) && WorkerOk(log, LatestPosition(catalog), w) && w.phase.Folded?
    ensures CatalogOk(log, catalog + [DataSnapshot(w, LatestPosition(catalog))])
  {
    var committed, file := LatestPosition(catalog), Flatten(w.held.sealed);
    var s := DataSnapshot(w, committed);
    DurablePush(catalog, s);
    assert Owed(w.held, committed) == file + w.held.active;
    forall r ensures r in UpTo(log, s.position) <==> r in UpTo(log, committed) || r in file {
      CommitClaims(log, committed, w, r);
    }
    JoinDistinct(Durable(catalog), file, w.held.active, UpTo(log, committed));
  }

  lemma JoinDistinct(a: seq<Record>, file: seq<Record>, active: seq<Record>, done: set<Record>)
    requires Distinct(a) && Elements(a) == done && Distinct(file + active) && Elements(file + active) !! done
    ensures Distinct(a + file) && Elements(a + file) == done + Elements(file)
  {
    var all := file + active;
    forall i, j | 0 <= i < |a| && 0 <= j < |file| ensures a[i] != file[j] {
      assert a[i] in Elements(a) && all[j] == file[j] && all[j] in Elements(all);
    }
    forall i, j | 0 <= i < j < |file| ensures file[i] != file[j] {
      assert all[i] == file[i] && all[j] == file[j];
    }
  }

  lemma CommitWorker(log: set<Record>, committed: Position, w: Worker, sealed: seq<seq<Record>>)
    requires WorkerOk(log, committed, w) && w.phase.Folded?
    requires sealed == w.held.sealed || sealed == Undurable(w.held.sealed, Reached(committed, w.held.sealed))
    ensures var claimed := Reached(committed, w.held.sealed);
      WorkerOk(log, claimed, w.(phase := Resting, held := w.held.(sealed := sealed)))
  {
    var file, claimed := Flatten(w.held.sealed), Reached(committed, w.held.sealed);
    forall r | r in file ensures Covers(claimed, r) {
      ReachedGet(committed, w.held.sealed, r.partition);
      ExtentCovers(file, r);
    }
    AllDurable(w.held.sealed, claimed);
    assert Owed(w.held, committed) == file + w.held.active;
    AddedElements(file, w.held.active);
    forall r ensures r in UpTo(log, claimed) <==> r in UpTo(log, committed) || r in file {
      CommitClaims(log, committed, w, r);
    }
    ClaimBehind(log, committed, w);
    assert Undurable([], claimed) == [];
    assert Owed(Held(w.held.active, sealed), claimed) == w.held.active;
    assert UpTo(log, claimed) == UpTo(log, committed) + Elements(file);
  }

  lemma ClaimBehind(log: set<Record>, committed: Position, w: Worker)
    requires WorkerOk(log, committed, w) && w.phase.Folded?
    ensures Dominates(w.position, Reached(committed, w.held.sealed))
  {
    var file, claimed := Flatten(w.held.sealed), Reached(committed, w.held.sealed);
    assert Owed(w.held, committed) == file + w.held.active;
    forall k ensures Get(w.position, k) >= Get(claimed, k) {
      ReachedGet(committed, w.held.sealed, k);
      DominatesEverywhere(w.position, committed);
      if Get(Extent(file), k) > 0 {
        var i := ExtentReached(file, k);
        assert file[i] in file && file[i] in Elements(Owed(w.held, committed));
      }
    }
    DominatesEverywhere(w.position, claimed);
  }

  // --- every step ---------------------------------------------------------------------------------

  /** Folds, merges and queries leave the buffer and the position alone. */
  lemma BufferUntouched(log: set<Record>, committed: Position, w: Worker, w': Worker)
    requires WorkerOk(log, committed, w)
    requires w'.held == w.held && w'.position == w.position
    requires w'.inHand == w.inHand || HandOk(log, w')
    requires w'.phase.Resting? || !w.phase.Resting?
    ensures WorkerOk(log, committed, w')
  {
  }

  lemma MergeCatalog(log: set<Record>, catalog: seq<Snapshot>, s: Snapshot)
    requires CatalogOk(log, catalog) && s.file == [] && s.position == LatestPosition(catalog)
    ensures CatalogOk(log, catalog + [s])
  {
    DurablePush(catalog, s);
  }

  lemma CommitKeeps(log: set<Record>, m: Machine, w: Worker, verdict: Verdict)
    requires Inv(log, m) && m.up == Some(w) && w.phase.Folded? && w.held.sealed != []
    ensures Inv(log, Next(log, m, Commit(verdict)))
  {
    var committed := LatestPosition(m.catalog);
    if !verdict.Failed? {
      CommitCatalog(log, m.catalog, w);
      var claimed := Reached(committed, w.held.sealed);
      var sealed := if verdict.Committed? then Undurable(w.held.sealed, claimed) else w.held.sealed;
      CommitWorker(log, committed, w, sealed);
    }
  }

  lemma StartKeeps(log: set<Record>, m: Machine, e: Event)
    requires IsLog(log) && Inv(log, m) && e.Start? && Enabled(log, m, e)
    ensures Inv(log, Next(log, m, e))
  {
    assert Flatten([]) == [] && Undurable([], LatestPosition(m.catalog)) == [];
  }

  lemma EventKeeps(log: set<Record>, m: Machine, e: Event)
    requires IsLog(log) && Inv(log, m) && Enabled(log, m, e)
    ensures Inv(log, Next(log, m, e))
  {
    if e.Start? {
      StartKeeps(log, m, e);
    } else if e.Commit? {
      CommitKeeps(log, m, m.up.value, e.verdict);
    } else if e.AdoptMerge? {
      AdoptKeeps(log, m, m.up.value, e);
    } else if e.Append? || e.StartTick? {
      BufferKeeps(log, m, m.up.value, e);
    } else if !e.Crash? {
      QuietKeeps(log, m, m.up.value, e);
    }
  }

  lemma BufferKeeps(log: set<Record>, m: Machine, w: Worker, e: Event)
    requires IsLog(log) && Inv(log, m) && m.up == Some(w) && Enabled(log, m, e) && (e.Append? || e.StartTick?)
    ensures Inv(log, Next(log, m, e))
  {
    if e.Append? {
      AppendKeeps(log, LatestPosition(m.catalog), w);
    } else {
      StartTickKeeps(log, LatestPosition(m.catalog), w);
    }
  }

  lemma AdoptKeeps(log: set<Record>, m: Machine, w: Worker, e: Event)
    requires Inv(log, m) && m.up == Some(w) && e.AdoptMerge? && Enabled(log, m, e)
    ensures Inv(log, Next(log, m, e))
  {
    var m' := Next(log, m, e);
    if !e.verdict.Failed? {
      MergeCatalog(log, m.catalog, m'.catalog[|m.catalog|]);
    }
    BufferUntouched(log, LatestPosition(m.catalog), w, m'.up.value);
  }

  /** Nothing else touches the catalog or the buffer. */
  lemma QuietKeeps(log: set<Record>, m: Machine, w: Worker, e: Event)
    requires Inv(log, m) && m.up == Some(w) && Enabled(log, m, e)
    requires !e.Start? && !e.Commit? && !e.AdoptMerge? && !e.Append? && !e.StartTick? && !e.Crash?
    ensures Inv(log, Next(log, m, e))
  {
    BufferUntouched(log, LatestPosition(m.catalog), w, Next(log, m, e).up.value);
  }

  lemma {:induction false} Invariant(log: set<Record>, trace: seq<Machine>, es: seq<Event>, i: nat)
    requires IsLog(log) && Run(log, trace, es) && i <= |es|
    ensures Inv(log, trace[i])
  {
    if i > 0 {
      Invariant(log, trace, es, i - 1);
      assert Protocol.StepAt(log, trace, es, i - 1);
      EventKeeps(log, trace[i - 1], es[i - 1]);
    } else {
      assert UpTo(log, map[]) == {};
    }
  }

  // --- what is promised ---------------------------------------------------------------------------------

  lemma {:induction false} DistinctOnce<T>(s: seq<T>, x: T)
    requires Distinct(s)
    ensures multiset(s)[x] == if x in s then 1 else 0
  {
    if s != [] {
      var front := s[..|s| - 1];
      DistinctOnce(front, x);
      assert s == front + [s[|s| - 1]];
    }
  }

  /** Each record of the log is in the data files once if the position covers it, else never. */
  lemma RecordsOnce(log: set<Record>, trace: seq<Machine>, es: seq<Event>, i: nat, r: Record)
    requires IsLog(log) && Run(log, trace, es) && i <= |es|
    ensures var catalog := trace[i].catalog;
      multiset(Durable(catalog))[r] == if r in log && Covers(LatestPosition(catalog), r) then 1 else 0
  {
    Invariant(log, trace, es, i);
    DistinctOnce(Durable(trace[i].catalog), r);
    assert r in Durable(trace[i].catalog) <==> r in Elements(Durable(trace[i].catalog));
  }

  /** The row of `r` for one scope, if that scope sees it. */
  ghost predicate RowFor(row: Row, r: Record) {
    && row.partition == r.partition && row.offset == r.offset
    && row.src == r.event.src && row.dst == r.event.dst && SeenBy(r.event, row.scope)
  }

  lemma RecordRows(r: Record, row: Row)
    ensures multiset(RowsOf(r))[row] == if RowFor(row, r) then 1 else 0
  {
    var scopes, rows := RowScopes(r.event), RowsOf(r);
    forall i, j | 0 <= i < j < |rows| ensures rows[i] != rows[j] {
      assert scopes[i] != scopes[j];
    }
    DistinctOnce(rows, row);
    if RowFor(row, r) {
      var i :| 0 <= i < |scopes| && scopes[i] == row.scope;
      assert rows[i] == row;
    }
  }

  lemma {:induction false} RowsOnce(records: seq<Record>, row: Row)
    requires Distinct(records) && IsLog(Elements(records))
    ensures multiset(AllRows(records))[row] == if exists r :: r in records && RowFor(row, r) then 1 else 0
  {
    if records != [] {
      var front, last := records[..|records| - 1], records[|records| - 1];
      assert records == front + [last] && Elements(front) <= Elements(records);
      RowsOnce(front, row);
      RecordRows(last, row);
      forall r | r in front && RowFor(row, r) ensures !RowFor(row, last) {
        assert r in Elements(records) && last in Elements(records) && r != last;
      }
    }
  }

  /** Row by row: one for each covered record and scope that sees it, and none besides. */
  lemma CommittedRows(log: set<Record>, trace: seq<Machine>, es: seq<Event>, i: nat, row: Row)
    requires IsLog(log) && Run(log, trace, es) && i <= |es|
    ensures var catalog := trace[i].catalog;
      multiset(AllRows(Durable(catalog)))[row]
        == if exists r :: r in UpTo(log, LatestPosition(catalog)) && RowFor(row, r) then 1 else 0
  {
    Invariant(log, trace, es, i);
    var durable := Durable(trace[i].catalog);
    RowsOnce(durable, row);
    forall r ensures r in durable <==> r in UpTo(log, LatestPosition(trace[i].catalog)) {
      assert r in durable <==> r in Elements(durable);
    }
  }
}

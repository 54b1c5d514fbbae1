/**
 Many workers, each free to believe it leads, over a catalog whose only arbiter is
 that a sequence can be put once. Rows may then be written twice, but sequences
 are dense, positions only advance, and every record at or below a committed
 position is in some committed data file, so no worker drops a record that is not.
 */
module Leaders {
  import opened Types
  import opened Streams
  import opened Ingest
  import opened Protocol
  import opened Catalogs

  /** A committed snapshot: where the stream stands, and the rows of its data file. */
  datatype Entry = Entry(position: Position, file: seq<Record>)

  type Store = map<nat, Entry>

  /** A tick under way: the sequence it will try, and the position it found committed. */
  datatype Tick = Tick(sequence: nat, found: Position)

  datatype Peer = Peer(position: Position, held: Held, tick: Option<Tick>)

  type PeerId = nat

  datatype Cluster = Cluster(store: Store, peers: map<PeerId, Peer>)

  /** `lost` means the worker does not learn that its put succeeded. */
  datatype Event =
    | Join(p: PeerId)
    | Leave(p: PeerId)
    | Consume(p: PeerId, record: Record)
    | Observe(p: PeerId)
    | PutMerge(p: PeerId, lost: bool)
    | PutData(p: PeerId, lost: bool)
    | Abandon(p: PeerId)

  const NOBODY := Cluster(map[], map[])

  // --- the catalog ---------------------------------------------------------------------

  ghost function PositionAt(store: Store, k: nat): Position {
    if k in store then store[k].position else map[]
  }

  /** Create, never overwrite. */
  function Put(store: Store, k: nat, c: Entry): Store {
    if k in store then store else store[k := c]
  }

  // --- steps -------------------------------------------------------------------------------

  ghost predicate Enabled(log: set<Record>, c: Cluster, e: Event) {
    match e
    case Join(p) => p !in c.peers
    case Consume(p, r) => p in c.peers && IsNext(log, c.peers[p].position, r)
    case Observe(p) => p in c.peers && c.peers[p].tick.None?
    case PutMerge(p, _) => p in c.peers && c.peers[p].tick.Some?
    case PutData(p, _) => p in c.peers && c.peers[p].tick.Some? && c.peers[p].held.sealed != []
    case Leave(p) => p in c.peers
    case Abandon(p) => p in c.peers
  }

  function Consumed(w: Peer, r: Record): Peer {
    w.(position := Advance(w.position, r.partition, r.offset), held := w.held.(active := w.held.active + [r]))
  }

  function Observed(w: Peer, n: nat, found: Position): Peer {
    var sealed := Sealed(w.held);
    w.(held := sealed.(sealed := Undurable(sealed.sealed, found)), tick := Some(Tick(n + 1, found)))
  }

  /** What a worker publishes for its sealed segments. */
  function DataOf(w: Peer): Entry
    requires w.tick.Some?
  {
    Entry(Reached(w.tick.value.found, w.held.sealed), Flatten(w.held.sealed))
  }

  ghost function Next(log: set<Record>, c: Cluster, e: Event): Cluster
    requires Enabled(log, c, e)
  {
    var n := |c.store|;
    match e
    case Join(p) => c.(peers := c.peers[p := Peer(PositionAt(c.store, n), Held([], []), None)])
    case Leave(p) => c.(peers := c.peers - {p})
    case Consume(p, r) => c.(peers := c.peers[p := Consumed(c.peers[p], r)])
    case Observe(p) => c.(peers := c.peers[p := Observed(c.peers[p], n, PositionAt(c.store, n))])
    case Abandon(p) => c.(peers := c.peers[p := c.peers[p].(tick := None)])
    case PutMerge(p, lost) =>
      var w, t := c.peers[p], c.peers[p].tick.value;
      var won := t.sequence !in c.store;
      var tick := if !won then w.tick else if lost then None else Some(t.(sequence := t.sequence + 1));
      Cluster(Put(c.store, t.sequence, Entry(t.found, [])), c.peers[p := w.(tick := tick)])
    case PutData(p, lost) =>
      var w, t := c.peers[p], c.peers[p].tick.value;
      var won, data := t.sequence !in c.store, DataOf(w);
      var sealed := if won && !lost then Undurable(w.held.sealed, data.position) else w.held.sealed;
      Cluster(Put(c.store, t.sequence, data), c.peers[p := w.(tick := None, held := w.held.(sealed := sealed))])
  }

  // --- the invariant --------------------------------------------------------------------------

  ghost predicate Saved(store: Store, r: Record) {
    exists k | k in store :: r in store[k].file
  }

  /** Every record at or below `p` is in a committed data file. */
  ghost predicate AllSaved(log: set<Record>, store: Store, p: Position) {
    forall r | r in log && Covers(p, r) :: Saved(store, r)
  }

  ghost predicate InHeld(held: Held, r: Record) {
    r in Flatten(held.sealed) || r in held.active
  }

  /** Everything consumed is buffered or saved, in partition order. */
  ghost predicate PeerOk(log: set<Record>, store: Store, w: Peer) {
    && (forall r | r in log && Covers(w.position, r) :: InHeld(w.held, r) || Saved(store, r))
    && (forall r | InHeld(w.held, r) :: r in log && Covers(w.position, r))
    && (forall a, b | a in Flatten(w.held.sealed) && b in w.held.active ::
        a.partition == b.partition ==> a.offset < b.offset)
  }

  /** A tick stands just above a committed snapshot, whose position it found. */
  ghost predicate TickOk(store: Store, w: Peer) {
    w.tick.Some? ==>
      && 1 <= w.tick.value.sequence <= |store| + 1
      && w.tick.value.found == PositionAt(store, w.tick.value.sequence - 1)
  }

  /** Each position dominates its predecessor's. */
  ghost predicate Advances(store: Store) {
    forall k | 1 < k <= |store| :: Dominates(PositionAt(store, k), PositionAt(store, k - 1))
  }

  ghost predicate NothingLost(log: set<Record>, store: Store) {
    forall k | k in store :: AllSaved(log, store, store[k].position)
  }

  ghost predicate StoreOk(log: set<Record>, store: Store) {
    Dense(store) && Advances(store) && NothingLost(log, store)
  }

  ghost predicate WorkerOk(log: set<Record>, store: Store, w: Peer) {
    PeerOk(log, store, w) && TickOk(store, w)
  }

  ghost predicate Inv(log: set<Record>, c: Cluster) {
    StoreOk(log, c.store) && forall p | p in c.peers :: WorkerOk(log, c.store, c.peers[p])
  }

  // --- a put ------------------------------------------------------------------------------------

  /** Nothing is removed or changed, and something may be added at the end. */
  ghost predicate Grows(store: Store, store': Store) {
    && Dense(store) && Dense(store') && |store| <= |store'|
    && forall k | k in store :: k in store' && store'[k] == store[k]
  }

  lemma PutGrows(store: Store, k: nat, c: Entry)
    requires Dense(store) && 1 <= k <= |store| + 1
    ensures Grows(store, Put(store, k, c))
    ensures k !in store ==> k == |store| + 1 == |Put(store, k, c)|
  {
    if k !in store {
      assert store[k := c].Keys == store.Keys + {k};
    }
  }

  lemma SavedGrows(store: Store, store': Store, r: Record)
    requires Grows(store, store') && Saved(store, r)
    ensures Saved(store', r)
  {
    var k :| k in store && r in store[k].file;
    assert k in store' && r in store'[k].file;
  }

  lemma AllSavedGrows(log: set<Record>, store: Store, store': Store, p: Position)
    requires Grows(store, store') && AllSaved(log, store, p)
    ensures AllSaved(log, store', p)
  {
    forall r | r in log && Covers(p, r) ensures Saved(store', r) {
      SavedGrows(store, store', r);
    }
  }

  lemma WorkerGrows(log: set<Record>, store: Store, store': Store, w: Peer)
    requires Grows(store, store') && WorkerOk(log, store, w)
    ensures WorkerOk(log, store', w)
  {
    forall r | r in log && Covers(w.position, r) ensures InHeld(w.held, r) || Saved(store', r) {
      if Saved(store, r) {
        SavedGrows(store, store', r);
      }
    }
  }

  /** A put just above the newest, at a position no lower and all saved, keeps the catalog. */
  lemma PutStore(log: set<Record>, store: Store, k: nat, c: Entry)
    requires StoreOk(log, store) && k == |store| + 1 && Dominates(c.position, PositionAt(store, k - 1))
    requires AllSaved(log, store[k := c], c.position)
    ensures StoreOk(log, store[k := c])
  {
    var store' := store[k := c];
    PutGrows(store, k, c);
    forall j | 1 < j <= |store'| ensures Dominates(PositionAt(store', j), PositionAt(store', j - 1)) {
      assert j < k ==> PositionAt(store', j) == PositionAt(store, j);
      assert PositionAt(store', j - 1) == PositionAt(store, j - 1);
    }
    forall j | j in store' ensures AllSaved(log, store', store'[j].position) {
      if j != k {
        AllSavedGrows(log, store, store', store[j].position);
      }
    }
  }

  /** An absent snapshot claims nothing; a committed one only what is saved. */
  lemma FoundSaved(log: set<Record>, store: Store, k: nat)
    requires IsLog(log) && NothingLost(log, store)
    ensures AllSaved(log, store, PositionAt(store, k))
  {
  }

  // --- what each worker does ------------------------------------------------------------------------

  lemma ConsumeKeeps(log: set<Record>, store: Store, w: Peer, r: Record)
    requires IsLog(log) && WorkerOk(log, store, w) && IsNext(log, w.position, r)
    ensures WorkerOk(log, store, Consumed(w, r))
  {
    var w' := Consumed(w, r);
    forall q | q in log && Covers(w'.position, q) ensures InHeld(w'.held, q) || Saved(store, q) {
      assert q == r || Covers(w.position, q);
      assert r in w'.held.active;
      assert InHeld(w.held, q) ==> InHeld(w'.held, q);
    }
    forall a, b | a in Flatten(w.held.sealed) && b in w'.held.active
      ensures a.partition == b.partition ==> a.offset < b.offset
    {
      assert InHeld(w.held, a);
    }
    forall q | InHeld(w'.held, q) ensures q in log && Covers(w'.position, q) {
      assert q == r || InHeld(w.held, q);
    }
  }

  lemma {:induction false} UndurableHas(batches: seq<seq<Record>>, p: Position, r: Record)
    ensures r in Flatten(Undurable(batches, p)) ==> r in Flatten(batches)
    ensures r in Flatten(batches) ==> r in Flatten(Undurable(batches, p)) || Covers(p, r)
  {
    if batches != [] {
      var front, last := batches[..|batches| - 1], batches[|batches| - 1];
      UndurableHas(front, p, r);
      DominatesExtent(p, last);
      var kept := Undurable(front, p);
      assert (kept + [last])[..|kept|] == kept;
    }
  }

  /** Dropping what a position covers loses nothing, if that position is saved. */
  lemma DropKeeps(log: set<Record>, store: Store, w: Peer, p: Position)
    requires PeerOk(log, store, w) && AllSaved(log, store, p)
    ensures PeerOk(log, store, w.(held := w.held.(sealed := Undurable(w.held.sealed, p))))
  {
    var w' := w.(held := w.held.(sealed := Undurable(w.held.sealed, p)));
    forall r ensures r in Flatten(w'.held.sealed) ==> r in Flatten(w.held.sealed)
      ensures r in Flatten(w.held.sealed) ==> r in Flatten(w'.held.sealed) || Covers(p, r)
    {
      UndurableHas(w.held.sealed, p, r);
    }
    forall r | r in log && Covers(w'.position, r) ensures InHeld(w'.held, r) || Saved(store, r) {
      assert InHeld(w.held, r) || Saved(store, r);
    }
    forall r | InHeld(w'.held, r) ensures r in log && Covers(w'.position, r) {
      assert InHeld(w.held, r);
    }
  }

  lemma SealKeeps(log: set<Record>, store: Store, w: Peer)
    requires PeerOk(log, store, w)
    ensures PeerOk(log, store, w.(held := Sealed(w.held)))
  {
    if w.held.active != [] {
      var sealed := w.held.sealed + [w.held.active];
      assert sealed[..|w.held.sealed|] == w.held.sealed;
      assert Flatten(sealed) == Flatten(w.held.sealed) + w.held.active;
      forall r ensures InHeld(Sealed(w.held), r) <==> InHeld(w.held, r) {
      }
    }
  }

  lemma ObserveKeeps(log: set<Record>, store: Store, w: Peer)
    requires IsLog(log) && StoreOk(log, store) && WorkerOk(log, store, w)
    ensures WorkerOk(log, store, Observed(w, |store|, PositionAt(store, |store|)))
  {
    SealKeeps(log, store, w);
    FoundSaved(log, store, |store|);
    DropKeeps(log, store, w.(held := Sealed(w.held)), PositionAt(store, |store|));
  }

  // --- committing rows ----------------------------------------------------------------------------------

  /** All a data commit claims is in its file or was saved before. */
  lemma DataClaims(log: set<Record>, store: Store, w: Peer, r: Record)
    requires IsLog(log) && StoreOk(log, store) && WorkerOk(log, store, w) && w.tick.Some?
    requires r in log && Covers(DataOf(w).position, r)
    ensures r in DataOf(w).file || Saved(store, r)
  {
    var found, file := w.tick.value.found, Flatten(w.held.sealed);
    ReachedGet(found, w.held.sealed, r.partition);
    if Covers(found, r) {
      FoundSaved(log, store, w.tick.value.sequence - 1);
    } else {
      var i := ExtentReached(file, r.partition);
      assert file[i] in file && InHeld(w.held, file[i]);
      assert r !in w.held.active;
      assert InHeld(w.held, r) || Saved(store, r);
    }
  }

  lemma DataDominates(w: Peer)
    requires w.tick.Some?
    ensures Dominates(DataOf(w).position, w.tick.value.found)
  {
    DominatesEverywhere(DataOf(w).position, w.tick.value.found);
    forall k ensures Get(DataOf(w).position, k) >= Get(w.tick.value.found, k) {
      ReachedGet(w.tick.value.found, w.held.sealed, k);
    }
  }

  /** The put that wins keeps the catalog dense, advancing and complete. */
  lemma PutDataStore(log: set<Record>, store: Store, w: Peer)
    requires IsLog(log) && StoreOk(log, store) && WorkerOk(log, store, w) && w.tick.Some?
    ensures StoreOk(log, Put(store, w.tick.value.sequence, DataOf(w)))
    ensures w.tick.value.sequence !in store ==>
      AllSaved(log, Put(store, w.tick.value.sequence, DataOf(w)), DataOf(w).position)
  {
    var k, data := w.tick.value.sequence, DataOf(w);
    PutGrows(store, k, data);
    if k !in store {
      var store' := store[k := data];
      DataDominates(w);
      forall r | r in log && Covers(data.position, r) ensures Saved(store', r) {
        DataClaims(log, store, w, r);
        if r in data.file {
          assert k in store' && r in store'[k].file;
        } else {
          SavedGrows(store, store', r);
        }
      }
      PutStore(log, store, k, data);
    }
  }

  lemma PutMergeStore(log: set<Record>, store: Store, w: Peer)
    requires IsLog(log) && StoreOk(log, store) && TickOk(store, w) && w.tick.Some?
    ensures StoreOk(log, Put(store, w.tick.value.sequence, Entry(w.tick.value.found, [])))
  {
    var k, c := w.tick.value.sequence, Entry(w.tick.value.found, []);
    PutGrows(store, k, c);
    if k !in store {
      FoundSaved(log, store, k - 1);
      AllSavedGrows(log, store, store[k := c], c.position);
      PutStore(log, store, k, c);
    }
  }

  // --- every run -----------------------------------------------------------------------------------------

  /** One worker changes while the catalog grows under the others. */
  lemma OneChanges(log: set<Record>, c: Cluster, c': Cluster, p: PeerId)
    requires Inv(log, c) && StoreOk(log, c'.store) && Grows(c.store, c'.store)
    requires p in c'.peers && c'.peers == c.peers[p := c'.peers[p]] && WorkerOk(log, c'.store, c'.peers[p])
    ensures Inv(log, c')
  {
    forall q | q in c'.peers ensures WorkerOk(log, c'.store, c'.peers[q]) {
      if q != p {
        WorkerGrows(log, c.store, c'.store, c.peers[q]);
      }
    }
  }

  lemma PutDataKeeps(log: set<Record>, c: Cluster, p: PeerId, lost: bool)
    requires IsLog(log) && Inv(log, c) && Enabled(log, c, PutData(p, lost))
    ensures Inv(log, Next(log, c, PutData(p, lost)))
  {
    var w, c' := c.peers[p], Next(log, c, PutData(p, lost));
    var k, data := w.tick.value.sequence, DataOf(w);
    PutGrows(c.store, k, data);
    PutDataStore(log, c.store, w);
    WorkerGrows(log, c.store, c'.store, w);
    if k !in c.store && !lost {
      DropKeeps(log, c'.store, w, data.position);
    }
    OneChanges(log, c, c', p);
  }

  lemma PutMergeKeeps(log: set<Record>, c: Cluster, p: PeerId, lost: bool)
    requires IsLog(log) && Inv(log, c) && Enabled(log, c, PutMerge(p, lost))
    ensures Inv(log, Next(log, c, PutMerge(p, lost)))
  {
    var w, c' := c.peers[p], Next(log, c, PutMerge(p, lost));
    var t := w.tick.value;
    PutGrows(c.store, t.sequence, Entry(t.found, []));
    PutMergeStore(log, c.store, w);
    WorkerGrows(log, c.store, c'.store, w);
    OneChanges(log, c, c', p);
  }

  lemma JoinOk(log: set<Record>, store: Store)
    requires IsLog(log) && StoreOk(log, store)
    ensures WorkerOk(log, store, Peer(PositionAt(store, |store|), Held([], []), None))
  {
    FoundSaved(log, store, |store|);
    assert Flatten([]) == [];
  }

  lemma EventKeeps(log: set<Record>, c: Cluster, e: Event)
    requires IsLog(log) && Inv(log, c) && Enabled(log, c, e)
    ensures Inv(log, Next(log, c, e))
    ensures Grows(c.store, Next(log, c, e).store)
  {
    match e
    case Join(p) =>
      JoinOk(log, c.store);
      OneChanges(log, c, Next(log, c, e), p);
    case Leave(p) =>
    case Consume(p, r) =>
      ConsumeKeeps(log, c.store, c.peers[p], r);
      OneChanges(log, c, Next(log, c, e), p);
    case Observe(p) =>
      ObserveKeeps(log, c.store, c.peers[p]);
      OneChanges(log, c, Next(log, c, e), p);
    case Abandon(p) =>
      OneChanges(log, c, Next(log, c, e), p);
    case PutMerge(p, lost) =>
      PutMergeKeeps(log, c, p, lost);
      PutGrows(c.store, c.peers[p].tick.value.sequence, Entry(c.peers[p].tick.value.found, []));
    case PutData(p, lost) =>
      PutDataKeeps(log, c, p, lost);
      PutGrows(c.store, c.peers[p].tick.value.sequence, DataOf(c.peers[p]));
  }

  ghost predicate StepAt(log: set<Record>, trace: seq<Cluster>, es: seq<Event>, i: nat)
    requires |trace| == |es| + 1 && i < |es|
  {
    Enabled(log, trace[i], es[i]) && trace[i + 1] == Next(log, trace[i], es[i])
  }

  ghost predicate Run(log: set<Record>, trace: seq<Cluster>, es: seq<Event>) {
    && |trace| == |es| + 1 && trace[0] == NOBODY
    && forall i | 0 <= i < |es| :: StepAt(log, trace, es, i)
  }

  lemma {:induction false} Invariant(log: set<Record>, trace: seq<Cluster>, es: seq<Event>, i: nat)
    requires IsLog(log) && Run(log, trace, es) && i <= |es|
    ensures Inv(log, trace[i])
  {
    if i > 0 {
      Invariant(log, trace, es, i - 1);
      assert StepAt(log, trace, es, i - 1);
      EventKeeps(log, trace[i - 1], es[i - 1]);
    }
  }

  /** A sequence, once committed, says the same for good: it is committed at most once. */
  lemma {:induction false} CommittedForGood(log: set<Record>, trace: seq<Cluster>, es: seq<Event>, i: nat, j: nat,
                                            k: nat)
    requires IsLog(log) && Run(log, trace, es) && i <= j <= |es| && k in trace[i].store
    ensures k in trace[j].store && trace[j].store[k] == trace[i].store[k]
    decreases j
  {
    if i < j {
      CommittedForGood(log, trace, es, i, j - 1, k);
      Invariant(log, trace, es, j - 1);
      assert StepAt(log, trace, es, j - 1);
      EventKeeps(log, trace[j - 1], es[j - 1]);
    }
  }

  /** In every reachable state sequences are dense, and each position dominates all before it. */
  lemma PositionsAdvance(log: set<Record>, trace: seq<Cluster>, es: seq<Event>, i: nat, j: nat, k: nat)
    requires IsLog(log) && Run(log, trace, es) && i <= |es| && 1 <= j <= k <= |trace[i].store|
    ensures Dense(trace[i].store)
    ensures Dominates(trace[i].store[k].position, trace[i].store[j].position)
    decreases k
  {
    Invariant(log, trace, es, i);
    var store := trace[i].store;
    if j < k {
      PositionsAdvance(log, trace, es, i, j, k - 1);
      assert Dominates(PositionAt(store, k), PositionAt(store, k - 1));
      DominatesTransitive(store[k].position, store[k - 1].position, store[j].position);
    }
  }

  /** No record at or below a committed position is missing from the committed data files. */
  lemma CommittedSaved(log: set<Record>, trace: seq<Cluster>, es: seq<Event>, i: nat, k: nat, r: Record)
    requires IsLog(log) && Run(log, trace, es) && i <= |es| && k in trace[i].store
    requires r in log && Covers(trace[i].store[k].position, r)
    ensures Saved(trace[i].store, r)
  {
    Invariant(log, trace, es, i);
    assert AllSaved(log, trace[i].store, trace[i].store[k].position);
  }

  /** A worker's drops lose nothing: what it has consumed it still holds, or it is saved. */
  lemma ConsumedKept(log: set<Record>, trace: seq<Cluster>, es: seq<Event>, i: nat, p: PeerId, r: Record)
    requires IsLog(log) && Run(log, trace, es) && i <= |es| && p in trace[i].peers
    requires r in log && Covers(trace[i].peers[p].position, r)
    ensures InHeld(trace[i].peers[p].held, r) || Saved(trace[i].store, r)
  {
    Invariant(log, trace, es, i);
    assert WorkerOk(log, trace[i].store, trace[i].peers[p]);
  }
}

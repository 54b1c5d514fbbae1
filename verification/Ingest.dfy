/**
 The ingest thread: records are applied to the forest and appended to the edge
 buffer under the log's own offsets, duplicates skipped; the buffer seals what it
 holds into segments and drops the ones a committed position covers.
 */
module Ingest {
  import opened Types
  import opened Forest
  import opened Events
  import opened Streams

  // --- rows ------------------------------------------------------------------------------

  datatype Row = Row(partition: PartitionId, offset: nat, src: NodeId, dst: NodeId, scope: ScopeId)

  function RowScopes(e: EdgeEvent): (r: seq<ScopeId>)
    ensures r != [] && Distinct(r)
    ensures forall s :: s in r <==> SeenBy(e, s)
  {
    match Normalize(e.visibility)
    case Everywhere => [GLOBAL_SCOPE]
    case Scoped(scopes) => assert e.visibility.scopes[0] in scopes; scopes
  }

  /** One row for each scope that sees the record. */
  function RowsOf(r: Record): seq<Row> {
    var scopes := RowScopes(r.event);
    seq(|scopes|, i requires 0 <= i < |scopes| =>
      Row(r.partition, r.offset, r.event.src, r.event.dst, scopes[i]))
  }

  function AllRows(records: seq<Record>): seq<Row> {
    if records == [] then [] else AllRows(records[..|records| - 1]) + RowsOf(records[|records| - 1])
  }

  /** The lowest offset of each partition, for records in partition order. */
  function Starts(records: seq<Record>): Position {
    if records == [] then map[]
    else
      var before, last := Starts(records[..|records| - 1]), records[|records| - 1];
      if Get(before, last.partition) == 0 then Advance(before, last.partition, last.offset) else before
  }

  lemma PushRecord(records: seq<Record>, r: Record)
    ensures AllRows(records + [r]) == AllRows(records) + RowsOf(r)
    ensures Extent(records + [r]) == Advance(Extent(records), r.partition, r.offset)
    ensures Starts(records + [r]) == if Get(Starts(records), r.partition) == 0
        then Advance(Starts(records), r.partition, r.offset) else Starts(records)
  {
    assert (records + [r])[..|records|] == records;
  }

  // --- the edge buffer ----------------------------------------------------------------------

  datatype Segment = Segment(rows: multiset<Row>, first: Position, last: Position)

  /** What the buffer holds, record by record. */
  datatype Held = Held(active: seq<Record>, sealed: seq<seq<Record>>)

  function Sealed(b: Held): Held {
    if b.active == [] then b else Held([], b.sealed + [b.active])
  }

  /** The batches a committed position does not wholly cover. */
  function Undurable(batches: seq<seq<Record>>, committed: Position): seq<seq<Record>> {
    if batches == [] then []
    else
      var rest, last := Undurable(batches[..|batches| - 1], committed), batches[|batches| - 1];
      if Dominates(committed, Extent(last)) then rest else rest + [last]
  }

  ghost predicate Describes(s: Segment, records: seq<Record>) {
    s.rows == multiset(AllRows(records)) && s.first == Starts(records) && s.last == Extent(records)
  }

  ghost predicate DescribeAll(segments: seq<Segment>, batches: seq<seq<Record>>) {
    |segments| == |batches| && forall i | 0 <= i < |segments| :: Describes(segments[i], batches[i])
  }

  lemma DescribePush(kept: seq<Segment>, rest: seq<seq<Record>>, s: Segment, batch: seq<Record>)
    requires DescribeAll(kept, rest) && Describes(s, batch)
    ensures DescribeAll(kept + [s], rest + [batch])
  {
  }

  lemma UndurableStep(batches: seq<seq<Record>>, i: nat, committed: Position)
    requires i < |batches|
    ensures var before := Undurable(batches[..i], committed);
      Undurable(batches[..i + 1], committed)
        == if Dominates(committed, Extent(batches[i])) then before else before + [batches[i]]
  {
    assert batches[..i + 1][..i] == batches[..i];
  }

  class EdgeBuffer {
    var rows: seq<Row>
    var first: Position
    var last: Position
    var sealed: seq<Segment>
    ghost var held: Held

    ghost predicate Valid()
      reads this
    {
      && rows == AllRows(held.active)
      && first == Starts(held.active) && last == Extent(held.active)
      && DescribeAll(sealed, held.sealed)
    }

    constructor ()
      ensures Valid() && held == Held([], [])
    {
      rows, first, last, sealed := [], map[], map[], [];
      held := Held([], []);
    }

    method Append(r: Record)
      requires Valid()
      modifies this
      ensures Valid() && held == old(held).(active := old(held).active + [r])
    {
      PushRecord(held.active, r);
      if Get(first, r.partition) == 0 {
        first := Advance(first, r.partition, r.offset);
      }
      last := Advance(last, r.partition, r.offset);
      rows := rows + RowsOf(r);
      held := held.(active := held.active + [r]);
    }

    method SealActive() returns (any: bool)
      requires Valid()
      modifies this
      ensures Valid() && held == Sealed(old(held))
      ensures any <==> old(held).active != []
    {
      if rows == [] {
        return false;
      }
      sealed := sealed + [Segment(multiset(rows), first, last)];
      rows, first, last := [], map[], map[];
      held := Sealed(held);
      any := true;
    }

    /** Drop what `committed` covers: a segment goes only when all its partitions are covered. */
    method DropCommitted(committed: Position) returns (dropped: nat)
      requires Valid()
      modifies this
      ensures Valid() && held == old(held).(sealed := Undurable(old(held).sealed, committed))
      ensures dropped == |old(held).sealed| - |held.sealed|
    {
      var kept := Retain(sealed, committed, held.sealed);
      dropped := |sealed| - |kept|;
      sealed := kept;
      held := held.(sealed := Undurable(held.sealed, committed));
    }
  }

  method Retain(segments: seq<Segment>, committed: Position, ghost batches: seq<seq<Record>>)
    returns (kept: seq<Segment>)
    requires DescribeAll(segments, batches)
    ensures DescribeAll(kept, Undurable(batches, committed)) && |kept| <= |segments|
  {
    kept := [];
    ghost var rest: seq<seq<Record>> := [];
    for i := 0 to |segments|
      invariant DescribeAll(kept, rest) && |kept| <= i
      invariant rest == Undurable(batches[..i], committed)
    {
      UndurableStep(batches, i, committed);
      assert Describes(segments[i], batches[i]);
      if !Dominates(committed, segments[i].last) {
        DescribePush(kept, rest, segments[i], batches[i]);
        kept, rest := kept + [segments[i]], rest + [batches[i]];
      }
    }
    assert batches[..|batches|] == batches;
  }

  // --- the pipeline ---------------------------------------------------------------------------

  datatype Outcome = Applied(zero: nat) | OffsetZero(at: nat) | OutOfOrder(at: nat)

  /** Positive offsets, rising within each partition. */
  ghost predicate InOrder(records: seq<Record>) {
    && (forall i | 0 <= i < |records| :: records[i].offset > 0)
    && forall i, j | 0 <= i < j < |records| && records[i].partition == records[j].partition ::
         records[i].offset < records[j].offset
  }

  /** The records of a batch beyond where the worker stood: the ones to apply. */
  function Fresh(start: Position, records: seq<Record>): seq<Record> {
    if records == [] then []
    else
      var rest, last := Fresh(start, records[..|records| - 1]), records[|records| - 1];
      if Covers(start, last) then rest else rest + [last]
  }

  ghost function EventsIn(records: seq<Record>): set<EdgeEvent> {
    set r | r in records :: r.event
  }

  /** The two places a record goes. */
  datatype Target = Routing | Rows

  class Pipeline {
    const forest: ScopedForest
    const buffer: EdgeBuffer
    var position: Position
    /** Every event the forest holds. */
    ghost var events: set<EdgeEvent>

    ghost predicate RoutesAs(u: Unfold)
      reads this`events, forest, forest.mem, forest.mem.repr
    {
      forest.Valid() && HoldsEdges(forest.eg, forest.es, events)
    }

    /** The forest holds the edges of the events. */
    ghost predicate Routes()
      reads this`events, forest, forest.mem, forest.mem.repr
    {
      forall u :: RoutesAs(u)
    }

    ghost predicate Keeps(target: Target)
      reads this, forest, forest.mem, forest.mem.repr, buffer
    {
      match target
      case Routing => Routes()
      case Rows => buffer.Valid()
    }

    ghost predicate Valid()
      reads this, forest, forest.mem, forest.mem.repr, buffer
    {
      forall target :: Keeps(target)
    }

    constructor (forest: ScopedForest, buffer: EdgeBuffer, start: Position, ghost events: set<EdgeEvent>)
      requires forest.Valid() && HoldsEdges(forest.eg, forest.es, events) && buffer.Valid()
      ensures Valid() && position == start && this.events == events
      ensures this.forest == forest && this.buffer == buffer
    {
      this.forest, this.buffer, position := forest, buffer, start;
      this.events := events;
    }

    method Route(e: EdgeEvent)
      requires Routes()
      modifies this`events, forest`registry, forest`eg, forest`es, forest.mem, forest.mem.repr
      ensures Routes() && fresh(forest.mem.repr - old(forest.mem.repr)) && events == old(events) + {e}
    {
      assert RoutesAs(Unfolded);
      ApplyEvent(forest, e, events);
      events := events + {e};
    }

    method Take(r: Record)
      requires Valid()
      modifies this, forest`registry, forest`eg, forest`es, forest.mem, forest.mem.repr, buffer
      ensures Valid() && fresh(forest.mem.repr - old(forest.mem.repr))
      ensures buffer.held == old(buffer.held).(active := old(buffer.held).active + [r])
      ensures events == old(events) + {r.event}
      ensures position == Advance(old(position), r.partition, r.offset)
    {
      assert Keeps(Routing) && Keeps(Rows);
      Route(r.event);
      buffer.Append(r);
      position := Advance(position, r.partition, r.offset);
    }

    /**
      Apply a batch in log order. Records already applied are skipped, so what is
      appended is exactly what lies beyond the starting position; a record out of
      order stops the batch there, with everything before it applied.
      */
    method ApplyBatch(records: seq<Record>) returns (r: Outcome)
      requires Valid()
      modifies this, forest`registry, forest`eg, forest`es, forest.mem, forest.mem.repr, buffer
      ensures Valid()
      ensures r.Applied? <==> InOrder(records)
      ensures !r.Applied? ==> r.at < |records|
      ensures var done := if r.Applied? then records else records[..r.at];
        && InOrder(done) && CaughtUp(old(position), position, done)
        && buffer.held == Appended(old(buffer.held), Fresh(old(position), done))
        && events == old(events) + EventsIn(Fresh(old(position), done))
      ensures r.OffsetZero? ==> records[r.at].offset == 0
      ensures r.OutOfOrder? ==> records[r.at].offset > 0 && !InOrder(records[..r.at + 1])
      ensures r.Applied? ==> r.zero == Get(position, 0)
    {
      ghost var start, held, had := position, buffer.held, events;
      var seen: Position := map[];
      for i := 0 to |records|
        invariant Valid() && fresh(forest.mem.repr - old(forest.mem.repr))
        invariant InOrder(records[..i]) && seen == Extent(records[..i])
        invariant buffer.held == Appended(held, Fresh(start, records[..i]))
        invariant events == had + EventsIn(Fresh(start, records[..i]))
        invariant CaughtUp(start, position, records[..i])
      {
        var record := records[i];
        if record.offset == 0 {
          return OffsetZero(i);
        }
        var previous := Get(seen, record.partition);
        OrderStep(records, i);
        if record.offset <= previous && previous != 0 {
          return OutOfOrder(i);
        }
        seen := Advance(seen, record.partition, record.offset);
        BatchStep(start, position, records, i);
        AppendedStep(held, had, Fresh(start, records[..i]), record);
        if !Covers(position, record) {
          Take(record);
        }
      }
      assert records[..|records|] == records;
      r := Applied(Get(position, 0));
    }
  }

  ghost function Appended(b: Held, records: seq<Record>): Held {
    b.(active := b.active + records)
  }

  /** `position` is `start` moved past every record of `done`. */
  ghost predicate CaughtUp(start: Position, position: Position, done: seq<Record>) {
    forall k :: Get(position, k) == Max(Get(start, k), Get(Extent(done), k))
  }

  lemma AppendedStep(b: Held, had: set<EdgeEvent>, records: seq<Record>, r: Record)
    ensures Appended(b, records + [r]) == Appended(b, records).(active := Appended(b, records).active + [r])
    ensures had + EventsIn(records + [r]) == had + EventsIn(records) + {r.event}
  {
    assert b.active + (records + [r]) == b.active + records + [r];
    forall q ensures q in records + [r] <==> q in records || q == r {
    }
    assert r in records + [r];
  }

  /** The running extent decides whether the next record keeps the order. */
  lemma OrderStep(records: seq<Record>, i: nat)
    requires i < |records| && InOrder(records[..i]) && records[i].offset > 0
    ensures InOrder(records[..i + 1]) <==> Get(Extent(records[..i]), records[i].partition) < records[i].offset
    ensures InOrder(records) ==> InOrder(records[..i + 1])
  {
    var front, r := records[..i], records[i];
    var top := Get(Extent(front), r.partition);
    if top > 0 {
      var j := ExtentReached(front, r.partition);
      assert records[..i + 1][j] == front[j] && records[..i + 1][i] == r;
    }
    if top < r.offset {
      forall j | 0 <= j < i && front[j].partition == r.partition ensures front[j].offset < r.offset {
        ExtentCovers(front, front[j]);
      }
      InOrderPush(front, r);
      assert records[..i + 1] == front + [r];
    }
  }

  lemma InOrderPush(front: seq<Record>, r: Record)
    requires InOrder(front) && r.offset > 0
    requires forall j | 0 <= j < |front| && front[j].partition == r.partition :: front[j].offset < r.offset
    ensures InOrder(front + [r])
  {
  }

  /** Going by the moving position is going by where the batch found the worker. */
  lemma BatchStep(start: Position, position: Position, records: seq<Record>, i: nat)
    requires i < |records| && CaughtUp(start, position, records[..i])
    requires Get(Extent(records[..i]), records[i].partition) < records[i].offset
    ensures var r, before := records[i], Fresh(start, records[..i]);
      && (Covers(position, r) <==> Covers(start, r))
      && Extent(records[..i + 1]) == Advance(Extent(records[..i]), r.partition, r.offset)
      && (if Covers(position, r)
          then Fresh(start, records[..i + 1]) == before && CaughtUp(start, position, records[..i + 1])
          else Fresh(start, records[..i + 1]) == before + [r]
               && CaughtUp(start, Advance(position, r.partition, r.offset), records[..i + 1]))
  {
    assert records[..i + 1][..i] == records[..i];
  }
}

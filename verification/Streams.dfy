/**
 Positions in a partitioned log: the highest applied offset of each partition.
 Positions are ordered by dominance, which is partial; merging is the least
 upper bound.
 */
module Streams {
  import opened Types
  import opened Events

  type PartitionId = nat
  type Position = map<PartitionId, nat>

  /** A log record. Offsets start at one: zero means nothing applied. */
  datatype Record = Record(partition: PartitionId, offset: nat, event: EdgeEvent)

  function Get(p: Position, k: PartitionId): nat {
    if k in p then p[k] else 0
  }

  /** A partition can only move forward. */
  function Advance(p: Position, k: PartitionId, offset: nat): Position {
    p[k := Max(Get(p, k), offset)]
  }

  predicate Dominates(p: Position, q: Position) {
    forall k | k in q :: Get(p, k) >= q[k]
  }

  /** The later of the two, partition by partition. */
  function Merged(p: Position, q: Position): (r: Position)
    ensures forall k :: Get(r, k) == Max(Get(p, k), Get(q, k))
  {
    map k | k in p.Keys + q.Keys :: Max(Get(p, k), Get(q, k))
  }

  lemma MergedAssociates(p: Position, q: Position, r: Position)
    ensures Merged(Merged(p, q), r) == Merged(p, Merged(q, r))
  {
    SamePosition(Merged(Merged(p, q), r), Merged(p, Merged(q, r)));
  }

  lemma SamePosition(p: Position, q: Position)
    requires p.Keys == q.Keys && forall k :: Get(p, k) == Get(q, k)
    ensures p == q
  {
    forall k | k in p ensures p[k] == q[k] {
      assert Get(p, k) == Get(q, k);
    }
  }

  /** Merge by advancing every partition of `q` in turn. */
  method Merge(p: Position, q: Position) returns (r: Position)
    ensures r == Merged(p, q)
  {
    r := p;
    var left := q.Keys;
    while left != {}
      invariant left <= q.Keys && r.Keys == p.Keys + (q.Keys - left)
      invariant forall k :: Get(r, k) == if k in left then Get(p, k) else Max(Get(p, k), Get(q, k))
      decreases left
    {
      var k :| k in left;
      r, left := Advance(r, k, q[k]), left - {k};
    }
    SamePosition(r, Merged(p, q));
  }

  /** Dominance is offset-wise, in partitions neither side mentions as well. */
  lemma DominatesEverywhere(p: Position, q: Position)
    ensures Dominates(p, q) <==> forall k :: Get(p, k) >= Get(q, k)
  {
    if forall k :: Get(p, k) >= Get(q, k) {
      forall k | k in q ensures Get(p, k) >= q[k] {
        assert Get(q, k) == q[k];
      }
    }
  }

  /** Merging is the least upper bound of two positions. */
  lemma MergedIsJoin(p: Position, q: Position, upper: Position)
    ensures Dominates(Merged(p, q), p) && Dominates(Merged(p, q), q)
    ensures Dominates(upper, p) && Dominates(upper, q) <==> Dominates(upper, Merged(p, q))
  {
    DominatesEverywhere(Merged(p, q), p);
    DominatesEverywhere(Merged(p, q), q);
    DominatesEverywhere(upper, p);
    DominatesEverywhere(upper, q);
    DominatesEverywhere(upper, Merged(p, q));
  }

  lemma DominatesTransitive(p: Position, q: Position, r: Position)
    requires Dominates(p, q) && Dominates(q, r)
    ensures Dominates(p, r)
  {
    DominatesEverywhere(p, q);
    DominatesEverywhere(q, r);
    DominatesEverywhere(p, r);
  }

  // --- records and positions ----------------------------------------------------------

  predicate Covers(p: Position, r: Record) {
    r.offset <= Get(p, r.partition)
  }

  /** The records of a log at or below a position. */
  ghost function UpTo(log: set<Record>, p: Position): set<Record> {
    set r | r in log && Covers(p, r)
  }

  /** Offsets are positive and name one record of their partition. */
  ghost predicate IsLog(log: set<Record>) {
    && (forall r | r in log :: r.offset > 0)
    && forall r, q | r in log && q in log && r.partition == q.partition && r.offset == q.offset :: r == q
  }

  /** The position that a sequence of records reaches. */
  function Extent(records: seq<Record>): Position {
    if records == [] then map[]
    else
      var last := records[|records| - 1];
      Advance(Extent(records[..|records| - 1]), last.partition, last.offset)
  }

  lemma {:induction false} ExtentCovers(records: seq<Record>, r: Record)
    requires r in records
    ensures Covers(Extent(records), r)
  {
    var front := records[..|records| - 1];
    assert records == front + [records[|records| - 1]];
    if r in front {
      ExtentCovers(front, r);
    }
  }

  lemma {:induction false} ExtentReached(records: seq<Record>, k: PartitionId) returns (i: nat)
    requires Get(Extent(records), k) > 0
    ensures i < |records| && records[i].partition == k && records[i].offset == Get(Extent(records), k)
  {
    var front, last := records[..|records| - 1], records[|records| - 1];
    if Get(Extent(front), k) == Get(Extent(records), k) {
      i := ExtentReached(front, k);
    } else {
      i := |records| - 1;
    }
  }

  lemma {:induction false} ExtentAppend(a: seq<Record>, b: seq<Record>, k: PartitionId)
    ensures Get(Extent(a + b), k) == Max(Get(Extent(a), k), Get(Extent(b), k))
  {
    if b == [] {
      assert a + b == a;
    } else {
      ExtentAppend(a, b[..|b| - 1], k);
      assert (a + b)[..|a + b| - 1] == a + b[..|b| - 1];
    }
  }

  /** A position dominates the extent of records exactly when it covers each. */
  lemma DominatesExtent(p: Position, records: seq<Record>)
    ensures Dominates(p, Extent(records)) <==> forall r | r in records :: Covers(p, r)
  {
    DominatesEverywhere(p, Extent(records));
    if Dominates(p, Extent(records)) {
      forall r | r in records ensures Covers(p, r) {
        ExtentCovers(records, r);
      }
    }
    if forall r | r in records :: Covers(p, r) {
      forall k ensures Get(p, k) >= Get(Extent(records), k) {
        if Get(Extent(records), k) > 0 {
          var i := ExtentReached(records, k);
          assert records[i] in records;
        }
      }
    }
  }
}

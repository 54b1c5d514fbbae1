/**
 Listing a component by walking its parent forest downward, capped. Children are
 fetched with a flat budget of `cap + 1`: a fetch that comes back full either
 completes the answer and proves truncation, or cannot happen at all.
 */
module Walks {
  import opened Types
  import opened ParentForest
  import opened Layers
  import opened DisjointSets

  /** Downward edges of one tier: the memtable's merge edges, and the runs' tables. */
  datatype Source = Source(tables: Tables, children: Children)

  /** The merge edges above the tables, as one forest. */
  ghost function Edges(src: Source, merged: Parents): Parents {
    Flat(src.tables) + merged
  }

  ghost predicate Indexes(src: Source, merged: Parents) {
    && Stacked(src.tables)
    && Over(Flat(src.tables), merged)
    && Inverts(src.children, merged)
  }

  ghost predicate IsChild(m: Parents, k: NodeId, c: NodeId) {
    c in m && m[c] == k
  }

  /** `c` hangs under `k` in the memtable or in one of the first `n` tables. */
  ghost predicate Offered(src: Source, merged: Parents, n: nat, k: NodeId, c: NodeId)
    requires n <= |src.tables|
  {
    IsChild(merged, k, c) || exists j :: 0 <= j < n && IsChild(src.tables[j], k, c)
  }

  /** Distinct children of `k`, and all of them unless the budget ran out. */
  ghost predicate Fetched(m: Parents, k: NodeId, limit: nat, out: seq<NodeId>) {
    && Distinct(out) && |out| <= limit
    && (forall i | 0 <= i < |out| :: IsChild(m, k, out[i]))
    && (|out| < limit ==> forall c | IsChild(m, k, c) :: c in out)
  }

  /** The same, for the memtable and the first `n` tables. */
  ghost predicate FetchedFrom(src: Source, merged: Parents, n: nat, k: NodeId, limit: nat, out: seq<NodeId>)
    requires n <= |src.tables|
  {
    && Distinct(out) && |out| <= limit
    && (forall i | 0 <= i < |out| :: Offered(src, merged, n, k, out[i]))
    && (|out| < limit ==> forall c | Offered(src, merged, n, k, c) :: c in out)
  }

  // --- bounded children ------------------------------------------------------

  /** At most `limit` nodes one table records under `k`. */
  method TableChildren(table: Parents, k: NodeId, limit: nat) returns (out: seq<NodeId>)
    ensures Fetched(table, k, limit, out)
  {
    out := [];
    var left := set c | c in table && table[c] == k;
    while left != {} && |out| < limit
      invariant Distinct(out) && |out| <= limit
      invariant forall i | 0 <= i < |out| :: IsChild(table, k, out[i]) && out[i] !in left
      invariant forall c | IsChild(table, k, c) :: c in left || c in out
      decreases left
    {
      var c :| c in left;
      out, left := out + [c], left - {c};
    }
  }

  /** A table's children add to those already fetched: no node is in two tables. */
  lemma FetchMore(src: Source, merged: Parents, n: nat, k: NodeId, limit: nat, out: seq<NodeId>, more: seq<NodeId>)
    requires Indexes(src, merged) && n < |src.tables| && |out| <= limit
    requires FetchedFrom(src, merged, n, k, limit, out)
    requires Fetched(src.tables[n], k, limit - |out|, more)
    ensures FetchedFrom(src, merged, n + 1, k, limit, out + more)
  {
    var all := out + more;
    forall i | 0 <= i < |all| ensures Offered(src, merged, n + 1, k, all[i]) {
      assert i < |out| ==> Offered(src, merged, n, k, out[i]);
      assert i >= |out| ==> IsChild(src.tables[n], k, more[i - |out|]);
    }
    forall i, j | 0 <= i < |out| && 0 <= j < |more| ensures out[i] != more[j] {
      OfferedOnce(src, merged, n, k, out[i], more[j]);
    }
  }

  lemma OfferedOnce(src: Source, merged: Parents, n: nat, k: NodeId, c: NodeId, d: NodeId)
    requires Indexes(src, merged) && n < |src.tables|
    requires Offered(src, merged, n, k, c) && d in src.tables[n]
    ensures c != d
  {
    FlatHas(src.tables, n, d);
    assert d !in merged;
    forall j | 0 <= j < n ensures d !in src.tables[j] {
      assert Above(src.tables[j], src.tables[n]);
    }
  }

  lemma KidsFetched(src: Source, merged: Parents, k: NodeId, limit: nat)
    requires Inverts(src.children, merged)
    ensures var kids := Kids(src.children, k); FetchedFrom(src, merged, 0, k, limit, kids[..Min(|kids|, limit)])
  {
    var kids := Kids(src.children, k);
    var out := kids[..Min(|kids|, limit)];
    assert forall c :: c in kids <==> IsChild(merged, k, c);
    forall i | 0 <= i < |out| ensures Offered(src, merged, 0, k, out[i]) {
      assert out[i] == kids[i] && kids[i] in kids;
    }
    if |out| < limit {
      assert out == kids;
    }
  }

  lemma OfferedIsChild(src: Source, merged: Parents, k: NodeId, c: NodeId)
    requires Indexes(src, merged)
    ensures Offered(src, merged, |src.tables|, k, c) <==> IsChild(Edges(src, merged), k, c)
  {
    var ts := src.tables;
    if c in Flat(ts) {
      var i := FlatFrom(ts, c);
      assert c !in merged;
    }
    forall j | 0 <= j < |ts| && IsChild(ts[j], k, c) ensures IsChild(Flat(ts), k, c) {
      FlatHas(ts, j, c);
    }
  }

  /** Children of `k` from the memtable, then from the runs with what budget is left. */
  method Fetch(src: Source, k: NodeId, limit: nat, ghost merged: Parents) returns (out: seq<NodeId>)
    requires Indexes(src, merged)
    ensures Fetched(Edges(src, merged), k, limit, out)
  {
    var kids := Kids(src.children, k);
    out := kids[..Min(|kids|, limit)];
    KidsFetched(src, merged, k, limit);
    for i := 0 to |src.tables|
      invariant FetchedFrom(src, merged, i, k, limit, out)
    {
      var more := TableChildren(src.tables[i], k, limit - |out|);
      FetchMore(src, merged, i, k, limit, out, more);
      out := out + more;
    }
    forall c ensures Offered(src, merged, |src.tables|, k, c) <==> IsChild(Edges(src, merged), k, c) {
      OfferedIsChild(src, merged, k, c);
    }
  }

  // --- what a walk from some seeds reaches ------------------------------------------

  /** Some ancestor of `x`, or `x` itself, is in `top`. */
  ghost predicate Under(m: Parents, top: set<NodeId>, x: NodeId)
    requires Descending(m)
    decreases x
  {
    x in top || (x in m && Under(m, top, m[x]))
  }

  ghost function Reach(m: Parents, top: set<NodeId>): set<NodeId>
    requires Descending(m)
  {
    set x | x in m.Keys + top && Under(m, top, x)
  }

  /** Holding the seeds and being closed under children is holding everything. */
  lemma {:induction false} ClosedHolds(m: Parents, top: set<NodeId>, held: set<NodeId>, x: NodeId)
    requires Descending(m) && top <= held && Under(m, top, x)
    requires forall k, c | k in held && IsChild(m, k, c) :: c in held
    ensures x in held
    decreases x
  {
    if x !in top {
      ClosedHolds(m, top, held, m[x]);
      assert IsChild(m, m[x], x);
    }
  }

  /** Below a root lies exactly its class. */
  lemma {:induction false} UnderRoot(m: Parents, r: NodeId, x: NodeId)
    requires Descending(m) && r !in m
    ensures Under(m, {r}, x) <==> Root(m, x) == r
    decreases x
  {
    if x in m {
      UnderRoot(m, r, m[x]);
    }
  }

  /** Nodes seen but not queued have all their children seen; `fed` are the children fetched. */
  ghost predicate Pending(m: Parents, seen: set<NodeId>, frontier: seq<NodeId>, fed: set<NodeId>) {
    Distinct(frontier) && forall x :: Placed(m, seen, frontier, fed, x)
  }

  ghost predicate Placed(m: Parents, seen: set<NodeId>, frontier: seq<NodeId>, fed: set<NodeId>, x: NodeId) {
    && (x in frontier ==> x in seen)
    && (x in seen && x !in frontier ==> Expanded(m, seen, x))
    && (x in fed ==> x in seen && x in m && m[x] in seen && m[x] !in frontier)
  }

  /** A walk under way from `top`. */
  ghost predicate Walking(m: Parents, top: set<NodeId>, seen: set<NodeId>, frontier: seq<NodeId>, fed: set<NodeId>) {
    Descending(m) && top <= seen <= Reach(m, top) && Pending(m, seen, frontier, fed)
  }

  lemma WalkStarts(m: Parents, seeds: seq<NodeId>, out: seq<NodeId>)
    requires Descending(m) && Distinct(out) && Elements(out) == Elements(seeds)
    ensures Walking(m, Elements(seeds), Elements(out), out, {})
  {
  }

  ghost predicate Expanded(m: Parents, seen: set<NodeId>, k: NodeId) {
    forall c | IsChild(m, k, c) :: c in seen
  }

  /** Queueing the new children of `k` leaves `k` done, with no child fetched twice. */
  lemma PendingStep(m: Parents, seen: set<NodeId>, seen': set<NodeId>, frontier: seq<NodeId>, k: NodeId,
                    fed: set<NodeId>, buf: seq<NodeId>, added: seq<NodeId>, limit: nat)
    requires Pending(m, seen, frontier + [k], fed) && Fetched(m, k, limit, buf)
    requires seen' == seen + Elements(buf) && |seen'| < limit
    requires Distinct(added) && Elements(added) == seen' - seen
    ensures Pending(m, seen', frontier + added, fed + Elements(buf))
    ensures |fed + Elements(buf)| == |fed| + |buf|
  {
    var queue := frontier + [k];
    assert queue[|frontier|] == k && forall i | 0 <= i < |frontier| :: queue[i] == frontier[i];
    assert k in queue && k !in frontier && Placed(m, seen, queue, fed, k);
    DistinctCount(buf);
    assert Elements(buf) !! fed by {
      forall c | c in buf ensures c !in fed {
        assert Placed(m, seen, queue, fed, c) && IsChild(m, k, c);
      }
    }
    SubsetCount(Elements(buf), seen');
    assert Elements(frontier) <= seen by {
      forall x | x in frontier ensures x in seen {
        assert x in queue && Placed(m, seen, queue, fed, x);
      }
    }
    DistinctAppend(frontier, added, seen);
    forall x ensures Placed(m, seen', frontier + added, fed + Elements(buf), x) {
      assert Placed(m, seen, queue, fed, x);
      assert x in seen' && x !in frontier + added ==> Expanded(m, seen', x) by {
        assert x !in Elements(added) ==> x in seen' ==> x in seen;
        assert x in seen && x != k && x !in frontier ==> Expanded(m, seen, x);
      }
      assert x in fed ==> m[x] !in queue && m[x] !in Elements(added);
      assert x in buf ==> IsChild(m, k, x);
    }
  }

  lemma DistinctAppend(a: seq<NodeId>, b: seq<NodeId>, seen: set<NodeId>)
    requires Distinct(a) && Distinct(b) && Elements(a) <= seen && Elements(b) !! seen
    ensures Distinct(a + b) && Elements(a + b) == Elements(a) + Elements(b)
  {
    forall i, j | 0 <= i < |a| && 0 <= j < |b| ensures a[i] != b[j] {
      assert a[i] in Elements(a) && b[j] in Elements(b);
    }
  }

  lemma ChildrenReached(m: Parents, top: set<NodeId>, k: NodeId, limit: nat, buf: seq<NodeId>)
    requires Descending(m) && k in Reach(m, top) && Fetched(m, k, limit, buf)
    ensures Elements(buf) <= Reach(m, top)
  {
    forall c | c in Elements(buf) ensures c in Reach(m, top) {
      assert IsChild(m, k, c);
    }
  }

  /** One turn of the walk: what is seen is reached, and queued work shrinks or the answer grows. */
  lemma Stepped(m: Parents, top: set<NodeId>, seen: set<NodeId>, seen': set<NodeId>, frontier: seq<NodeId>, k: NodeId,
                fed: set<NodeId>, buf: seq<NodeId>, out: seq<NodeId>, out': seq<NodeId>, cap: nat, truncated: bool)
    requires Descending(m) && seen <= Reach(m, top)
    requires Pending(m, seen, frontier + [k], fed) && Fetched(m, k, cap + 1, buf)
    requires seen <= seen' <= seen + Elements(buf)
    requires Distinct(out) && seen == Elements(out) && |out| <= cap
    requires !truncated ==> |out| <= |out'| <= cap && out'[..|out|] == out && Distinct(out')
    requires !truncated ==> seen' == seen + Elements(buf) == Elements(out')
    ensures seen' <= Reach(m, top) && |fed| <= |seen| <= cap
    ensures !truncated ==> Pending(m, seen', frontier + out'[|out|..], fed + Elements(buf))
    ensures !truncated ==> |fed + Elements(buf)| == |fed| + |buf|
    ensures !truncated && seen' == seen ==> out' == out
  {
    var queue := frontier + [k];
    assert queue[|frontier|] == k && Placed(m, seen, queue, fed, k);
    ChildrenReached(m, top, k, cap + 1, buf);
    DistinctCount(out);
    assert fed <= seen by {
      forall x | x in fed ensures x in seen {
        assert Placed(m, seen, queue, fed, x);
      }
    }
    SubsetCount(fed, seen);
    if !truncated {
      var added := out'[|out|..];
      assert out' == out + added;
      AddedElements(out, added);
      DistinctCount(out');
      PendingStep(m, seen, seen', frontier, k, fed, buf, added, cap + 1);
    }
  }

  lemma AllReached(m: Parents, top: set<NodeId>, seen: set<NodeId>, fed: set<NodeId>)
    requires Walking(m, top, seen, [], fed)
    ensures seen == Reach(m, top)
  {
    forall x | x in Reach(m, top) ensures x in seen {
      forall k, c | k in seen && IsChild(m, k, c) ensures c in seen {
        assert Placed(m, seen, [], fed, k);
      }
      ClosedHolds(m, top, seen, x);
    }
  }

  /** What a walk under way keeps. */
  datatype Aspect = TheAnswer | TheFrontier | TheWork

  class Walk {
    const cap: nat
    var seen: set<NodeId>
    var out: seq<NodeId>
    var truncated: bool

    /** The answer so far: distinct, within the cap, and short of `seen` iff truncated. */
    ghost predicate Valid()
      reads this
    {
      && Distinct(out) && |out| <= cap
      && Elements(out) <= seen
      && (!truncated ==> seen == Elements(out))
      && (truncated ==> |out| == cap && seen != Elements(out))
    }

    constructor (cap: nat)
      ensures Valid() && this.cap == cap && seen == {} && out == [] && !truncated
    {
      this.cap := cap;
      seen, out, truncated := {}, [], false;
    }

    /** Admit `n`; the result says whether it should be expanded in turn. */
    method Admit(n: NodeId) returns (expand: bool)
      requires Valid() && !truncated
      modifies this
      ensures Valid() && seen == old(seen) + {n}
      ensures expand <==> n !in old(seen) && !truncated
      ensures out == if expand then old(out) + [n] else old(out)
    {
      if n in seen {
        return false;
      }
      seen := seen + {n};
      if |out| >= cap {
        truncated := true;
        return false;
      }
      out := out + [n];
      expand := true;
    }

    /** Admit nodes in order up to the cap, queueing the new ones. */
    method AdmitAll(nodes: seq<NodeId>, frontier: seq<NodeId>) returns (next: seq<NodeId>)
      requires Valid() && !truncated
      modifies this
      ensures Valid() && old(seen) <= seen <= old(seen) + Elements(nodes)
      ensures !truncated ==> seen == old(seen) + Elements(nodes)
      ensures !truncated ==> |old(out)| <= |out| && out[..|old(out)|] == old(out)
      ensures !truncated ==> next == frontier + out[|old(out)|..]
    {
      next := frontier;
      for i := 0 to |nodes|
        invariant Valid() && !truncated && seen == old(seen) + Elements(nodes[..i])
        invariant |old(out)| <= |out| && out[..|old(out)|] == old(out)
        invariant next == frontier + out[|old(out)|..]
      {
        var expand := Admit(nodes[i]);
        assert Elements(nodes[..i + 1]) == Elements(nodes[..i]) + {nodes[i]};
        if expand {
          next := next + [nodes[i]];
        }
        if truncated {
          assert nodes[i] in Elements(nodes);
          return;
        }
      }
      assert nodes[..|nodes|] == nodes;
    }

    /** Expand the node queued last. */
    method Turn(frontier: seq<NodeId>, src: Source, ghost merged: Parents, ghost top: set<NodeId>,
                ghost fed: set<NodeId>)
      returns (next: seq<NodeId>, ghost fed': set<NodeId>, ghost fetched: nat)
      requires Valid() && !truncated && frontier != [] && Indexes(src, merged) && Descending(Edges(src, merged))
      requires Walking(Edges(src, merged), top, seen, frontier, fed)
      modifies this
      ensures Valid() && old(seen) <= seen <= Reach(Edges(src, merged), top)
      ensures !truncated ==> Walking(Edges(src, merged), top, seen, next, fed')
      ensures !truncated ==> |fed'| == |fed| + fetched
      ensures fetched <= cap + 1 && |fed| <= cap
      ensures !truncated ==> |next| + |old(out)| < |frontier| + |out| && |old(out)| <= |out|
    {
      ghost var m, seen0, out0 := Edges(src, merged), seen, out;
      var last := |frontier| - 1;
      var k := frontier[last];
      assert frontier == frontier[..last] + [k];
      var buf := Fetch(src, k, cap + 1, merged);
      fetched, fed' := |buf|, fed + Elements(buf);
      next := AdmitAll(buf, frontier[..last]);
      Stepped(m, top, seen0, seen, frontier[..last], k, fed, buf, out0, out, cap, truncated);
    }

    ghost predicate Keeps(m: Parents, top: set<NodeId>, frontier: seq<NodeId>, fed: set<NodeId>, work: nat, a: Aspect)
      requires Descending(m)
      reads this
    {
      match a
      case TheAnswer => Valid() && seen <= Reach(m, top)
      case TheFrontier => !truncated ==> Walking(m, top, seen, frontier, fed)
      case TheWork => work <= 2 * cap + 1 && (!truncated ==> work == |fed|)
    }

    /**
      Walk down from `seeds`. Stopping short only on a full answer, it finds all
      below the seeds, or proves there is more; `work` children are fetched.
      */
    method Expand(seeds: seq<NodeId>, src: Source, ghost merged: Parents) returns (ghost work: nat)
      requires Valid() && seen == {} && out == [] && !truncated
      requires Indexes(src, merged)
      modifies this
      ensures Valid() && Descending(Edges(src, merged))
      ensures seen <= Reach(Edges(src, merged), Elements(seeds))
      ensures !truncated ==> seen == Reach(Edges(src, merged), Elements(seeds))
      ensures work <= 2 * cap + 1
    {
      ghost var m, top := Edges(src, merged), Elements(seeds);
      DescendingUnion(Flat(src.tables), merged);
      work := 0;
      ghost var fed: set<NodeId> := {};
      var frontier := AdmitAll(seeds, []);
      if !truncated {
        WalkStarts(m, seeds, out);
      }
      while !truncated && frontier != []
        invariant forall a :: Keeps(m, top, frontier, fed, work, a)
        decreases !truncated, cap - |out|, |frontier|
      {
        assert Keeps(m, top, frontier, fed, work, TheAnswer) && Keeps(m, top, frontier, fed, work, TheFrontier);
        assert Keeps(m, top, frontier, fed, work, TheWork);
        ghost var fetched;
        frontier, fed, fetched := Turn(frontier, src, merged, top, fed);
        work := work + fetched;
      }
      assert Keeps(m, top, frontier, fed, work, TheAnswer) && Keeps(m, top, frontier, fed, work, TheFrontier);
      assert Keeps(m, top, frontier, fed, work, TheWork);
      if !truncated {
        AllReached(m, top, seen, fed);
      }
    }
  }
}

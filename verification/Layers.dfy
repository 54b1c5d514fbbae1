/**
 A stack of immutable runs. Each run's tables are fully resolved over everything
 beneath them, so a node has a parent in at most one run and following it only
 ever continues upward. Merging any contiguous stretch and splicing the result
 back in place is then invisible to every lookup.
 */
module Layers {
  import opened Types
  import opened ParentForest

  /** One tier's tables across a stack, oldest first. */
  type Tables = seq<Parents>

  /** Fully resolved: every key points at a smaller node with no parent here. */
  ghost predicate DepthOne(p: Parents) {
    forall k | k in p :: p[k] < k && p[k] !in p
  }

  /** Neither the keys nor the stored parents of `upper` have a parent in `lower`. */
  ghost predicate Above(lower: Parents, upper: Parents) {
    forall k | k in upper :: k !in lower && upper[k] !in lower
  }

  /**
   The layer invariant: keys are disjoint across tables, and a stored parent has
   no parent of its own in this table or in any older one.
   */
  ghost predicate Stacked(ts: Tables) {
    && (forall i | 0 <= i < |ts| :: DepthOne(ts[i]))
    && (forall i, j {:trigger Above(ts[j], ts[i])} | 0 <= j < i < |ts| :: Above(ts[j], ts[i]))
  }

  ghost function TableKeys(ts: Tables): set<NodeId> {
    set i, k | 0 <= i < |ts| && k in ts[i] :: k
  }

  ghost function TableOf(ts: Tables, k: NodeId): (i: nat)
    requires k in TableKeys(ts)
    ensures i < |ts| && k in ts[i]
  {
    var i :| 0 <= i < |ts| && k in ts[i];
    i
  }

  /** Every pair of the stack in one map. */
  ghost function Flat(ts: Tables): Parents {
    map k | k in TableKeys(ts) :: ts[TableOf(ts, k)][k]
  }

  lemma FlatFrom(ts: Tables, k: NodeId) returns (i: nat)
    requires k in Flat(ts)
    ensures i < |ts| && k in ts[i] && Flat(ts)[k] == ts[i][k]
  {
    i := TableOf(ts, k);
  }

  lemma FlatHas(ts: Tables, i: nat, k: NodeId)
    requires Stacked(ts) && i < |ts| && k in ts[i]
    ensures k in Flat(ts) && Flat(ts)[k] == ts[i][k]
  {
    assert k in TableKeys(ts);
    var j := TableOf(ts, k);
    assert i < j ==> Above(ts[i], ts[j]);
    assert j < i ==> Above(ts[j], ts[i]);
  }

  lemma FlatDescending(ts: Tables)
    requires Stacked(ts)
    ensures Descending(Flat(ts))
  {
    forall k | k in Flat(ts) ensures Flat(ts)[k] < k {
      var i := FlatFrom(ts, k);
      assert DepthOne(ts[i]);
    }
  }

  /** A node without a parent in any table has none in the flattened stack. */
  lemma FlatLacks(ts: Tables, k: NodeId)
    requires forall i | 0 <= i < |ts| :: k !in ts[i]
    ensures k !in Flat(ts)
  {
    if k in Flat(ts) {
      var i := FlatFrom(ts, k);
    }
  }

  /** Pushing a resolved forest that sits over the stack keeps the invariant. */
  lemma PushStacked(ts: Tables, upper: Parents)
    requires Stacked(ts) && Over(Flat(ts), upper) && DepthOne(upper)
    ensures Stacked(ts + [upper])
    ensures Flat(ts + [upper]) == Flat(ts) + upper
  {
    forall j | 0 <= j < |ts| ensures Above(ts[j], upper) {
      forall k | k in upper ensures k !in ts[j] && upper[k] !in ts[j] {
        assert Root(upper, k) == upper[k];
        assert k !in TableKeys(ts) && upper[k] !in TableKeys(ts);
      }
    }
    PushFlat(ts, upper);
  }

  lemma PushFlat(ts: Tables, upper: Parents)
    requires Stacked(ts) && Stacked(ts + [upper])
    ensures Flat(ts + [upper]) == Flat(ts) + upper
  {
    var all := ts + [upper];
    forall k | k in Flat(all) ensures k in Flat(ts) + upper && (Flat(ts) + upper)[k] == Flat(all)[k] {
      var i := FlatFrom(all, k);
      if i < |ts| {
        assert Above(all[i], all[|ts|]);
        FlatHas(ts, i, k);
      }
    }
    forall k | k in Flat(ts) + upper ensures k in Flat(all) {
      if k in upper {
        FlatHas(all, |ts|, k);
      } else {
        var i := FlatFrom(ts, k);
        FlatHas(all, i, k);
      }
    }
  }

  /** `q` is `p` with every key pointed straight at its root. */
  ghost predicate Resolves(p: Parents, q: Parents) {
    && Descending(p) && q.Keys == p.Keys
    && forall k {:trigger q[k]} | k in q :: q[k] == Root(p, k)
  }

  lemma ResolvesSame(p: Parents, q: Parents)
    requires Resolves(p, q)
    ensures DepthOne(q) && Same(p, q)
  {
    Compress(p, q);
  }

  // --- lookup ----------------------------------------------------------

  /**
   Resolve `node` through the tables, moving only forward. One probe of each
   table suffices, and the answer is the root of the flattened stack.
   */
  method Resolve(ts: Tables, node: NodeId) returns (r: Option<NodeId>)
    requires Stacked(ts)
    ensures Descending(Flat(ts))
    ensures r == if node in Flat(ts) then Some(Root(Flat(ts), node)) else None
  {
    FlatDescending(ts);
    var cur: NodeId, start: nat := node, 0;
    while start < |ts|
      invariant start <= |ts|
      invariant Root(Flat(ts), cur) == Root(Flat(ts), node)
      invariant forall j | 0 <= j < start :: cur !in ts[j]
      invariant cur == node || (cur < node && node in Flat(ts))
      decreases |ts| - start
    {
      var i := start;
      while i < |ts| && cur !in ts[i]
        invariant start <= i <= |ts|
        invariant forall j | 0 <= j < i :: cur !in ts[j]
      {
        i := i + 1;
      }
      if i == |ts| {
        break;
      }
      FlatHas(ts, i, cur);
      assert DepthOne(ts[i]) && forall j | 0 <= j < i :: Above(ts[j], ts[i]);
      cur, start := ts[i][cur], i + 1;
    }
    FlatLacks(ts, cur);
    r := if cur == node then None else Some(cur);
  }

  // --- merge and splice -------------------------------------------------

  ghost predicate SubMap(q: Parents, p: Parents) {
    forall k | k in q :: k in p && p[k] == q[k]
  }

  /** Resolving inside part of a forest stays inside the class. */
  lemma {:induction false} SubMapRoot(q: Parents, p: Parents, x: NodeId)
    requires Descending(p) && Descending(q) && SubMap(q, p)
    ensures Root(p, Root(q, x)) == Root(p, x)
    decreases x
  {
    if x in q {
      SubMapRoot(q, p, q[x]);
    }
  }

  lemma SliceStacked(ts: Tables, lo: nat, hi: nat)
    requires Stacked(ts) && lo <= hi <= |ts|
    ensures Stacked(ts[lo..hi]) && Descending(Flat(ts[lo..hi]))
  {
    var slice := ts[lo..hi];
    forall i, j | 0 <= j < i < |slice| ensures Above(slice[j], slice[i]) {
      assert Above(ts[lo + j], ts[lo + i]);
    }
    forall i | 0 <= i < |slice| ensures DepthOne(slice[i]) {
      assert DepthOne(ts[lo + i]);
    }
    FlatDescending(slice);
  }

  lemma SliceHas(ts: Tables, lo: nat, hi: nat, j: nat, k: NodeId)
    requires Stacked(ts) && lo <= j < hi <= |ts| && k in ts[j]
    ensures k in Flat(ts[lo..hi]) && Flat(ts[lo..hi])[k] == ts[j][k]
  {
    SliceStacked(ts, lo, hi);
    FlatHas(ts[lo..hi], j - lo, k);
  }

  lemma SliceFrom(ts: Tables, lo: nat, hi: nat, k: NodeId) returns (j: nat)
    requires lo <= hi <= |ts| && k in Flat(ts[lo..hi])
    ensures lo <= j < hi && k in ts[j] && Flat(ts[lo..hi])[k] == ts[j][k]
  {
    var i := FlatFrom(ts[lo..hi], k);
    j := lo + i;
  }

  lemma SliceSubMap(ts: Tables, lo: nat, hi: nat)
    requires Stacked(ts) && lo <= hi <= |ts|
    ensures SubMap(Flat(ts[lo..hi]), Flat(ts))
  {
    forall k | k in Flat(ts[lo..hi])
      ensures k in Flat(ts) && Flat(ts)[k] == Flat(ts[lo..hi])[k]
    {
      var j := SliceFrom(ts, lo, hi, k);
      FlatHas(ts, j, k);
    }
  }

  /** `ts` with the tables `lo..hi` replaced by the single table `m`. */
  function Spliced<T>(ts: seq<T>, lo: nat, hi: nat, m: T): seq<T>
    requires lo < hi <= |ts|
  {
    seq(|ts| - (hi - lo) + 1, i requires 0 <= i < |ts| - (hi - lo) + 1 =>
      if i < lo then ts[i] else if i == lo then m else ts[i + hi - lo - 1])
  }

  /** `m` is the table a compaction of tables `lo..hi` writes. */
  ghost predicate MergeOf(ts: Tables, lo: nat, hi: nat, m: Parents) {
    && Stacked(ts) && lo < hi <= |ts|
    && Resolves(Flat(ts[lo..hi]), m)
  }

  lemma MergedHas(ts: Tables, lo: nat, hi: nat, m: Parents, j: nat, k: NodeId)
    requires MergeOf(ts, lo, hi, m) && lo <= j < hi && k in ts[j]
    ensures k in m
  {
    SliceHas(ts, lo, hi, j, k);
  }

  lemma MergedKey(ts: Tables, lo: nat, hi: nat, m: Parents, k: NodeId) returns (j: nat)
    requires MergeOf(ts, lo, hi, m) && k in m
    ensures lo <= j < hi && k in ts[j]
  {
    j := SliceFrom(ts, lo, hi, k);
  }

  /** A merged value is some value the slice already stored. */
  lemma MergedValue(ts: Tables, lo: nat, hi: nat, m: Parents, k: NodeId) returns (j: nat, x: NodeId)
    requires MergeOf(ts, lo, hi, m) && k in m
    ensures lo <= j < hi && x in ts[j] && ts[j][x] == m[k]
  {
    x := RootIsStored(Flat(ts[lo..hi]), k);
    j := SliceFrom(ts, lo, hi, x);
  }

  lemma MergedAboveOlder(ts: Tables, lo: nat, hi: nat, m: Parents, older: nat)
    requires MergeOf(ts, lo, hi, m) && older < lo
    ensures Above(ts[older], m)
  {
    forall k | k in m ensures k !in ts[older] && m[k] !in ts[older] {
      var a := MergedKey(ts, lo, hi, m, k);
      assert Above(ts[older], ts[a]);
      var b, x := MergedValue(ts, lo, hi, m, k);
      assert Above(ts[older], ts[b]);
    }
  }

  lemma NewerAboveMerged(ts: Tables, lo: nat, hi: nat, m: Parents, newer: nat)
    requires MergeOf(ts, lo, hi, m) && hi <= newer < |ts|
    ensures Above(m, ts[newer])
  {
    forall k | k in m ensures k !in ts[newer] && forall x | x in ts[newer] :: ts[newer][x] != k {
      var j := MergedKey(ts, lo, hi, m, k);
      assert Above(ts[j], ts[newer]);
    }
  }

  /** Which table of `ts` sits at place `i` of the spliced stack. */
  ghost function Source(lo: nat, hi: nat, i: nat): nat
    requires lo < hi
  {
    if i < lo then i else i + hi - lo - 1
  }

  lemma SplicedAt(ts: Tables, lo: nat, hi: nat, m: Parents, i: nat)
    requires lo < hi <= |ts| && i < |Spliced(ts, lo, hi, m)|
    ensures i == lo ==> Spliced(ts, lo, hi, m)[i] == m
    ensures i != lo ==> Source(lo, hi, i) < |ts| && Spliced(ts, lo, hi, m)[i] == ts[Source(lo, hi, i)]
  {
  }

  lemma SplicedAbove(ts: Tables, lo: nat, hi: nat, m: Parents, j: nat, i: nat)
    requires MergeOf(ts, lo, hi, m) && j < i < |Spliced(ts, lo, hi, m)|
    ensures Above(Spliced(ts, lo, hi, m)[j], Spliced(ts, lo, hi, m)[i])
  {
    SplicedAt(ts, lo, hi, m, i);
    SplicedAt(ts, lo, hi, m, j);
    if i == lo {
      MergedAboveOlder(ts, lo, hi, m, j);
    } else if j == lo {
      NewerAboveMerged(ts, lo, hi, m, Source(lo, hi, i));
    } else {
      assert Above(ts[Source(lo, hi, j)], ts[Source(lo, hi, i)]);
    }
  }

  lemma SplicedStacked(ts: Tables, lo: nat, hi: nat, m: Parents)
    requires MergeOf(ts, lo, hi, m)
    ensures Stacked(Spliced(ts, lo, hi, m))
  {
    var out := Spliced(ts, lo, hi, m);
    forall i, j | 0 <= j < i < |out| ensures Above(out[j], out[i]) {
      SplicedAbove(ts, lo, hi, m, j, i);
    }
    assert DepthOne(m);
    forall i | 0 <= i < |out| ensures DepthOne(out[i]) {
      if i != lo {
        assert DepthOne(ts[if i < lo then i else i + hi - lo - 1]);
      }
    }
  }

  /** Where a key of the spliced stack was stored before. */
  lemma SplicedFrom(ts: Tables, lo: nat, hi: nat, m: Parents, k: NodeId)
    requires MergeOf(ts, lo, hi, m) && k in Flat(Spliced(ts, lo, hi, m))
    ensures k in Flat(ts)
    ensures var v := Flat(Spliced(ts, lo, hi, m))[k];
            v == Flat(ts)[k] || v == Root(Flat(ts[lo..hi]), k)
  {
    var i := FlatFrom(Spliced(ts, lo, hi, m), k);
    SplicedAt(ts, lo, hi, m, i);
    var j := Source(lo, hi, i);
    if i == lo {
      j := MergedKey(ts, lo, hi, m, k);
    }
    FlatHas(ts, j, k);
  }

  lemma SplicedHas(ts: Tables, lo: nat, hi: nat, m: Parents, k: NodeId)
    requires MergeOf(ts, lo, hi, m) && k in Flat(ts)
    ensures k in Flat(Spliced(ts, lo, hi, m))
  {
    SplicedStacked(ts, lo, hi, m);
    var j := FlatFrom(ts, k);
    if lo <= j < hi {
      MergedHas(ts, lo, hi, m, j, k);
    }
    FlatHas(Spliced(ts, lo, hi, m), if j < lo then j else if j < hi then lo else j - hi + lo + 1, k);
  }

  lemma SplicedKeys(ts: Tables, lo: nat, hi: nat, m: Parents)
    requires MergeOf(ts, lo, hi, m)
    ensures Flat(ts).Keys == Flat(Spliced(ts, lo, hi, m)).Keys
  {
    forall k | k in Flat(Spliced(ts, lo, hi, m)) ensures k in Flat(ts) {
      SplicedFrom(ts, lo, hi, m, k);
    }
    forall k | k in Flat(ts) ensures k in Flat(Spliced(ts, lo, hi, m)) {
      SplicedHas(ts, lo, hi, m, k);
    }
  }

  lemma SplicedStep(ts: Tables, lo: nat, hi: nat, m: Parents, k: NodeId)
    requires MergeOf(ts, lo, hi, m) && k in Flat(Spliced(ts, lo, hi, m))
    ensures Descending(Flat(ts)) && k in Flat(ts)
    ensures Root(Flat(ts), Flat(Spliced(ts, lo, hi, m))[k]) == Root(Flat(ts), k)
  {
    SplicedFrom(ts, lo, hi, m, k);
    FlatDescending(ts);
    SliceSubMap(ts, lo, hi);
    SubMapRoot(Flat(ts[lo..hi]), Flat(ts), k);
  }

  /**
   Merging a contiguous stretch and splicing it back leaves every key and every
   root as it was, and the new stack is again well layered.
   */
  lemma SpliceInvisible(ts: Tables, lo: nat, hi: nat, m: Parents)
    requires MergeOf(ts, lo, hi, m)
    ensures Stacked(Spliced(ts, lo, hi, m))
    ensures Same(Flat(ts), Flat(Spliced(ts, lo, hi, m)))
  {
    var out := Spliced(ts, lo, hi, m);
    SplicedStacked(ts, lo, hi, m);
    FlatDescending(ts);
    FlatDescending(out);
    SplicedKeys(ts, lo, hi, m);
    forall k | k in Flat(out) ensures Root(Flat(ts), Flat(out)[k]) == Root(Flat(ts), k) {
      SplicedStep(ts, lo, hi, m, k);
    }
    Compress(Flat(ts), Flat(out));
  }
}

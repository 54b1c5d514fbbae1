/**
 Finding a key in a sorted table: a filter may rule it out, a sparse index of block
 leaders narrows the search to a block, and a binary search settles it. The answer
 is what a scan of the whole table would give.
 */
module Lookups {
  import opened Types
  import opened Sorting
  import opened Varints
  import opened Compaction
  import opened Filters

  const PAGE_BYTES := 4096
  const PAIR_STRIDE := 16
  const REGISTRY_STRIDE := 12

  /** The first key of every block of a table. */
  datatype SparseIndex = SparseIndex(block: nat, firstKeys: seq<nat>)

  ghost predicate Leads(ix: SparseIndex, keys: seq<nat>, b: nat)
    requires b < |ix.firstKeys|
  {
    b * ix.block < |keys| && ix.firstKeys[b] == keys[b * ix.block]
  }

  /** `ix` samples `keys`: a leader for every block, the last one short or full. */
  ghost predicate Samples(ix: SparseIndex, keys: seq<nat>) {
    && ix.block > 0 && |keys| <= |ix.firstKeys| * ix.block
    && forall b | 0 <= b < |ix.firstKeys| :: Leads(ix, keys, b)
  }

  /** Sample every block, unless the table is no more than one. */
  method BuildIndex(keys: seq<nat>, stride: nat) returns (ix: Option<SparseIndex>)
    requires 0 < stride <= PAGE_BYTES
    ensures ix.None? <==> |keys| <= PAGE_BYTES / stride
    ensures ix.Some? ==> Samples(ix.value, keys)
  {
    var block := PAGE_BYTES / stride;
    if |keys| <= block {
      return None;
    }
    var first: seq<nat> := [];
    var at := 0;
    while at < |keys|
      invariant at == |first| * block
      invariant forall b | 0 <= b < |first| :: Leads(SparseIndex(block, first), keys, b)
    {
      assert (|first| + 1) * block == at + block;
      first := first + [keys[at]];
      forall b | 0 <= b < |first| ensures Leads(SparseIndex(block, first), keys, b) {
        assert b < |first| - 1 ==> Leads(SparseIndex(block, first[..|first| - 1]), keys, b);
      }
      at := at + block;
    }
    ix := Some(SparseIndex(block, first));
  }

  // --- narrowing ------------------------------------------------------------------------------

  lemma LeadersRise(ix: SparseIndex, keys: seq<nat>)
    requires Samples(ix, keys) && NonDecreasing(keys)
    ensures NonDecreasing(ix.firstKeys)
  {
    forall a, b | 0 <= a < b < |ix.firstKeys| ensures ix.firstKeys[a] <= ix.firstKeys[b] {
      assert Leads(ix, keys, a) && Leads(ix, keys, b);
      Scale(a, b, ix.block);
    }
  }

  /** The one block that can hold `key`, for unique keys; nothing if it precedes them all. */
  method NarrowExact(ix: SparseIndex, count: nat, key: nat, ghost keys: seq<nat>) returns (lo: nat, hi: nat)
    requires Samples(ix, keys) && Increasing(keys) && count == |keys|
    ensures lo <= hi <= |keys|
    ensures forall i | 0 <= i < |keys| && keys[i] == key :: lo <= i < hi
  {
    LeadersRise(ix, keys);
    var after := PartitionPoint(ix.firstKeys, key, true);
    if after == 0 {
      if ix.firstKeys != [] {
        assert Leads(ix, keys, 0);
      }
      return 0, 0;
    }
    var b := after - 1;
    assert Leads(ix, keys, b) && (b + 1) * ix.block == b * ix.block + ix.block;
    lo, hi := b * ix.block, Min((b + 1) * ix.block, count);
    forall i | 0 <= i < |keys| && keys[i] == key ensures lo <= i < hi {
      if after < |ix.firstKeys| {
        assert Leads(ix, keys, after);
      } else {
        assert |keys| <= after * ix.block;
      }
    }
  }

  /** Where the first key at or above `key` lies, for keys that may repeat. */
  method NarrowLowerBound(ix: SparseIndex, count: nat, key: nat, ghost keys: seq<nat>) returns (lo: nat, hi: nat)
    requires Samples(ix, keys) && NonDecreasing(keys) && count == |keys|
    ensures lo <= hi <= |keys|
    ensures forall i | 0 <= i < lo :: keys[i] < key
    ensures forall i | hi <= i < |keys| :: key <= keys[i]
  {
    LeadersRise(ix, keys);
    var b := PartitionPoint(ix.firstKeys, key, false);
    var first := if b == 0 then 0 else b - 1;
    assert (b + 1) * ix.block == b * ix.block + ix.block;
    lo, hi := first * ix.block, Min((b + 1) * ix.block, count);
    if b > 0 {
      assert Leads(ix, keys, first);
      Scale(first, b + 1, ix.block);
    }
    if b < |ix.firstKeys| {
      assert Leads(ix, keys, b);
    } else {
      assert |keys| <= b * ix.block;
    }
  }

  // --- exact lookup -----------------------------------------------------------------------------

  /** A table of 16-byte pairs in a file, from its first entry. */
  datatype PairTable = PairTable(start: nat, count: nat)

  function KeyAt(file: Bytes, t: PairTable, i: nat): nat
    requires i < t.count && t.start + t.count * PAIR_STRIDE <= |file|
  {
    At64(file, t.start + i * PAIR_STRIDE)
  }

  function ValueAt(file: Bytes, t: PairTable, i: nat): nat
    requires i < t.count && t.start + t.count * PAIR_STRIDE <= |file|
  {
    At64(file, t.start + i * PAIR_STRIDE + 8)
  }

  /** The file holds these pairs as this table. */
  ghost predicate Stores(file: Bytes, t: PairTable, pairs: seq<Pair>) {
    && |pairs| == t.count && t.start + t.count * PAIR_STRIDE <= |file|
    && forall i | 0 <= i < t.count :: KeyAt(file, t, i) == pairs[i].0 && ValueAt(file, t, i) == pairs[i].1
  }

  function KeysOf(pairs: seq<Pair>): seq<nat> {
    seq(|pairs|, i requires 0 <= i < |pairs| => pairs[i].0)
  }

  /** What scanning the whole table would answer. */
  ghost predicate IsAnswer(pairs: seq<Pair>, node: NodeId, r: Option<NodeId>) {
    match r
    case Some(v) => HasPair(pairs, node, v)
    case None => forall i | 0 <= i < |pairs| :: pairs[i].0 != node
  }

  method Lookup(file: Bytes, t: PairTable, ix: Option<SparseIndex>, node: NodeId, ghost pairs: seq<Pair>)
    returns (r: Option<NodeId>)
    requires Stores(file, t, pairs) && KeysAscend(pairs) && (ix.Some? ==> Samples(ix.value, KeysOf(pairs)))
    ensures IsAnswer(pairs, node, r)
  {
    var lo, hi := 0, t.count;
    if ix.Some? {
      lo, hi := NarrowExact(ix.value, t.count, node, KeysOf(pairs));
      assert forall i | 0 <= i < |pairs| :: KeysOf(pairs)[i] == pairs[i].0;
    }
    while lo < hi
      invariant 0 <= lo <= hi <= t.count
      invariant forall i | 0 <= i < |pairs| && pairs[i].0 == node :: lo <= i < hi
    {
      var mid := lo + (hi - lo) / 2;
      var key := KeyAt(file, t, mid);
      if key == node {
        assert pairs[mid] == (node, ValueAt(file, t, mid));
        return Some(ValueAt(file, t, mid));
      } else if key < node {
        lo := mid + 1;
      } else {
        hi := mid;
      }
    }
    r := None;
  }

  /** A filter built over the table's keys, hashed through `probe`, denies none of them. */
  ghost predicate Knows(f: Option<Filter>, mix: Hash, probe: NodeId -> nat, pairs: seq<Pair>) {
    f.Some? ==> f.value.blocks != [] && forall i | 0 <= i < |pairs| :: Reports(f.value, mix, probe(pairs[i].0))
  }

  /** The filter first: its denial is final, and its doubt costs only the search. */
  method FilteredLookup(f: Option<Filter>, mix: Hash, probe: NodeId -> nat, file: Bytes, t: PairTable,
                        ix: Option<SparseIndex>, node: NodeId, ghost pairs: seq<Pair>) returns (r: Option<NodeId>)
    requires Stores(file, t, pairs) && KeysAscend(pairs) && (ix.Some? ==> Samples(ix.value, KeysOf(pairs)))
    requires Knows(f, mix, probe, pairs)
    ensures IsAnswer(pairs, node, r)
  {
    if f.Some? {
      var maybe := MayContain(f.value, probe(node), mix);
      if !maybe.value {
        return None;
      }
    }
    r := Lookup(file, t, ix, node, pairs);
  }

  // --- all values of a repeated key ------------------------------------------------------------------

  function RootsOf(entries: seq<Entry>): seq<nat> {
    seq(|entries|, i requires 0 <= i < |entries| => entries[i].0)
  }

  method ScopesFor(entries: seq<Entry>, ix: Option<SparseIndex>, root: NodeId) returns (out: seq<ScopeId>)
    requires NonDecreasing(RootsOf(entries)) && (ix.Some? ==> Samples(ix.value, RootsOf(entries)))
    ensures out == ValuesFor(entries, root)
  {
    var lo, hi := 0, |entries|;
    if ix.Some? {
      lo, hi := NarrowLowerBound(ix.value, |entries|, root, RootsOf(entries));
    }
    assert forall i | 0 <= i < |entries| :: RootsOf(entries)[i] == entries[i].0;
    while lo < hi
      invariant 0 <= lo <= hi <= |entries|
      invariant forall i | 0 <= i < lo :: entries[i].0 < root
      invariant forall i | hi <= i < |entries| :: root <= entries[i].0
    {
      var mid := lo + (hi - lo) / 2;
      assert RootsOf(entries)[mid] == entries[mid].0;
      if entries[mid].0 < root {
        lo := mid + 1;
      } else {
        hi := mid;
      }
    }
    NoneBetween(entries, root, 0, lo);
    out := [];
    var i := lo;
    while i < |entries| && entries[i].0 == root
      invariant lo <= i <= |entries| && out == ValuesIn(entries, i, root)
    {
      out := out + [entries[i].1];
      i := i + 1;
    }
    forall j | i <= j < |entries| ensures entries[j].0 != root {
      assert RootsOf(entries)[i] <= RootsOf(entries)[j];
    }
    NoneBetween(entries, root, i, |entries|);
  }

  lemma RootsRise(entries: seq<Entry>)
    requires Ascend(entries)
    ensures NonDecreasing(RootsOf(entries))
  {
    forall i, j | 0 <= i < j < |entries| ensures RootsOf(entries)[i] <= RootsOf(entries)[j] {
      assert Less(entries[i], entries[j]);
    }
  }

  /** Index a sorted registry and look a root up through the index. */
  method IndexedScopes(entries: seq<Entry>, root: NodeId) returns (out: seq<ScopeId>)
    requires Ascend(entries)
    ensures out == ValuesFor(entries, root)
  {
    RootsRise(entries);
    var ix := BuildIndex(RootsOf(entries), REGISTRY_STRIDE);
    out := ScopesFor(entries, ix, root);
  }
}

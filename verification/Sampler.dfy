/**
 Sampling every table's block leaders in one forward pass over a file. A window
 slides over the span the samples cover, keeping eight bytes of overlap so that a
 word across its edge is still read whole.
 */
module Sampler {
  import opened Types
  import opened Sorting
  import opened Varints
  import opened Compaction
  import opened Lookups
  import opened Filters
  import Blobs

  const BLOCK := 256

  /** One sample for each block, none for a table of one. */
  function SampleCount(t: PairTable): nat {
    if t.count <= BLOCK then 0 else (t.count + BLOCK - 1) / BLOCK
  }

  /** Offset and table of a sample. */
  type Sample = Entry

  // --- what is wanted -----------------------------------------------------------------------

  ghost predicate Wanted(tables: seq<PairTable>, w: Sample) {
    w.1 < |tables| && exists i :: 0 <= i < SampleCount(tables[w.1]) && w.0 == tables[w.1].start + i * PAGE_BYTES
  }

  method TableSamples(t: PairTable, id: nat) returns (out: seq<Sample>)
    ensures forall w ::
      w in out <==> w.1 == id && exists i :: 0 <= i < SampleCount(t) && w.0 == t.start + i * PAGE_BYTES
  {
    out := [];
    for i := 0 to SampleCount(t)
      invariant forall w :: w in out <==> w.1 == id && exists j :: 0 <= j < i && w.0 == t.start + j * PAGE_BYTES
    {
      out := out + [(t.start + i * PAGE_BYTES, id)];
    }
  }

  /** Every sample point of every table, in file order. */
  method Plan(tables: seq<PairTable>) returns (wanted: seq<Sample>)
    ensures Ascend(wanted) && forall w :: w in wanted <==> Wanted(tables, w)
  {
    var all: seq<Sample> := [];
    for id := 0 to |tables|
      invariant forall w :: w in all <==> w.1 < id && Wanted(tables, w)
    {
      var more := TableSamples(tables[id], id);
      all := all + more;
    }
    wanted := SortEntries(all);
  }

  // --- the pass -------------------------------------------------------------------------------

  ghost predicate InFile(file: Bytes, wanted: seq<Sample>) {
    forall i | 0 <= i < |wanted| :: wanted[i].0 + 8 <= |file|
  }

  /** The words at one table's samples, in order. */
  ghost function Picked(file: Bytes, wanted: seq<Sample>, id: nat): seq<nat>
    requires InFile(file, wanted)
  {
    if wanted == [] then []
    else
      var n := |wanted| - 1;
      assert wanted[n].0 + 8 <= |file|;
      Picked(file, wanted[..n], id) + if wanted[n].1 == id then [At64(file, wanted[n].0)] else []
  }

  lemma PickedStep(file: Bytes, wanted: seq<Sample>, i: nat, id: nat)
    requires InFile(file, wanted) && i < |wanted|
    ensures InFile(file, wanted[..i]) && InFile(file, wanted[..i + 1])
    ensures Picked(file, wanted[..i + 1], id)
         == Picked(file, wanted[..i], id) + if wanted[i].1 == id then [At64(file, wanted[i].0)] else []
  {
    assert wanted[..i + 1][..i] == wanted[..i];
  }

  /** The window holds the file's bytes from `base`. */
  ghost predicate Window(file: Bytes, base: nat, win: Bytes) {
    base + |win| <= |file| && win == file[base..base + |win|]
  }

  lemma WindowWord(file: Bytes, base: nat, win: Bytes, off: nat)
    requires Window(file, base, win) && base <= off && off + 8 <= base + |win|
    ensures At64(win, off - base) == At64(file, off)
  {
    var a, b := win[off - base..off - base + 8], file[off..off + 8];
    forall j | 0 <= j < 8 ensures a[j] == b[j] {
      assert win[off - base + j] == file[off + j];
    }
    assert a == b;
  }

  /** Slide on: keep the last eight bytes, and read up to the end of the span. */
  method Refill(file: Bytes, base: nat, win: Bytes, end: nat, chunk: nat) returns (base': nat, win': Bytes)
    requires Window(file, base, win) && base + |win| <= end <= |file| && chunk >= 16
    ensures Window(file, base', win') && base' + |win'| <= end
    ensures base' == base + |win| - Min(|win|, 8)
    ensures base + |win| < end ==> base' + |win'| > base + |win|
    ensures |win'| < 8 ==> base' + |win'| == end
  {
    var keep := Min(|win|, 8);
    base' := base + |win| - keep;
    var want := Min(end - (base' + keep), chunk - keep);
    win' := win[|win| - keep..] + file[base' + keep..base' + keep + want];
  }

  /** Take every sample the window holds whole. */
  method Drain(file: Bytes, wanted: seq<Sample>, next: nat, base: nat, win: Bytes, keys: seq<seq<nat>>)
    returns (next': nat, keys': seq<seq<nat>>)
    requires InFile(file, wanted) && next <= |wanted| && Window(file, base, win) && Ascend(wanted)
    requires forall i | next <= i < |wanted| :: base <= wanted[i].0
    requires forall i | 0 <= i < |wanted| :: wanted[i].1 < |keys|
    requires InFile(file, wanted[..next])
    requires forall id | 0 <= id < |keys| :: keys[id] == Picked(file, wanted[..next], id)
    ensures next <= next' <= |wanted| && |keys'| == |keys| && InFile(file, wanted[..next'])
    ensures forall id | 0 <= id < |keys| :: keys'[id] == Picked(file, wanted[..next'], id)
    ensures forall i | next' <= i < |wanted| :: wanted[i].0 + 8 > base + |win|
  {
    next', keys' := next, keys;
    while next' < |wanted| && wanted[next'].0 + 8 <= base + |win|
      invariant next <= next' <= |wanted| && |keys'| == |keys| && InFile(file, wanted[..next'])
      invariant forall id | 0 <= id < |keys| :: keys'[id] == Picked(file, wanted[..next'], id)
    {
      var (off, id) := wanted[next'];
      WindowWord(file, base, win, off);
      forall k | 0 <= k < |keys| ensures Picked(file, wanted[..next' + 1], k)
          == Picked(file, wanted[..next'], k) + if id == k then [At64(file, off)] else []
      {
        PickedStep(file, wanted, next', k);
      }
      keys' := keys'[id := keys'[id] + [At64(win, off - base)]];
      next' := next' + 1;
    }
    if next' < |wanted| {
      forall i | next' <= i < |wanted| ensures wanted[i].0 + 8 > base + |win| {
        assert i > next' ==> Less(wanted[next'], wanted[i]);
      }
    }
  }

  /** One pass: every table gets the words at its own samples, in order. */
  method Pass(file: Bytes, wanted: seq<Sample>, tables: nat, chunk: nat) returns (keys: seq<seq<nat>>)
    requires wanted != [] && Ascend(wanted) && InFile(file, wanted) && chunk >= 16
    requires forall i | 0 <= i < |wanted| :: wanted[i].1 < tables
    ensures |keys| == tables && forall id | 0 <= id < tables :: keys[id] == Picked(file, wanted, id)
  {
    keys := seq(tables, i => []);
    var base: nat, win: Bytes := wanted[0].0, [];
    var end := wanted[|wanted| - 1].0 + 8;
    var next := 0;
    FirstAndLast(wanted);
    while next < |wanted|
      invariant next <= |wanted| && |keys| == tables && InFile(file, wanted[..next])
      invariant forall id | 0 <= id < tables :: keys[id] == Picked(file, wanted[..next], id)
      invariant Window(file, base, win) && base + |win| <= end <= |file|
      invariant |win| < 8 ==> |win| == 0 && base == wanted[0].0
      invariant forall i | next <= i < |wanted| :: base <= wanted[i].0 && wanted[i].0 + 8 > base + |win|
      decreases end - (base + |win|)
    {
      base, win := Refill(file, base, win, end, chunk);
      next, keys := Drain(file, wanted, next, base, win, keys);
    }
    assert wanted[..|wanted|] == wanted;
  }

  lemma FirstAndLast(wanted: seq<Sample>)
    requires Ascend(wanted) && wanted != []
    ensures forall i | 0 <= i < |wanted| :: wanted[0].0 <= wanted[i].0 <= wanted[|wanted| - 1].0
  {
    forall i | 0 <= i < |wanted| ensures wanted[0].0 <= wanted[i].0 <= wanted[|wanted| - 1].0 {
      assert i > 0 ==> Less(wanted[0], wanted[i]);
      assert i < |wanted| - 1 ==> Less(wanted[i], wanted[|wanted| - 1]);
    }
  }

  // --- what the pass yields ----------------------------------------------------------------------

  /** The offsets of one table's samples, in order. */
  ghost function Mine(wanted: seq<Sample>, id: nat): seq<nat> {
    if wanted == [] then []
    else
      var n := |wanted| - 1;
      Mine(wanted[..n], id) + if wanted[n].1 == id then [wanted[n].0] else []
  }

  lemma {:induction false} MineAscends(wanted: seq<Sample>, id: nat)
    requires Ascend(wanted)
    ensures Increasing(Mine(wanted, id))
    ensures forall off :: off in Mine(wanted, id) <==> (off, id) in wanted
  {
    if wanted != [] {
      var n := |wanted| - 1;
      var front, last := wanted[..n], wanted[n];
      MineAscends(front, id);
      assert wanted == front + [last];
      var mine := Mine(front, id);
      forall i | 0 <= i < |mine| && last.1 == id ensures mine[i] < last.0 {
        assert mine[i] in mine;
        var j :| 0 <= j < n && front[j] == (mine[i], id);
        assert Less(wanted[j], wanted[n]);
      }
    }
  }

  lemma {:induction false} PickedMine(file: Bytes, wanted: seq<Sample>, id: nat)
    requires InFile(file, wanted)
    ensures |Picked(file, wanted, id)| == |Mine(wanted, id)|
    ensures forall i | 0 <= i < |Mine(wanted, id)| ::
      Mine(wanted, id)[i] + 8 <= |file| && Picked(file, wanted, id)[i] == At64(file, Mine(wanted, id)[i])
  {
    if wanted != [] {
      PickedMine(file, wanted[..|wanted| - 1], id);
    }
  }

  /** A table's samples are its block leaders, in order. */
  lemma MineIsTable(tables: seq<PairTable>, wanted: seq<Sample>, id: nat)
    requires Ascend(wanted) && (forall w :: w in wanted <==> Wanted(tables, w)) && id < |tables|
    ensures var t := tables[id];
      Mine(wanted, id) == seq(SampleCount(t), i requires 0 <= i < SampleCount(t) => t.start + i * PAGE_BYTES)
  {
    var t := tables[id];
    var leaders := seq(SampleCount(t), i requires 0 <= i < SampleCount(t) => t.start + i * PAGE_BYTES);
    MineAscends(wanted, id);
    forall off ensures off in Mine(wanted, id) <==> off in leaders {
      assert off in Mine(wanted, id) <==> Wanted(tables, (off, id));
      if Wanted(tables, (off, id)) {
        var i :| 0 <= i < SampleCount(t) && off == t.start + i * PAGE_BYTES;
        assert leaders[i] == off;
      }
      if off in leaders {
        var i :| 0 <= i < |leaders| && leaders[i] == off;
        assert off == t.start + i * PAGE_BYTES;
      }
    }
    IncreasingUnique(Mine(wanted, id), leaders);
  }

  /** The file holds the keys of a table at its stride. */
  ghost predicate Keyed(file: Bytes, t: PairTable, keys: seq<nat>) {
    && |keys| == t.count && t.start + t.count * PAIR_STRIDE <= |file|
    && forall j | 0 <= j < |keys| :: At64(file, t.start + j * PAIR_STRIDE) == keys[j]
  }

  /** The words at a table's samples. */
  ghost predicate Sampled(file: Bytes, t: PairTable, first: seq<nat>) {
    && |first| == SampleCount(t)
    && forall i | 0 <= i < |first| ::
         t.start + i * PAGE_BYTES + 8 <= |file| && first[i] == At64(file, t.start + i * PAGE_BYTES)
  }

  lemma PickedSampled(file: Bytes, tables: seq<PairTable>, wanted: seq<Sample>, id: nat)
    requires Ascend(wanted) && (forall w :: w in wanted <==> Wanted(tables, w)) && id < |tables|
    requires InFile(file, wanted)
    ensures Sampled(file, tables[id], Picked(file, wanted, id))
  {
    MineIsTable(tables, wanted, id);
    PickedMine(file, wanted, id);
    var t := tables[id];
    forall i | 0 <= i < SampleCount(t)
      ensures t.start + i * PAGE_BYTES + 8 <= |file|
      ensures Picked(file, wanted, id)[i] == At64(file, t.start + i * PAGE_BYTES)
    {
      assert Mine(wanted, id)[i] == t.start + i * PAGE_BYTES;
    }
  }

  /** The sampled words are the leaders a table's own index would have. */
  lemma LeadersSampled(file: Bytes, t: PairTable, keys: seq<nat>, first: seq<nat>)
    requires Keyed(file, t, keys) && Sampled(file, t, first) && SampleCount(t) > 0
    ensures Samples(SparseIndex(BLOCK, first), keys)
  {
    forall b | 0 <= b < |first| ensures Leads(SparseIndex(BLOCK, first), keys, b) {
      assert b * BLOCK * PAIR_STRIDE == b * PAGE_BYTES;
      assert At64(file, t.start + (b * BLOCK) * PAIR_STRIDE) == keys[b * BLOCK];
    }
  }

  ghost predicate Mapped(file: Bytes, tables: seq<PairTable>, keys: seq<seq<nat>>) {
    |keys| == |tables| && forall id | 0 <= id < |tables| :: Keyed(file, tables[id], keys[id])
  }

  lemma SamplesInFile(file: Bytes, tables: seq<PairTable>, keys: seq<seq<nat>>, w: Sample)
    requires Mapped(file, tables, keys) && Wanted(tables, w)
    ensures w.0 + 8 <= |file|
  {
    var t := tables[w.1];
    assert Keyed(file, t, keys[w.1]);
    var i :| 0 <= i < SampleCount(t) && w.0 == t.start + i * PAGE_BYTES;
    assert i * BLOCK < t.count;
  }

  lemma PlanInFile(file: Bytes, tables: seq<PairTable>, keys: seq<seq<nat>>, wanted: seq<Sample>)
    requires Mapped(file, tables, keys) && forall w :: w in wanted <==> Wanted(tables, w)
    ensures InFile(file, wanted) && forall i | 0 <= i < |wanted| :: wanted[i].1 < |tables|
  {
    forall i | 0 <= i < |wanted| ensures wanted[i].0 + 8 <= |file| && wanted[i].1 < |tables| {
      assert wanted[i] in wanted;
      SamplesInFile(file, tables, keys, wanted[i]);
    }
  }

  ghost predicate Indexed(ix: Option<SparseIndex>, keys: seq<nat>) {
    if |keys| <= BLOCK then ix == None else ix.Some? && Samples(ix.value, keys)
  }

  method IndexTable(ghost file: Bytes, t: PairTable, words: seq<nat>, ghost keys: seq<nat>)
    returns (ix: Option<SparseIndex>)
    requires Keyed(file, t, keys) && Sampled(file, t, words)
    ensures Indexed(ix, keys)
  {
    if |words| == SampleCount(t) && SampleCount(t) > 0 {
      LeadersSampled(file, t, keys, words);
      return Some(SparseIndex(BLOCK, words));
    }
    ix := None;
  }

  /** Index every table of a file in one pass: each gets the leader of each of its blocks. */
  method BuildIndexes(file: Bytes, tables: seq<PairTable>, chunk: nat, ghost keys: seq<seq<nat>>)
    returns (out: seq<Option<SparseIndex>>)
    requires Mapped(file, tables, keys) && chunk >= 16
    ensures |out| == |tables| && forall id | 0 <= id < |tables| :: Indexed(out[id], keys[id])
  {
    var wanted := Plan(tables);
    var words := seq<seq<nat>>(|tables|, i => []);
    PlanInFile(file, tables, keys, wanted);
    if wanted != [] {
      words := Pass(file, wanted, |tables|, chunk);
    }
    out := [];
    for id := 0 to |tables|
      invariant |out| == id && forall j | 0 <= j < id :: Indexed(out[j], keys[j])
    {
      PickedSampled(file, tables, wanted, id);
      assert Keyed(file, tables[id], keys[id]);
      var ix := IndexTable(file, tables[id], words[id], keys[id]);
      out := out + [ix];
    }
  }

  // --- opening a file and looking keys up ---------------------------------------------------------

  lemma StoredKeyed(file: Bytes, t: PairTable, pairs: seq<Pair>)
    requires Stores(file, t, pairs)
    ensures Keyed(file, t, KeysOf(pairs))
  {
    forall j | 0 <= j < |pairs| ensures At64(file, t.start + j * PAIR_STRIDE) == KeysOf(pairs)[j] {
      assert KeyAt(file, t, j) == pairs[j].0;
    }
  }

  /** A table blob standing in a file is stored behind its count. */
  lemma TableStored(file: Bytes, at: nat, pairs: seq<Pair>)
    requires Blobs.Pairs64(pairs) && Holds(file, at, Blobs.TableBytes(pairs))
    ensures Stores(file, PairTable(at + 8, |pairs|), pairs)
  {
    var t := PairTable(at + 8, |pairs|);
    forall i | 0 <= i < |pairs| ensures KeyAt(file, t, i) == pairs[i].0 && ValueAt(file, t, i) == pairs[i].1 {
      PairStored(file, at, pairs, i);
    }
  }

  lemma PairStored(file: Bytes, at: nat, pairs: seq<Pair>, i: nat)
    requires Blobs.Pairs64(pairs) && Holds(file, at, Blobs.TableBytes(pairs)) && i < |pairs|
    ensures At64(file, at + 8 + 16 * i) == pairs[i].0 && At64(file, at + 16 + 16 * i) == pairs[i].1
  {
    var data := Blobs.TableBytes(pairs);
    Blobs.TableAt(pairs, i);
    assert Window(file, at, data);
    WindowWord(file, at, data, at + 8 + 16 * i);
    WindowWord(file, at, data, at + 16 + 16 * i);
  }

  /** The filter a file carries, if it carries one. */
  ghost predicate Carries(data: Option<Bytes>, f: Option<Filter>) {
    match f
    case None => data == None
    case Some(g) => data == Some(FilterBytes(g)) && |g.blocks| < U32
  }

  /** Index every table of a file, decode its filter, and look one key of one table up. */
  method StoredLookup(file: Bytes, tables: seq<PairTable>, chunk: nat, id: nat, filter: Option<Bytes>,
                      mix: Hash, probe: NodeId -> nat, node: NodeId,
                      ghost pairs: seq<seq<Pair>>, ghost built: Option<Filter>) returns (r: Option<NodeId>)
    requires chunk >= 16 && id < |tables| == |pairs|
    requires forall i | 0 <= i < |tables| :: Stores(file, tables[i], pairs[i])
    requires KeysAscend(pairs[id]) && Carries(filter, built) && Knows(built, mix, probe, pairs[id])
    ensures IsAnswer(pairs[id], node, r)
  {
    ghost var keys := seq<seq<nat>>(|pairs|, i requires 0 <= i < |pairs| => KeysOf(pairs[i]));
    forall i | 0 <= i < |tables| ensures Keyed(file, tables[i], keys[i]) {
      StoredKeyed(file, tables[i], pairs[i]);
    }
    var indexes := BuildIndexes(file, tables, chunk, keys);
    assert Indexed(indexes[id], keys[id]);
    var f := None;
    if filter.Some? {
      var decoded := DecodeEncoded(filter.value, built.value);
      f := Some(decoded);
    }
    r := FilteredLookup(f, mix, probe, file, tables[id], indexes[id], node, pairs[id]);
  }
}

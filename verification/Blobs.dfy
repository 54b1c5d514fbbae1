/**
 A run's blobs. A forest is written either by streaming it into a writer that
 encodes as it goes, or by collecting it first and encoding the snapshot; what
 either writes is stated here as one list of blobs, byte for byte: the tables in
 scope order, the registry, the filters, and the member index with its own.
 */
module Blobs {
  import opened Types
  import opened Sorting
  import opened Varints
  import opened Blocked
  import opened Filters
  import opened Compaction

  const BLOCK_BYTES: nat := 512

  /** A fixed stride, or delta-coded blocks. */
  datatype Layout = Fixed | Delta

  datatype Options = Options(filterBits: nat, registry: Layout, memberIndex: bool, members: Layout)

  datatype Kind =
    | SharedTable
    | ScopeTable
    | Registry(layout: Layout)
    | SharedFilter
    | OverlayFilter
    | SharedMembers(layout: Layout)
    | OverlayMembers(layout: Layout)
    | SharedMembersFilter
    | OverlayMembersFilter

  datatype Blob = Blob(kind: Kind, scope: Option<ScopeId>, data: Bytes, sequence: nat)

  /** A scope and its overlay pairs. */
  type Section = (ScopeId, seq<Pair>)

  datatype Snapshot = Snapshot(global: seq<Pair>, scopes: seq<Section>)

  /** What a write is given besides the forest. The hashes are any functions. */
  datatype Setup = Setup(sequence: nat, opts: Options, mix: Hash, overlayKey: (ScopeId, NodeId) -> Key)

  // --- tables ---------------------------------------------------------------------------

  function PairCells(pairs: seq<Pair>): (r: seq<nat>)
    ensures |r| == 2 * |pairs|
  {
    if pairs == [] then [] else PairCells(pairs[..|pairs| - 1]) + [pairs[|pairs| - 1].0, pairs[|pairs| - 1].1]
  }

  /** A table with its count still to be filled in. */
  ghost function OpenTable(pairs: seq<Pair>): (r: Bytes)
    ensures |r| == 8 + 16 * |pairs|
  {
    Word(0, 8) + Words(PairCells(pairs))
  }

  ghost function TableBytes(pairs: seq<Pair>): (r: Bytes)
    ensures |r| == 8 + 16 * |pairs|
  {
    Word(|pairs|, 8) + Words(PairCells(pairs))
  }

  function CloseTable(buf: Bytes, count: nat): Bytes
    requires |buf| >= 8
  {
    Word(count, 8) + buf[8..]
  }

  lemma TablePush(pairs: seq<Pair>, pair: Pair)
    ensures OpenTable(pairs + [pair]) == OpenTable(pairs) + Word(pair.0, 8) + Word(pair.1, 8)
  {
    var cells := PairCells(pairs);
    assert (pairs + [pair])[..|pairs|] == pairs;
    assert cells + [pair.0, pair.1] == (cells + [pair.0]) + [pair.1];
    WordsPush(cells, pair.0);
    WordsPush(cells + [pair.0], pair.1);
  }

  lemma WordsPush(vs: seq<nat>, v: nat)
    ensures Words(vs + [v]) == Words(vs) + Word(v, 8)
  {
    assert (vs + [v])[..|vs|] == vs;
  }

  lemma TableClosed(pairs: seq<Pair>)
    ensures CloseTable(OpenTable(pairs), |pairs|) == TableBytes(pairs)
  {
    assert OpenTable(pairs)[8..] == Words(PairCells(pairs));
  }

  ghost predicate FillsAs(buf: Bytes, count: nat, pairs: seq<Pair>, u: Unfold) {
    buf == OpenTable(pairs) && count == |pairs|
  }

  /** A table being filled. */
  ghost predicate Fills(buf: Bytes, count: nat, pairs: seq<Pair>) {
    forall u :: FillsAs(buf, count, pairs, u)
  }

  lemma NothingFills()
    ensures Fills(Word(0, 8), 0, [])
  {
  }

  lemma FillMore(buf: Bytes, count: nat, pairs: seq<Pair>, node: NodeId, root: NodeId)
    requires Fills(buf, count, pairs)
    ensures Fills(buf + Word(node, 8) + Word(root, 8), count + 1, pairs + [(node, root)])
  {
    assert FillsAs(buf, count, pairs, Unfolded);
    TablePush(pairs, (node, root));
  }

  lemma Filled(buf: Bytes, count: nat, pairs: seq<Pair>)
    requires Fills(buf, count, pairs)
    ensures count == |pairs| && |buf| >= 8 && CloseTable(buf, count) == TableBytes(pairs)
  {
    assert FillsAs(buf, count, pairs, Unfolded);
    TableClosed(pairs);
  }

  /** Write a table: reserve the count, append the pairs, fill the count in. */
  method WriteTable(pairs: seq<Pair>) returns (data: Bytes)
    ensures data == TableBytes(pairs)
  {
    var buf := Word(0, 8);
    NothingFills();
    for i := 0 to |pairs|
      invariant Fills(buf, i, pairs[..i])
    {
      FillMore(buf, i, pairs[..i], pairs[i].0, pairs[i].1);
      assert pairs[..i + 1] == pairs[..i] + [(pairs[i].0, pairs[i].1)];
      buf := buf + Word(pairs[i].0, 8) + Word(pairs[i].1, 8);
    }
    assert pairs[..|pairs|] == pairs;
    Filled(buf, |pairs|, pairs);
    data := CloseTable(buf, |pairs|);
  }

  // --- reading tables ----------------------------------------------------------------------

  ghost predicate Pairs64(pairs: seq<Pair>) {
    |pairs| < U64 && forall i | 0 <= i < |pairs| :: pairs[i].0 < U64 && pairs[i].1 < U64
  }

  lemma {:induction false} PairCellsAt(pairs: seq<Pair>, i: nat)
    requires i < |pairs|
    ensures PairCells(pairs)[2 * i] == pairs[i].0 && PairCells(pairs)[2 * i + 1] == pairs[i].1
  {
    if i < |pairs| - 1 {
      PairCellsAt(pairs[..|pairs| - 1], i);
    }
  }

  lemma TableHeader(pairs: seq<Pair>)
    requires |pairs| < U64
    ensures At64(TableBytes(pairs), 0) == |pairs|
  {
    HoldsMore(Word(|pairs|, 8), 0, Word(|pairs|, 8), Words(PairCells(pairs)));
    At64Word(TableBytes(pairs), 0, |pairs|);
  }

  lemma TableAt(pairs: seq<Pair>, i: nat)
    requires Pairs64(pairs) && i < |pairs|
    ensures At64(TableBytes(pairs), 8 + 16 * i) == pairs[i].0
    ensures At64(TableBytes(pairs), 16 + 16 * i) == pairs[i].1
  {
    PairCellsAt(pairs, i);
    CellRead(Word(|pairs|, 8), PairCells(pairs), 2 * i);
    CellRead(Word(|pairs|, 8), PairCells(pairs), 2 * i + 1);
  }

  /** `count` pairs from a payload long enough for them. */
  method ReadPairs(data: Bytes, count: nat, ghost pairs: seq<Pair>) returns (out: seq<Pair>)
    requires |data| >= 8 + 16 * count
    ensures |out| == count
    ensures Pairs64(pairs) && data == TableBytes(pairs) && count == |pairs| ==> out == pairs
  {
    out := [];
    for i := 0 to count
      invariant |out| == i
      invariant Pairs64(pairs) && data == TableBytes(pairs) && count == |pairs| ==> out == pairs[..i]
    {
      if Pairs64(pairs) && data == TableBytes(pairs) && count == |pairs| {
        TableAt(pairs, i);
      }
      out := out + [(At64(data, 8 + 16 * i), At64(data, 16 + 16 * i))];
    }
  }

  /** Walk a payload already written. */
  method TablePairs(data: Bytes, ghost pairs: seq<Pair>) returns (out: seq<Pair>)
    requires data == TableBytes(pairs) && Pairs64(pairs)
    ensures out == pairs
  {
    TableHeader(pairs);
    out := ReadPairs(data, At64(data, 0), pairs);
  }

  /** Refused unless the length is what the header says; what was written comes back. */
  method DecodePairs(data: Bytes, ghost pairs: seq<Pair>) returns (r: Option<seq<Pair>>)
    ensures r.Some? <==> |data| >= 8 && |data| == 8 + 16 * At64(data, 0)
    ensures Pairs64(pairs) && data == TableBytes(pairs) ==> r == Some(pairs)
  {
    if Pairs64(pairs) && data == TableBytes(pairs) {
      TableHeader(pairs);
    }
    if |data| < 8 || |data| != 8 + 16 * At64(data, 0) {
      return None;
    }
    var out := ReadPairs(data, At64(data, 0), pairs);
    r := Some(out);
  }

  // --- the registry --------------------------------------------------------------------------

  lemma AscendPushable(es: seq<Entry>, dedup: bool)
    requires Ascend(es)
    ensures Pushable(es, dedup)
  {
  }

  ghost function Strides(es: seq<Entry>): Bytes {
    if es == [] then [] else Strides(es[..|es| - 1]) + (Word(es[|es| - 1].0, 8) + Word(es[|es| - 1].1, 4))
  }

  ghost function RegistryData(es: seq<Entry>, layout: Layout): Option<Bytes>
    requires Ascend(es)
  {
    AscendPushable(es, true);
    if es == [] then None
    else if layout.Fixed? then Some(Word(|es|, 8) + Strides(es))
    else EncodedEntries(es, true, BLOCK_BYTES)
  }

  method WriteStrides(es: seq<Entry>) returns (data: Bytes)
    ensures data == Strides(es)
  {
    data := [];
    for i := 0 to |es|
      invariant data == Strides(es[..i])
    {
      assert es[..i + 1][..i] == es[..i];
      data := data + (Word(es[i].0, 8) + Word(es[i].1, 4));
    }
    assert es[..|es|] == es;
  }

  method EncodeRegistry(es: seq<Entry>, layout: Layout) returns (data: Option<Bytes>)
    requires Ascend(es)
    ensures data == RegistryData(es, layout)
  {
    AscendPushable(es, true);
    if layout.Delta? {
      data := EncodeEntries(es, true, BLOCK_BYTES);
    } else if es == [] {
      data := None;
    } else {
      var strides := WriteStrides(es);
      data := Some(Word(|es|, 8) + strides);
    }
  }

  // --- the member index --------------------------------------------------------------------------

  /** Pairs turned round, self-edges dropped. */
  function Swapped(pairs: seq<Pair>): seq<Entry> {
    if pairs == [] then []
    else
      var last := pairs[|pairs| - 1];
      Swapped(pairs[..|pairs| - 1]) + if last.0 != last.1 then [(last.1, last.0)] else []
  }

  /** A table by parent. */
  function Inverted(pairs: seq<Pair>): (r: seq<Entry>)
    ensures Ascend(r)
  {
    SortEntries(Swapped(pairs))
  }

  lemma {:induction false} SwappedHas(pairs: seq<Pair>, parent: NodeId, child: NodeId)
    ensures (parent, child) in Swapped(pairs) <==> (child, parent) in pairs && child != parent
  {
    if pairs != [] {
      var front, last := pairs[..|pairs| - 1], pairs[|pairs| - 1];
      assert pairs == front + [last];
      SwappedHas(front, parent, child);
    }
  }

  /** The children listed under a node are the others the table resolves to it. */
  lemma InvertedHas(pairs: seq<Pair>, parent: NodeId, child: NodeId)
    ensures (parent, child) in Inverted(pairs) <==> (child, parent) in pairs && child != parent
  {
    SwappedHas(pairs, parent, child);
  }

  /** The distinct keys of sorted entries. */
  function Heads(es: seq<Entry>): seq<nat> {
    if es == [] then []
    else
      var front, key := Heads(es[..|es| - 1]), es[|es| - 1].0;
      if front != [] && front[|front| - 1] == key then front else front + [key]
  }

  ghost function MemberData(pairs: seq<Pair>, layout: Layout): Option<Bytes> {
    var es := Inverted(pairs);
    AscendPushable(es, false);
    if es == [] then None else if layout.Fixed? then Some(TableBytes(es)) else EncodedEntries(es, false, BLOCK_BYTES)
  }

  method SwapPairs(pairs: seq<Pair>) returns (out: seq<Entry>)
    ensures out == Swapped(pairs)
  {
    out := [];
    for i := 0 to |pairs|
      invariant out == Swapped(pairs[..i])
    {
      assert pairs[..i + 1][..i] == pairs[..i];
      if pairs[i].0 != pairs[i].1 {
        out := out + [(pairs[i].1, pairs[i].0)];
      }
    }
    assert pairs[..|pairs|] == pairs;
  }

  method ListHeads(es: seq<Entry>) returns (out: seq<nat>)
    ensures out == Heads(es)
  {
    out := [];
    for i := 0 to |es|
      invariant out == Heads(es[..i])
    {
      assert es[..i + 1][..i] == es[..i];
      if out == [] || out[|out| - 1] != es[i].0 {
        out := out + [es[i].0];
      }
    }
    assert es[..|es|] == es;
  }

  /** Re-sort an encoded table by parent and encode it, with the distinct parents. */
  method EncodeMembers(data: Bytes, layout: Layout, ghost pairs: seq<Pair>)
    returns (payload: Option<Bytes>, parents: seq<nat>)
    requires data == TableBytes(pairs) && Pairs64(pairs)
    ensures payload == MemberData(pairs, layout) && parents == Heads(Inverted(pairs))
  {
    var read := TablePairs(data, pairs);
    var swapped := SwapPairs(read);
    var es := SortEntries(swapped);
    AscendPushable(es, false);
    parents := ListHeads(es);
    if layout.Delta? {
      payload := EncodeEntries(es, false, BLOCK_BYTES);
    } else if es == [] {
      payload := None;
    } else {
      var table := WriteTable(es);
      payload := Some(table);
    }
  }
}

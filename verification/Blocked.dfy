/**
 The blocked layout shared by the registry and the member index. A record is a key
 and its ascending values; records are delta-coded into blocks that never split
 one, each headed by its first key, behind a table of block offsets.
 */
module Blocked {
  import opened Types
  import opened Sorting
  import opened Varints

  datatype Record = Record(key: nat, values: seq<nat>)

  // --- the format ------------------------------------------------------------------------

  ghost predicate Ascending(values: seq<nat>, from: nat) {
    && (forall i | 0 <= i < |values| :: from <= values[i])
    && forall i, j | 0 <= i < j < |values| :: values[i] < values[j]
  }

  ghost predicate Good(r: Record) {
    r.values != [] && Ascending(r.values, 0)
  }

  ghost predicate KeysRise(rs: seq<Record>, i: nat, j: nat)
    requires i < j < |rs|
  {
    rs[i].key < rs[j].key
  }

  ghost predicate Ordered(rs: seq<Record>) {
    && (forall i | 0 <= i < |rs| :: Good(rs[i]))
    && forall i: nat, j: nat {:trigger KeysRise(rs, i, j)} | i < j < |rs| :: KeysRise(rs, i, j)
  }

  lemma OrderedSlice(rs: seq<Record>, lo: nat, hi: nat)
    requires Ordered(rs) && lo <= hi <= |rs|
    ensures Ordered(rs[lo..hi])
  {
    var part := rs[lo..hi];
    forall i: nat, j: nat | i < j < |part| ensures KeysRise(part, i, j) {
      assert KeysRise(rs, lo + i, lo + j);
    }
  }

  lemma OrderedRest(rs: seq<Record>)
    requires Ordered(rs) && rs != []
    ensures Ordered(rs[1..]) && (|rs| > 1 ==> rs[0].key < rs[1..][0].key)
  {
    OrderedSlice(rs, 1, |rs|);
    assert rs[1..|rs|] == rs[1..];
    if |rs| > 1 {
      assert KeysRise(rs, 0, 1);
    }
  }

  /** Each value as its distance from the one before. */
  ghost function Gaps(values: seq<nat>, prev: nat): seq<nat>
    requires Ascending(values, prev)
  {
    if values == [] then [] else [values[0] - prev] + Gaps(values[1..], values[0])
  }

  ghost function RecordOf(values: seq<nat>): seq<nat>
    requires Ascending(values, 0)
  {
    [|values|] + Gaps(values, 0)
  }

  /** A record after one with key `prev`. */
  ghost function After(r: Record, prev: nat): seq<nat>
    requires Good(r) && prev < r.key
  {
    [r.key - prev] + RecordOf(r.values)
  }

  ghost function Tail(rs: seq<Record>, prev: nat): seq<nat>
    requires Ordered(rs) && (rs != [] ==> prev < rs[0].key)
  {
    if rs == [] then []
    else
      OrderedRest(rs);
      After(rs[0], prev) + Tail(rs[1..], rs[0].key)
  }

  /** The varints of a block. The first record's key is in the block header. */
  ghost function Body(rs: seq<Record>): seq<nat>
    requires Ordered(rs) && rs != []
  {
    OrderedRest(rs);
    RecordOf(rs[0].values) + Tail(rs[1..], rs[0].key)
  }

  ghost function BlockBytes(rs: seq<Record>): Bytes
    requires Ordered(rs) && rs != []
  {
    Header(rs[0].key, |rs|) + Encode(Body(rs))
  }

  // --- appending ----------------------------------------------------------------------------

  ghost function LastKey(rs: seq<Record>, prev: nat): nat {
    if rs == [] then prev else rs[|rs| - 1].key
  }

  lemma OrderedPush(rs: seq<Record>, r: Record)
    requires Ordered(rs) && Good(r) && (rs != [] ==> rs[|rs| - 1].key < r.key)
    ensures Ordered(rs + [r])
  {
    var all := rs + [r];
    forall i: nat, j: nat | i < j < |all| ensures KeysRise(all, i, j) {
      if j < |rs| {
        assert KeysRise(rs, i, j);
      } else if i < |rs| - 1 {
        assert KeysRise(rs, i, |rs| - 1);
      }
    }
  }

  lemma {:induction false} TailAppend(rs: seq<Record>, prev: nat, r: Record)
    requires Ordered(rs) && Good(r) && (rs != [] ==> prev < rs[0].key) && LastKey(rs, prev) < r.key
    ensures Ordered(rs + [r]) && prev < (rs + [r])[0].key
    ensures Tail(rs + [r], prev) == Tail(rs, prev) + After(r, LastKey(rs, prev))
  {
    OrderedPush(rs, r);
    if rs == [] {
      assert Tail([], r.key) == [] && [r][1..] == [];
    } else {
      OrderedRest(rs);
      TailAppend(rs[1..], rs[0].key, r);
      assert (rs + [r])[1..] == rs[1..] + [r];
      Assoc(After(rs[0], prev), Tail(rs[1..], rs[0].key), After(r, LastKey(rs, prev)));
    }
  }

  lemma Assoc(a: seq<nat>, b: seq<nat>, c: seq<nat>)
    ensures a + (b + c) == (a + b) + c
  {
  }

  lemma BodyAppend(rs: seq<Record>, r: Record)
    requires rs != [] && Ordered(rs) && Good(r) && rs[|rs| - 1].key < r.key
    ensures Ordered(rs + [r]) && Body(rs + [r]) == Body(rs) + After(r, rs[|rs| - 1].key)
  {
    OrderedPush(rs, r);
    OrderedRest(rs);
    TailAppend(rs[1..], rs[0].key, r);
    assert (rs + [r])[1..] == rs[1..] + [r];
    Assoc(RecordOf(rs[0].values), Tail(rs[1..], rs[0].key), After(r, rs[|rs| - 1].key));
  }

  /** Every record takes at least one varint. */
  lemma {:induction false} TailLength(rs: seq<Record>, prev: nat)
    requires Ordered(rs) && (rs != [] ==> prev < rs[0].key)
    ensures |Tail(rs, prev)| >= |rs|
  {
    if rs != [] {
      OrderedRest(rs);
      TailLength(rs[1..], rs[0].key);
    }
  }

  lemma BodyLength(rs: seq<Record>)
    requires Ordered(rs) && rs != []
    ensures |Encode(Body(rs))| >= |rs|
  {
    OrderedRest(rs);
    TailLength(rs[1..], rs[0].key);
    EncodeLength(Body(rs));
  }

  // --- encoding one record --------------------------------------------------------------------

  lemma GapsStep(values: seq<nat>, i: nat, prev: nat)
    requires i < |values| && Ascending(values[i..], prev)
    ensures prev <= values[i] && Ascending(values[i + 1..], values[i])
    ensures Gaps(values[i..], prev) == [values[i] - prev] + Gaps(values[i + 1..], values[i])
  {
    var rest := values[i..];
    assert rest[0] == values[i] && rest[1..] == values[i + 1..];
    var after := values[i + 1..];
    forall j | 0 <= j < |after| ensures values[i] <= after[j] {
      assert after[j] == rest[j + 1];
    }
    forall j, k | 0 <= j < k < |after| ensures after[j] < after[k] {
      assert after[j] == rest[j + 1] && after[k] == rest[k + 1];
    }
  }

  method EncodeRecord(values: seq<nat>) returns (rec: Bytes)
    requires Ascending(values, 0)
    ensures rec == Encode(RecordOf(values))
  {
    rec := PutNext([], |values|, []);
    ghost var done: seq<nat> := [|values|];
    assert [] + [|values|] == done;
    var prev: nat := 0;
    assert values[0..] == values;
    for i := 0 to |values|
      invariant Ascending(values[i..], prev) && rec == Encode(done)
      invariant done + Gaps(values[i..], prev) == RecordOf(values)
    {
      GapsStep(values, i, prev);
      Assoc(done, [values[i] - prev], Gaps(values[i + 1..], values[i]));
      rec := PutNext(rec, values[i] - prev, done);
      done, prev := done + [values[i] - prev], values[i];
    }
    assert values[|values|..] == [] && done + [] == done;
  }

  // --- what has been pushed -----------------------------------------------------------------------

  function Each(r: Record): seq<Entry> {
    seq(|r.values|, i requires 0 <= i < |r.values| => (r.key, r.values[i]))
  }

  function EntriesOf(rs: seq<Record>): seq<Entry> {
    if rs == [] then [] else EntriesOf(rs[..|rs| - 1]) + Each(rs[|rs| - 1])
  }

  lemma EntriesPush(rs: seq<Record>, r: Record)
    ensures EntriesOf(rs + [r]) == EntriesOf(rs) + Each(r)
  {
    assert (rs + [r])[..|rs|] == rs;
  }

  function Flat(blocks: seq<seq<Record>>): seq<Record> {
    if blocks == [] then [] else Flat(blocks[..|blocks| - 1]) + blocks[|blocks| - 1]
  }

  ghost predicate GoodBlocks(blocks: seq<seq<Record>>) {
    forall i | 0 <= i < |blocks| :: blocks[i] != [] && Ordered(blocks[i])
  }

  ghost function Parts(blocks: seq<seq<Record>>): seq<Bytes>
    requires GoodBlocks(blocks)
  {
    seq(|blocks|, i requires 0 <= i < |blocks| => BlockBytes(blocks[i]))
  }

  ghost function BlocksBytes(blocks: seq<seq<Record>>): Bytes
    requires GoodBlocks(blocks)
  {
    Concat(Parts(blocks))
  }

  /** Where each block starts, from the first. */
  ghost function Offsets(blocks: seq<seq<Record>>): seq<nat>
    requires GoodBlocks(blocks)
  {
    seq(|blocks|, i requires 0 <= i < |blocks| => |Concat(Parts(blocks)[..i])|)
  }

  lemma BlocksPush(blocks: seq<seq<Record>>, rs: seq<Record>)
    requires GoodBlocks(blocks) && rs != [] && Ordered(rs)
    ensures GoodBlocks(blocks + [rs]) && Flat(blocks + [rs]) == Flat(blocks) + rs
    ensures BlocksBytes(blocks + [rs]) == BlocksBytes(blocks) + BlockBytes(rs)
    ensures Offsets(blocks + [rs]) == Offsets(blocks) + [|BlocksBytes(blocks)|]
  {
    var all := blocks + [rs];
    assert all[..|blocks|] == blocks;
    var parts := Parts(blocks);
    assert Parts(all) == parts + [BlockBytes(rs)];
    ConcatPush(parts, BlockBytes(rs));
    forall i | 0 <= i <= |parts| ensures Parts(all)[..i] == parts[..i] {
    }
    assert parts[..|parts|] == parts;
  }

  // --- how records are packed -------------------------------------------------------------------

  /** The closed blocks, and the open one's records. */
  datatype Packing = Packing(blocks: seq<seq<Record>>, open: seq<Record>)

  /** A record joins the open block if that stays within the limit; else it starts the next. */
  ghost function Packed(p: Packing, r: Record, limit: nat): Packing
    requires Ordered(p.open + [r])
  {
    if p.open == [] then Packing(p.blocks, [r])
    else if |Encode(Body(p.open + [r]))| <= limit then Packing(p.blocks, p.open + [r])
    else Packing(p.blocks + [p.open], [r])
  }

  ghost function Pack(rs: seq<Record>, limit: nat): (p: Packing)
    requires Ordered(rs)
    ensures rs == Flat(p.blocks) + p.open
  {
    if rs == [] then Packing([], [])
    else
      var n := |rs| - 1;
      OrderedSlice(rs, 0, n);
      assert rs[0..n] == rs[..n];
      var p := Pack(rs[..n], limit);
      PackedFlat(rs, p, limit);
      Packed(p, rs[n], limit)
  }

  lemma PackedFlat(rs: seq<Record>, p: Packing, limit: nat)
    requires Ordered(rs) && rs != [] && rs[..|rs| - 1] == Flat(p.blocks) + p.open
    ensures Ordered(p.open + [rs[|rs| - 1]])
    ensures var q := Packed(p, rs[|rs| - 1], limit); rs == Flat(q.blocks) + q.open
  {
    var r, front := rs[|rs| - 1], Flat(p.blocks);
    assert rs == front + (p.open + [r]);
    OrderedSlice(rs, |front|, |rs|);
    assert rs[|front|..|rs|] == p.open + [r];
    assert (p.blocks + [p.open])[..|p.blocks|] == p.blocks;
  }

  lemma PackStep(rs: seq<Record>, r: Record, limit: nat)
    requires Ordered(rs + [r])
    ensures Ordered(rs) && Ordered(Pack(rs, limit).open + [r])
    ensures Pack(rs + [r], limit) == Packed(Pack(rs, limit), r, limit)
  {
    LastGood(rs, r);
    assert (rs + [r])[..|rs|] == rs;
    PackedFlat(rs + [r], Pack(rs, limit), limit);
  }

  /** Every block written, the open one last. */
  ghost function Blocks(rs: seq<Record>, limit: nat): seq<seq<Record>>
    requires Ordered(rs)
  {
    ClosedBlocks(Pack(rs, limit).blocks, Pack(rs, limit).open)
  }

  /** A block within its size, or of one record. */
  ghost predicate Fits(rs: seq<Record>, limit: nat) {
    Ordered(rs) && (|rs| > 1 ==> |Encode(Body(rs))| <= limit)
  }

  ghost predicate AllFit(p: Packing, limit: nat) {
    Fits(p.open, limit) && forall i | 0 <= i < |p.blocks| :: p.blocks[i] != [] && Fits(p.blocks[i], limit)
  }

  lemma PackedFits(p: Packing, r: Record, limit: nat)
    requires AllFit(p, limit) && Ordered(p.open + [r])
    ensures AllFit(Packed(p, r, limit), limit)
  {
    LastGood(p.open, r);
  }

  lemma {:induction false} PackFits(rs: seq<Record>, limit: nat)
    requires Ordered(rs)
    ensures AllFit(Pack(rs, limit), limit)
  {
    if rs != [] {
      var n := |rs| - 1;
      assert rs == rs[..n] + [rs[n]];
      PackStep(rs[..n], rs[n], limit);
      PackFits(rs[..n], limit);
      PackedFits(Pack(rs[..n], limit), rs[n], limit);
    }
  }

  lemma BlocksGood(rs: seq<Record>, limit: nat)
    requires Ordered(rs)
    ensures GoodBlocks(Blocks(rs, limit)) && Flat(Blocks(rs, limit)) == rs
    ensures forall i | 0 <= i < |Blocks(rs, limit)| :: Fits(Blocks(rs, limit)[i], limit)
  {
    var p := Pack(rs, limit);
    PackFits(rs, limit);
    assert (p.blocks + [p.open])[..|p.blocks|] == p.blocks;
  }

  /** What a writer with this block size leaves of some records. */
  ghost function PayloadOf(rs: seq<Record>, limit: nat): Bytes
    requires Ordered(rs)
  {
    BlocksGood(rs, limit);
    Payload(|EntriesOf(rs)|, Blocks(rs, limit))
  }

  // --- what may be pushed ---------------------------------------------------------------------------

  /** `(k, v)` may come next: after everything, or repeating the last entry where that is dropped. */
  ghost predicate Follows(rs: seq<Record>, k: nat, v: nat, dedup: bool) {
    rs == [] || var last := rs[|rs| - 1];
      last.key < k || (last.key == k && last.values != [] &&
        (last.values[|last.values| - 1] < v || (dedup && last.values[|last.values| - 1] == v)))
  }

  /** The records once `(k, v)` is pushed. */
  function Pushed(rs: seq<Record>, k: nat, v: nat, dedup: bool): seq<Record> {
    if rs == [] || rs[|rs| - 1].key != k then rs + [Record(k, [v])]
    else
      var values := rs[|rs| - 1].values;
      if dedup && values != [] && values[|values| - 1] == v then rs
      else rs[..|rs| - 1] + [Record(k, values + [v])]
  }

  /** The block being filled: its records' bytes, how many, and the first and last key. */
  datatype Block = Block(body: Bytes, records: nat, firstKey: nat, prevKey: nat)

  const NO_BLOCK := Block([], 0, 0, 0)

  ghost function BlockOf(rs: seq<Record>): Block
    requires Ordered(rs)
  {
    if rs == [] then NO_BLOCK else Block(Encode(Body(rs)), |rs|, rs[0].key, rs[|rs| - 1].key)
  }

  /** The blocks written out, and where each starts. */
  datatype Closed = Closed(bytes: Bytes, offsets: seq<nat>)

  function TableWords(entries: nat, c: Closed): seq<nat> {
    [entries, |c.offsets|] + c.offsets + [|c.bytes|]
  }

  ghost function ClosedOf(blocks: seq<seq<Record>>): Closed
    requires GoodBlocks(blocks)
  {
    Closed(BlocksBytes(blocks), Offsets(blocks))
  }

  /** Add a record to a block that has some, if it fits. */
  method Extend(b: Block, r: Record, rec: Bytes, limit: nat, ghost rs: seq<Record>) returns (next: Option<Block>)
    requires Ordered(rs) && rs != [] && b == BlockOf(rs)
    requires Good(r) && rs[|rs| - 1].key < r.key && rec == Encode(RecordOf(r.values))
    ensures Ordered(rs + [r]) && (next.Some? <==> |Encode(Body(rs + [r]))| <= limit)
    ensures next.Some? ==> next.value == BlockOf(rs + [r])
  {
    var gap := PutVarint([], r.key - b.prevKey);
    ExtendBlock(b, r, gap, rec, rs);
    if |b.body| + |gap| + |rec| > limit {
      return None;
    }
    next := Some(Block(b.body + (gap + rec), b.records + 1, b.firstKey, r.key));
  }

  lemma ExtendBlock(b: Block, r: Record, gap: Bytes, rec: Bytes, rs: seq<Record>)
    requires Ordered(rs) && rs != [] && b == BlockOf(rs)
    requires Good(r) && rs[|rs| - 1].key < r.key && rec == Encode(RecordOf(r.values))
    requires gap == [] + Varint(r.key - b.prevKey)
    ensures Ordered(rs + [r]) && |Encode(Body(rs + [r]))| == |b.body| + |gap| + |rec|
    ensures BlockOf(rs + [r]) == Block(b.body + (gap + rec), b.records + 1, b.firstKey, r.key)
  {
    ExtendBytes(rs, r);
    var v := r.key - rs[|rs| - 1].key;
    assert [v][1..] == [] && Encode([v]) == Varint(v) == gap;
  }

  lemma ExtendBytes(rs: seq<Record>, r: Record)
    requires rs != [] && Ordered(rs) && Good(r) && rs[|rs| - 1].key < r.key
    ensures Ordered(rs + [r])
    ensures Encode(Body(rs + [r]))
         == Encode(Body(rs)) + (Encode([r.key - rs[|rs| - 1].key]) + Encode(RecordOf(r.values)))
  {
    BodyAppend(rs, r);
    EncodeAppend(Body(rs), After(r, rs[|rs| - 1].key));
    EncodeAppend([r.key - rs[|rs| - 1].key], RecordOf(r.values));
  }

  /** Write a block out behind the others. */
  function Close(c: Closed, b: Block): Closed {
    if b.records == 0 then c
    else Closed(c.bytes + (Header(b.firstKey, b.records) + b.body), c.offsets + [|c.bytes|])
  }

  ghost predicate ClosedOk(blocks: seq<seq<Record>>, closed: Closed) {
    GoodBlocks(blocks) && closed == ClosedOf(blocks)
  }

  ghost predicate OpenOk(open: seq<Record>, block: Block) {
    Ordered(open) && block == BlockOf(open)
  }

  function ClosedBlocks(blocks: seq<seq<Record>>, rs: seq<Record>): seq<seq<Record>> {
    if rs == [] then blocks else blocks + [rs]
  }

  ghost predicate PacksTo(limit: nat, done: seq<Record>, blocks: seq<seq<Record>>, open: seq<Record>, u: Unfold) {
    Ordered(done) && Pack(done, limit) == Packing(blocks, open)
  }

  ghost predicate PackOk(limit: nat, done: seq<Record>, blocks: seq<seq<Record>>, open: seq<Record>) {
    forall u :: PacksTo(limit, done, blocks, open, u)
  }

  lemma Place(limit: nat, done: seq<Record>, blocks: seq<seq<Record>>, open: seq<Record>, r: Record)
    requires PackOk(limit, done, blocks, open) && Ordered(done + [r])
    ensures Good(r) && (open != [] ==> open[|open| - 1].key < r.key) && Ordered(open + [r])
    ensures open == [] ==> PackOk(limit, done + [r], blocks, [r])
    ensures open != [] ==>
      if |Encode(Body(open + [r]))| <= limit then PackOk(limit, done + [r], blocks, open + [r])
      else PackOk(limit, done + [r], blocks + [open], [r])
  {
    assert PacksTo(limit, done, blocks, open, Unfolded);
    PackStep(done, r, limit);
    LastGood(open, r);
  }

  /** Everything packed and closed is the payload of the records. */
  lemma Sealed(limit: nat, all: seq<Record>, blocks: seq<seq<Record>>, open: seq<Record>, closed: Closed)
    requires PackOk(limit, all, blocks, open) && ClosedOk(ClosedBlocks(blocks, open), closed)
    ensures Ordered(all)
    ensures Words(TableWords(|EntriesOf(all)|, closed)) + closed.bytes == PayloadOf(all, limit)
  {
    assert PacksTo(limit, all, blocks, open, Unfolded);
  }

  lemma CloseBlocks(blocks: seq<seq<Record>>, closed: Closed, rs: seq<Record>, block: Block)
    requires ClosedOk(blocks, closed) && OpenOk(rs, block)
    ensures ClosedOk(ClosedBlocks(blocks, rs), Close(closed, block))
  {
    if rs != [] {
      BlocksPush(blocks, rs);
    }
  }

  /** Every record pushed is in a closed block, in the open one, or being gathered. */
  ghost predicate Counts(all: seq<Record>, done: seq<Record>, current: Option<Record>, entries: nat, u: Unfold) {
    && all == done + (if current.Some? then [current.value] else [])
    && Ordered(all) && entries == |EntriesOf(all)|
  }

  ghost predicate CountOk(all: seq<Record>, done: seq<Record>, current: Option<Record>, entries: nat) {
    forall u :: Counts(all, done, current, entries, u)
  }

  /** Once nothing is being gathered, every record is in a block. */
  lemma AllDone(all: seq<Record>, done: seq<Record>, entries: nat)
    requires CountOk(all, done, None, entries)
    ensures done == all && Ordered(all) && entries == |EntriesOf(all)|
  {
    assert Counts(all, done, None, entries, Unfolded);
  }

  datatype Part = Closing | Filling | Placing

  class BlockedWriter {
    const dedup: bool
    const blockBytes: nat
    var entries: nat
    var current: Option<Record>
    var block: Block
    var closed: Closed
    ghost var blocks: seq<seq<Record>>
    ghost var open: seq<Record>
    /** The records in blocks, and every record pushed. */
    ghost var done: seq<Record>
    ghost var all: seq<Record>

    ghost predicate Kept(part: Part)
      reads this`blocks, this`closed, this`open, this`block, this`done
    {
      match part
      case Closing => ClosedOk(blocks, closed)
      case Filling => OpenOk(open, block)
      case Placing => PackOk(blockBytes, done, blocks, open)
    }

    ghost predicate Framed()
      reads this`blocks, this`closed, this`open, this`block, this`done
    {
      forall part :: Kept(part)
    }

    ghost predicate Valid()
      reads this
    {
      Framed() && CountOk(all, done, current, entries)
    }

    constructor (dedup: bool, blockBytes: nat)
      ensures Valid() && all == [] && this.dedup == dedup && this.blockBytes == blockBytes
    {
      this.dedup, this.blockBytes := dedup, blockBytes;
      entries, current, block, closed := 0, None, NO_BLOCK, Closed([], []);
      blocks, open, done, all := [], [], [], [];
    }

    /** Write out the open block. */
    method CloseBlock()
      requires Kept(Closing) && Kept(Filling)
      modifies this`block, this`closed, this`blocks, this`open
      ensures Kept(Closing) && Kept(Filling)
      ensures blocks == ClosedBlocks(old(blocks), old(open)) && open == []
    {
      CloseBlocks(blocks, closed, open, block);
      closed, block := Close(closed, block), NO_BLOCK;
      blocks, open := ClosedBlocks(blocks, open), [];
    }

    /** Begin a block with `r`, however large. */
    method Begin(r: Record)
      requires Good(r)
      modifies this`block, this`open
      ensures Kept(Filling) && open == [r]
    {
      var rec := EncodeRecord(r.values);
      OneBody(r);
      block := Block(rec, 1, r.key, r.key);
      open := [r];
    }

    /** Add a record to the open block, or start a block with it if it does not fit. */
    method Add(r: Record)
      requires Framed() && Ordered(done + [r])
      modifies this`block, this`closed, this`blocks, this`open, this`done
      ensures Framed() && done == old(done) + [r]
    {
      assert Kept(Closing) && Kept(Filling) && Kept(Placing);
      Place(blockBytes, done, blocks, open, r);
      done := done + [r];
      if block.records > 0 {
        var rec := EncodeRecord(r.values);
        var next := Extend(block, r, rec, blockBytes, open);
        if next.Some? {
          block := next.value;
          open := open + [r];
          return;
        }
        CloseBlock();
      }
      Begin(r);
    }

    /** Add the gathered record, if there is one. */
    method CloseRecord()
      requires Valid()
      modifies this`block, this`closed, this`blocks, this`open, this`done, this`current
      ensures Valid() && current == None
    {
      if current.Some? {
        CountMoved(all, done, current.value, entries);
        Add(current.value);
        current := None;
      }
    }

    /** Take the next entry; an exact repeat is dropped where the writer deduplicates. */
    method Push(k: nat, v: nat)
      requires Valid() && (current.None? ==> all == []) && Follows(all, k, v, dedup)
      modifies this
      ensures Valid() && current.Some? && all == Pushed(old(all), k, v, dedup)
    {
      if current.Some? && current.value.key == k {
        var r := current.value;
        LastIs(all, done, r, entries);
        if dedup && r.values[|r.values| - 1] == v {
          return;
        }
        GrowRecord(all, done, r, v, entries);
        current := Some(Record(k, r.values + [v]));
        all := done + [current.value];
      } else {
        if current.Some? {
          LastIs(all, done, current.value, entries);
        }
        CloseRecord();
        NewRecord(all, done, k, v, entries);
        current := Some(Record(k, [v]));
        all := all + [current.value];
      }
      entries := entries + 1;
    }

    /** The payload, or nothing if nothing was pushed. */
    method Finish() returns (payload: Option<Bytes>)
      requires Valid()
      modifies this`block, this`closed, this`blocks, this`open, this`done, this`current
      ensures Ordered(all) && payload == if all == [] then None else Some(PayloadOf(all, blockBytes))
    {
      NoneIsNone(all, done, current, entries);
      if entries == 0 {
        return None;
      }
      CloseRecord();
      assert Kept(Closing) && Kept(Filling) && Kept(Placing);
      ghost var before, filled := blocks, open;
      AllDone(all, done, entries);
      CloseBlock();
      Sealed(blockBytes, all, before, filled, closed);
      var table := WriteTable(TableWords(entries, closed));
      payload := Some(table + closed.bytes);
    }
  }

  lemma NoneIsNone(all: seq<Record>, done: seq<Record>, current: Option<Record>, entries: nat)
    requires CountOk(all, done, current, entries)
    ensures (entries == 0 <==> all == []) && Ordered(all)
  {
    assert Counts(all, done, current, entries, Unfolded);
    if all != [] {
      assert Good(all[|all| - 1]);
    }
  }

  lemma LastIs(all: seq<Record>, done: seq<Record>, r: Record, entries: nat)
    requires CountOk(all, done, Some(r), entries)
    ensures all != [] && all[|all| - 1] == r && all[..|all| - 1] == done && Good(r)
  {
    assert Counts(all, done, Some(r), entries, Unfolded);
    LastGood(done, r);
  }

  /** A payload: entry and block counts, block offsets with the end, then the blocks. */
  ghost function Payload(count: nat, blocks: seq<seq<Record>>): Bytes
    requires GoodBlocks(blocks)
  {
    Words(TableOf(count, blocks)) + BlocksBytes(blocks)
  }

  ghost function TableOf(count: nat, blocks: seq<seq<Record>>): seq<nat>
    requires GoodBlocks(blocks)
  {
    TableWords(count, ClosedOf(blocks))
  }

  method WriteTable(vs: seq<nat>) returns (out: Bytes)
    ensures out == Words(vs)
  {
    out := [];
    for i := 0 to |vs|
      invariant out == Words(vs[..i])
    {
      out := PutWord(out, vs[i], vs[..i]);
      assert vs[..i + 1] == vs[..i] + [vs[i]];
    }
    assert vs[..|vs|] == vs;
  }

  /** One more value for the record being gathered. */
  lemma GrowRecord(all: seq<Record>, done: seq<Record>, r: Record, v: nat, entries: nat)
    requires CountOk(all, done, Some(r), entries) && r.values != [] && r.values[|r.values| - 1] < v
    ensures var r' := Record(r.key, r.values + [v]); CountOk(done + [r'], done, Some(r'), entries + 1)
  {
    var r' := Record(r.key, r.values + [v]);
    assert Counts(all, done, Some(r), entries, Unfolded);
    LastGood(done, r);
    EntriesPush(done, r);
    EntriesPush(done, r');
    GoodGrown(r, v);
    OrderedPush(done, r');
  }

  lemma GoodGrown(r: Record, v: nat)
    requires Good(r) && r.values[|r.values| - 1] < v
    ensures Good(Record(r.key, r.values + [v]))
  {
    var values := r.values + [v];
    forall i, j | 0 <= i < j < |values| ensures values[i] < values[j] {
      assert r.values[i] <= r.values[|r.values| - 1];
    }
  }

  /** A record with a new key. */
  lemma NewRecord(all: seq<Record>, done: seq<Record>, k: nat, v: nat, entries: nat)
    requires CountOk(all, done, None, entries) && (all != [] ==> all[|all| - 1].key < k)
    ensures var r := Record(k, [v]); CountOk(all + [r], done, Some(r), entries + 1)
  {
    AllDone(all, done, entries);
    OrderedPush(all, Record(k, [v]));
    EntriesPush(all, Record(k, [v]));
  }

  /** The gathered record is done: nothing is being gathered. */
  lemma CountMoved(all: seq<Record>, done: seq<Record>, r: Record, entries: nat)
    requires CountOk(all, done, Some(r), entries)
    ensures Ordered(done + [r]) && CountOk(all, done + [r], None, entries)
  {
    assert Counts(all, done, Some(r), entries, Unfolded);
    assert done + [r] + [] == all;
  }

  lemma LastGood(rs: seq<Record>, r: Record)
    requires Ordered(rs + [r])
    ensures Ordered(rs) && Good(r) && (rs != [] ==> rs[|rs| - 1].key < r.key)
  {
    var all := rs + [r];
    OrderedSlice(all, 0, |rs|);
    assert all[0..|rs|] == rs && all[|rs|] == r;
    if rs != [] {
      assert KeysRise(all, |rs| - 1, |rs|);
    }
  }

  lemma OneBody(r: Record)
    requires Good(r)
    ensures Ordered([r]) && Body([r]) == RecordOf(r.values)
  {
    assert [r][1..] == [] && Tail([], r.key) == [];
  }

  // --- writing entries --------------------------------------------------------------------------

  predicate Precedes(a: Entry, b: Entry, dedup: bool) {
    Less(a, b) || (dedup && a == b)
  }

  /** Ascending, with repeats only where the writer drops them. */
  ghost predicate Pushable(es: seq<Entry>, dedup: bool) {
    forall i | 0 < i < |es| :: Precedes(es[i - 1], es[i], dedup)
  }

  /** One record a key, its values in order. */
  function Grouped(es: seq<Entry>, dedup: bool): seq<Record> {
    if es == [] then []
    else
      var last := es[|es| - 1];
      Pushed(Grouped(es[..|es| - 1], dedup), last.0, last.1, dedup)
  }

  /** The last record ends with the last entry. */
  ghost predicate EndsWith(rs: seq<Record>, e: Entry) {
    && rs != []
    && var last := rs[|rs| - 1]; last.key == e.0 && last.values != [] && last.values[|last.values| - 1] == e.1
  }

  lemma PushedOrdered(rs: seq<Record>, k: nat, v: nat, dedup: bool)
    requires Ordered(rs) && Follows(rs, k, v, dedup)
    ensures Ordered(Pushed(rs, k, v, dedup)) && EndsWith(Pushed(rs, k, v, dedup), (k, v))
  {
    if rs != [] && rs[|rs| - 1].key == k {
      var front, last := rs[..|rs| - 1], rs[|rs| - 1];
      assert rs == front + [last];
      LastGood(front, last);
      if last.values[|last.values| - 1] < v {
        GoodGrown(last, v);
        OrderedPush(front, Record(k, last.values + [v]));
      }
    } else {
      OrderedPush(rs, Record(k, [v]));
    }
  }

  lemma {:induction false} GroupedOrdered(es: seq<Entry>, dedup: bool)
    requires Pushable(es, dedup)
    ensures Ordered(Grouped(es, dedup)) && (es != [] ==> EndsWith(Grouped(es, dedup), es[|es| - 1]))
  {
    if es != [] {
      var front := es[..|es| - 1];
      assert forall i | 0 <= i < |front| :: front[i] == es[i];
      GroupedOrdered(front, dedup);
      NextFollows(es, |es| - 1, dedup);
      PushedOrdered(Grouped(front, dedup), es[|es| - 1].0, es[|es| - 1].1, dedup);
    }
  }

  lemma NextFollows(es: seq<Entry>, i: nat, dedup: bool)
    requires Pushable(es, dedup) && i < |es|
    requires i > 0 ==> EndsWith(Grouped(es[..i], dedup), es[i - 1])
    ensures Follows(Grouped(es[..i], dedup), es[i].0, es[i].1, dedup)
  {
    if i > 0 {
      assert Precedes(es[i - 1], es[i], dedup);
    }
  }

  /** Pushing the next entry, from the records of those before it. */
  lemma GroupedStep(es: seq<Entry>, i: nat, dedup: bool)
    requires Pushable(es, dedup) && i < |es|
    ensures var rs := Grouped(es[..i], dedup);
      Follows(rs, es[i].0, es[i].1, dedup) && Grouped(es[..i + 1], dedup) == Pushed(rs, es[i].0, es[i].1, dedup)
  {
    assert forall j | 0 <= j < i :: es[..i][j] == es[j];
    GroupedOrdered(es[..i], dedup);
    NextFollows(es, i, dedup);
    assert es[..i + 1][..i] == es[..i];
  }

  /** What is written for these entries: nothing for none. */
  ghost function EncodedEntries(es: seq<Entry>, dedup: bool, limit: nat): Option<Bytes>
    requires Pushable(es, dedup)
  {
    GroupedOrdered(es, dedup);
    if es == [] then None else Some(PayloadOf(Grouped(es, dedup), limit))
  }

  method EncodeEntries(es: seq<Entry>, dedup: bool, limit: nat) returns (payload: Option<Bytes>)
    requires Pushable(es, dedup)
    ensures payload == EncodedEntries(es, dedup, limit)
  {
    var w := new BlockedWriter(dedup, limit);
    for i := 0 to |es|
      invariant fresh(w) && w.Valid() && w.dedup == dedup && w.blockBytes == limit
      invariant w.all == Grouped(es[..i], dedup) && (w.current.None? ==> w.all == [])
    {
      GroupedStep(es, i, dedup);
      w.Push(es[i].0, es[i].1);
    }
    assert es[..|es|] == es;
    GroupedOrdered(es, dedup);
    payload := w.Finish();
  }
}

/**
 Reading the blocked layout back: parsing finds the blocks, iterating yields every
 entry in order, and a lookup decodes the one block that can hold its key.
 */
module BlockedReader {
  import opened Types
  import opened Sorting
  import opened Varints
  import opened Blocked

  /** Block offsets, with the end, and each block's first key. */
  datatype Index = Index(blocksAt: nat, count: nat, offsets: seq<nat>, firstKeys: seq<nat>)

  // --- blocks and their records -------------------------------------------------------------

  /** A record its 64-bit fields can carry. */
  ghost predicate Narrow(r: Record) {
    r.key < U64 && |r.values| < U64 && All64(r.values)
  }

  ghost predicate NarrowBlock(rs: seq<Record>) {
    |rs| < U32 && forall i | 0 <= i < |rs| :: Narrow(rs[i])
  }

  /** `data` is what a writer left: these blocks, in key order throughout. */
  ghost predicate Stored(data: Bytes, count: nat, blocks: seq<seq<Record>>) {
    && GoodBlocks(blocks) && Ordered(Flat(blocks)) && data == Payload(count, blocks)
    && count < U64 && |data| < U64 && forall b | 0 <= b < |blocks| :: NarrowBlock(blocks[b])
  }

  lemma {:induction false} FlatHas(blocks: seq<seq<Record>>, r: Record)
    ensures r in Flat(blocks) <==> exists b :: 0 <= b < |blocks| && r in blocks[b]
  {
    if blocks != [] {
      var n := |blocks| - 1;
      FlatHas(blocks[..n], r);
      if r in Flat(blocks[..n]) {
        var b :| 0 <= b < n && r in blocks[..n][b];
        assert r in blocks[b];
      }
      if b :| 0 <= b < |blocks| && r in blocks[b] {
        assert b < n ==> r in blocks[..n][b];
      }
    }
  }

  /** Keys rise from block to block. */
  lemma {:induction false} BlocksRise(blocks: seq<seq<Record>>, a: nat, b: nat, x: Record, y: Record)
    requires Ordered(Flat(blocks)) && a < b < |blocks| && x in blocks[a] && y in blocks[b]
    ensures x.key < y.key
  {
    var n := |blocks| - 1;
    var front, last := Flat(blocks[..n]), blocks[n];
    if b < n {
      OrderedSlice(Flat(blocks), 0, |front|);
      assert Flat(blocks)[0..|front|] == front;
      BlocksRise(blocks[..n], a, b, x, y);
    } else {
      FlatHas(blocks[..n], x);
      assert x in blocks[..n][a];
      var i :| 0 <= i < |front| && front[i] == x;
      var j :| 0 <= j < |last| && last[j] == y;
      assert KeysRise(Flat(blocks), i, |front| + j);
    }
  }

  ghost function BlocksStart(blocks: seq<seq<Record>>): nat {
    8 * (|blocks| + 3)
  }

  ghost function Ends(blocks: seq<seq<Record>>): seq<nat>
    requires GoodBlocks(blocks)
  {
    Offsets(blocks) + [|BlocksBytes(blocks)|]
  }

  /** Where a block stands among the blocks. */
  lemma BlockAt(blocks: seq<seq<Record>>, b: nat)
    requires GoodBlocks(blocks) && b < |blocks|
    ensures Holds(BlocksBytes(blocks), Ends(blocks)[b], BlockBytes(blocks[b]))
    ensures Ends(blocks)[b + 1] == Ends(blocks)[b] + |BlockBytes(blocks[b])| <= |BlocksBytes(blocks)|
  {
    var parts := Parts(blocks);
    ConcatHolds(parts, b);
    assert parts[..|parts|] == parts;
  }

  /** Where a block stands in the payload, and how far it reaches. */
  lemma BlockHeld(data: Bytes, count: nat, blocks: seq<seq<Record>>, b: nat)
    requires Stored(data, count, blocks) && b < |blocks|
    ensures Holds(data, BlocksStart(blocks) + Ends(blocks)[b], BlockBytes(blocks[b]))
    ensures Ends(blocks)[b + 1] == Ends(blocks)[b] + |BlockBytes(blocks[b])|
    ensures |BlockBytes(blocks[b])| > 12 && BlocksStart(blocks) + Ends(blocks)[b + 1] <= |data|
  {
    BlockAt(blocks, b);
    HoldsBehind(Words(TableOf(count, blocks)), BlocksBytes(blocks), Ends(blocks)[b], BlockBytes(blocks[b]));
    BodyLength(blocks[b]);
  }

  // --- parsing --------------------------------------------------------------------------------

  lemma TableRead(data: Bytes, count: nat, blocks: seq<seq<Record>>, i: nat)
    requires Stored(data, count, blocks) && i < |blocks| + 3
    ensures 8 * i + 8 <= |data| && At64(data, 8 * i) == TableOf(count, blocks)[i]
  {
    var table := TableOf(count, blocks);
    assert Holds(data, 0, Words(table));
    WordsHold(data, 0, table, i);
    TableSmall(data, count, blocks, i);
    At64Word(data, 8 * i, table[i]);
  }

  lemma TableSmall(data: Bytes, count: nat, blocks: seq<seq<Record>>, i: nat)
    requires Stored(data, count, blocks) && i < |blocks| + 3
    ensures TableOf(count, blocks)[i] < U64
  {
    if 2 <= i < |blocks| + 2 {
      ConcatHolds(Parts(blocks), i - 2);
    }
  }

  lemma FirstRead(data: Bytes, count: nat, blocks: seq<seq<Record>>, b: nat)
    requires Stored(data, count, blocks) && b < |blocks|
    ensures BlocksStart(blocks) + Ends(blocks)[b] + 12 <= |data|
    ensures At64(data, BlocksStart(blocks) + Ends(blocks)[b]) == blocks[b][0].key
  {
    var at, rs := BlocksStart(blocks) + Ends(blocks)[b], blocks[b];
    BlockHeld(data, count, blocks, b);
    assert NarrowBlock(rs) && Narrow(rs[0]);
    HoldsSplit(data, at, Header(rs[0].key, |rs|), Encode(Body(rs)));
    HoldsSplit(data, at, Word(rs[0].key, 8), Word(|rs|, 4));
    At64Word(data, at, rs[0].key);
  }

  ghost function IndexOf(count: nat, blocks: seq<seq<Record>>): Index
    requires GoodBlocks(blocks)
  {
    Index(BlocksStart(blocks), count, Ends(blocks),
          seq(|blocks|, b requires 0 <= b < |blocks| => blocks[b][0].key))
  }

  /** Framing a reader may rely on, whatever bytes it was given. */
  ghost predicate Sane(data: Bytes, x: Index) {
    && |x.offsets| == |x.firstKeys| + 1 && Increasing(x.firstKeys)
    && x.blocksAt + x.offsets[|x.firstKeys|] == |data|
    && forall b | 0 <= b < |x.firstKeys| ::
         x.offsets[b] + 12 <= x.offsets[b + 1] && x.blocksAt + x.offsets[b] + 12 <= |data|
  }

  predicate Rising(keys: seq<nat>) {
    forall i | 0 < i < |keys| :: keys[i - 1] < keys[i]
  }

  lemma {:induction false} RisingAscends(keys: seq<nat>, i: nat, j: nat)
    requires Rising(keys) && i < j < |keys|
    ensures keys[i] < keys[j]
  {
    if i < j - 1 {
      RisingAscends(keys, i, j - 1);
    }
  }

  /** The entry count and block offsets, if the payload has the room it claims for them. */
  method ParseTable(data: Bytes, ghost count: nat, ghost blocks: seq<seq<Record>>) returns (r: Option<(nat, seq<nat>)>)
    ensures r.Some? ==> var offsets := r.value.1;
      && offsets != [] && 8 * (|offsets| + 2) + offsets[|offsets| - 1] == |data|
      && forall b | 0 <= b < |offsets| - 1 ::
           offsets[b] + 12 <= offsets[b + 1] && 8 * (|offsets| + 2) + offsets[b] + 12 <= |data|
    ensures Stored(data, count, blocks) ==> r == Some((count, Ends(blocks)))
  {
    if Stored(data, count, blocks) {
      TableRead(data, count, blocks, 0);
      TableRead(data, count, blocks, 1);
    }
    if |data| < 16 {
      return None;
    }
    var entries, n := At64(data, 0), At64(data, 8);
    var table := 16 + (n + 1) * 8;
    if |data| < table {
      return None;
    }
    var offsets := seq<nat>(n + 1, i requires 0 <= i < n + 1 => At64(data, 16 + i * 8));
    if Stored(data, count, blocks) {
      OffsetsRead(data, count, blocks, offsets);
    }
    if table + offsets[n] != |data| || !Rising(offsets) {
      return None;
    }
    if exists b | 0 <= b < n :: offsets[b] + 12 > offsets[b + 1] || table + offsets[b] + 12 > |data| {
      return None;
    }
    r := Some((entries, offsets));
  }

  /** The key in each block's header. */
  method FirstKeys(data: Bytes, table: nat, offsets: seq<nat>, ghost count: nat, ghost blocks: seq<seq<Record>>)
    returns (first: seq<nat>)
    requires offsets != [] && forall b | 0 <= b < |offsets| - 1 :: table + offsets[b] + 12 <= |data|
    ensures |first| == |offsets| - 1
    ensures Stored(data, count, blocks) && offsets == Ends(blocks) && table == BlocksStart(blocks) ==>
      first == IndexOf(count, blocks).firstKeys && Rising(first)
  {
    var n := |offsets| - 1;
    first := seq<nat>(n, b requires 0 <= b < n => At64(data, table + offsets[b]));
    if Stored(data, count, blocks) && offsets == Ends(blocks) && table == BlocksStart(blocks) {
      FirstsRead(data, count, blocks, first);
    }
  }

  /** Find the blocks. Malformed framing is refused; what a writer left is always found. */
  method Parse(data: Bytes, ghost count: nat, ghost blocks: seq<seq<Record>>) returns (r: Option<Index>)
    ensures r.Some? ==> Sane(data, r.value)
    ensures Stored(data, count, blocks) ==> r == Some(IndexOf(count, blocks))
  {
    var parsed := ParseTable(data, count, blocks);
    if parsed.None? {
      return None;
    }
    var (entries, offsets) := parsed.value;
    var table := 8 * (|offsets| + 2);
    var first := FirstKeys(data, table, offsets, count, blocks);
    if !Rising(first) {
      return None;
    }
    forall i, j | 0 <= i < j < |first| ensures first[i] < first[j] {
      RisingAscends(first, i, j);
    }
    r := Some(Index(table, entries, offsets, first));
  }

  lemma OffsetsRead(data: Bytes, count: nat, blocks: seq<seq<Record>>, offsets: seq<nat>)
    requires Stored(data, count, blocks) && |offsets| == |blocks| + 1 && BlocksStart(blocks) <= |data|
    requires forall i | 0 <= i < |offsets| :: offsets[i] == At64(data, 16 + i * 8)
    ensures offsets == Ends(blocks) && Rising(offsets) && BlocksStart(blocks) + offsets[|blocks|] == |data|
    ensures forall b | 0 <= b < |blocks| ::
         offsets[b] + 12 <= offsets[b + 1] && BlocksStart(blocks) + offsets[b] + 12 <= |data|
  {
    forall i | 0 <= i < |offsets| ensures offsets[i] == Ends(blocks)[i] {
      TableRead(data, count, blocks, i + 2);
    }
    forall b | 0 <= b < |blocks|
      ensures offsets[b] + 12 < offsets[b + 1] && BlocksStart(blocks) + offsets[b] + 12 <= |data|
    {
      BlockHeld(data, count, blocks, b);
    }
  }

  lemma FirstsRead(data: Bytes, count: nat, blocks: seq<seq<Record>>, first: seq<nat>)
    requires Stored(data, count, blocks) && |first| == |blocks|
    requires forall b | 0 <= b < |blocks| :: BlocksStart(blocks) + Ends(blocks)[b] + 12 <= |data|
    requires forall b | 0 <= b < |first| :: first[b] == At64(data, BlocksStart(blocks) + Ends(blocks)[b])
    ensures first == IndexOf(count, blocks).firstKeys && Rising(first)
  {
    forall b | 0 <= b < |first| ensures first[b] == blocks[b][0].key {
      FirstRead(data, count, blocks, b);
    }
    FirstsRise(blocks);
  }

  lemma FirstsRise(blocks: seq<seq<Record>>)
    requires GoodBlocks(blocks) && Ordered(Flat(blocks))
    ensures forall b | 0 < b < |blocks| :: blocks[b - 1][0].key < blocks[b][0].key
  {
    forall b | 0 < b < |blocks| ensures blocks[b - 1][0].key < blocks[b][0].key {
      BlocksRise(blocks, b - 1, b, blocks[b - 1][0], blocks[b][0]);
    }
  }

  // --- decoding records ---------------------------------------------------------------------------

  lemma {:induction false} GapsSmall(values: seq<nat>, prev: nat)
    requires Ascending(values, prev) && All64(values)
    ensures All64(Gaps(values, prev)) && |Gaps(values, prev)| == |values|
  {
    if values != [] {
      assert values[0..] == values;
      GapsStep(values, 0, prev);
      GapsSmall(values[1..], values[0]);
    }
  }

  /** A record's varints are 64-bit, and at most three for each of its values. */
  lemma AfterSmall(r: Record, prev: nat)
    requires Good(r) && Narrow(r) && prev < r.key
    ensures All64(After(r, prev)) && |After(r, prev)| == 2 + |r.values| <= 3 * |r.values|
  {
    GapsSmall(r.values, 0);
  }

  lemma {:induction false} TailSmall(rs: seq<Record>, prev: nat)
    requires Ordered(rs) && (rs != [] ==> prev < rs[0].key) && forall i | 0 <= i < |rs| :: Narrow(rs[i])
    ensures All64(Tail(rs, prev)) && |Tail(rs, prev)| <= 3 * |EntriesOf(rs)|
  {
    if rs != [] {
      OrderedRest(rs);
      AfterSmall(rs[0], prev);
      TailSmall(rs[1..], rs[0].key);
      FirstEntries(rs);
    }
  }

  lemma FirstEntries(rs: seq<Record>)
    requires rs != []
    ensures |EntriesOf(rs)| == |rs[0].values| + |EntriesOf(rs[1..])|
  {
    EntriesJoin([rs[0]], rs[1..]);
    EntriesPush([], rs[0]);
    assert rs == [rs[0]] + rs[1..] && [] + [rs[0]] == [rs[0]];
  }

  lemma BodySmall(rs: seq<Record>)
    requires Ordered(rs) && rs != [] && NarrowBlock(rs)
    ensures All64(Body(rs)) && |Body(rs)| <= 3 * |EntriesOf(rs)|
  {
    OrderedRest(rs);
    GapsSmall(rs[0].values, 0);
    assert Good(rs[0]);
    TailSmall(rs[1..], rs[0].key);
    FirstEntries(rs);
  }

  ghost predicate Begins(data: Bytes, at: nat, rs: seq<Record>)
    requires Ordered(rs) && rs != []
  {
    at + 12 <= |data| && FromWord(data[at + 8..at + 12]) == |rs| && Coming(data, at + 12, Body(rs))
  }

  /** A block's records begin after its header. */
  lemma BodyComing(data: Bytes, count: nat, blocks: seq<seq<Record>>, b: nat)
    requires Stored(data, count, blocks) && b < |blocks|
    ensures Begins(data, BlocksStart(blocks) + Ends(blocks)[b], blocks[b])
  {
    BlockThere(data, count, blocks, b, BlocksStart(blocks) + Ends(blocks)[b]);
    HeldComing(data, BlocksStart(blocks) + Ends(blocks)[b], blocks[b]);
  }

  /** What stands at a block's place is a block. */
  lemma BlockThere(data: Bytes, count: nat, blocks: seq<seq<Record>>, b: nat, at: nat)
    requires Stored(data, count, blocks) && b < |blocks| && at == BlocksStart(blocks) + Ends(blocks)[b]
    ensures Ordered(blocks[b]) && blocks[b] != [] && NarrowBlock(blocks[b]) && Holds(data, at, BlockBytes(blocks[b]))
  {
    BlockHeld(data, count, blocks, b);
  }

  lemma HeldComing(data: Bytes, at: nat, rs: seq<Record>)
    requires Ordered(rs) && rs != [] && NarrowBlock(rs) && Holds(data, at, BlockBytes(rs))
    ensures Begins(data, at, rs)
  {
    assert Narrow(rs[0]);
    HoldsSplit(data, at, Header(rs[0].key, |rs|), Encode(Body(rs)));
    HeaderRead(data, at, rs[0].key, |rs|);
    BodySmall(rs);
  }

  /** Read values until `stop` of them are taken. */
  method ReadValues(data: Bytes, at: nat, k: nat, stop: nat, ghost values: seq<nat>, ghost rest: seq<nat>)
    returns (out: seq<nat>, next: nat)
    requires Ascending(values, 0) && k == |values| && Coming(data, at, Gaps(values, 0) + rest)
    ensures out == values[..Min(k, stop)]
    ensures k <= stop ==> Coming(data, next, rest)
  {
    out, next := [], at;
    var value: nat := 0;
    assert values[0..] == values;
    for i := 0 to k
      invariant i <= stop && out == values[..i]
      invariant Ascending(values[i..], value) && Coming(data, next, Gaps(values[i..], value) + rest)
    {
      if i >= stop {
        return;
      }
      GapsStep(values, i, value);
      var read := GetNext(data, next, Gaps(values[i..], value) + rest);
      ComingNext(values[i] - value, Gaps(values[i + 1..], values[i]), rest);
      next, value := read.next, value + read.v;
      out := out + [value];
    }
    assert values[k..] == [] && [] + rest == rest && values[..k] == values;
  }

  lemma ComingNext(v: nat, more: seq<nat>, rest: seq<nat>)
    ensures (([v] + more) + rest)[0] == v && (([v] + more) + rest)[1..] == more + rest
  {
  }

  /** What is left of a block's varints before record `j`. */
  ghost function Rest(rs: seq<Record>, j: nat): seq<nat>
    requires Ordered(rs) && rs != [] && j <= |rs|
  {
    if j == 0 then Body(rs)
    else
      OrderedSlice(rs, j, |rs|);
      assert rs[j..|rs|] == rs[j..];
      assert j < |rs| ==> KeysRise(rs, j - 1, j);
      Tail(rs[j..], rs[j - 1].key)
  }

  /** A record: the step to its key unless it is the first, then its values. */
  lemma RestStep(rs: seq<Record>, j: nat)
    requires Ordered(rs) && j < |rs|
    ensures Good(rs[j]) && (j > 0 ==> rs[j - 1].key < rs[j].key)
    ensures j == 0 ==> Rest(rs, j) == RecordOf(rs[j].values) + Rest(rs, j + 1)
    ensures j > 0 ==> Rest(rs, j) == [rs[j].key - rs[j - 1].key] + (RecordOf(rs[j].values) + Rest(rs, j + 1))
  {
    if j > 0 {
      assert KeysRise(rs, j - 1, j);
      OrderedSlice(rs, j, |rs|);
      assert rs[j..|rs|] == rs[j..] && rs[j..][0] == rs[j] && rs[j..][1..] == rs[j + 1..];
      Assoc([rs[j].key - rs[j - 1].key], RecordOf(rs[j].values), Rest(rs, j + 1));
    }
  }

  /** Step to the next record's key. */
  method NextKey(data: Bytes, at: nat, j: nat, cur: nat, ghost rs: seq<Record>) returns (key: nat, next: nat)
    requires Ordered(rs) && j < |rs| && Coming(data, at, Rest(rs, j))
    requires cur == rs[if j == 0 then 0 else j - 1].key
    ensures key == rs[j].key && Good(rs[j])
    ensures Coming(data, next, RecordOf(rs[j].values) + Rest(rs, j + 1))
  {
    RestStep(rs, j);
    key, next := cur, at;
    if j > 0 {
      var read := GetNext(data, at, Rest(rs, j));
      key, next := cur + read.v, read.next;
    }
  }

  /** The record count, then at most `stop` of its values. */
  method ReadRecord(data: Bytes, at: nat, stop: Option<nat>, ghost r: Record, ghost rest: seq<nat>)
    returns (values: seq<nat>, next: nat)
    requires Good(r) && Coming(data, at, RecordOf(r.values) + rest)
    ensures values == r.values[..if stop.None? then |r.values| else Min(|r.values|, stop.value)]
    ensures stop.None? ==> Coming(data, next, rest)
  {
    ComingNext(|r.values|, Gaps(r.values, 0), rest);
    var read := GetNext(data, at, RecordOf(r.values) + rest);
    values, next := ReadValues(data, read.next, read.v, if stop.None? then read.v else stop.value, r.values, rest);
  }

  // --- every entry -----------------------------------------------------------------------------------

  method RecordEntries(data: Bytes, at: nat, records: nat, first: nat, ghost rs: seq<Record>) returns (out: seq<Entry>)
    requires Ordered(rs) && rs != [] && records == |rs| && first == rs[0].key && Coming(data, at, Body(rs))
    ensures out == EntriesOf(rs)
  {
    var cur, i := first, at;
    out := [];
    for j := 0 to records
      invariant Coming(data, i, Rest(rs, j)) && out == EntriesOf(rs[..j])
      invariant cur == rs[if j == 0 then 0 else j - 1].key
    {
      cur, i := NextKey(data, i, j, cur, rs);
      var values;
      values, i := ReadRecord(data, i, None, rs[j], Rest(rs, j + 1));
      EntriesStep(rs, j, values);
      out := out + Each(Record(cur, values));
    }
    assert rs[..|rs|] == rs;
  }

  lemma EntriesStep(rs: seq<Record>, j: nat, values: seq<nat>)
    requires j < |rs| && values == rs[j].values[..|rs[j].values|]
    ensures EntriesOf(rs[..j + 1]) == EntriesOf(rs[..j]) + Each(Record(rs[j].key, values))
  {
    assert rs[..j + 1] == rs[..j] + [rs[j]] && values == rs[j].values;
    EntriesPush(rs[..j], rs[j]);
  }

  method BlockEntries(data: Bytes, x: Index, b: nat, ghost blocks: seq<seq<Record>>) returns (out: seq<Entry>)
    requires Stored(data, x.count, blocks) && x == IndexOf(x.count, blocks) && b < |blocks|
    ensures out == EntriesOf(blocks[b])
  {
    BodyComing(data, x.count, blocks, b);
    var at := x.blocksAt + x.offsets[b];
    var records := FromWord(data[at + 8..at + 12]);
    out := RecordEntries(data, at + 12, records, x.firstKeys[b], blocks[b]);
  }

  lemma {:induction false} EntriesJoin(a: seq<Record>, b: seq<Record>)
    ensures EntriesOf(a + b) == EntriesOf(a) + EntriesOf(b)
  {
    if b == [] {
      assert a + b == a;
    } else {
      var n := |b| - 1;
      EntriesJoin(a, b[..n]);
      assert (a + b)[..|a| + n] == a + b[..n];
      EntriesAssoc(EntriesOf(a), EntriesOf(b[..n]), Each(b[n]));
    }
  }

  lemma EntriesAssoc(a: seq<Entry>, b: seq<Entry>, c: seq<Entry>)
    ensures (a + b) + c == a + (b + c)
  {
  }

  /** Every entry, in order. */
  method AllEntries(data: Bytes, x: Index, ghost blocks: seq<seq<Record>>) returns (out: seq<Entry>)
    requires Stored(data, x.count, blocks) && x == IndexOf(x.count, blocks)
    ensures out == EntriesOf(Flat(blocks))
  {
    out := [];
    for b := 0 to |x.firstKeys|
      invariant out == EntriesOf(Flat(blocks[..b]))
    {
      var more := BlockEntries(data, x, b, blocks);
      assert blocks[..b + 1][..b] == blocks[..b];
      EntriesJoin(Flat(blocks[..b]), blocks[b]);
      out := out + more;
    }
    assert blocks[..|blocks|] == blocks;
  }

  // --- one key -----------------------------------------------------------------------------------------

  /** The values of the last of the first `n` records with this key. */
  function RecordValues(rs: seq<Record>, n: nat, want: nat): seq<nat>
    requires n <= |rs|
  {
    if n == 0 then [] else if rs[n - 1].key == want then rs[n - 1].values else RecordValues(rs, n - 1, want)
  }

  ghost predicate Lacks(rs: seq<Record>, want: nat) {
    forall i | 0 <= i < |rs| :: rs[i].key != want
  }

  function Limited(values: seq<nat>, limit: Option<nat>): seq<nat> {
    if limit.None? then values else values[..Min(|values|, limit.value)]
  }

  ghost predicate Answers(rs: seq<Record>, want: nat, limit: Option<nat>, out: seq<nat>) {
    out == Limited(RecordValues(rs, |rs|, want), limit)
  }

  lemma {:induction false} LacksValues(rs: seq<Record>, n: nat, want: nat)
    requires n <= |rs| && Lacks(rs, want)
    ensures RecordValues(rs, n, want) == []
  {
    if n > 0 {
      LacksValues(rs, n - 1, want);
    }
  }

  /** Keys do not repeat, so the record with the key is the one found. */
  lemma {:induction false} ValuesAt(rs: seq<Record>, j: nat, n: nat, want: nat)
    requires Ordered(rs) && j < n <= |rs| && rs[j].key == want
    ensures RecordValues(rs, n, want) == rs[j].values
  {
    if j < n - 1 {
      assert KeysRise(rs, j, n - 1);
      ValuesAt(rs, j, n - 1, want);
    }
  }

  /** Between two neighbours there is no key. */
  lemma LacksPast(rs: seq<Record>, j: nat, want: nat)
    requires Ordered(rs) && j <= |rs| && (j < |rs| ==> want < rs[j].key) && (j > 0 ==> rs[j - 1].key < want)
    ensures Lacks(rs, want)
  {
    forall i | 0 <= i < |rs| ensures rs[i].key != want {
      if i < j - 1 {
        assert KeysRise(rs, i, j - 1);
      } else if j < i {
        assert KeysRise(rs, j, i);
      }
    }
  }

  /** Decode forward until the key is reached or passed. */
  method FindKey(data: Bytes, at: nat, records: nat, first: nat, want: nat, limit: Option<nat>, ghost rs: seq<Record>)
    returns (out: seq<nat>)
    requires Ordered(rs) && rs != [] && records == |rs| && first == rs[0].key && Coming(data, at, Body(rs))
    ensures Answers(rs, want, limit, out)
  {
    var cur, i := first, at;
    for j := 0 to records
      invariant Coming(data, i, Rest(rs, j)) && cur == rs[if j == 0 then 0 else j - 1].key
      invariant j > 0 ==> rs[j - 1].key < want
    {
      cur, i := NextKey(data, i, j, cur, rs);
      if cur > want {
        LacksPast(rs, j, want);
        LacksValues(rs, |rs|, want);
        return [];
      }
      if cur == want {
        ValuesAt(rs, j, |rs|, want);
        out, i := ReadRecord(data, i, limit, rs[j], Rest(rs, j + 1));
        return;
      }
      var values;
      values, i := ReadRecord(data, i, None, rs[j], Rest(rs, j + 1));
    }
    LacksPast(rs, |rs|, want);
    LacksValues(rs, |rs|, want);
    out := [];
  }

  method DecodeBlock(data: Bytes, x: Index, b: nat, want: nat, limit: Option<nat>, ghost blocks: seq<seq<Record>>)
    returns (out: seq<nat>)
    requires Stored(data, x.count, blocks) && x == IndexOf(x.count, blocks) && b < |blocks|
    ensures Answers(blocks[b], want, limit, out)
  {
    BodyComing(data, x.count, blocks, b);
    var at := x.blocksAt + x.offsets[b];
    var records := FromWord(data[at + 8..at + 12]);
    out := FindKey(data, at + 12, records, x.firstKeys[b], want, limit, blocks[b]);
  }

  lemma {:induction false} RecordValuesJoin(a: seq<Record>, b: seq<Record>, n: nat, want: nat)
    requires n <= |b|
    ensures RecordValues(a + b, |a| + n, want)
         == if forall i | 0 <= i < n :: b[i].key != want then RecordValues(a, |a|, want) else RecordValues(b, n, want)
  {
    if n == 0 {
      RecordValuesPrefix(a, b, |a|, want);
    } else {
      RecordValuesJoin(a, b, n - 1, want);
    }
  }

  lemma {:induction false} RecordValuesPrefix(a: seq<Record>, b: seq<Record>, n: nat, want: nat)
    requires n <= |a|
    ensures RecordValues(a + b, n, want) == RecordValues(a, n, want)
  {
    if n > 0 {
      RecordValuesPrefix(a, b, n - 1, want);
    }
  }

  /** If only block `b` may hold a key, the first `n` blocks hold what it does, or nothing. */
  lemma {:induction false} OneBlock(blocks: seq<seq<Record>>, n: nat, b: nat, want: nat)
    requires n <= |blocks| && forall i | 0 <= i < |blocks| && i != b :: Lacks(blocks[i], want)
    ensures var front := Flat(blocks[..n]);
      RecordValues(front, |front|, want) == if b < n then RecordValues(blocks[b], |blocks[b]|, want) else []
  {
    if n > 0 {
      assert blocks[..n][..n - 1] == blocks[..n - 1];
      OneBlock(blocks, n - 1, b, want);
      RecordValuesJoin(Flat(blocks[..n - 1]), blocks[n - 1], |blocks[n - 1]|, want);
      LacksOrNot(blocks[n - 1], want);
    }
  }

  lemma LacksOrNot(rs: seq<Record>, want: nat)
    ensures Lacks(rs, want) ==> RecordValues(rs, |rs|, want) == []
  {
    if Lacks(rs, want) {
      LacksValues(rs, |rs|, want);
    }
  }

  /** A block lacks a key at or above the first of a later one. */
  lemma LowerLacks(blocks: seq<seq<Record>>, i: nat, later: nat, want: nat)
    requires Ordered(Flat(blocks)) && i < later < |blocks| && blocks[later] != [] && blocks[later][0].key <= want
    ensures Lacks(blocks[i], want)
  {
    forall j | 0 <= j < |blocks[i]| ensures blocks[i][j].key != want {
      BlocksRise(blocks, i, later, blocks[i][j], blocks[later][0]);
    }
  }

  /** A block lacks a key below its first. */
  lemma HigherLacks(rs: seq<Record>, want: nat)
    requires Ordered(rs) && rs != [] && want < rs[0].key
    ensures Lacks(rs, want)
  {
    LacksPast(rs, 0, want);
  }

  /** The values of one key, or the first `limit` of them: exactly what was written for it. */
  method ValuesOf(data: Bytes, x: Index, want: nat, limit: Option<nat>, ghost blocks: seq<seq<Record>>)
    returns (out: seq<nat>)
    requires Stored(data, x.count, blocks) && x == IndexOf(x.count, blocks)
    ensures Answers(Flat(blocks), want, limit, out)
  {
    forall i, j | 0 <= i < j < |x.firstKeys| ensures x.firstKeys[i] < x.firstKeys[j] {
      BlocksRise(blocks, i, j, blocks[i][0], blocks[j][0]);
    }
    var n := PartitionPoint(x.firstKeys, want, true);
    forall i: nat | i < |blocks| && i + 1 != n ensures Lacks(blocks[i], want) {
      assert x.firstKeys[i] == blocks[i][0].key;
      if i < n {
        assert x.firstKeys[n - 1] == blocks[n - 1][0].key;
        LowerLacks(blocks, i, n - 1, want);
      } else {
        HigherLacks(blocks[i], want);
      }
    }
    assert blocks[..|blocks|] == blocks;
    if n == 0 {
      OneBlock(blocks, |blocks|, |blocks|, want);
      out := [];
    } else {
      OneBlock(blocks, |blocks|, n - 1, want);
      if limit == Some(0) {
        out := [];
      } else {
        out := DecodeBlock(data, x, n - 1, want, limit, blocks);
      }
    }
  }

  // --- how large a payload is --------------------------------------------------------------------------------

  lemma {:induction false} VarintWithin(v: nat, k: nat)
    requires v < Pow2(7 * k) && k > 0
    ensures |Varint(v)| <= k
    decreases k
  {
    if v >= 0x80 {
      Pow2Seven(7 * (k - 1));
      if k > 1 {
        VarintWithin(v / 0x80, k - 1);
      }
    }
  }

  lemma {:induction false} EncodeSize(vs: seq<nat>)
    requires All64(vs)
    ensures |Encode(vs)| <= 10 * |vs|
  {
    if vs != [] {
      Pow2Big(70);
      VarintWithin(vs[0], 10);
      EncodeSize(vs[1..]);
    }
  }

  /** Forty-two bytes for each entry at most, and an entry at least for each block. */
  lemma {:induction false} BlocksSize(blocks: seq<seq<Record>>)
    requires GoodBlocks(blocks) && forall b | 0 <= b < |blocks| :: NarrowBlock(blocks[b])
    ensures |BlocksBytes(blocks)| <= 42 * |EntriesOf(Flat(blocks))| && |blocks| <= |EntriesOf(Flat(blocks))|
  {
    if blocks != [] {
      var n := |blocks| - 1;
      assert blocks == blocks[..n] + [blocks[n]];
      BlocksSize(blocks[..n]);
      BlocksPush(blocks[..n], blocks[n]);
      EntriesJoin(Flat(blocks[..n]), blocks[n]);
      BlockSize(blocks[n]);
    }
  }

  lemma BlockSize(rs: seq<Record>)
    requires Ordered(rs) && rs != [] && NarrowBlock(rs)
    ensures |BlockBytes(rs)| <= 42 * |EntriesOf(rs)| && |EntriesOf(rs)| > 0
  {
    assert Good(rs[0]);
    FirstEntries(rs);
    BodySmall(rs);
    EncodeSize(Body(rs));
  }

  // --- writing and reading back ----------------------------------------------------------------------------

  /** Adjacent repeats dropped. */
  function Deduped(es: seq<Entry>, dedup: bool): (r: seq<Entry>)
    ensures |r| <= |es|
  {
    if es == [] then []
    else
      Appended(Deduped(es[..|es| - 1], dedup), es[|es| - 1], dedup)
  }

  function Appended(es: seq<Entry>, e: Entry, dedup: bool): seq<Entry> {
    if dedup && es != [] && es[|es| - 1] == e then es else es + [e]
  }

  lemma PushedFirst(rs: seq<Record>, e: Entry, dedup: bool)
    requires Ordered(rs) && (rs == [] || rs[|rs| - 1].key != e.0)
    ensures EntriesOf(rs + [Record(e.0, [e.1])]) == Appended(EntriesOf(rs), e, dedup)
  {
    EntriesPush(rs, Record(e.0, [e.1]));
    assert Each(Record(e.0, [e.1])) == [e];
    if rs != [] {
      LastEntry(rs);
    }
  }

  lemma PushedOn(rs: seq<Record>, e: Entry)
    requires Ordered(rs) && rs != [] && rs[|rs| - 1].key == e.0
    ensures var front, grown := rs[..|rs| - 1], Record(e.0, rs[|rs| - 1].values + [e.1]);
      EntriesOf(front + [grown]) == EntriesOf(rs) + [e]
  {
    var front, last := rs[..|rs| - 1], rs[|rs| - 1];
    EntriesPush(front, Record(e.0, last.values + [e.1]));
    EachGrown(last, e.1);
    EntriesAssoc(EntriesOf(front), Each(last), [e]);
  }

  lemma PushedSame(rs: seq<Record>, e: Entry, dedup: bool)
    requires Ordered(rs) && rs != [] && rs[|rs| - 1].key == e.0
    ensures EntriesOf(Pushed(rs, e.0, e.1, dedup)) == Appended(EntriesOf(rs), e, dedup)
  {
    LastEntry(rs);
    PushedOn(rs, e);
  }

  lemma EachGrown(r: Record, v: nat)
    ensures Each(Record(r.key, r.values + [v])) == Each(r) + [(r.key, v)]
  {
  }

  lemma PushedEntries(rs: seq<Record>, e: Entry, dedup: bool)
    requires Ordered(rs) && Follows(rs, e.0, e.1, dedup)
    ensures EntriesOf(Pushed(rs, e.0, e.1, dedup)) == Appended(EntriesOf(rs), e, dedup)
  {
    if rs == [] || rs[|rs| - 1].key != e.0 {
      PushedFirst(rs, e, dedup);
    } else {
      PushedSame(rs, e, dedup);
    }
  }

  lemma LastEntry(rs: seq<Record>)
    requires Ordered(rs) && rs != []
    ensures var last := rs[|rs| - 1];
      && last.values != [] && EntriesOf(rs) != []
      && EntriesOf(rs)[|EntriesOf(rs)| - 1] == (last.key, last.values[|last.values| - 1])
  {
    assert Good(rs[|rs| - 1]);
  }

  /** The records written hold the entries pushed, in order. */
  lemma {:induction false} GroupedEntries(es: seq<Entry>, dedup: bool)
    requires Pushable(es, dedup)
    ensures Ordered(Grouped(es, dedup)) && EntriesOf(Grouped(es, dedup)) == Deduped(es, dedup)
  {
    GroupedOrdered(es, dedup);
    if es != [] {
      var n := |es| - 1;
      assert forall i | 0 <= i < n :: es[..n][i] == es[i];
      GroupedEntries(es[..n], dedup);
      GroupedStep(es, n, dedup);
      assert es[..n + 1] == es;
      PushedEntries(Grouped(es[..n], dedup), es[n], dedup);
    }
  }

  ghost predicate Entries64(es: seq<Entry>) {
    forall i | 0 <= i < |es| :: es[i].0 < U64 && es[i].1 < U64
  }

  lemma {:induction false} GroupedNarrow(es: seq<Entry>, dedup: bool)
    requires Entries64(es)
    ensures forall i | 0 <= i < |Grouped(es, dedup)| ::
      var r := Grouped(es, dedup)[i]; r.key < U64 && All64(r.values) && |r.values| <= |es|
  {
    if es != [] {
      GroupedNarrow(es[..|es| - 1], dedup);
    }
  }

  /** Fifty bytes for each entry and twenty-four more leave room in 64-bit offsets. */
  ghost predicate Roomy(es: seq<Entry>) {
    Entries64(es) && 50 * |es| + 24 < U64
  }

  /** A block's records can be counted in 32 bits: they are no more than its bytes, or than the entries. */
  ghost predicate CountFits(es: seq<Entry>, limit: nat) {
    limit < U32 || |es| < U32
  }

  lemma {:induction false} GroupedCount(es: seq<Entry>, dedup: bool)
    ensures |Grouped(es, dedup)| <= |es|
  {
    if es != [] {
      GroupedCount(es[..|es| - 1], dedup);
    }
  }

  lemma {:induction false} FlatCount(blocks: seq<seq<Record>>, b: nat)
    requires b < |blocks|
    ensures |blocks[b]| <= |Flat(blocks)|
  {
    var n := |blocks| - 1;
    if b < n {
      FlatCount(blocks[..n], b);
    }
  }

  /** What is written for entries is a payload a reader can rely on. */
  lemma WrittenStored(es: seq<Entry>, dedup: bool, limit: nat)
    requires Pushable(es, dedup) && Roomy(es) && CountFits(es, limit)
    ensures Ordered(Grouped(es, dedup))
    ensures var rs := Grouped(es, dedup); Stored(PayloadOf(rs, limit), |EntriesOf(rs)|, Blocks(rs, limit))
  {
    var rs := Grouped(es, dedup);
    GroupedEntries(es, dedup);
    BlocksGood(rs, limit);
    var blocks := Blocks(rs, limit);
    forall b | 0 <= b < |blocks| ensures NarrowBlock(blocks[b]) {
      BlockNarrow(es, dedup, blocks, limit, b);
    }
    BlocksSize(blocks);
  }

  lemma BlockNarrow(es: seq<Entry>, dedup: bool, blocks: seq<seq<Record>>, limit: nat, b: nat)
    requires Roomy(es) && CountFits(es, limit) && b < |blocks| && Flat(blocks) == Grouped(es, dedup)
    requires blocks[b] != [] && Fits(blocks[b], limit)
    ensures NarrowBlock(blocks[b])
  {
    BodyLength(blocks[b]);
    GroupedCount(es, dedup);
    FlatCount(blocks, b);
    GroupedNarrow(es, dedup);
    forall i | 0 <= i < |blocks[b]| ensures Narrow(blocks[b][i]) {
      FlatHas(blocks, blocks[b][i]);
    }
  }

  /** What is written, parsed and iterated is the input without its repeats. */
  method RoundTrip(es: seq<Entry>, dedup: bool, limit: nat) returns (out: seq<Entry>)
    requires Pushable(es, dedup) && Roomy(es) && CountFits(es, limit)
    ensures out == Deduped(es, dedup)
  {
    var payload := EncodeEntries(es, dedup, limit);
    if payload.None? {
      return [];
    }
    ghost var rs := Grouped(es, dedup);
    WrittenStored(es, dedup, limit);
    GroupedEntries(es, dedup);
    BlocksGood(rs, limit);
    var x := Parse(payload.value, |EntriesOf(rs)|, Blocks(rs, limit));
    out := AllEntries(payload.value, x.value, Blocks(rs, limit));
  }

  /** A record's values are what its entries say. */
  lemma {:induction false} EntriesValues(rs: seq<Record>, want: nat)
    requires Ordered(rs)
    ensures ValuesFor(EntriesOf(rs), want) == RecordValues(rs, |rs|, want)
  {
    if rs != [] {
      var front, r := rs[..|rs| - 1], rs[|rs| - 1];
      assert rs == front + [r];
      LastGood(front, r);
      EntriesValues(front, want);
      ValuesAppend(EntriesOf(front), Each(r), want);
      EachValues(r, |r.values|, want);
      LastValues(front, r, want);
    }
  }

  lemma LastValues(front: seq<Record>, r: Record, want: nat)
    requires Ordered(front) && (front != [] ==> front[|front| - 1].key < r.key)
    ensures RecordValues(front + [r], |front| + 1, want)
         == RecordValues(front, |front|, want) + if r.key == want then r.values[..|r.values|] else []
  {
    RecordValuesPrefix(front, [r], |front|, want);
    if r.key == want {
      LacksPast(front, |front|, want);
      LacksValues(front, |front|, want);
    }
  }

  lemma {:induction false} EachValues(r: Record, n: nat, want: nat)
    requires n <= |r.values|
    ensures ValuesIn(Each(r), n, want) == if r.key == want then r.values[..n] else []
  {
    if n > 0 {
      EachValues(r, n - 1, want);
      assert r.values[..n] == r.values[..n - 1] + [r.values[n - 1]];
    }
  }

  /** Write, then look one key up: its values among the input, or the first `cap` of them. */
  method LookUpWritten(es: seq<Entry>, dedup: bool, limit: nat, want: nat, cap: Option<nat>) returns (out: seq<nat>)
    requires Pushable(es, dedup) && Roomy(es) && CountFits(es, limit)
    ensures out == Limited(ValuesFor(Deduped(es, dedup), want), cap)
  {
    var payload := EncodeEntries(es, dedup, limit);
    if payload.None? {
      return [];
    }
    ghost var rs := Grouped(es, dedup);
    WrittenStored(es, dedup, limit);
    GroupedEntries(es, dedup);
    BlocksGood(rs, limit);
    EntriesValues(rs, want);
    var x := Parse(payload.value, |EntriesOf(rs)|, Blocks(rs, limit));
    out := ValuesOf(payload.value, x.value, want, cap, Blocks(rs, limit));
  }
}

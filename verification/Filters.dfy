/**
 Blocked membership filters. Every key sets a few bits of one block, the block and
 bits drawn from a hash of the key; a probe asks whether they are all set. So a
 key the filter was built over is never denied, whatever the hash, the size hint
 or the bits per key, and neither after encoding and decoding.
 */
module Filters {
  import opened Types
  import opened Varints

  const K := 6
  const BLOCK_BITS := 512
  const MAGIC: nat := 0x424C_4631

  type Key = nat
  /** A 64-bit mixing function. Nothing is asked of it. */
  type Hash = Key -> Key

  /** Eight words: a filter block, or the bits one key sets in it. */
  type Line = w: seq<bv64> | |w| == 8 witness [0, 0, 0, 0, 0, 0, 0, 0]

  const ZERO: Line := [0, 0, 0, 0, 0, 0, 0, 0]

  datatype Filter = Filter(blocks: seq<Line>)

  // --- bits ---------------------------------------------------------------------------

  predicate Contains(block: Line, pattern: Line) {
    forall w | 0 <= w < 8 :: block[w] & pattern[w] == pattern[w]
  }

  function Or(block: Line, pattern: Line): Line {
    seq(8, w requires 0 <= w < 8 => block[w] | pattern[w])
  }

  lemma OrWord(a: bv64, b: bv64, c: bv64)
    ensures (a | b) & b == b
    ensures a & c == c ==> (a | b) & c == c
  {
  }

  /** Setting bits sets them, and clears none. */
  lemma OrContains(block: Line, pattern: Line, other: Line)
    ensures Contains(Or(block, pattern), pattern)
    ensures Contains(block, other) ==> Contains(Or(block, pattern), other)
  {
    forall w | 0 <= w < 8 ensures Or(block, pattern)[w] & pattern[w] == pattern[w]
      ensures block[w] & other[w] == other[w] ==> Or(block, pattern)[w] & other[w] == other[w]
    {
      OrWord(block[w], pattern[w], other[w]);
    }
  }

  // --- where a key goes -----------------------------------------------------------------

  /** Six rounds of the hash, each naming a bit. */
  function Pattern(mix: Hash, h: Key, rounds: nat, pattern: Line): Line
    decreases rounds
  {
    if rounds == 0 then pattern
    else
      var h' := mix(h);
      var word, bit := h' % BLOCK_BITS / 64, h' % 64;
      Pattern(mix, h', rounds - 1, pattern[word := pattern[word] | (1 << bit)])
  }

  /** The block a key belongs to, by the hash's high half. */
  function BlockFor(mix: Hash, n: nat, key: Key): (b: nat)
    requires n > 0
    ensures b < n
  {
    mix(key) / 0x1_0000_0000 % n
  }

  function PatternFor(mix: Hash, key: Key): Line {
    Pattern(mix, mix(key), K, ZERO)
  }

  // --- building and probing ------------------------------------------------------------------

  ghost predicate Reports(f: Filter, mix: Hash, key: Key) {
    f.blocks != [] && Contains(f.blocks[BlockFor(mix, |f.blocks|, key)], PatternFor(mix, key))
  }

  function Marked(blocks: seq<Line>, mix: Hash, key: Key): (r: seq<Line>)
    requires blocks != []
    ensures |r| == |blocks|
  {
    var b := BlockFor(mix, |blocks|, key);
    blocks[b := Or(blocks[b], PatternFor(mix, key))]
  }

  /** `n` blocks with the bits of every key set. */
  ghost function Fill(keys: seq<Key>, n: nat, mix: Hash): (blocks: seq<Line>)
    requires n > 0
    ensures |blocks| == n
  {
    if keys == [] then seq(n, i => ZERO) else Marked(Fill(keys[..|keys| - 1], n, mix), mix, keys[|keys| - 1])
  }

  /** Adding a key reports it, and forgets no other. */
  lemma MarkedReports(blocks: seq<Line>, mix: Hash, key: Key, other: Key)
    requires blocks != []
    ensures Reports(Filter(Marked(blocks, mix, key)), mix, key)
    ensures Reports(Filter(blocks), mix, other) ==> Reports(Filter(Marked(blocks, mix, key)), mix, other)
  {
    OrContains(blocks[BlockFor(mix, |blocks|, key)], PatternFor(mix, key), PatternFor(mix, other));
  }

  lemma {:induction false} FillReports(keys: seq<Key>, n: nat, mix: Hash, key: Key)
    requires n > 0 && key in keys
    ensures Reports(Filter(Fill(keys, n, mix)), mix, key)
  {
    var front, last := keys[..|keys| - 1], keys[|keys| - 1];
    assert keys == front + [last];
    if key in front {
      FillReports(front, n, mix, key);
    }
    MarkedReports(Fill(front, n, mix), mix, last, key);
  }

  /** At least one block, for any hint and any setting of the bits. */
  function BlockCount(hint: nat, bitsPerKey: nat): (n: nat)
    ensures n >= 1
  {
    var bits := Max(Min(bitsPerKey, 64), 1);
    Max((hint * bits + BLOCK_BITS - 1) / BLOCK_BITS, 1)
  }

  method Build(keys: seq<Key>, hint: nat, bitsPerKey: nat, mix: Hash) returns (f: Filter)
    ensures f == Filter(Fill(keys, BlockCount(hint, bitsPerKey), mix))
    ensures forall k | k in keys :: Reports(f, mix, k)
  {
    var n := BlockCount(hint, bitsPerKey);
    var blocks: seq<Line> := seq(n, i => ZERO);
    assert blocks == Fill(keys[..0], n, mix);
    for i := 0 to |keys|
      invariant blocks == Fill(keys[..i], n, mix)
    {
      assert keys[..i + 1][..i] == keys[..i];
      blocks := Marked(blocks, mix, keys[i]);
    }
    assert keys[..|keys|] == keys;
    forall k | k in keys ensures Reports(Filter(blocks), mix, k) {
      FillReports(keys, n, mix, k);
    }
    f := Filter(blocks);
  }

  /** No filter at all when the bits are set to zero. */
  ghost function Built(keys: seq<Key>, hint: nat, bitsPerKey: nat, mix: Hash): Option<Filter> {
    if bitsPerKey == 0 then None else Some(Filter(Fill(keys, BlockCount(hint, bitsPerKey), mix)))
  }

  method BuildWith(keys: seq<Key>, hint: nat, bitsPerKey: nat, mix: Hash) returns (f: Option<Filter>)
    ensures f == Built(keys, hint, bitsPerKey, mix)
    ensures f.Some? ==> forall k | k in keys :: Reports(f.value, mix, k)
  {
    if Min(bitsPerKey, 64) == 0 {
      return None;
    }
    var built := Build(keys, hint, bitsPerKey, mix);
    f := Some(built);
  }

  /** `Some(false)` means definitely absent; without a block the remainder by their number is a fault. */
  method MayContain(f: Filter, key: Key, mix: Hash) returns (r: Option<bool>)
    ensures r.None? <==> f.blocks == []
    ensures r.Some? ==> (r.value <==> Reports(f, mix, key))
  {
    if f.blocks == [] {
      return None;
    }
    r := Some(Contains(f.blocks[BlockFor(mix, |f.blocks|, key)], PatternFor(mix, key)));
  }

  // --- the encoded form ------------------------------------------------------------------------

  function Number(w: bv64): nat {
    w as nat
  }

  function Bits(n: nat): bv64
    requires n < U64
  {
    n as bv64
  }

  lemma BitsRoundTrip(w: bv64)
    ensures Number(w) < U64 && Bits(Number(w)) == w
  {
  }

  /** Every word, block after block. */
  function Cells(blocks: seq<Line>): (r: seq<nat>)
    ensures |r| == 8 * |blocks|
  {
    if blocks == [] then []
    else
      var n := |blocks| - 1;
      Cells(blocks[..n]) + seq<nat>(8, w requires 0 <= w < 8 => Number(blocks[n][w]))
  }

  lemma {:induction false} CellsAt(blocks: seq<Line>, b: nat, w: nat)
    requires b < |blocks| && w < 8
    ensures Cells(blocks)[8 * b + w] == Number(blocks[b][w])
  {
    var n := |blocks| - 1;
    if b < n {
      CellsAt(blocks[..n], b, w);
      assert 8 * b + w < |Cells(blocks[..n])|;
    }
  }

  /** The magic, the block count in 32 bits, and the words. */
  ghost function FilterBytes(f: Filter): Bytes {
    Word(MAGIC, 4) + Word(|f.blocks|, 4) + Words(Cells(f.blocks))
  }

  method EncodeFilter(f: Filter) returns (out: Bytes)
    ensures out == FilterBytes(f)
  {
    var cells := Cells(f.blocks);
    var words: Bytes := [];
    for i := 0 to |cells|
      invariant words == Words(cells[..i])
    {
      words := PutWord(words, cells[i], cells[..i]);
      assert cells[..i + 1] == cells[..i] + [cells[i]];
    }
    assert cells[..|cells|] == cells;
    out := Word(MAGIC, 4) + Word(|f.blocks|, 4) + words;
  }

  /** Refused if the header is foreign or the length is not what it says. */
  predicate WellFramed(data: Bytes) {
    && |data| >= 8 && FromWord(data[..4]) == MAGIC
    && |data| == 8 + FromWord(data[4..8]) * 64
  }

  /** Word `w` of block `b`, as it stands in a filter's bytes. */
  function WordAt(data: Bytes, b: nat, w: nat): bv64
    requires 8 + 64 * (b + 1) <= |data| && w < 8
  {
    Bits(At64(data, 8 + 8 * (8 * b + w)))
  }

  ghost predicate LineAt(data: Bytes, b: nat, line: Line)
    requires 8 + 64 * (b + 1) <= |data|
  {
    forall w | 0 <= w < 8 :: line[w] == WordAt(data, b, w)
  }

  method DecodeFilter(data: Bytes) returns (f: Option<Filter>)
    ensures f.Some? <==> WellFramed(data)
    ensures f.Some? ==> |data| == 8 + 64 * |f.value.blocks|
    ensures f.Some? ==> forall b | 0 <= b < |f.value.blocks| :: LineAt(data, b, f.value.blocks[b])
  {
    if !WellFramed(data) {
      return None;
    }
    var count := FromWord(data[4..8]);
    var blocks: seq<Line> := [];
    for b := 0 to count
      invariant |blocks| == b && forall j | 0 <= j < b :: LineAt(data, j, blocks[j])
    {
      var line := ReadLine(data, b);
      blocks := blocks + [line];
    }
    f := Some(Filter(blocks));
  }

  /** A block's eight words. */
  method ReadLine(data: Bytes, b: nat) returns (line: Line)
    requires 8 + 64 * (b + 1) <= |data|
    ensures LineAt(data, b, line)
  {
    var words: seq<bv64> := [];
    for w := 0 to 8
      invariant |words| == w
      invariant forall j | 0 <= j < w :: words[j] == WordAt(data, b, j)
    {
      words := words + [WordAt(data, b, w)];
    }
    line := words;
  }

  lemma EncodedFramed(f: Filter)
    requires |f.blocks| < U32
    ensures WellFramed(FilterBytes(f))
  {
    var data := FilterBytes(f);
    Widths();
    WordRoundTrip(MAGIC, 4);
    WordRoundTrip(|f.blocks|, 4);
    assert data[..4] == Word(MAGIC, 4) && data[4..8] == Word(|f.blocks|, 4);
  }

  lemma EncodedCell(f: Filter, b: nat, w: nat)
    requires b < |f.blocks| && w < 8 && |FilterBytes(f)| == 8 + 64 * |f.blocks|
    ensures WordAt(FilterBytes(f), b, w) == f.blocks[b][w]
  {
    var cells, i := Cells(f.blocks), 8 * b + w;
    CellsAt(f.blocks, b, w);
    BitsRoundTrip(f.blocks[b][w]);
    CellRead(Word(MAGIC, 4) + Word(|f.blocks|, 4), cells, i);
  }

  lemma CellRead(header: Bytes, cells: seq<nat>, i: nat)
    requires |header| == 8 && i < |cells| && cells[i] < U64
    ensures 16 + 8 * i <= |header + Words(cells)| && At64(header + Words(cells), 8 + 8 * i) == cells[i]
  {
    var data := header + Words(cells);
    HoldsBehind(header, Words(cells), 0, Words(cells));
    WordsHold(data, 8, cells, i);
    At64Word(data, 8 + 8 * i, cells[i]);
  }

  lemma SameLine(f: Filter, b: nat, line: Line)
    requires b < |f.blocks| && |FilterBytes(f)| == 8 + 64 * |f.blocks| && LineAt(FilterBytes(f), b, line)
    ensures line == f.blocks[b]
  {
    forall w | 0 <= w < 8 ensures line[w] == f.blocks[b][w] {
      EncodedCell(f, b, w);
    }
  }

  /** What a filter's bytes decode to is the filter. */
  lemma DecodesTo(f: Filter, g: Filter)
    requires |FilterBytes(f)| == 8 + 64 * |f.blocks| == 8 + 64 * |g.blocks|
    requires forall b | 0 <= b < |g.blocks| :: LineAt(FilterBytes(f), b, g.blocks[b])
    ensures g == f
  {
    forall b | 0 <= b < |f.blocks| ensures g.blocks[b] == f.blocks[b] {
      assert LineAt(FilterBytes(f), b, g.blocks[b]);
      SameLine(f, b, g.blocks[b]);
    }
    assert g.blocks == f.blocks;
  }

  /** What was built comes back, so no key is denied after a restart either. */
  method DecodeEncoded(data: Bytes, ghost f: Filter) returns (r: Filter)
    requires |f.blocks| < U32 && data == FilterBytes(f)
    ensures r == f
  {
    EncodedFramed(f);
    var decoded := DecodeFilter(data);
    DecodesTo(f, decoded.value);
    r := decoded.value;
  }

  // --- a filter of no blocks -----------------------------------------------------------------------

  /** A blob refused, one accepted whose probe faults, or the probe's answer. */
  datatype Probe = Refused | Fault | Says(present: bool)

  /** Decode a blob and ask it for a key: a well-framed one serves exactly when it counts some block. */
  method ProbeBlob(data: Bytes, key: Key, mix: Hash) returns (r: Probe, ghost f: Filter)
    ensures r.Refused? <==> !WellFramed(data)
    ensures r.Fault? <==> WellFramed(data) && FromWord(data[4..8]) == 0
    ensures r.Says? ==>
      && |data| == 8 + 64 * |f.blocks| && (forall b | 0 <= b < |f.blocks| :: LineAt(data, b, f.blocks[b]))
      && (r.present <==> Reports(f, mix, key))
  {
    var decoded := DecodeFilter(data);
    if decoded.None? {
      return Refused, Filter([]);
    }
    f := decoded.value;
    var maybe := MayContain(decoded.value, key, mix);
    r := if maybe.None? then Fault else Says(maybe.value);
  }

  /** Eight bytes that are accepted, and fault. */
  lemma NoBlocks()
    ensures var data := Word(MAGIC, 4) + Word(0, 4);
      |data| == 8 && WellFramed(data) && FromWord(data[4..8]) == 0
  {
    EncodedFramed(Filter([]));
    Widths();
    WordRoundTrip(0, 4);
    var data := Word(MAGIC, 4) + Word(0, 4);
    assert FilterBytes(Filter([])) == data && data[4..8] == Word(0, 4);
  }
}

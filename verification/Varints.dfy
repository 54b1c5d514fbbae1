/**
 Byte-level integers: unsigned LEB128, which is section 7.6 of the DWARF 5
 standard, and fixed-width little-endian words.
 */
module Varints {
  import opened Types

  type Byte = b: nat | b < 256
  type Bytes = seq<Byte>

  const U64: nat := 0x1_0000_0000_0000_0000
  const U32: nat := 0x1_0000_0000

  function Pow2(n: nat): (r: nat)
    ensures r > 0
  {
    if n == 0 then 1 else 2 * Pow2(n - 1)
  }

  // --- LEB128 -------------------------------------------------------------------------

  function Varint(v: nat): (r: Bytes)
    ensures 0 < |r|
  {
    if v >= 0x80 then [v % 0x80 + 0x80] + Varint(v / 0x80) else [v]
  }

  method PutVarint(buf: Bytes, v: nat) returns (out: Bytes)
    ensures out == buf + Varint(v)
  {
    out := buf;
    var left := v;
    while left >= 0x80
      invariant out + Varint(left) == buf + Varint(v)
    {
      ghost var before := out;
      out := out + [left % 0x80 + 0x80];
      assert out + Varint(left / 0x80) == before + Varint(left);
      left := left / 0x80;
    }
    out := out + [left];
  }

  /** A value and where it ends, or nothing for a truncated or over-long one. */
  datatype Read = Value(v: nat, next: nat) | Malformed

  /** Continue a read with `acc` gathered in the bits below `shift`. Bits past the 64th are lost. */
  function ReadFrom(data: Bytes, at: nat, shift: nat, acc: nat): Read
    decreases 64 - shift
  {
    if at >= |data| || shift >= 64 then Malformed
    else
      var acc' := acc + (data[at] % 0x80) * Pow2(shift) % U64;
      if data[at] < 0x80 then Value(acc', at + 1) else ReadFrom(data, at + 1, shift + 7, acc')
  }

  ghost predicate ReadsAs(data: Bytes, at: nat, r: Read, u: Unfold) {
    r == ReadFrom(data, at, 0, 0)
  }

  /** `r` is what stands at `at`. */
  ghost predicate Reads(data: Bytes, at: nat, r: Read) {
    forall u :: ReadsAs(data, at, r, u)
  }

  method GetVarint(data: Bytes, at: nat) returns (r: Read)
    ensures Reads(data, at, r)
  {
    var v: nat, shift: nat, i: nat := 0, 0, at;
    while true
      invariant shift < 64 && ReadFrom(data, i, shift, v) == ReadFrom(data, at, 0, 0)
      decreases 64 - shift
    {
      if i >= |data| {
        return Malformed;
      }
      var b := data[i];
      v := v + (b % 0x80) * Pow2(shift) % U64;
      i := i + 1;
      if b < 0x80 {
        return Value(v, i);
      }
      shift := shift + 7;
      if shift >= 64 {
        return Malformed;
      }
    }
  }

  /** `bytes` stand in `data` at `at`. */
  ghost predicate Holds(data: Bytes, at: nat, bytes: Bytes) {
    at + |bytes| <= |data| && data[at..at + |bytes|] == bytes
  }

  lemma HoldsSplit(data: Bytes, at: nat, a: Bytes, b: Bytes)
    requires Holds(data, at, a + b)
    ensures Holds(data, at, a) && Holds(data, at + |a|, b)
  {
    var all := data[at..at + |a + b|];
    assert data[at..at + |a|] == all[..|a|];
    assert data[at + |a|..at + |a| + |b|] == all[|a|..];
  }

  lemma HoldsByte(data: Bytes, at: nat, b: Byte, rest: Bytes)
    requires Holds(data, at, [b] + rest)
    ensures data[at] == b && Holds(data, at + 1, rest)
  {
    HoldsSplit(data, at, [b], rest);
    assert data[at..at + 1][0] == b;
  }

  lemma Pow2Seven(n: nat)
    ensures Pow2(n + 7) == 0x80 * Pow2(n)
  {
    Pow2Sum(n, 7);
    assert Pow2(7) == 2 * Pow2(6) && Pow2(5) == 2 * Pow2(4) && Pow2(3) == 2 * Pow2(2);
  }

  lemma {:induction false} Pow2Big(n: nat)
    requires n >= 64
    ensures Pow2(n) >= U64
    decreases n
  {
    if n > 64 {
      Pow2Big(n - 1);
    } else {
      Pow2At64();
    }
  }

  lemma Pow2At64()
    ensures Pow2(64) == U64
  {
    assert Pow2(1) == 2 * Pow2(0);
    Pow2Twice(1);
    Pow2Twice(2);
    Pow2Twice(4);
    assert Pow2(8) == 0x100;
    Pow2Twice(8);
    Pow2Twice(16);
    assert Pow2(32) == 0x1_0000_0000;
    Pow2Twice(32);
  }

  lemma Pow2Twice(n: nat)
    ensures Pow2(n + n) == Pow2(n) * Pow2(n)
  {
    Pow2Sum(n, n);
  }

  lemma {:induction false} Pow2Sum(a: nat, b: nat)
    ensures Pow2(a + b) == Pow2(a) * Pow2(b)
    decreases b
  {
    if b > 0 {
      Pow2Sum(a, b - 1);
      assert Pow2(a + b) == 2 * Pow2(a + b - 1);
    }
  }

  /** The seven low bits and the rest, each in its place. */
  lemma SevenBits(v: nat, p: nat)
    ensures v * p == v % 0x80 * p + v / 0x80 * (0x80 * p)
  {
    var q, r := v / 0x80, v % 0x80;
    assert v == q * 0x80 + r;
    assert v * p == (q * 0x80) * p + r * p;
    assert (q * 0x80) * p == q * (0x80 * p);
  }

  lemma {:induction false} ReadBack(data: Bytes, at: nat, shift: nat, acc: nat, v: nat)
    requires Holds(data, at, Varint(v)) && shift < 64 && v * Pow2(shift) < U64
    ensures ReadFrom(data, at, shift, acc) == Value(acc + v * Pow2(shift), at + |Varint(v)|)
    decreases v
  {
    if v >= 0x80 {
      var low, high := v % 0x80, v / 0x80;
      HoldsByte(data, at, low + 0x80, Varint(high));
      Carried(v, shift);
      ReadBack(data, at + 1, shift + 7, acc + low * Pow2(shift), high);
      ReadOne(data, at, shift, acc, low + 0x80, low);
    } else {
      HoldsByte(data, at, v, []);
      Small(v * Pow2(shift), v * Pow2(shift));
    }
  }

  /** Splitting off seven bits loses nothing, and leaves room for the rest. */
  lemma Carried(v: nat, shift: nat)
    requires v >= 0x80 && v * Pow2(shift) < U64
    ensures v * Pow2(shift) == v % 0x80 * Pow2(shift) + v / 0x80 * Pow2(shift + 7)
    ensures v % 0x80 * Pow2(shift) < U64 && v / 0x80 * Pow2(shift + 7) < U64 && shift + 7 < 64
  {
    SevenBits(v, Pow2(shift));
    Pow2Seven(shift);
    ShiftFits(v, shift);
  }

  lemma ReadOne(data: Bytes, at: nat, shift: nat, acc: nat, b: Byte, low: nat)
    requires at < |data| && data[at] == b && b >= 0x80 && shift < 64
    requires low == b % 0x80 && low * Pow2(shift) < U64
    ensures ReadFrom(data, at, shift, acc) == ReadFrom(data, at + 1, shift + 7, acc + low * Pow2(shift))
  {
    Small(low * Pow2(shift), low * Pow2(shift));
  }

  lemma Small(x: nat, y: nat)
    requires x <= y < U64
    ensures x % U64 == x
  {
  }

  /** A value with more than seven bits above `shift` leaves room for the next seven. */
  lemma ShiftFits(v: nat, shift: nat)
    requires v >= 0x80 && v * Pow2(shift) < U64
    ensures shift + 7 < 64
  {
    Scale(0x80, v, Pow2(shift));
    Pow2Seven(shift);
    if shift + 7 >= 64 {
      Pow2Big(shift + 7);
    }
  }

  /** Every 64-bit value reads back as written, wherever it stands. */
  lemma VarintRoundTrip(data: Bytes, at: nat, v: nat, r: Read)
    requires v < U64 && Holds(data, at, Varint(v)) && Reads(data, at, r)
    ensures r == Value(v, at + |Varint(v)|)
  {
    assert ReadsAs(data, at, r, Unfolded);
    ReadBack(data, at, 0, 0, v);
  }

  // --- fixed-width words -----------------------------------------------------------------

  function Word(v: nat, n: nat): (r: Bytes)
    ensures |r| == n
  {
    if n == 0 then [] else [v % 256] + Word(v / 256, n - 1)
  }

  function FromWord(b: Bytes): nat {
    if b == [] then 0 else b[0] + 256 * FromWord(b[1..])
  }

  function Pow256(n: nat): nat {
    if n == 0 then 1 else 256 * Pow256(n - 1)
  }

  lemma {:induction false} WordRoundTrip(v: nat, n: nat)
    requires v < Pow256(n)
    ensures FromWord(Word(v, n)) == v
  {
    if n > 0 {
      WordRoundTrip(v / 256, n - 1);
      assert Word(v, n)[1..] == Word(v / 256, n - 1);
    }
  }

  // --- runs of varints -----------------------------------------------------------------------

  ghost function Encode(vs: seq<nat>): Bytes {
    if vs == [] then [] else Varint(vs[0]) + Encode(vs[1..])
  }

  lemma {:induction false} EncodeAppend(a: seq<nat>, b: seq<nat>)
    ensures Encode(a + b) == Encode(a) + Encode(b)
  {
    if a == [] {
      assert a + b == b;
    } else {
      assert (a + b)[1..] == a[1..] + b;
      EncodeAppend(a[1..], b);
      Associate(Varint(a[0]), Encode(a[1..]), Encode(b));
    }
  }

  lemma Associate(a: Bytes, b: Bytes, c: Bytes)
    ensures a + (b + c) == (a + b) + c
  {
  }

  /** Every value takes a byte or more. */
  lemma {:induction false} EncodeLength(vs: seq<nat>)
    ensures |Encode(vs)| >= |vs|
  {
    if vs != [] {
      EncodeLength(vs[1..]);
    }
  }

  /** Append a value to a run of them. */
  method PutNext(buf: Bytes, v: nat, ghost vs: seq<nat>) returns (out: Bytes)
    requires buf == Encode(vs)
    ensures out == Encode(vs + [v])
  {
    out := PutVarint(buf, v);
    EncodeAppend(vs, [v]);
    assert [v][1..] == [] && Encode([v]) == Varint(v);
  }

  ghost predicate All64(vs: seq<nat>) {
    forall i | 0 <= i < |vs| :: vs[i] < U64
  }

  /** A run of values, not all read, stands in `data` at `at`. */
  ghost predicate ComingAs(data: Bytes, at: nat, vs: seq<nat>, u: Unfold) {
    All64(vs) && Holds(data, at, Encode(vs))
  }

  ghost predicate Coming(data: Bytes, at: nat, vs: seq<nat>) {
    forall u :: ComingAs(data, at, vs, u)
  }

  lemma ComingFirst(data: Bytes, at: nat, vs: seq<nat>)
    requires Coming(data, at, vs) && vs != []
    ensures vs[0] < U64 && Holds(data, at, Varint(vs[0])) && Coming(data, at + |Varint(vs[0])|, vs[1..])
  {
    assert ComingAs(data, at, vs, Unfolded);
    ComingRest(data, at, Varint(vs[0]), Encode(vs[1..]), vs[1..]);
  }

  lemma ComingRest(data: Bytes, at: nat, head: Bytes, tail: Bytes, rest: seq<nat>)
    requires Holds(data, at, head + tail) && tail == Encode(rest) && All64(rest)
    ensures Holds(data, at, head) && Coming(data, at + |head|, rest)
  {
    HoldsSplit(data, at, head, tail);
  }

  /** Read the first of a run. */
  method GetNext(data: Bytes, at: nat, ghost vs: seq<nat>) returns (r: Read)
    requires Coming(data, at, vs) && vs != []
    ensures r.Value? && r.v == vs[0] && at < r.next <= |data| && Coming(data, r.next, vs[1..])
  {
    ComingFirst(data, at, vs);
    r := GetVarint(data, at);
    VarintRoundTrip(data, at, vs[0], r);
  }

  // --- framing ----------------------------------------------------------------------------------

  /** A block header: its first key and its record count. */
  function Header(key: nat, count: nat): (r: Bytes)
    ensures |r| == 12
  {
    Word(key, 8) + Word(count, 4)
  }

  lemma HeaderRead(data: Bytes, at: nat, key: nat, count: nat)
    requires Holds(data, at, Header(key, count)) && key < U64 && count < U32
    ensures FromWord(data[at..at + 8]) == key && FromWord(data[at + 8..at + 12]) == count
  {
    HoldsSplit(data, at, Word(key, 8), Word(count, 4));
    Widths();
    WordRoundTrip(key, 8);
    WordRoundTrip(count, 4);
  }

  lemma Widths()
    ensures Pow256(8) == U64 && Pow256(4) == U32
  {
    assert Pow256(2) == 256 * Pow256(1);
    assert Pow256(4) == 256 * Pow256(3);
    assert Pow256(6) == 256 * Pow256(5);
    assert Pow256(8) == 256 * Pow256(7);
  }

  /** A table of 64-bit words. */
  function Words(vs: seq<nat>): (r: Bytes)
    ensures |r| == 8 * |vs|
  {
    if vs == [] then [] else Words(vs[..|vs| - 1]) + Word(vs[|vs| - 1], 8)
  }

  method PutWord(buf: Bytes, v: nat, ghost vs: seq<nat>) returns (out: Bytes)
    requires buf == Words(vs)
    ensures out == Words(vs + [v])
  {
    assert (vs + [v])[..|vs|] == vs;
    out := buf + Word(v, 8);
  }

  lemma {:induction false} WordsHold(data: Bytes, at: nat, vs: seq<nat>, i: nat)
    requires Holds(data, at, Words(vs)) && i < |vs|
    ensures Holds(data, at + 8 * i, Word(vs[i], 8))
  {
    var n := |vs| - 1;
    HoldsSplit(data, at, Words(vs[..n]), Word(vs[n], 8));
    if i < n {
      WordsHold(data, at, vs[..n], i);
    }
  }

  lemma Word64(v: nat)
    requires v < U64
    ensures FromWord(Word(v, 8)) == v
  {
    Widths();
    WordRoundTrip(v, 8);
  }

  /** The 64-bit word at `at`. */
  function At64(data: Bytes, at: nat): (r: nat)
    requires at + 8 <= |data|
    ensures r < U64
  {
    FromWordSmall(data[at..at + 8]);
    Widths();
    FromWord(data[at..at + 8])
  }

  lemma {:induction false} FromWordSmall(b: Bytes)
    ensures FromWord(b) < Pow256(|b|)
  {
    if b != [] {
      FromWordSmall(b[1..]);
    }
  }

  lemma At64Word(data: Bytes, at: nat, v: nat)
    requires v < U64 && Holds(data, at, Word(v, 8))
    ensures at + 8 <= |data| && At64(data, at) == v
  {
    Word64(v);
  }

  // --- pieces one after another ----------------------------------------------------------------

  ghost function Concat(parts: seq<Bytes>): Bytes {
    if parts == [] then [] else Concat(parts[..|parts| - 1]) + parts[|parts| - 1]
  }

  lemma ConcatPush(parts: seq<Bytes>, part: Bytes)
    ensures Concat(parts + [part]) == Concat(parts) + part
  {
    assert (parts + [part])[..|parts|] == parts;
  }

  lemma {:induction false} ConcatHolds(parts: seq<Bytes>, i: nat)
    requires i < |parts|
    ensures Holds(Concat(parts), |Concat(parts[..i])|, parts[i])
    ensures |Concat(parts[..i + 1])| == |Concat(parts[..i])| + |parts[i]| <= |Concat(parts)|
  {
    var n := |parts| - 1;
    assert parts[..i + 1][..i] == parts[..i];
    if i < n {
      assert parts[..n][..i] == parts[..i] && parts[..n][..i + 1] == parts[..i + 1];
      ConcatHolds(parts[..n], i);
      HoldsMore(Concat(parts[..n]), |Concat(parts[..i])|, parts[i], parts[n]);
    } else {
      assert parts[..i + 1] == parts;
      HoldsBehind(Concat(parts[..n]), parts[n], 0, parts[n]);
    }
  }

  lemma HoldsMore(data: Bytes, at: nat, bytes: Bytes, more: Bytes)
    requires Holds(data, at, bytes)
    ensures Holds(data + more, at, bytes)
  {
    assert (data + more)[at..at + |bytes|] == data[at..at + |bytes|];
  }

  lemma HoldsBehind(front: Bytes, data: Bytes, at: nat, bytes: Bytes)
    requires Holds(data, at, bytes)
    ensures Holds(front + data, |front| + at, bytes)
  {
    assert (front + data)[|front| + at..|front| + at + |bytes|] == data[at..at + |bytes|];
  }
}

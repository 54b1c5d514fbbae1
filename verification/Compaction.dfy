/**
 Storage-side compaction: a stack's sorted tables and registry runs are merged by
 cursors into one run. Tables come out with every key once, ascending and fully
 resolved; the registry comes out sorted and deduplicated with every root
 re-resolved, though only the entries whose root moved are looked up at all.
 */
module Compaction {
  import opened Types
  import opened Sorting
  import opened ParentForest
  import opened Layers
  import opened ForestState
  import Folds

  type Pair = (NodeId, NodeId)

  // --- sorted tables ---------------------------------------------------------------------

  ghost predicate KeysAscend(pairs: seq<Pair>) {
    forall i, j | 0 <= i < j < |pairs| :: pairs[i].0 < pairs[j].0
  }

  ghost predicate HasPair(pairs: seq<Pair>, k: NodeId, v: NodeId) {
    exists i :: 0 <= i < |pairs| && pairs[i] == (k, v)
  }

  /** `pairs` is `table` written out in key order. */
  ghost predicate Writes(pairs: seq<Pair>, table: Parents) {
    && KeysAscend(pairs)
    && (forall i | 0 <= i < |pairs| :: pairs[i].0 in table && table[pairs[i].0] == pairs[i].1)
    && (forall k | k in table :: HasPair(pairs, k, table[k]))
  }

  ghost predicate WritesAll(lists: seq<seq<Pair>>, ts: Tables) {
    |lists| == |ts| && forall i | 0 <= i < |lists| :: Writes(lists[i], ts[i])
  }

  // --- the k-way merge of tables -------------------------------------------------------------

  ghost predicate CursorsIn(lists: seq<seq<Pair>>, cursors: seq<nat>) {
    |cursors| == |lists| && forall i | 0 <= i < |lists| :: cursors[i] <= |lists[i]|
  }

  /** All before the cursors is out; all from them on is larger than anything out. */
  ghost predicate Split(lists: seq<seq<Pair>>, cursors: seq<nat>, out: seq<Pair>)
    requires CursorsIn(lists, cursors)
  {
    && (forall i, c | 0 <= i < |lists| && 0 <= c < cursors[i] :: Emitted(out, lists[i][c].0))
    && (forall i, c, j | 0 <= i < |lists| && cursors[i] <= c < |lists[i]| && 0 <= j < |out| ::
          out[j].0 < lists[i][c].0)
  }

  ghost predicate Emitted(out: seq<Pair>, k: NodeId) {
    exists j :: 0 <= j < |out| && out[j].0 == k
  }

  /** Everything emitted is a key of the stack with its root. */
  ghost predicate Resolved(out: seq<Pair>, p: Parents)
    requires Descending(p)
  {
    forall j | 0 <= j < |out| :: out[j].0 in p && out[j].1 == Root(p, out[j].0)
  }

  /** The list whose next key is lowest, if any has one left. */
  method PickLowest(lists: seq<seq<Pair>>, cursors: seq<nat>) returns (pick: Option<nat>)
    requires CursorsIn(lists, cursors)
    ensures pick.None? <==> forall i | 0 <= i < |lists| :: cursors[i] == |lists[i]|
    ensures pick.Some? ==> pick.value < |lists| && cursors[pick.value] < |lists[pick.value]|
    ensures pick.Some? ==> forall i | 0 <= i < |lists| && cursors[i] < |lists[i]| ::
        lists[pick.value][cursors[pick.value]].0 <= lists[i][cursors[i]].0
  {
    pick := None;
    for i := 0 to |lists|
      invariant pick.None? ==> forall j | 0 <= j < i :: cursors[j] == |lists[j]|
      invariant pick.Some? ==> pick.value < i && cursors[pick.value] < |lists[pick.value]|
      invariant pick.Some? ==> forall j | 0 <= j < i && cursors[j] < |lists[j]| ::
          lists[pick.value][cursors[pick.value]].0 <= lists[j][cursors[j]].0
    {
      if cursors[i] < |lists[i]| {
        if pick.None? || lists[i][cursors[i]].0 < lists[pick.value][cursors[pick.value]].0 {
          pick := Some(i);
        }
      }
    }
  }

  /** Taking the lowest head keeps the split, since no key is in two tables. */
  lemma SplitStep(lists: seq<seq<Pair>>, ts: Tables, cursors: seq<nat>, out: seq<Pair>, i: nat, v: NodeId)
    requires WritesAll(lists, ts) && Stacked(ts) && CursorsIn(lists, cursors) && Split(lists, cursors, out)
    requires i < |lists| && cursors[i] < |lists[i]|
    requires forall j | 0 <= j < |lists| && cursors[j] < |lists[j]| :: lists[i][cursors[i]].0 <= lists[j][cursors[j]].0
    ensures var next := cursors[i := cursors[i] + 1];
      CursorsIn(lists, next) && Split(lists, next, out + [(lists[i][cursors[i]].0, v)])
  {
    var k, next := lists[i][cursors[i]].0, cursors[i := cursors[i] + 1];
    var out' := out + [(k, v)];
    forall j, c | 0 <= j < |lists| && 0 <= c < next[j] ensures Emitted(out', lists[j][c].0) {
      if c < cursors[j] {
        assert Emitted(out, lists[j][c].0);
        var o :| 0 <= o < |out| && out[o].0 == lists[j][c].0;
        assert out'[o].0 == lists[j][c].0;
      } else {
        assert out'[|out|].0 == k;
      }
    }
    forall j, c | 0 <= j < |lists| && next[j] <= c < |lists[j]| ensures k < lists[j][c].0 {
      NextLarger(lists, ts, i, cursors[i], j, cursors[j], c);
    }
  }

  /** A key from here on in any list exceeds the lowest head, unless it is that head. */
  lemma NextLarger(lists: seq<seq<Pair>>, ts: Tables, i: nat, at: nat, j: nat, from: nat, c: nat)
    requires WritesAll(lists, ts) && Stacked(ts) && i < |lists| && j < |lists|
    requires at < |lists[i]| && from <= c < |lists[j]| && lists[i][at].0 <= lists[j][from].0
    requires i == j ==> from == at < c
    ensures lists[i][at].0 < lists[j][c].0
  {
    assert Writes(lists[i], ts[i]) && Writes(lists[j], ts[j]);
    if i < j {
      assert Above(ts[i], ts[j]);
    } else if j < i {
      assert Above(ts[j], ts[i]);
    }
  }

  ghost predicate Merging(lists: seq<seq<Pair>>, ts: Tables, cursors: seq<nat>, out: seq<Pair>)
    requires Descending(Flat(ts))
  {
    CursorsIn(lists, cursors) && Split(lists, cursors, out) && KeysAscend(out) && Resolved(out, Flat(ts))
  }

  lemma MergingStep(lists: seq<seq<Pair>>, ts: Tables, cursors: seq<nat>, out: seq<Pair>, i: nat)
    requires WritesAll(lists, ts) && Stacked(ts) && Descending(Flat(ts)) && Merging(lists, ts, cursors, out)
    requires i < |lists| && cursors[i] < |lists[i]|
    requires forall j | 0 <= j < |lists| && cursors[j] < |lists[j]| :: lists[i][cursors[i]].0 <= lists[j][cursors[j]].0
    ensures var (k, v) := lists[i][cursors[i]];
      var root := Root(Flat(ts), v);
      && k in Flat(ts) && !Emitted(out, k) && root < k
      && Merging(lists, ts, cursors[i := cursors[i] + 1], out + [(k, root)])
  {
    var (k, v) := lists[i][cursors[i]];
    assert Writes(lists[i], ts[i]);
    FlatHas(ts, i, k);
    SplitStep(lists, ts, cursors, out, i, Root(Flat(ts), v));
    ResolvedStep(out, Flat(ts), k, v);
  }

  lemma ResolvedStep(out: seq<Pair>, p: Parents, k: NodeId, v: NodeId)
    requires Descending(p) && KeysAscend(out) && Resolved(out, p)
    requires k in p && p[k] == v && forall j | 0 <= j < |out| :: out[j].0 < k
    ensures !Emitted(out, k) && Root(p, v) < k
    ensures KeysAscend(out + [(k, Root(p, v))]) && Resolved(out + [(k, Root(p, v))], p)
  {
  }

  /** Stream every key of a stack once, ascending, with its fully resolved value. */
  method MergeTables(lists: seq<seq<Pair>>, ts: Tables) returns (out: seq<Pair>)
    requires WritesAll(lists, ts) && Stacked(ts)
    ensures Descending(Flat(ts)) && KeysAscend(out) && Resolved(out, Flat(ts))
    ensures forall k :: k in Flat(ts) <==> Emitted(out, k)
  {
    FlatDescending(ts);
    out := [];
    var cursors := seq(|lists|, i => 0);
    while true
      invariant Merging(lists, ts, cursors, out)
      decreases Pending(ts, out)
    {
      var pick := PickLowest(lists, cursors);
      if pick.None? {
        break;
      }
      var i := pick.value;
      var (k, v) := lists[i][cursors[i]];
      MergingStep(lists, ts, cursors, out, i);
      PendingShrinks(ts, out, k, Root(Flat(ts), v));
      var found := Resolve(ts, v);
      var root := if found.Some? then found.value else v;
      if root != k {
        out := out + [(k, root)];
      }
      cursors := cursors[i := cursors[i] + 1];
    }
    AllMerged(lists, ts, cursors, out);
  }

  /** The keys still to come. */
  ghost function Pending(ts: Tables, out: seq<Pair>): set<NodeId> {
    set k | k in Flat(ts) && !Emitted(out, k)
  }

  lemma PendingShrinks(ts: Tables, out: seq<Pair>, k: NodeId, v: NodeId)
    requires k in Flat(ts) && !Emitted(out, k)
    ensures Pending(ts, out + [(k, v)]) < Pending(ts, out)
  {
    var out' := out + [(k, v)];
    forall x | Emitted(out, x) ensures Emitted(out', x) {
      var j :| 0 <= j < |out| && out[j].0 == x;
      assert out'[j].0 == x;
    }
    assert out'[|out|].0 == k;
    assert k in Pending(ts, out) && k !in Pending(ts, out');
  }

  lemma AllMerged(lists: seq<seq<Pair>>, ts: Tables, cursors: seq<nat>, out: seq<Pair>)
    requires WritesAll(lists, ts) && Descending(Flat(ts)) && Merging(lists, ts, cursors, out)
    requires forall i | 0 <= i < |lists| :: cursors[i] == |lists[i]|
    ensures forall k :: k in Flat(ts) <==> Emitted(out, k)
  {
    forall k | k in Flat(ts) ensures Emitted(out, k) {
      var i := FlatFrom(ts, k);
      assert Writes(lists[i], ts[i]) && HasPair(lists[i], k, ts[i][k]);
      var c :| 0 <= c < |lists[i]| && lists[i][c] == (k, ts[i][k]);
      assert Emitted(out, lists[i][c].0);
    }
  }

  // --- registry entries ------------------------------------------------------------------------

  predicate AtMost(a: Entry, b: Entry) {
    a == b || Less(a, b)
  }

  /** Sorted, duplicates allowed. */
  ghost predicate InOrder(s: seq<Entry>) {
    forall i, j | 0 <= i < j < |s| :: AtMost(s[i], s[j])
  }

  ghost predicate NoneAbove(s: seq<Entry>, e: Entry) {
    forall i | 0 <= i < |s| :: AtMost(s[i], e)
  }

  ghost predicate SomeList(lists: seq<seq<Entry>>, e: Entry) {
    exists i :: 0 <= i < |lists| && e in lists[i]
  }

  // --- visiting every entry in order -----------------------------------------------------------

  ghost predicate EntryCursors(lists: seq<seq<Entry>>, cursors: seq<nat>) {
    |cursors| == |lists| && forall i | 0 <= i < |lists| :: cursors[i] <= |lists[i]|
  }

  ghost predicate Visiting(lists: seq<seq<Entry>>, cursors: seq<nat>, out: seq<Entry>) {
    && EntryCursors(lists, cursors) && InOrder(out)
    && (forall i, c | 0 <= i < |lists| && 0 <= c < cursors[i] :: lists[i][c] in out)
    && (forall e | e in out :: SomeList(lists, e))
    && (forall i, c | 0 <= i < |lists| && cursors[i] <= c < |lists[i]| :: NoneAbove(out, lists[i][c]))
  }

  /** Entries not visited yet. */
  ghost function Left(lists: seq<seq<Entry>>, cursors: seq<nat>): nat
    requires EntryCursors(lists, cursors)
  {
    if lists == [] then 0
    else
      var n := |lists| - 1;
      Left(lists[..n], cursors[..n]) + |lists[n]| - cursors[n]
  }

  lemma {:induction false} LeftStep(lists: seq<seq<Entry>>, cursors: seq<nat>, i: nat)
    requires EntryCursors(lists, cursors) && i < |lists| && cursors[i] < |lists[i]|
    ensures EntryCursors(lists, cursors[i := cursors[i] + 1])
    ensures Left(lists, cursors[i := cursors[i] + 1]) == Left(lists, cursors) - 1
  {
    var n := |lists| - 1;
    if i < n {
      LeftStep(lists[..n], cursors[..n], i);
      assert cursors[i := cursors[i] + 1][..n] == cursors[..n][i := cursors[i] + 1];
    } else {
      assert cursors[i := cursors[i] + 1][..n] == cursors[..n];
    }
  }

  method PickEntry(lists: seq<seq<Entry>>, cursors: seq<nat>) returns (pick: Option<nat>)
    requires EntryCursors(lists, cursors)
    ensures pick.None? <==> forall i | 0 <= i < |lists| :: cursors[i] == |lists[i]|
    ensures pick.Some? ==> pick.value < |lists| && cursors[pick.value] < |lists[pick.value]|
    ensures pick.Some? ==> forall i | 0 <= i < |lists| && cursors[i] < |lists[i]| ::
        AtMost(lists[pick.value][cursors[pick.value]], lists[i][cursors[i]])
  {
    pick := None;
    for i := 0 to |lists|
      invariant pick.None? ==> forall j | 0 <= j < i :: cursors[j] == |lists[j]|
      invariant pick.Some? ==> pick.value < i && cursors[pick.value] < |lists[pick.value]|
      invariant pick.Some? ==> forall j | 0 <= j < i && cursors[j] < |lists[j]| ::
          AtMost(lists[pick.value][cursors[pick.value]], lists[j][cursors[j]])
    {
      if cursors[i] < |lists[i]| {
        if pick.None? || Less(lists[i][cursors[i]], lists[pick.value][cursors[pick.value]]) {
          pick := Some(i);
        }
      }
    }
  }

  lemma VisitStep(lists: seq<seq<Entry>>, cursors: seq<nat>, out: seq<Entry>, i: nat)
    requires (forall j | 0 <= j < |lists| :: Ascend(lists[j])) && Visiting(lists, cursors, out)
    requires i < |lists| && cursors[i] < |lists[i]|
    requires forall j | 0 <= j < |lists| && cursors[j] < |lists[j]| ::
        AtMost(lists[i][cursors[i]], lists[j][cursors[j]])
    ensures Visiting(lists, cursors[i := cursors[i] + 1], out + [lists[i][cursors[i]]])
  {
    var e, next := lists[i][cursors[i]], cursors[i := cursors[i] + 1];
    assert NoneAbove(out, e) && SomeList(lists, e);
    forall j, c | 0 <= j < |lists| && next[j] <= c < |lists[j]| ensures NoneAbove(out + [e], lists[j][c]) {
      assert NoneAbove(out, lists[j][c]);
      assert AtMost(e, lists[j][cursors[j]]) && AtMost(lists[j][cursors[j]], lists[j][c]);
    }
  }

  /** Every entry of every run, in order. */
  method VisitEntries(lists: seq<seq<Entry>>) returns (out: seq<Entry>)
    requires forall i | 0 <= i < |lists| :: Ascend(lists[i])
    ensures InOrder(out) && forall e :: e in out <==> SomeList(lists, e)
  {
    out := [];
    var cursors := seq(|lists|, i => 0);
    while true
      invariant Visiting(lists, cursors, out)
      decreases Left(lists, cursors)
    {
      var pick := PickEntry(lists, cursors);
      if pick.None? {
        break;
      }
      var i := pick.value;
      VisitStep(lists, cursors, out, i);
      LeftStep(lists, cursors, i);
      out, cursors := out + [lists[i][cursors[i]]], cursors[i := cursors[i] + 1];
    }
  }

  // --- the two passes ----------------------------------------------------------------------------------

  /** Append unless it repeats the last entry. */
  method Push(out: seq<Entry>, e: Entry) returns (r: seq<Entry>)
    requires Ascend(out) && NoneAbove(out, e)
    ensures Ascend(r) && forall x :: x in r <==> x in out || x == e
  {
    if out != [] && out[|out| - 1] == e {
      return out;
    }
    r := out + [e];
    if out != [] {
      var last := |out| - 1;
      forall i | 0 <= i < last ensures Less(out[i], e) {
        assert Less(out[i], out[last]) && AtMost(out[last], e);
      }
    }
  }

  /** Nodes some layer above the first stores a shared parent for. */
  method MovedRoots(ts: Tables) returns (moved: set<NodeId>)
    ensures forall x :: x in moved <==> exists j :: 0 < j < |ts| && x in ts[j]
  {
    moved := {};
    for j := 0 to |ts|
      invariant forall x :: x in moved <==> exists i :: 0 < i < j && x in ts[i]
    {
      if j > 0 {
        moved := moved + ts[j].Keys;
      }
    }
  }

  /** A registry root had no parent in its own layer or below when it was written. */
  ghost predicate RootsWereLive(lists: seq<seq<Entry>>, ts: Tables) {
    && |lists| == |ts|
    && forall i, j, e | 0 <= j <= i < |lists| && e in lists[i] :: e.0 !in ts[j]
  }

  /** So for every recorded root, being keyed above the first layer is having a parent at all. */
  lemma MovedExactly(lists: seq<seq<Entry>>, ts: Tables, moved: set<NodeId>, e: Entry)
    requires Stacked(ts) && RootsWereLive(lists, ts) && SomeList(lists, e)
    requires forall x :: x in moved <==> exists j :: 0 < j < |ts| && x in ts[j]
    ensures e.0 in moved <==> e.0 in Flat(ts)
  {
    if e.0 in moved {
      var j :| 0 < j < |ts| && e.0 in ts[j];
      FlatHas(ts, j, e.0);
    }
    if e.0 in Flat(ts) {
      var j := FlatFrom(ts, e.0);
      var i :| 0 <= i < |lists| && e in lists[i];
      assert j > i;
    }
  }

  ghost function Rerooted(ts: Tables, e: Entry): Entry
    requires Descending(Flat(ts))
  {
    (Root(Flat(ts), e.0), e.1)
  }

  /** Resolve only the entries whose root moved. */
  method Corrections(visited: seq<Entry>, moved: set<NodeId>, ts: Tables) returns (out: seq<Entry>)
    requires Stacked(ts)
    ensures Descending(Flat(ts)) && Ascend(out)
    ensures forall x :: x in out <==> exists e :: e in visited && e.0 in moved && x == Rerooted(ts, e)
  {
    FlatDescending(ts);
    var found: seq<Entry> := [];
    for i := 0 to |visited|
      invariant forall x :: x in found <==> exists e :: e in visited[..i] && e.0 in moved && x == Rerooted(ts, e)
    {
      assert visited[..i + 1] == visited[..i] + [visited[i]];
      var (root, scope) := visited[i];
      if root in moved {
        var parent := Resolve(ts, root);
        var fix := (if parent.Some? then parent.value else root, scope);
        assert fix == Rerooted(ts, visited[i]);
        found := found + [fix];
      }
    }
    assert visited[..|visited|] == visited;
    out := SortEntries(found);
  }

  /** The corrections merged so far come before everything still to merge. */
  ghost predicate Interleaving(visited: seq<Entry>, i: nat, moved: set<NodeId>, fixes: seq<Entry>, c: nat,
                               out: seq<Entry>)
    requires i <= |visited| && c <= |fixes|
  {
    && Ascend(out)
    && (forall x | x in out :: x in fixes[..c] || (x in visited[..i] && x.0 !in moved))
    && (forall x | x in fixes[..c] :: x in out)
    && (forall x | x in visited[..i] && x.0 !in moved :: x in out)
    && (forall k | c <= k < |fixes| :: NoneAbove(out, fixes[k]))
    && (forall k | i <= k < |visited| :: NoneAbove(out, visited[k]))
  }

  /** Push the corrections at or below `e`. */
  method TakeFixes(visited: seq<Entry>, i: nat, moved: set<NodeId>, fixes: seq<Entry>, c: nat, out: seq<Entry>)
    returns (c': nat, out': seq<Entry>)
    requires InOrder(visited) && Ascend(fixes) && i < |visited| && c <= |fixes|
    requires Interleaving(visited, i, moved, fixes, c, out)
    ensures c <= c' <= |fixes| && Interleaving(visited, i, moved, fixes, c', out')
    ensures forall k | c' <= k < |fixes| :: Less(visited[i], fixes[k])
  {
    c', out' := c, out;
    while c' < |fixes| && AtMost(fixes[c'], visited[i])
      invariant c <= c' <= |fixes| && Interleaving(visited, i, moved, fixes, c', out')
    {
      FixStep(visited, i, moved, fixes, c', out');
      out' := Push(out', fixes[c']);
      c' := c' + 1;
    }
    forall k | c' <= k < |fixes| ensures Less(visited[i], fixes[k]) {
      assert k > c' ==> Less(fixes[c'], fixes[k]);
    }
  }

  lemma FixStep(visited: seq<Entry>, i: nat, moved: set<NodeId>, fixes: seq<Entry>, c: nat, out: seq<Entry>)
    requires InOrder(visited) && Ascend(fixes) && i <= |visited| && c < |fixes|
    requires Interleaving(visited, i, moved, fixes, c, out)
    requires i < |visited| ==> AtMost(fixes[c], visited[i])
    ensures NoneAbove(out, fixes[c])
    ensures forall out': seq<Entry> | Ascend(out') && (forall x :: x in out' <==> x in out || x == fixes[c]) ::
      Interleaving(visited, i, moved, fixes, c + 1, out')
  {
    var f := fixes[c];
    assert fixes[..c + 1] == fixes[..c] + [f];
    forall out': seq<Entry> | Ascend(out') && (forall x :: x in out' <==> x in out || x == f)
      ensures Interleaving(visited, i, moved, fixes, c + 1, out')
    {
      forall k | c + 1 <= k < |fixes| ensures NoneAbove(out', fixes[k]) {
        NoneAboveGrown(out, out', f, fixes[k]);
      }
      forall k | i <= k < |visited| ensures NoneAbove(out', visited[k]) {
        assert AtMost(f, visited[k]);
        NoneAboveGrown(out, out', f, visited[k]);
      }
    }
  }

  lemma NoneAboveGrown(out: seq<Entry>, out': seq<Entry>, e: Entry, x: Entry)
    requires NoneAbove(out, x) && AtMost(e, x) && forall y | y in out' :: y in out || y == e
    ensures NoneAbove(out', x)
  {
    forall i | 0 <= i < |out'| ensures AtMost(out'[i], x) {
      assert out'[i] in out';
    }
  }

  lemma EntryStep(visited: seq<Entry>, i: nat, moved: set<NodeId>, fixes: seq<Entry>, c: nat, out: seq<Entry>,
                  out': seq<Entry>)
    requires InOrder(visited) && i < |visited| && c <= |fixes| && Interleaving(visited, i, moved, fixes, c, out)
    requires if visited[i].0 in moved then out' == out
             else Ascend(out') && forall x :: x in out' <==> x in out || x == visited[i]
    requires visited[i].0 !in moved ==> forall k | c <= k < |fixes| :: Less(visited[i], fixes[k])
    ensures Interleaving(visited, i + 1, moved, fixes, c, out')
  {
    var e := visited[i];
    assert visited[..i + 1] == visited[..i] + [e];
    if e.0 !in moved {
      forall k | c <= k < |fixes| ensures NoneAbove(out', fixes[k]) {
        NoneAboveGrown(out, out', e, fixes[k]);
      }
      forall k | i + 1 <= k < |visited| ensures NoneAbove(out', visited[k]) {
        NoneAboveGrown(out, out', e, visited[k]);
      }
    }
  }

  method Interleave(visited: seq<Entry>, moved: set<NodeId>, fixes: seq<Entry>) returns (out: seq<Entry>)
    requires InOrder(visited) && Ascend(fixes)
    ensures Ascend(out)
    ensures forall x :: x in out <==> x in fixes || (x in visited && x.0 !in moved)
  {
    out := [];
    var c := 0;
    for i := 0 to |visited|
      invariant c <= |fixes| && Interleaving(visited, i, moved, fixes, c, out)
    {
      ghost var before := out;
      if visited[i].0 !in moved {
        c, out := TakeFixes(visited, i, moved, fixes, c, out);
        before := out;
        out := Push(out, visited[i]);
      }
      EntryStep(visited, i, moved, fixes, c, before, out);
    }
    while c < |fixes|
      invariant c <= |fixes| && Interleaving(visited, |visited|, moved, fixes, c, out)
    {
      FixStep(visited, |visited|, moved, fixes, c, out);
      out := Push(out, fixes[c]);
      c := c + 1;
    }
    assert visited[..|visited|] == visited && fixes[..|fixes|] == fixes;
  }

  /** Merge a stack's registry runs: sorted, deduplicated, every root as it resolves now. */
  method CompactRegistry(lists: seq<seq<Entry>>, ts: Tables) returns (out: seq<Entry>)
    requires Stacked(ts) && RootsWereLive(lists, ts) && forall i | 0 <= i < |lists| :: Ascend(lists[i])
    ensures Descending(Flat(ts)) && Ascend(out)
    ensures forall x :: x in out <==> exists e :: SomeList(lists, e) && x == Rerooted(ts, e)
  {
    var moved := MovedRoots(ts);
    var visited := VisitEntries(lists);
    var fixes := Corrections(visited, moved, ts);
    out := Interleave(visited, moved, fixes);
    forall x ensures x in out <==> exists e :: SomeList(lists, e) && x == Rerooted(ts, e) {
      forall e | SomeList(lists, e) && e.0 !in moved ensures Rerooted(ts, e) == e {
        MovedExactly(lists, ts, moved, e);
      }
      if x in out && x !in fixes {
        assert SomeList(lists, x) && x == Rerooted(ts, x);
      }
      if e :| SomeList(lists, e) && x == Rerooted(ts, e) {
        assert e in visited;
      }
    }
  }

  // --- whole runs -----------------------------------------------------------------------------------

  /** A run as written: sorted tables, one per scope with overlay state, and a sorted registry. */
  datatype RunFile = RunFile(shared: seq<Pair>, overlays: map<ScopeId, seq<Pair>>, registry: seq<Entry>)

  function OverlayList(file: RunFile, scope: ScopeId): seq<Pair> {
    if scope in file.overlays then file.overlays[scope] else []
  }

  ghost predicate Encodes(file: RunFile, run: Run) {
    && Writes(file.shared, run.shared)
    && (forall s :: Writes(OverlayList(file, s), OverlayOf(run.overlays, s)))
    && Ascend(file.registry) && (forall e :: e in file.registry <==> e in run.registry)
  }

  /** No scope is written with nothing in it. */
  ghost predicate Trimmed(file: RunFile) {
    forall s | s in file.overlays :: file.overlays[s] != []
  }

  ghost predicate EncodesAll(files: seq<RunFile>, runs: seq<Run>) {
    |files| == |runs| && forall i | 0 <= i < |files| :: Encodes(files[i], runs[i])
  }

  /** What a stack's layers promise one another. */
  ghost predicate Layered(runs: seq<Run>) {
    && Stacked(SharedTables(runs)) && RootsLive(runs)
    && forall s :: Stacked(OverlayTables(runs, s))
  }

  ghost function Composed(ts: Tables): Parents
    requires Descending(Flat(ts))
  {
    map k | k in Flat(ts) :: Root(Flat(ts), k)
  }

  lemma MergeWrites(out: seq<Pair>, ts: Tables)
    requires Descending(Flat(ts)) && KeysAscend(out) && Resolved(out, Flat(ts))
    requires forall k :: k in Flat(ts) <==> Emitted(out, k)
    ensures Writes(out, Composed(ts)) && Resolves(Flat(ts), Composed(ts))
  {
    ComposedResolves(ts);
    ListWrites(out, Flat(ts), Composed(ts));
  }

  lemma ComposedResolves(ts: Tables)
    requires Descending(Flat(ts))
    ensures Resolves(Flat(ts), Composed(ts))
  {
  }

  lemma ListWrites(out: seq<Pair>, p: Parents, m: Parents)
    requires KeysAscend(out) && Resolves(p, m) && Resolved(out, p)
    requires forall k :: k in p <==> Emitted(out, k)
    ensures Writes(out, m)
  {
    forall k | k in m ensures HasPair(out, k, m[k]) {
      assert Emitted(out, k);
      var j :| 0 <= j < |out| && out[j].0 == k;
      assert out[j] == (k, m[k]);
    }
  }

  lemma NothingWrites(table: Parents)
    requires Writes([], table)
    ensures table == map[]
  {
    forall k ensures k !in table {
      assert k in table ==> HasPair([], k, table[k]);
    }
  }

  method MergeShared(files: seq<RunFile>, runs: seq<Run>) returns (out: seq<Pair>)
    requires EncodesAll(files, runs) && Layered(runs)
    ensures Descending(BaseShared(runs)) && Writes(out, Composed(SharedTables(runs)))
    ensures Resolves(BaseShared(runs), Composed(SharedTables(runs)))
  {
    var lists := seq(|files|, i requires 0 <= i < |files| => files[i].shared);
    forall i | 0 <= i < |lists| ensures Writes(lists[i], SharedTables(runs)[i]) {
      assert Encodes(files[i], runs[i]);
    }
    out := MergeTables(lists, SharedTables(runs));
    MergeWrites(out, SharedTables(runs));
  }

  method MergeOverlay(files: seq<RunFile>, runs: seq<Run>, scope: ScopeId) returns (out: seq<Pair>)
    requires EncodesAll(files, runs) && Layered(runs)
    ensures Descending(BaseOverlay(runs, scope)) && Writes(out, Composed(OverlayTables(runs, scope)))
    ensures Resolves(BaseOverlay(runs, scope), Composed(OverlayTables(runs, scope)))
  {
    var lists := seq(|files|, i requires 0 <= i < |files| => OverlayList(files[i], scope));
    forall i | 0 <= i < |lists| ensures Writes(lists[i], OverlayTables(runs, scope)[i]) {
      assert Encodes(files[i], runs[i]);
    }
    out := MergeTables(lists, OverlayTables(runs, scope));
    MergeWrites(out, OverlayTables(runs, scope));
  }

  method ScopesIn(files: seq<RunFile>) returns (scopes: set<ScopeId>)
    ensures forall i, s | 0 <= i < |files| && s in files[i].overlays :: s in scopes
  {
    scopes := {};
    for i := 0 to |files|
      invariant forall j, s | 0 <= j < i && s in files[j].overlays :: s in scopes
    {
      scopes := scopes + files[i].overlays.Keys;
    }
  }

  /** A scope no file mentions composes to nothing. */
  lemma NoOverlay(files: seq<RunFile>, runs: seq<Run>, scope: ScopeId)
    requires EncodesAll(files, runs) && Layered(runs)
    requires forall i | 0 <= i < |files| :: scope !in files[i].overlays
    ensures Descending(BaseOverlay(runs, scope)) && Composed(OverlayTables(runs, scope)) == map[]
  {
    var ts := OverlayTables(runs, scope);
    FlatDescending(ts);
    forall k ensures k !in Flat(ts) {
      forall i | 0 <= i < |ts| ensures k !in ts[i] {
        assert Encodes(files[i], runs[i]) && OverlayList(files[i], scope) == [];
        NothingWrites(ts[i]);
      }
      FlatLacks(ts, k);
    }
  }

  ghost predicate OverlaysMerged(runs: seq<Run>, lists: map<ScopeId, seq<Pair>>, scope: ScopeId) {
    && Descending(BaseOverlay(runs, scope))
    && Writes(if scope in lists then lists[scope] else [], Composed(OverlayTables(runs, scope)))
  }

  /** Every scope's overlay; scopes left with nothing are dropped. */
  method MergeOverlays(files: seq<RunFile>, runs: seq<Run>) returns (lists: map<ScopeId, seq<Pair>>)
    requires EncodesAll(files, runs) && Layered(runs)
    ensures forall s :: OverlaysMerged(runs, lists, s)
    ensures forall s | s in lists :: lists[s] != []
  {
    lists := map[];
    var scopes := ScopesIn(files);
    var left := scopes;
    while left != {}
      invariant left <= scopes && lists.Keys !! left
      invariant forall s | s in scopes && s !in left :: OverlaysMerged(runs, lists, s)
      invariant forall s | s in lists :: s in scopes && lists[s] != []
      decreases left
    {
      var s :| s in left;
      var out := MergeOverlay(files, runs, s);
      ghost var before := lists;
      if out != [] {
        lists := lists[s := out];
      }
      forall q | q in scopes && q !in left - {s} ensures OverlaysMerged(runs, lists, q) {
        if q != s {
          assert OverlaysMerged(runs, before, q);
        }
      }
      left := left - {s};
    }
    forall s | s !in scopes ensures OverlaysMerged(runs, lists, s) {
      NoOverlay(files, runs, s);
    }
  }

  // --- the compacted run --------------------------------------------------------------------------------

  ghost function CompactedOverlays(runs: seq<Run>, lists: map<ScopeId, seq<Pair>>): Overlays
    requires forall s :: OverlaysMerged(runs, lists, s)
  {
    map s | s in lists :: assert OverlaysMerged(runs, lists, s); Composed(OverlayTables(runs, s))
  }

  lemma RegistryCompacts(files: seq<RunFile>, runs: seq<Run>, out: seq<Entry>)
    requires EncodesAll(files, runs) && Descending(BaseShared(runs))
    requires var lists := seq(|files|, i requires 0 <= i < |files| => files[i].registry);
      forall x :: x in out <==> exists e :: SomeList(lists, e) && x == Rerooted(SharedTables(runs), e)
    ensures forall r: NodeId, s: ScopeId :: (r, s) in Elements(out) <==> Folds.Rerooted(runs, r, s)
  {
    var lists := seq(|files|, i requires 0 <= i < |files| => files[i].registry);
    forall r: NodeId, s: ScopeId ensures (r, s) in Elements(out) <==> Folds.Rerooted(runs, r, s) {
      if (r, s) in out {
        var e :| SomeList(lists, e) && (r, s) == Rerooted(SharedTables(runs), e);
        var i :| 0 <= i < |lists| && e in lists[i];
        assert Encodes(files[i], runs[i]) && (e.0, s) in runs[i].registry;
        assert Recorded(runs, e.0, s);
      }
      if Folds.Rerooted(runs, r, s) {
        var e: NodeId :| Recorded(runs, e, s) && Root(BaseShared(runs), e) == r;
        var i :| 0 <= i < |runs| && (e, s) in runs[i].registry;
        assert Encodes(files[i], runs[i]) && (e, s) in lists[i];
        assert SomeList(lists, (e, s));
      }
    }
  }

  method MergeRegistries(files: seq<RunFile>, runs: seq<Run>) returns (out: seq<Entry>)
    requires EncodesAll(files, runs) && Layered(runs)
    ensures Descending(BaseShared(runs)) && Ascend(out)
    ensures forall r: NodeId, s: ScopeId :: (r, s) in Elements(out) <==> Folds.Rerooted(runs, r, s)
  {
    var lists := seq(|files|, i requires 0 <= i < |files| => files[i].registry);
    forall i | 0 <= i < |lists| ensures Ascend(lists[i]) {
      assert Encodes(files[i], runs[i]);
    }
    forall i, j, e: Entry | 0 <= j <= i < |lists| && e in lists[i] ensures e.0 !in SharedTables(runs)[j] {
      assert Encodes(files[i], runs[i]) && LiveIn(runs[i], runs[j]);
    }
    out := CompactRegistry(lists, SharedTables(runs));
    RegistryCompacts(files, runs, out);
  }

  /** Compact a stack's files into the file of one run that resolves exactly as they do. */
  method CompactLayers(files: seq<RunFile>, runs: seq<Run>) returns (out: RunFile, ghost m: Run)
    requires EncodesAll(files, runs) && Layered(runs)
    ensures Encodes(out, m) && Folds.Compacts(runs, m) && Trimmed(out)
  {
    var shared := MergeShared(files, runs);
    var overlays := MergeOverlays(files, runs);
    var registry := MergeRegistries(files, runs);
    out := RunFile(shared, overlays, registry);
    m := Run(Composed(SharedTables(runs)), CompactedOverlays(runs, overlays), Elements(registry));
    forall s ensures Writes(OverlayList(out, s), OverlayOf(m.overlays, s))
      ensures Resolves(BaseOverlay(runs, s), OverlayOf(m.overlays, s))
    {
      assert OverlaysMerged(runs, overlays, s);
      NothingWritten(runs, overlays, s);
    }
  }

  lemma NothingWritten(runs: seq<Run>, lists: map<ScopeId, seq<Pair>>, s: ScopeId)
    requires OverlaysMerged(runs, lists, s)
    ensures s !in lists ==> Composed(OverlayTables(runs, s)) == map[]
    ensures Resolves(BaseOverlay(runs, s), Composed(OverlayTables(runs, s)))
  {
    ComposedResolves(OverlayTables(runs, s));
    if s !in lists {
      NothingWrites(Composed(OverlayTables(runs, s)));
    }
  }

  /** Any stretch of a stack keeps its layers' promises to one another. */
  lemma SliceLayered(runs: seq<Run>, lo: nat, hi: nat)
    requires BaseInv(runs) && lo <= hi <= |runs|
    ensures Layered(runs[lo..hi])
  {
    var slice := runs[lo..hi];
    assert SharedTables(slice) == SharedTables(runs)[lo..hi];
    SliceStacked(SharedTables(runs), lo, hi);
    forall s ensures Stacked(OverlayTables(slice, s)) {
      assert BaseScopeInv(runs, s);
      assert OverlayTables(slice, s) == OverlayTables(runs, s)[lo..hi];
      SliceStacked(OverlayTables(runs, s), lo, hi);
    }
    forall i, j | 0 <= j <= i < |slice| ensures LiveIn(slice[i], slice[j]) {
      assert LiveIn(runs[lo + i], runs[lo + j]);
    }
  }

  /** Compact the files of any stretch; splicing the result back changes no answer. */
  method CompactRange(files: seq<RunFile>, runs: seq<Run>, lo: nat, hi: nat) returns (out: RunFile, ghost m: Run)
    requires BaseInv(runs) && EncodesAll(files, runs) && lo < hi <= |runs|
    ensures Encodes(out, m) && Folds.Equivalent(runs, Spliced(runs, lo, hi, m))
  {
    SliceLayered(runs, lo, hi);
    forall i | 0 <= i < hi - lo ensures Encodes(files[lo..hi][i], runs[lo..hi][i]) {
      assert Encodes(files[lo + i], runs[lo + i]);
    }
    out, m := CompactLayers(files[lo..hi], runs[lo..hi]);
    Folds.SpliceEquivalent(runs, lo, hi, m);
  }
}

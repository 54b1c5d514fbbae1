/**
 Writing a forest out. The base's ascending key stream is merge-joined with the
 memtable's sorted keys, each key is resolved through both, and every overlay
 pair registers its scope on the live shared roots of both its ends. What comes
 out is a run, sorted and resolved, that the forest may serve from instead.
 */
module Streaming {
  import opened Types
  import opened Sorting
  import Graph
  import opened ParentForest
  import opened Layers
  import opened ForestState
  import opened Folds
  import opened Memtables
  import opened Forest
  import opened Compaction

  // --- keys in order ------------------------------------------------------------------------

  method SortKeys(keys: set<NodeId>) returns (out: seq<NodeId>)
    ensures Increasing(out) && forall k :: k in out <==> k in keys
  {
    out := [];
    var left := keys;
    while left != {}
      invariant left <= keys && Increasing(out) && forall k :: k in out <==> k in keys && k !in left
      decreases left
    {
      var k :| k in left;
      BelowIncreases(out);
      out, left := Insert(out, k, Below), left - {k};
      BelowIncreases(out);
    }
  }

  ghost predicate Joining(base: seq<NodeId>, b: nat, mem: seq<NodeId>, i: nat, out: seq<NodeId>)
    requires b <= |base| && i <= |mem|
  {
    && Increasing(out)
    && (forall k :: k in out <==> k in base[..b] || k in mem[..i])
    && (forall j, o | b <= j < |base| && 0 <= o < |out| :: out[o] < base[j])
    && (forall j, o | i <= j < |mem| && 0 <= o < |out| :: out[o] < mem[j])
  }

  lemma JoinMem(base: seq<NodeId>, b: nat, mem: seq<NodeId>, i: nat, out: seq<NodeId>)
    requires Increasing(mem) && b <= |base| && i < |mem| && Joining(base, b, mem, i, out)
    requires forall j | b <= j < |base| :: mem[i] < base[j]
    ensures Joining(base, b, mem, i + 1, out + [mem[i]])
  {
    assert mem[..i + 1] == mem[..i] + [mem[i]];
  }

  lemma JoinBase(base: seq<NodeId>, b: nat, mem: seq<NodeId>, i: nat, out: seq<NodeId>)
    requires Increasing(base) && Increasing(mem) && b < |base| && i <= |mem| && Joining(base, b, mem, i, out)
    requires i < |mem| ==> base[b] <= mem[i]
    ensures var i' := if i < |mem| && mem[i] == base[b] then i + 1 else i;
      Joining(base, b + 1, mem, i', out + [base[b]])
  {
    assert base[..b + 1] == base[..b] + [base[b]];
    if i < |mem| && mem[i] == base[b] {
      assert mem[..i + 1] == mem[..i] + [mem[i]];
    }
  }

  /** The base's keys and the memtable's, each once, ascending. */
  method MergeJoin(base: seq<NodeId>, mem: seq<NodeId>) returns (out: seq<NodeId>)
    requires Increasing(base) && Increasing(mem)
    ensures Increasing(out) && forall k :: k in out <==> k in base || k in mem
  {
    out := [];
    var i := 0;
    for b := 0 to |base|
      invariant i <= |mem| && Joining(base, b, mem, i, out)
    {
      while i < |mem| && mem[i] < base[b]
        invariant i <= |mem| && Joining(base, b, mem, i, out)
      {
        JoinMem(base, b, mem, i, out);
        out, i := out + [mem[i]], i + 1;
      }
      JoinBase(base, b, mem, i, out);
      if i < |mem| && mem[i] == base[b] {
        i := i + 1;
      }
      out := out + [base[b]];
    }
    while i < |mem|
      invariant i <= |mem| && Joining(base, |base|, mem, i, out)
    {
      JoinMem(base, |base|, mem, i, out);
      out, i := out + [mem[i]], i + 1;
    }
    assert base[..|base|] == base && mem[..|mem|] == mem;
  }

  // --- resolving while streaming ---------------------------------------------------------------

  /** The forest as it stands, or as the stream began. */
  datatype Moment = Now | Then

  ghost predicate Sound(f: ScopedForest, t0: Tier, at: Moment)
    reads f, f.mem, f.mem.repr
  {
    match at
    case Now => f.Valid()
    case Then => TierInv(t0, f.eg, f.es) && Compressed(t0, f.State())
  }

  /** `f` is as it was at `t0`, but for path compression. */
  ghost predicate Reading(f: ScopedForest, t0: Tier)
    reads f, f.mem, f.mem.repr
  {
    forall at :: Sound(f, t0, at)
  }

  method LiveRoot(f: ScopedForest, node: NodeId, ghost t0: Tier) returns (r: NodeId)
    requires Reading(f, t0)
    modifies f.mem`shared, f.mem.repr`parents
    ensures Reading(f, t0) && Descending(Shared(t0)) && r == Root(Shared(t0), node)
  {
    assert Sound(f, t0, Now) && Sound(f, t0, Then);
    ghost var t := f.State();
    f.mem.Forests();
    r := f.SharedRoot(node, false);
    CompressedShared(t, f.State());
    CompressedInv(t, f.State(), f.eg, f.es);
    StillCompressed(t0, t, f.State(), f.eg, f.es, GLOBAL_SCOPE, node);
  }

  method LiveOverlayRoot(f: ScopedForest, scope: ScopeId, node: NodeId, ghost t0: Tier) returns (r: NodeId)
    requires Reading(f, t0)
    modifies f.mem`scoped, f.mem.repr`parents
    ensures Reading(f, t0) && Descending(Overlay(t0, scope)) && r == Root(Overlay(t0, scope), node)
  {
    assert Sound(f, t0, Now) && Sound(f, t0, Then);
    ghost var t := f.State();
    f.mem.Forests();
    assert BaseScopeInv(f.runs, scope) && ScopeInv(t, scope, f.eg, EdgesOf(f.es, scope));
    r := f.OverlayRoot(scope, node, false);
    CompressedOverlay(t, f.State(), scope);
    CompressedInv(t, f.State(), f.eg, f.es);
    StillCompressed(t0, t, f.State(), f.eg, f.es, scope, node);
  }

  lemma StillCompressed(t0: Tier, t: Tier, t': Tier, eg: set<Graph.Edge>, es: ScopeEdges, scope: ScopeId, node: NodeId)
    requires TierInv(t0, eg, es) && Compressed(t0, t) && Compressed(t, t')
    ensures Compressed(t0, t')
    ensures Descending(Shared(t0)) && Descending(Shared(t)) && Root(Shared(t), node) == Root(Shared(t0), node)
    ensures Descending(Overlay(t0, scope)) && Descending(Overlay(t, scope))
    ensures Root(Overlay(t, scope), node) == Root(Overlay(t0, scope), node)
  {
    CompressedTransitive(t0, t, t');
    assert ScopeInv(t0, scope, eg, EdgesOf(es, scope));
    CompressedMaps(t0, t, scope);
    assert Agree(Shared(t0), Shared(t), node) && Agree(Overlay(t0, scope), Overlay(t, scope), node);
  }

  // --- emitting ----------------------------------------------------------------------------------

  /** Each key that is not a root, with its root. */
  ghost predicate Emits(p: Parents, keys: seq<NodeId>, pairs: seq<Pair>)
    requires Descending(p)
  {
    && KeysAscend(pairs)
    && forall k: NodeId, v: NodeId :: HasPair(pairs, k, v) <==> k in keys && v == Root(p, k) && v != k
  }

  lemma EmitStep(p: Parents, keys: seq<NodeId>, i: nat, pairs: seq<Pair>, root: NodeId)
    requires Descending(p) && Increasing(keys) && i < |keys| && Emits(p, keys[..i], pairs) && root == Root(p, keys[i])
    ensures Emits(p, keys[..i + 1], if root != keys[i] then pairs + [(keys[i], root)] else pairs)
  {
    var k := keys[i];
    assert keys[..i + 1] == keys[..i] + [k];
    forall j | 0 <= j < |pairs| ensures pairs[j].0 < k {
      assert HasPair(pairs, pairs[j].0, pairs[j].1);
      assert pairs[j].0 in keys[..i];
    }
    var more := pairs + [(k, root)];
    forall x: NodeId, v: NodeId ensures HasPair(more, x, v) <==> HasPair(pairs, x, v) || (x == k && v == root) {
      if HasPair(pairs, x, v) {
        var j :| 0 <= j < |pairs| && pairs[j] == (x, v);
        assert more[j] == (x, v);
      }
      assert more[|pairs|] == (k, root);
    }
  }

  method EmitShared(f: ScopedForest, keys: seq<NodeId>, ghost t0: Tier) returns (pairs: seq<Pair>)
    requires Reading(f, t0) && Increasing(keys)
    modifies f.mem`shared, f.mem.repr`parents
    ensures Reading(f, t0) && Descending(Shared(t0)) && Emits(Shared(t0), keys, pairs)
  {
    assert Sound(f, t0, Then);
    pairs := [];
    for i := 0 to |keys|
      invariant Reading(f, t0) && Descending(Shared(t0)) && Emits(Shared(t0), keys[..i], pairs)
    {
      var root := LiveRoot(f, keys[i], t0);
      EmitStep(Shared(t0), keys, i, pairs, root);
      if root != keys[i] {
        pairs := pairs + [(keys[i], root)];
      }
    }
    assert keys[..|keys|] == keys;
  }

  /** `entries` registers `scope` on the live root of each end of each pair. */
  ghost predicate Registers(g: Parents, pairs: seq<Pair>, scope: ScopeId, entries: seq<Entry>)
    requires Descending(g)
  {
    forall e :: e in entries <==> e.1 == scope && EndOf(g, pairs, e.0)
  }

  ghost predicate EndOf(g: Parents, pairs: seq<Pair>, r: NodeId)
    requires Descending(g)
  {
    exists j :: 0 <= j < |pairs| && EndAt(g, pairs[j], r)
  }

  ghost predicate EndAt(g: Parents, pair: Pair, r: NodeId)
    requires Descending(g)
  {
    r == Root(g, pair.0) || r == Root(g, pair.1)
  }

  lemma EndStep(g: Parents, pairs: seq<Pair>, k: NodeId, v: NodeId, r: NodeId)
    requires Descending(g)
    ensures EndOf(g, pairs + [(k, v)], r) <==> EndOf(g, pairs, r) || r == Root(g, k) || r == Root(g, v)
  {
    var more := pairs + [(k, v)];
    if EndOf(g, pairs, r) {
      var j :| 0 <= j < |pairs| && EndAt(g, pairs[j], r);
      assert more[j] == pairs[j];
    }
    assert more[|pairs|] == (k, v);
    if EndOf(g, more, r) {
      var j :| 0 <= j < |more| && EndAt(g, more[j], r);
      assert j < |pairs| ==> more[j] == pairs[j];
    }
  }

  lemma RegisterStep(g: Parents, pairs: seq<Pair>, scope: ScopeId, entries: seq<Entry>, more: seq<Entry>,
                     k: NodeId, v: NodeId)
    requires Descending(g) && Registers(g, pairs, scope, entries)
    requires forall e :: e in more <==> e == (Root(g, k), scope) || e == (Root(g, v), scope)
    ensures Registers(g, pairs + [(k, v)], scope, entries + more)
  {
    forall e ensures e in entries + more <==> e.1 == scope && EndOf(g, pairs + [(k, v)], e.0) {
      EndStep(g, pairs, k, v, e.0);
    }
  }

  /** Both ends' live roots, once if they coincide. */
  function Ends(a: NodeId, b: NodeId, scope: ScopeId): (r: seq<Entry>)
    ensures forall e :: e in r <==> e == (a, scope) || e == (b, scope)
  {
    if b != a then [(a, scope), (b, scope)] else [(a, scope)]
  }

  /** Resolve one overlay key, and the live roots its scope is to be registered on. */
  method EmitOne(f: ScopedForest, scope: ScopeId, k: NodeId, ghost t0: Tier)
    returns (root: NodeId, entries: seq<Entry>)
    requires Reading(f, t0) && Descending(Shared(t0)) && Descending(Overlay(t0, scope))
    modifies f.mem`shared, f.mem`scoped, f.mem.repr`parents
    ensures Reading(f, t0) && root == Root(Overlay(t0, scope), k)
    ensures root != k ==> entries == Ends(Root(Shared(t0), k), Root(Shared(t0), root), scope)
  {
    entries := [];
    root := LiveOverlayRoot(f, scope, k, t0);
    if root != k {
      entries := EmitEnds(f, scope, k, root, t0);
    }
  }

  method EmitEnds(f: ScopedForest, scope: ScopeId, k: NodeId, root: NodeId, ghost t0: Tier)
    returns (entries: seq<Entry>)
    requires Reading(f, t0) && Descending(Shared(t0))
    modifies f.mem`shared, f.mem.repr`parents
    ensures Reading(f, t0) && entries == Ends(Root(Shared(t0), k), Root(Shared(t0), root), scope)
  {
    var a := LiveRoot(f, k, t0);
    var b := LiveRoot(f, root, t0);
    entries := Ends(a, b, scope);
  }

  method EmitOverlay(f: ScopedForest, scope: ScopeId, keys: seq<NodeId>, ghost t0: Tier)
    returns (pairs: seq<Pair>, entries: seq<Entry>)
    requires Reading(f, t0) && Increasing(keys)
    modifies f.mem`shared, f.mem`scoped, f.mem.repr`parents
    ensures Reading(f, t0) && Descending(Overlay(t0, scope)) && Emits(Overlay(t0, scope), keys, pairs)
    ensures Descending(Shared(t0)) && Registers(Shared(t0), pairs, scope, entries)
  {
    pairs, entries := [], [];
    assert Sound(f, t0, Then);
    assert ScopeInv(t0, scope, f.eg, EdgesOf(f.es, scope));
    for i := 0 to |keys|
      invariant Reading(f, t0) && Emits(Overlay(t0, scope), keys[..i], pairs)
      invariant Registers(Shared(t0), pairs, scope, entries)
    {
      var root, more := EmitOne(f, scope, keys[i], t0);
      EmitStep(Overlay(t0, scope), keys, i, pairs, root);
      if root != keys[i] {
        RegisterStep(Shared(t0), pairs, scope, entries, more, keys[i], root);
        pairs, entries := pairs + [(keys[i], root)], entries + more;
      }
    }
    assert keys[..|keys|] == keys;
  }

  // --- which keys ------------------------------------------------------------------------------------

  ghost predicate Lists(keys: seq<NodeId>, set_: set<NodeId>) {
    Increasing(keys) && forall k :: k in keys <==> k in set_
  }

  lemma PairKeys(pairs: seq<Pair>, table: Parents, keys: seq<NodeId>)
    requires Writes(pairs, table) && |keys| == |pairs| && forall i | 0 <= i < |keys| :: keys[i] == pairs[i].0
    ensures Lists(keys, table.Keys)
  {
    forall k ensures k in keys <==> k in table {
      if k in table {
        assert HasPair(pairs, k, table[k]);
        var i :| 0 <= i < |pairs| && pairs[i] == (k, table[k]);
        assert keys[i] == k;
      }
    }
  }

  /** The keys of a base, as its merged tables stream them. */
  method BaseKeys(lists: seq<seq<Pair>>, ts: Tables) returns (keys: seq<NodeId>)
    requires WritesAll(lists, ts) && Stacked(ts)
    ensures Lists(keys, Flat(ts).Keys)
  {
    var pairs := MergeTables(lists, ts);
    MergeWrites(pairs, ts);
    keys := seq(|pairs|, i requires 0 <= i < |pairs| => pairs[i].0);
    PairKeys(pairs, Composed(ts), keys);
  }

  /** What a fold writes of one forest: everything composed, or the memtable's own keys. */
  method KeysToFold(lists: seq<seq<Pair>>, ts: Tables, mem: Parents, full: bool) returns (keys: seq<NodeId>)
    requires WritesAll(lists, ts) && Stacked(ts)
    ensures Lists(keys, FoldKeys(Flat(ts), mem, full))
  {
    keys := SortKeys(mem.Keys);
    if full {
      var base := BaseKeys(lists, ts);
      keys := MergeJoin(base, keys);
    }
  }

  method SharedKeys(f: ScopedForest, files: seq<RunFile>, full: bool, ghost t0: Tier) returns (keys: seq<NodeId>)
    requires Reading(f, t0) && EncodesAll(files, f.runs)
    ensures Lists(keys, FoldKeys(BaseShared(t0.runs), t0.shared, full))
  {
    assert Sound(f, t0, Now) && Sound(f, t0, Then);
    var lists := seq(|files|, i requires 0 <= i < |files| => files[i].shared);
    forall i | 0 <= i < |lists| ensures Writes(lists[i], SharedTables(f.runs)[i]) {
      assert Encodes(files[i], f.runs[i]);
    }
    assert f.mem.Slot(Global);
    keys := KeysToFold(lists, SharedTables(f.runs), f.mem.global.parents, full);
    assert Same(t0.shared, f.mem.shared);
    SameFoldKeys(BaseShared(t0.runs), t0.shared, f.mem.shared, full);
  }

  lemma SameFoldKeys(base: Parents, mem: Parents, mem': Parents, full: bool)
    requires Same(mem, mem')
    ensures FoldKeys(base, mem', full) == FoldKeys(base, mem, full)
  {
  }

  method OverlayKeys(f: ScopedForest, files: seq<RunFile>, scope: ScopeId, full: bool, ghost t0: Tier)
    returns (keys: seq<NodeId>)
    requires Reading(f, t0) && EncodesAll(files, f.runs)
    ensures Lists(keys, FoldKeys(BaseOverlay(t0.runs, scope), OverlayOf(t0.overlays, scope), full))
  {
    assert Sound(f, t0, Now) && Sound(f, t0, Then);
    var lists := seq(|files|, i requires 0 <= i < |files| => OverlayList(files[i], scope));
    forall i | 0 <= i < |lists| ensures Writes(lists[i], OverlayTables(f.runs, scope)[i]) {
      assert Encodes(files[i], f.runs[i]);
    }
    assert BaseScopeInv(f.runs, scope) && f.mem.Slot(Scope(scope));
    var mem := if scope in f.mem.overlays then f.mem.overlays[scope].parents else map[];
    keys := KeysToFold(lists, OverlayTables(f.runs, scope), mem, full);
    assert Same(OverlayOf(t0.overlays, scope), OverlayOf(f.State().overlays, scope));
    SameFoldKeys(BaseOverlay(t0.runs, scope), OverlayOf(t0.overlays, scope), mem, full);
  }

  // --- the whole run ---------------------------------------------------------------------------------

  /** Every key of the set with its root: the set's keys all have one below them. */
  ghost predicate EmitsSet(p: Parents, keys: set<NodeId>, pairs: seq<Pair>) {
    && Descending(p) && keys <= p.Keys && KeysAscend(pairs)
    && forall k: NodeId, v: NodeId :: HasPair(pairs, k, v) <==> k in keys && v == Root(p, k)
  }

  lemma EmitsAll(p: Parents, set_: set<NodeId>, keys: seq<NodeId>, pairs: seq<Pair>)
    requires Descending(p) && set_ <= p.Keys && Lists(keys, set_) && Emits(p, keys, pairs)
    ensures EmitsSet(p, set_, pairs)
  {
  }

  ghost function Table(p: Parents, keys: set<NodeId>): Parents
    requires Descending(p)
  {
    map k | k in keys :: Root(p, k)
  }

  lemma EmitsTable(p: Parents, keys: set<NodeId>, pairs: seq<Pair>)
    requires EmitsSet(p, keys, pairs)
    ensures Folds.Emitted(p, keys, Table(p, keys)) && Writes(pairs, Table(p, keys))
  {
    var table := Table(p, keys);
    forall i | 0 <= i < |pairs| ensures pairs[i].0 in table && table[pairs[i].0] == pairs[i].1 {
      assert HasPair(pairs, pairs[i].0, pairs[i].1);
    }
  }

  lemma EndIsEndpoint(g: Parents, pairs: seq<Pair>, table: Parents, r: NodeId)
    requires Descending(g) && Writes(pairs, table)
    ensures EndOf(g, pairs, r) <==> Endpoint(g, table, r)
  {
    if EndOf(g, pairs, r) {
      var j :| 0 <= j < |pairs| && EndAt(g, pairs[j], r);
      assert pairs[j].0 in table;
    }
    if Endpoint(g, table, r) {
      var k :| k in table && (r == Root(g, k) || r == Root(g, table[k]));
      assert HasPair(pairs, k, table[k]);
    }
  }

  ghost function ScopeKeys(t: Tier, full: bool, s: ScopeId): set<NodeId> {
    FoldKeys(BaseOverlay(t.runs, s), OverlayOf(t.overlays, s), full)
  }

  function ListOf(lists: map<ScopeId, seq<Pair>>, s: ScopeId): seq<Pair> {
    if s in lists then lists[s] else []
  }

  /** One scope is written, and every entry of it registered. */
  ghost predicate ScopeDone(t0: Tier, full: bool, lists: map<ScopeId, seq<Pair>>, entries: seq<Entry>, s: ScopeId) {
    && EmitsSet(Overlay(t0, s), ScopeKeys(t0, full, s), ListOf(lists, s))
    && Descending(Shared(t0))
    && forall r: NodeId :: (r, s) in entries <==> EndOf(Shared(t0), ListOf(lists, s), r)
  }

  /** What one scope put out: its pairs, and the registry entries of their ends. */
  datatype Emission = Emission(scope: ScopeId, pairs: seq<Pair>, entries: seq<Entry>)

  ghost predicate ScopesRise(out: seq<Emission>) {
    forall i, j | 0 <= i < j < |out| :: out[i].scope < out[j].scope
  }

  function AllEntries(out: seq<Emission>): seq<Entry> {
    if out == [] then [] else AllEntries(out[..|out| - 1]) + out[|out| - 1].entries
  }

  /** The lists of the scopes that had something to write. */
  function ListsOf(out: seq<Emission>): map<ScopeId, seq<Pair>> {
    if out == [] then map[]
    else
      var last := out[|out| - 1];
      if last.pairs == [] then ListsOf(out[..|out| - 1]) else ListsOf(out[..|out| - 1])[last.scope := last.pairs]
  }

  /** The scopes that may have something to write. */
  method ScopesToFold(f: ScopedForest, files: seq<RunFile>, full: bool, ghost t0: Tier) returns (scopes: set<ScopeId>)
    requires Reading(f, t0) && EncodesAll(files, f.runs)
    ensures forall s | s !in scopes :: ScopeKeys(t0, full, s) == {}
  {
    scopes := f.mem.overlays.Keys;
    if full {
      var more := ScopesIn(files);
      scopes := scopes + more;
    }
    forall s | s !in scopes ensures ScopeKeys(t0, full, s) == {} {
      NothingToFold(f, files, full, t0, s);
    }
  }

  lemma NothingToFold(f: ScopedForest, files: seq<RunFile>, full: bool, t0: Tier, s: ScopeId)
    requires Reading(f, t0) && EncodesAll(files, f.runs) && s !in f.mem.overlays
    requires full ==> forall i | 0 <= i < |files| :: s !in files[i].overlays
    ensures ScopeKeys(t0, full, s) == {}
  {
    assert Sound(f, t0, Now) && Sound(f, t0, Then) && f.mem.Slot(Scope(s));
    assert Same(OverlayOf(t0.overlays, s), OverlayOf(f.State().overlays, s));
    if full {
      var ts := OverlayTables(f.runs, s);
      forall k ensures k !in Flat(ts) {
        forall i | 0 <= i < |ts| ensures k !in ts[i] {
          assert Encodes(files[i], f.runs[i]) && OverlayList(files[i], s) == [];
          NothingWrites(ts[i]);
        }
        FlatLacks(ts, k);
      }
    }
  }

  /** Write one scope: after it, the scope is done and those before still are. */
  lemma ScopeStep(t0: Tier, full: bool, lists: map<ScopeId, seq<Pair>>, entries: seq<Entry>, s: ScopeId,
                  pairs: seq<Pair>, more: seq<Entry>, q: ScopeId)
    requires s !in lists && Descending(Shared(t0)) && Registers(Shared(t0), pairs, s, more)
    requires EmitsSet(Overlay(t0, s), ScopeKeys(t0, full, s), pairs)
    requires if q == s then forall r: NodeId :: (r, s) !in entries else ScopeDone(t0, full, lists, entries, q)
    ensures ScopeDone(t0, full, if pairs == [] then lists else lists[s := pairs], entries + more, q)
  {
    forall r: NodeId ensures (r, q) in entries + more <==> (r, q) in entries || (r, q) in more {
    }
  }

  /** The first `i` of the scopes are written, and no others. */
  ghost predicate Emitting(t0: Tier, full: bool, scopes: seq<ScopeId>, i: nat, out: seq<Emission>)
    requires i <= |scopes|
  {
    && |out| == i && (forall j | 0 <= j < i :: out[j].scope == scopes[j])
    && (forall s | s in ListsOf(out) :: s in scopes[..i])
    && (forall e | e in AllEntries(out) :: e.1 in scopes[..i])
    && (forall s | s in scopes[..i] :: ScopeDone(t0, full, ListsOf(out), AllEntries(out), s))
  }

  lemma EmittingStep(t0: Tier, full: bool, scopes: seq<ScopeId>, i: nat, out: seq<Emission>,
                     pairs: seq<Pair>, more: seq<Entry>)
    requires Increasing(scopes) && i < |scopes| && Emitting(t0, full, scopes, i, out)
    requires Descending(Shared(t0)) && Registers(Shared(t0), pairs, scopes[i], more)
    requires EmitsSet(Overlay(t0, scopes[i]), ScopeKeys(t0, full, scopes[i]), pairs)
    ensures Emitting(t0, full, scopes, i + 1, out + [Emission(scopes[i], pairs, more)])
  {
    var s, out' := scopes[i], out + [Emission(scopes[i], pairs, more)];
    assert out'[..|out|] == out && scopes[..i + 1] == scopes[..i] + [s];
    assert s !in scopes[..i];
    forall q | q in scopes[..i + 1] ensures ScopeDone(t0, full, ListsOf(out'), AllEntries(out'), q) {
      ScopeStep(t0, full, ListsOf(out), AllEntries(out), s, pairs, more, q);
    }
  }

  /** Every overlay in ascending scope order, with the registry entries of each. */
  method EmitOverlays(f: ScopedForest, files: seq<RunFile>, full: bool, ghost t0: Tier) returns (out: seq<Emission>)
    requires Reading(f, t0) && EncodesAll(files, f.runs)
    modifies f.mem`shared, f.mem`scoped, f.mem.repr`parents
    ensures Reading(f, t0) && ScopesRise(out) && forall s :: ScopeDone(t0, full, ListsOf(out), AllEntries(out), s)
  {
    out := [];
    var some := ScopesToFold(f, files, full, t0);
    var scopes := SortKeys(some);
    for i := 0 to |scopes|
      invariant Reading(f, t0) && Emitting(t0, full, scopes, i, out)
    {
      var pairs, more := EmitScope(f, files, scopes[i], full, t0);
      EmittingStep(t0, full, scopes, i, out, pairs, more);
      out := out + [Emission(scopes[i], pairs, more)];
    }
    assert scopes[..|scopes|] == scopes;
    forall s ensures ScopeDone(t0, full, ListsOf(out), AllEntries(out), s) {
      if s !in scopes {
        EmptyScopeDone(f, t0, full, ListsOf(out), AllEntries(out), s);
      }
    }
  }

  lemma EmptyScopeDone(f: ScopedForest, t0: Tier, full: bool, lists: map<ScopeId, seq<Pair>>, entries: seq<Entry>,
                       s: ScopeId)
    requires Reading(f, t0) && ScopeKeys(t0, full, s) == {} && s !in lists && forall e | e in entries :: e.1 != s
    ensures ScopeDone(t0, full, lists, entries, s)
  {
    assert Sound(f, t0, Then);
    assert ScopeInv(t0, s, f.eg, EdgesOf(f.es, s));
  }

  method EmitScope(f: ScopedForest, files: seq<RunFile>, scope: ScopeId, full: bool, ghost t0: Tier)
    returns (pairs: seq<Pair>, entries: seq<Entry>)
    requires Reading(f, t0) && EncodesAll(files, f.runs)
    modifies f.mem`shared, f.mem`scoped, f.mem.repr`parents
    ensures Reading(f, t0) && EmitsSet(Overlay(t0, scope), ScopeKeys(t0, full, scope), pairs)
    ensures Descending(Shared(t0)) && Registers(Shared(t0), pairs, scope, entries)
  {
    var keys := OverlayKeys(f, files, scope, full, t0);
    pairs, entries := EmitOverlay(f, scope, keys, t0);
    EmitsAll(Overlay(t0, scope), ScopeKeys(t0, full, scope), keys, pairs);
  }

  // --- folding ---------------------------------------------------------------------------------------------

  ghost function WrittenRun(t0: Tier, full: bool, lists: map<ScopeId, seq<Pair>>, entries: seq<Entry>): Run
    requires Descending(Shared(t0)) && forall s :: ScopeDone(t0, full, lists, entries, s)
  {
    Run(Table(Shared(t0), FoldKeys(BaseShared(t0.runs), t0.shared, full)),
        map s | s in lists ::
          assert ScopeDone(t0, full, lists, entries, s); Table(Overlay(t0, s), ScopeKeys(t0, full, s)),
        Elements(entries))
  }

  lemma WrittenOverlay(t0: Tier, full: bool, lists: map<ScopeId, seq<Pair>>, entries: seq<Entry>, s: ScopeId)
    requires Descending(Shared(t0)) && forall s :: ScopeDone(t0, full, lists, entries, s)
    ensures var run := WrittenRun(t0, full, lists, entries);
      FoldsOverlay(t0, run, full, s) && Writes(ListOf(lists, s), OverlayOf(run.overlays, s))
  {
    assert ScopeDone(t0, full, lists, entries, s);
    EmitsTable(Overlay(t0, s), ScopeKeys(t0, full, s), ListOf(lists, s));
    if s !in lists {
      NothingWrites(Table(Overlay(t0, s), ScopeKeys(t0, full, s)));
    }
  }

  /** The streamed lists are the run a fold should write. */
  lemma WrittenFolds(t0: Tier, full: bool, shared: seq<Pair>, lists: map<ScopeId, seq<Pair>>, entries: seq<Entry>)
    requires EmitsSet(Shared(t0), FoldKeys(BaseShared(t0.runs), t0.shared, full), shared)
    requires forall s :: ScopeDone(t0, full, lists, entries, s)
    ensures var run := WrittenRun(t0, full, lists, entries);
      FoldsTo(t0, run, full) && Encodes(RunFile(shared, lists, SortEntries(entries)), run)
  {
    var run := WrittenRun(t0, full, lists, entries);
    var file := RunFile(shared, lists, SortEntries(entries));
    EmitsTable(Shared(t0), FoldKeys(BaseShared(t0.runs), t0.shared, full), shared);
    forall s ensures FoldsOverlay(t0, run, full, s) && Writes(OverlayList(file, s), OverlayOf(run.overlays, s)) {
      WrittenOverlay(t0, full, lists, entries, s);
    }
    forall r: NodeId, s: ScopeId
      ensures (r, s) in run.registry <==> Endpoint(Shared(t0), OverlayOf(run.overlays, s), r)
    {
      assert ScopeDone(t0, full, lists, entries, s);
      WrittenOverlay(t0, full, lists, entries, s);
      EndIsEndpoint(Shared(t0), ListOf(lists, s), OverlayOf(run.overlays, s), r);
    }
  }

  // --- serving from what was written ---------------------------------------------------------------------------

  function TableOf(pairs: seq<Pair>): Parents
    requires KeysAscend(pairs)
  {
    map i | 0 <= i < |pairs| :: pairs[i].0 := pairs[i].1
  }

  lemma TableUnique(pairs: seq<Pair>, table: Parents)
    requires Writes(pairs, table)
    ensures TableOf(pairs) == table
  {
    forall k | k in table ensures k in TableOf(pairs) {
      assert HasPair(pairs, k, table[k]);
    }
  }

  ghost predicate Sorted(file: RunFile) {
    KeysAscend(file.shared) && forall s | s in file.overlays :: KeysAscend(file.overlays[s])
  }

  /** A run as its file is mapped. */
  function Open(file: RunFile): Run
    requires Sorted(file)
  {
    Run(TableOf(file.shared),
        map s | s in file.overlays :: TableOf(file.overlays[s]),
        set i | 0 <= i < |file.registry| :: file.registry[i])
  }

  lemma OpenWritten(t0: Tier, full: bool, shared: seq<Pair>, lists: map<ScopeId, seq<Pair>>, entries: seq<Entry>)
    requires EmitsSet(Shared(t0), FoldKeys(BaseShared(t0.runs), t0.shared, full), shared)
    requires forall s :: ScopeDone(t0, full, lists, entries, s)
    ensures var file := RunFile(shared, lists, SortEntries(entries));
      Sorted(file) && Open(file) == WrittenRun(t0, full, lists, entries)
  {
    var file := RunFile(shared, lists, SortEntries(entries));
    var run := WrittenRun(t0, full, lists, entries);
    EmitsTable(Shared(t0), FoldKeys(BaseShared(t0.runs), t0.shared, full), shared);
    TableUnique(shared, run.shared);
    forall s | s in lists ensures KeysAscend(lists[s]) && TableOf(lists[s]) == run.overlays[s] {
      WrittenOverlay(t0, full, lists, entries, s);
      TableUnique(lists[s], run.overlays[s]);
    }
    OpenIs(file, run);
  }

  lemma OpenIs(file: RunFile, run: Run)
    requires Sorted(file) && TableOf(file.shared) == run.shared && file.overlays.Keys == run.overlays.Keys
    requires forall s | s in file.overlays :: TableOf(file.overlays[s]) == run.overlays[s]
    requires forall e :: e in file.registry <==> e in run.registry
    ensures Open(file) == run
  {
    assert Open(file).overlays == run.overlays;
    forall e ensures e in Open(file).registry <==> e in run.registry {
      assert e in Open(file).registry <==> e in file.registry;
    }
  }

  lemma EmittedSame(p: Parents, p': Parents, keys: set<NodeId>, table: Parents)
    requires Folds.Emitted(p, keys, table) && Same(p, p')
    ensures Folds.Emitted(p', keys, table)
  {
    forall k | k in table ensures table[k] == Root(p', k) {
      assert Agree(p, p', k);
    }
  }

  /** Path compression while streaming does not change what should be written. */
  lemma FoldsCompressed(t0: Tier, t: Tier, run: Run, full: bool, eg: set<Graph.Edge>, es: ScopeEdges)
    requires TierInv(t0, eg, es) && Compressed(t0, t) && FoldsTo(t0, run, full)
    ensures FoldsTo(t, run, full)
  {
    assert ScopeInv(t0, GLOBAL_SCOPE, eg, EdgesOf(es, GLOBAL_SCOPE));
    CompressedMaps(t0, t, GLOBAL_SCOPE);
    SameFoldKeys(BaseShared(t0.runs), t0.shared, t.shared, full);
    EmittedSame(Shared(t0), Shared(t), FoldKeys(BaseShared(t0.runs), t0.shared, full), run.shared);
    forall s ensures FoldsOverlay(t, run, full, s) {
      OverlayCompressed(t0, t, run, full, eg, es, s);
    }
    forall r: NodeId, s: ScopeId
      ensures (r, s) in run.registry <==> Endpoint(Shared(t), OverlayOf(run.overlays, s), r)
    {
      EndpointSame(Shared(t0), Shared(t), OverlayOf(run.overlays, s), r);
    }
  }

  lemma OverlayCompressed(t0: Tier, t: Tier, run: Run, full: bool, eg: set<Graph.Edge>, es: ScopeEdges, s: ScopeId)
    requires TierInv(t0, eg, es) && Compressed(t0, t) && FoldsOverlay(t0, run, full, s)
    ensures FoldsOverlay(t, run, full, s)
  {
    assert ScopeInv(t0, s, eg, EdgesOf(es, s));
    CompressedMaps(t0, t, s);
    assert Same(OverlayOf(t0.overlays, s), OverlayOf(t.overlays, s));
    SameFoldKeys(BaseOverlay(t0.runs, s), OverlayOf(t0.overlays, s), OverlayOf(t.overlays, s), full);
    EmittedSame(Overlay(t0, s), Overlay(t, s), ScopeKeys(t0, full, s), OverlayOf(run.overlays, s));
  }

  lemma EndpointSame(g: Parents, g': Parents, table: Parents, r: NodeId)
    requires Same(g, g')
    ensures Endpoint(g, table, r) <==> Endpoint(g', table, r)
  {
    forall k | k in table ensures Agree(g, g', k) && Agree(g, g', table[k]) {
    }
  }

  lemma ReadingStarts(f: ScopedForest)
    requires f.Valid()
    ensures Reading(f, f.State())
  {
    f.mem.Forests();
    forall at ensures Sound(f, f.State(), at) {
    }
  }

  /** A stream: the shared pairs, then each scope's, ascending. */
  datatype Streamed = Streamed(shared: seq<Pair>, scopes: seq<Emission>)

  function FileOf(out: Streamed): RunFile {
    RunFile(out.shared, ListsOf(out.scopes), SortEntries(AllEntries(out.scopes)))
  }

  /** What a stream of `t0` puts out. */
  ghost predicate Streams(t0: Tier, full: bool, out: Streamed) {
    && EmitsSet(Shared(t0), FoldKeys(BaseShared(t0.runs), t0.shared, full), out.shared)
    && ScopesRise(out.scopes)
    && forall s :: ScopeDone(t0, full, ListsOf(out.scopes), AllEntries(out.scopes), s)
  }

  /** Stream the forest out: what is written is a run, sorted, resolved and complete. */
  method Stream(f: ScopedForest, files: seq<RunFile>, full: bool, ghost t0: Tier) returns (out: Streamed)
    requires Reading(f, t0) && EncodesAll(files, f.runs)
    modifies f.mem`shared, f.mem`scoped, f.mem.repr`parents
    ensures Reading(f, t0) && Streams(t0, full, out)
  {
    assert Sound(f, t0, Then);
    var keys := SharedKeys(f, files, full, t0);
    var shared := EmitShared(f, keys, t0);
    EmitsAll(Shared(t0), FoldKeys(BaseShared(t0.runs), t0.shared, full), keys, shared);
    var scopes := EmitOverlays(f, files, full, t0);
    out := Streamed(shared, scopes);
  }

  /** What is written is a run, sorted, resolved and complete. */
  lemma StreamFolds(t0: Tier, full: bool, out: Streamed)
    requires Streams(t0, full, out)
    ensures var file := FileOf(out); Sorted(file) && Encodes(file, Open(file)) && FoldsTo(t0, Open(file), full)
  {
    WrittenFolds(t0, full, out.shared, ListsOf(out.scopes), AllEntries(out.scopes));
    OpenWritten(t0, full, out.shared, ListsOf(out.scopes), AllEntries(out.scopes));
  }

  /** Fold the memtable out, as a delta or with everything below it, and serve from the file. */
  method FoldOut(f: ScopedForest, files: seq<RunFile>, full: bool) returns (next: seq<RunFile>)
    requires f.Valid() && EncodesAll(files, f.runs)
    modifies f`runs, f`mem, f`registry, f.mem`shared, f.mem`scoped, f.mem.repr`parents
    ensures f.Valid() && EncodesAll(next, f.runs) && fresh(f.mem) && fresh(f.mem.repr)
    ensures f.runs != [] && FoldsTo(old(f.State()), f.runs[|f.runs| - 1], full)
    ensures f.State() == Folded(old(f.State()), f.runs[|f.runs| - 1], full)
    ensures f.mem.memberIndex == old(f.mem.memberIndex)
  {
    ghost var t0 := f.State();
    ReadingStarts(f);
    var out := Stream(f, files, full, t0);
    var file := FileOf(out);
    StreamFolds(t0, full, out);
    assert Sound(f, t0, Now) && Sound(f, t0, Then);
    FoldsCompressed(t0, f.State(), Open(file), full, f.eg, f.es);
    f.AdoptFold(Open(file), full);
    next := if full then [file] else files + [file];
  }
}

/**
 The two ways a run is written. A snapshot is encoded table by table from its own
 lists; a stream is encoded pair by pair, and what the filters and the member index
 need is read back out of the payloads. Both come to the list stated by `BlobsOf`,
 and a snapshot decoded from its blobs is the snapshot.
 */
module BlobWriters {
  import opened Types
  import opened Sorting
  import opened Varints
  import opened Filters
  import opened Compaction
  import opened Blobs

  // --- what is written -----------------------------------------------------------------

  ghost function TableBlob(kind: Kind, scope: Option<ScopeId>, pairs: seq<Pair>, su: Setup): Blob {
    Blob(kind, scope, TableBytes(pairs), su.sequence)
  }

  ghost function ScopeBlobs(scopes: seq<Section>, su: Setup): seq<Blob> {
    seq(|scopes|, i requires 0 <= i < |scopes| => TableBlob(ScopeTable, Some(scopes[i].0), scopes[i].1, su))
  }

  /** The tables, the shared one first. */
  ghost function Tables(shared: seq<Pair>, scopes: seq<Section>, su: Setup): seq<Blob> {
    [TableBlob(SharedTable, None, shared, su)] + ScopeBlobs(scopes, su)
  }

  function OptBlob(kind: Kind, scope: Option<ScopeId>, data: Option<Bytes>, su: Setup): (r: seq<Blob>)
    ensures forall b | b in r :: b.kind == kind
  {
    if data.None? then [] else [Blob(kind, scope, data.value, su.sequence)]
  }

  ghost function FilterBlobs(kind: Kind, keys: seq<Key>, hint: nat, su: Setup): (r: seq<Blob>)
    ensures forall b | b in r :: b.kind == kind
  {
    var f := Built(keys, hint, su.opts.filterBits, su.mix);
    OptBlob(kind, None, if f.None? then None else Some(FilterBytes(f.value)), su)
  }

  function ScopeKeys(scope: ScopeId, nodes: seq<NodeId>, su: Setup): seq<Key> {
    seq<Key>(|nodes|, i requires 0 <= i < |nodes| => su.overlayKey(scope, nodes[i]))
  }

  function Nodes(pairs: seq<Pair>): seq<NodeId> {
    seq(|pairs|, i requires 0 <= i < |pairs| => pairs[i].0)
  }

  /** The keys of the first `n` overlays, each hashed with its scope. */
  ghost function OverlayKeys(scopes: seq<Section>, n: nat, su: Setup): seq<Key>
    requires n <= |scopes|
  {
    if n == 0 then []
    else OverlayKeys(scopes, n - 1, su) + ScopeKeys(scopes[n - 1].0, Nodes(scopes[n - 1].1), su)
  }

  /** The distinct parents of the first `n` overlays, each hashed with its scope. */
  ghost function OverlayHeads(scopes: seq<Section>, n: nat, su: Setup): seq<Key>
    requires n <= |scopes|
  {
    if n == 0 then []
    else OverlayHeads(scopes, n - 1, su) + ScopeKeys(scopes[n - 1].0, Heads(Inverted(scopes[n - 1].1)), su)
  }

  /** The member index of one overlay, if it has any pair but self-edges. */
  ghost function ScopeIndex(section: Section, su: Setup): (r: seq<Blob>)
    ensures forall b | b in r :: b.kind.OverlayMembers?
  {
    OptBlob(OverlayMembers(su.opts.members), Some(section.0), MemberData(section.1, su.opts.members), su)
  }

  ghost function ScopeMembers(scopes: seq<Section>, n: nat, su: Setup): (r: seq<Blob>)
    requires n <= |scopes|
    ensures forall b | b in r :: b.kind.OverlayMembers?
  {
    if n == 0 then [] else ScopeMembers(scopes, n - 1, su) + ScopeIndex(scopes[n - 1], su)
  }

  ghost function SharedIndex(shared: seq<Pair>, su: Setup): seq<Blob> {
    OptBlob(SharedMembers(su.opts.members), None, MemberData(shared, su.opts.members), su)
  }

  ghost function MemberTables(shared: seq<Pair>, scopes: seq<Section>, su: Setup): seq<Blob> {
    SharedIndex(shared, su) + ScopeMembers(scopes, |scopes|, su)
  }

  ghost function MemberBlobs(shared: seq<Pair>, scopes: seq<Section>, su: Setup): seq<Blob> {
    var heads, overlay := Heads(Inverted(shared)), OverlayHeads(scopes, |scopes|, su);
    MemberTables(shared, scopes, su)
    + FilterBlobs(SharedMembersFilter, heads, |heads|, su)
    + FilterBlobs(OverlayMembersFilter, overlay, |overlay|, su)
  }

  /** Filter keys in the order they are given, which a snapshot's own lists may not sort. */
  datatype FilterKeys = FilterKeys(shared: seq<Key>, overlay: seq<Key>)

  /** Everything behind the tables, before the member index. */
  ghost function Indexes(registry: seq<Entry>, keys: FilterKeys, su: Setup): seq<Blob>
    requires Ascend(registry)
  {
    OptBlob(Registry(su.opts.registry), None, RegistryData(registry, su.opts.registry), su)
    + FilterBlobs(SharedFilter, keys.shared, |keys.shared|, su)
    + FilterBlobs(OverlayFilter, keys.overlay, |keys.overlay|, su)
  }

  ghost function BlobsOf(shared: seq<Pair>, scopes: seq<Section>, registry: seq<Entry>, keys: FilterKeys,
                         su: Setup): seq<Blob>
    requires Ascend(registry)
  {
    Tables(shared, scopes, su) + Indexes(registry, keys, su)
    + if su.opts.memberIndex then MemberBlobs(shared, scopes, su) else []
  }

  // --- shared by both ---------------------------------------------------------------------

  method AddFilter(kind: Kind, keys: seq<Key>, hint: nat, su: Setup) returns (blobs: seq<Blob>)
    ensures blobs == FilterBlobs(kind, keys, hint, su)
  {
    var f := BuildWith(keys, hint, su.opts.filterBits, su.mix);
    if f.None? {
      return [];
    }
    var data := EncodeFilter(f.value);
    blobs := [Blob(kind, None, data, su.sequence)];
  }

  method AddIndexes(registry: seq<Entry>, keys: FilterKeys, su: Setup) returns (blobs: seq<Blob>)
    requires Ascend(registry)
    ensures blobs == Indexes(registry, keys, su)
  {
    var data := EncodeRegistry(registry, su.opts.registry);
    var shared := AddFilter(SharedFilter, keys.shared, |keys.shared|, su);
    var overlay := AddFilter(OverlayFilter, keys.overlay, |keys.overlay|, su);
    blobs := OptBlob(Registry(su.opts.registry), None, data, su) + shared + overlay;
  }

  predicate IsTable(b: Blob) {
    b.kind.SharedTable? || b.kind.ScopeTable?
  }

  ghost predicate Sections64(scopes: seq<Section>) {
    forall i | 0 <= i < |scopes| :: Pairs64(scopes[i].1)
  }

  /** `blobs` begins with these tables and holds no others. */
  ghost predicate BeginsAs(blobs: seq<Blob>, shared: seq<Pair>, scopes: seq<Section>, su: Setup, u: Unfold) {
    && Pairs64(shared) && Sections64(scopes)
    && 1 + |scopes| <= |blobs| && blobs[..1 + |scopes|] == Tables(shared, scopes, su)
    && forall i | 1 + |scopes| <= i < |blobs| :: !IsTable(blobs[i])
  }

  ghost predicate BeginsWith(blobs: seq<Blob>, shared: seq<Pair>, scopes: seq<Section>, su: Setup) {
    forall u :: BeginsAs(blobs, shared, scopes, su, u)
  }

  lemma ScopeAt(blobs: seq<Blob>, shared: seq<Pair>, scopes: seq<Section>, su: Setup, i: nat)
    requires BeginsWith(blobs, shared, scopes, su) && i < |blobs|
    ensures |scopes| < |blobs|
    ensures i == 0 ==> blobs[i] == TableBlob(SharedTable, None, shared, su) && Pairs64(shared)
    ensures 0 < i <= |scopes| ==> blobs[i] == TableBlob(ScopeTable, Some(scopes[i - 1].0), scopes[i - 1].1, su)
    ensures 0 < i <= |scopes| ==> Pairs64(scopes[i - 1].1)
    ensures |scopes| < i ==> !IsTable(blobs[i])
  {
    assert BeginsAs(blobs, shared, scopes, su, Unfolded);
    if i <= |scopes| {
      assert blobs[i] == blobs[..1 + |scopes|][i];
    }
  }

  method IndexShared(b: Blob, su: Setup, ghost shared: seq<Pair>) returns (blobs: seq<Blob>, heads: seq<nat>)
    requires b == TableBlob(SharedTable, None, shared, su) && Pairs64(shared)
    ensures blobs == SharedIndex(shared, su) && heads == Heads(Inverted(shared))
  {
    var payload, parents := EncodeMembers(b.data, su.opts.members, shared);
    blobs, heads := OptBlob(SharedMembers(su.opts.members), None, payload, su), parents;
  }

  method IndexScope(b: Blob, su: Setup, ghost section: Section) returns (blobs: seq<Blob>, heads: seq<Key>)
    requires b == TableBlob(ScopeTable, Some(section.0), section.1, su) && Pairs64(section.1)
    ensures blobs == ScopeIndex(section, su) && heads == ScopeKeys(section.0, Heads(Inverted(section.1)), su)
  {
    var payload, parents := EncodeMembers(b.data, su.opts.members, section.1);
    blobs := OptBlob(OverlayMembers(su.opts.members), b.scope, payload, su);
    heads := ScopeKeys(b.scope.value, parents, su);
  }

  /** What is gathered from the first `i` blobs. */
  datatype Gathered = Gathered(members: seq<Blob>, shared: seq<nat>, overlay: seq<Key>)

  /** The tables among the first `i` blobs behind the shared one. */
  function ScopesSeen(i: nat, scopes: seq<Section>): nat {
    if i == 0 then 0 else Min(i - 1, |scopes|)
  }

  datatype Field = TheMembers | TheShared | TheOverlay

  ghost predicate Holds(g: Gathered, i: nat, shared: seq<Pair>, scopes: seq<Section>, su: Setup, field: Field) {
    match field
    case TheMembers =>
      g.members == (if i == 0 then [] else SharedIndex(shared, su)) + ScopeMembers(scopes, ScopesSeen(i, scopes), su)
    case TheShared => i > 0 ==> g.shared == Heads(Inverted(shared))
    case TheOverlay => g.overlay == OverlayHeads(scopes, ScopesSeen(i, scopes), su)
  }

  ghost predicate Gathers(g: Gathered, i: nat, shared: seq<Pair>, scopes: seq<Section>, su: Setup) {
    forall field :: Holds(g, i, shared, scopes, su, field)
  }

  lemma GatherShared(g: Gathered, shared: seq<Pair>, scopes: seq<Section>, su: Setup, more: seq<Blob>, heads: seq<nat>)
    requires Gathers(g, 0, shared, scopes, su) && more == SharedIndex(shared, su) && heads == Heads(Inverted(shared))
    ensures Gathers(g.(members := g.members + more, shared := heads), 1, shared, scopes, su)
  {
    var g' := g.(members := g.members + more, shared := heads);
    forall field ensures Holds(g', 1, shared, scopes, su, field) {
      assert Holds(g, 0, shared, scopes, su, field);
    }
  }

  lemma GatherMembers(g: Gathered, g': Gathered, i: nat, shared: seq<Pair>, scopes: seq<Section>, su: Setup,
                      more: seq<Blob>)
    requires Holds(g, i, shared, scopes, su, TheMembers) && 0 < i <= |scopes| && more == ScopeIndex(scopes[i - 1], su)
    requires g'.members == g.members + more
    ensures Holds(g', i + 1, shared, scopes, su, TheMembers)
  {
    assert ScopesSeen(i, scopes) == i - 1 && ScopesSeen(i + 1, scopes) == i;
    assert ScopeMembers(scopes, i, su) == ScopeMembers(scopes, i - 1, su) + more;
    Regroup(SharedIndex(shared, su), ScopeMembers(scopes, i - 1, su), more);
  }

  lemma GatherHeads(g: Gathered, g': Gathered, i: nat, shared: seq<Pair>, scopes: seq<Section>, su: Setup,
                    heads: seq<Key>)
    requires Holds(g, i, shared, scopes, su, TheOverlay) && 0 < i <= |scopes|
    requires heads == ScopeKeys(scopes[i - 1].0, Heads(Inverted(scopes[i - 1].1)), su)
    requires g'.overlay == g.overlay + heads
    ensures Holds(g', i + 1, shared, scopes, su, TheOverlay)
  {
  }

  lemma GatherScope(g: Gathered, i: nat, shared: seq<Pair>, scopes: seq<Section>, su: Setup,
                    more: seq<Blob>, heads: seq<Key>)
    requires Gathers(g, i, shared, scopes, su) && 0 < i <= |scopes| && more == ScopeIndex(scopes[i - 1], su)
    requires heads == ScopeKeys(scopes[i - 1].0, Heads(Inverted(scopes[i - 1].1)), su)
    ensures Gathers(g.(members := g.members + more, overlay := g.overlay + heads), i + 1, shared, scopes, su)
  {
    var g', next := g.(members := g.members + more, overlay := g.overlay + heads), i + 1;
    assert Holds(g, i, shared, scopes, su, TheMembers) && Holds(g, i, shared, scopes, su, TheOverlay);
    GatherMembers(g, g', i, shared, scopes, su, more);
    GatherHeads(g, g', i, shared, scopes, su, heads);
    forall field ensures Holds(g', next, shared, scopes, su, field) {
      assert Holds(g, i, shared, scopes, su, field);
    }
  }

  lemma GatherNone(g: Gathered, i: nat, shared: seq<Pair>, scopes: seq<Section>, su: Setup)
    requires Gathers(g, i, shared, scopes, su) && |scopes| < i
    ensures Gathers(g, i + 1, shared, scopes, su)
  {
    var next := i + 1;
    forall field ensures Holds(g, next, shared, scopes, su, field) {
      assert Holds(g, i, shared, scopes, su, field);
    }
  }

  /** Invert every table among the blobs, skipping the rest. */
  method IndexTables(blobs: seq<Blob>, su: Setup, ghost shared: seq<Pair>, ghost scopes: seq<Section>)
    returns (g: Gathered)
    requires BeginsWith(blobs, shared, scopes, su)
    ensures Gathers(g, |blobs|, shared, scopes, su)
  {
    g := Gathered([], [], []);
    for i := 0 to |blobs|
      invariant Gathers(g, i, shared, scopes, su)
    {
      var b := blobs[i];
      ScopeAt(blobs, shared, scopes, su, i);
      if b.kind.SharedTable? {
        var more, heads := IndexShared(b, su, shared);
        GatherShared(g, shared, scopes, su, more, heads);
        g := g.(members := g.members + more, shared := heads);
      } else if b.kind.ScopeTable? {
        var more, heads := IndexScope(b, su, scopes[i - 1]);
        GatherScope(g, i, shared, scopes, su, more, heads);
        g := g.(members := g.members + more, overlay := g.overlay + heads);
      } else {
        GatherNone(g, i, shared, scopes, su);
      }
    }
  }

  lemma Regroup(a: seq<Blob>, b: seq<Blob>, c: seq<Blob>)
    ensures (a + b) + c == a + (b + c)
  {
  }

  method AddMembers(blobs: seq<Blob>, su: Setup, ghost shared: seq<Pair>, ghost scopes: seq<Section>)
    returns (members: seq<Blob>)
    requires BeginsWith(blobs, shared, scopes, su)
    ensures members == MemberBlobs(shared, scopes, su)
  {
    var g := IndexTables(blobs, su, shared, scopes);
    var first := AddFilter(SharedMembersFilter, g.shared, |g.shared|, su);
    var second := AddFilter(OverlayMembersFilter, g.overlay, |g.overlay|, su);
    assert BeginsAs(blobs, shared, scopes, su, Unfolded) && Holds(g, |blobs|, shared, scopes, su, TheMembers);
    assert Holds(g, |blobs|, shared, scopes, su, TheShared) && Holds(g, |blobs|, shared, scopes, su, TheOverlay);
    members := g.members + first + second;
  }

  lemma NoTables(registry: seq<Entry>, keys: FilterKeys, su: Setup)
    requires Ascend(registry)
    ensures forall b | b in Indexes(registry, keys, su) :: !IsTable(b)
  {
  }

  lemma TablesBegin(shared: seq<Pair>, scopes: seq<Section>, rest: seq<Blob>, su: Setup)
    requires Pairs64(shared) && Sections64(scopes) && forall b | b in rest :: !IsTable(b)
    ensures BeginsWith(Tables(shared, scopes, su) + rest, shared, scopes, su)
  {
    var blobs := Tables(shared, scopes, su) + rest;
    forall i | 1 + |scopes| <= i < |blobs| ensures !IsTable(blobs[i]) {
      assert blobs[i] in rest;
    }
  }

  /** Tables and indexes in hand, add the member index if it is wanted. */
  method Complete(tables: seq<Blob>, indexes: seq<Blob>, su: Setup, ghost shared: seq<Pair>, ghost scopes: seq<Section>,
                  ghost registry: seq<Entry>, ghost keys: FilterKeys) returns (blobs: seq<Blob>)
    requires Pairs64(shared) && Sections64(scopes) && Ascend(registry)
    requires tables == Tables(shared, scopes, su) && indexes == Indexes(registry, keys, su)
    ensures blobs == BlobsOf(shared, scopes, registry, keys, su)
  {
    blobs := tables + indexes;
    if su.opts.memberIndex {
      NoTables(registry, keys, su);
      TablesBegin(shared, scopes, indexes, su);
      var members := AddMembers(blobs, su, shared, scopes);
      blobs := blobs + members;
    }
  }

  // --- encoding a snapshot -------------------------------------------------------------------------

  /** A snapshot's pairs as a lookup table. */
  function TableMap(pairs: seq<Pair>): map<NodeId, NodeId> {
    if pairs == [] then map[] else TableMap(pairs[..|pairs| - 1])[pairs[|pairs| - 1].0 := pairs[|pairs| - 1].1]
  }

  /** A member's live root, as a snapshot's own shared table has it. */
  function RootIn(shared: map<NodeId, NodeId>, x: NodeId): NodeId {
    if x in shared then shared[x] else x
  }

  /** The first `n` pairs' ends, by their live roots. */
  function SectionRoots(shared: map<NodeId, NodeId>, section: Section, n: nat): seq<Entry>
    requires n <= |section.1|
  {
    if n == 0 then []
    else
      var (a, b) := section.1[n - 1];
      SectionRoots(shared, section, n - 1) + [(RootIn(shared, a), section.0), (RootIn(shared, b), section.0)]
  }

  function AllRoots(shared: map<NodeId, NodeId>, scopes: seq<Section>, n: nat): seq<Entry>
    requires n <= |scopes|
  {
    if n == 0 then [] else AllRoots(shared, scopes, n - 1) + SectionRoots(shared, scopes[n - 1], |scopes[n - 1].1|)
  }

  function SnapshotRegistry(snap: Snapshot): (r: seq<Entry>)
    ensures Ascend(r)
  {
    SortEntries(AllRoots(TableMap(snap.global), snap.scopes, |snap.scopes|))
  }

  /** Register every overlay member on its live shared root. */
  method RegistryFromSnapshot(snap: Snapshot) returns (out: seq<Entry>)
    ensures out == SnapshotRegistry(snap)
  {
    var shared: map<NodeId, NodeId> := map[];
    for i := 0 to |snap.global|
      invariant shared == TableMap(snap.global[..i])
    {
      assert snap.global[..i + 1][..i] == snap.global[..i];
      shared := shared[snap.global[i].0 := snap.global[i].1];
    }
    assert snap.global[..|snap.global|] == snap.global;
    out := [];
    for i := 0 to |snap.scopes|
      invariant out == AllRoots(shared, snap.scopes, i)
    {
      var more := ListRoots(shared, snap.scopes[i]);
      out := out + more;
    }
    out := SortEntries(out);
  }

  method ListRoots(shared: map<NodeId, NodeId>, section: Section) returns (out: seq<Entry>)
    ensures out == SectionRoots(shared, section, |section.1|)
  {
    out := [];
    for i := 0 to |section.1|
      invariant out == SectionRoots(shared, section, i)
    {
      var (a, b) := section.1[i];
      out := out + [(RootIn(shared, a), section.0), (RootIn(shared, b), section.0)];
    }
  }

  ghost predicate UniqueKeys(pairs: seq<Pair>) {
    forall i, j | 0 <= i < j < |pairs| :: pairs[i].0 != pairs[j].0
  }

  ghost predicate Encodable(snap: Snapshot) {
    && UniqueKeys(snap.global) && Pairs64(snap.global) && Sections64(snap.scopes)
    && forall i | 0 <= i < |snap.scopes| :: UniqueKeys(snap.scopes[i].1)
  }

  function SortedSections(scopes: seq<Section>): seq<Section> {
    seq(|scopes|, i requires 0 <= i < |scopes| => (scopes[i].0, SortEntries(scopes[i].1)))
  }

  lemma Sorted64(pairs: seq<Pair>)
    requires Pairs64(pairs)
    ensures Pairs64(SortEntries(pairs))
  {
    forall i | 0 <= i < |SortEntries(pairs)|
      ensures SortEntries(pairs)[i].0 < U64 && SortEntries(pairs)[i].1 < U64
    {
      assert SortEntries(pairs)[i] in pairs;
    }
  }

  /** Nodes come once each, so sorting by key is sorting the pairs. */
  method EncodePairs(pairs: seq<Pair>) returns (data: Bytes)
    requires UniqueKeys(pairs)
    ensures data == TableBytes(SortEntries(pairs))
  {
    data := Blobs.WriteTable(SortEntries(pairs));
  }

  ghost function SnapshotKeys(snap: Snapshot, su: Setup): FilterKeys {
    FilterKeys(Nodes(snap.global), OverlayKeys(snap.scopes, |snap.scopes|, su))
  }

  method ListKeys(scopes: seq<Section>, su: Setup) returns (keys: seq<Key>)
    ensures keys == OverlayKeys(scopes, |scopes|, su)
  {
    keys := [];
    for i := 0 to |scopes|
      invariant keys == OverlayKeys(scopes, i, su)
    {
      keys := keys + ScopeKeys(scopes[i].0, Nodes(scopes[i].1), su);
    }
  }

  method EncodeScopes(scopes: seq<Section>, su: Setup) returns (blobs: seq<Blob>)
    requires forall i | 0 <= i < |scopes| :: UniqueKeys(scopes[i].1)
    ensures blobs == ScopeBlobs(SortedSections(scopes), su)
  {
    blobs := [];
    for i := 0 to |scopes|
      invariant blobs == ScopeBlobs(SortedSections(scopes), su)[..i]
    {
      var data := EncodePairs(scopes[i].1);
      blobs := blobs + [Blob(ScopeTable, Some(scopes[i].0), data, su.sequence)];
    }
  }

  /** Encode a collected snapshot. */
  method SnapshotToBlobs(snap: Snapshot, su: Setup) returns (blobs: seq<Blob>)
    requires Encodable(snap)
    ensures blobs == BlobsOf(SortEntries(snap.global), SortedSections(snap.scopes),
                             SnapshotRegistry(snap), SnapshotKeys(snap, su), su)
  {
    var shared := EncodePairs(snap.global);
    var scopes := EncodeScopes(snap.scopes, su);
    var registry := RegistryFromSnapshot(snap);
    var overlay := ListKeys(snap.scopes, su);
    var keys := FilterKeys(Nodes(snap.global), overlay);
    var indexes := AddIndexes(registry, keys, su);
    Sorted64(snap.global);
    forall i | 0 <= i < |snap.scopes| ensures Pairs64(SortedSections(snap.scopes)[i].1) {
      Sorted64(snap.scopes[i].1);
    }
    blobs := Complete([Blob(SharedTable, None, shared, su.sequence)] + scopes, indexes, su,
                      SortEntries(snap.global), SortedSections(snap.scopes), registry, keys);
  }

  // --- encoding a stream ------------------------------------------------------------------------------

  /** The scope being written: its table so far, and how many pairs it holds. */
  datatype Open = Open(scope: ScopeId, buf: Bytes, count: nat)

  ghost predicate ClosesAs(blobs: seq<Blob>, sections: seq<Section>, su: Setup, u: Unfold) {
    blobs == ScopeBlobs(sections, su)
  }

  /** The closed scopes' tables. */
  ghost predicate Closes(blobs: seq<Blob>, sections: seq<Section>, su: Setup) {
    forall u :: ClosesAs(blobs, sections, su, u)
  }

  lemma CloseMore(blobs: seq<Blob>, sections: seq<Section>, su: Setup, scope: ScopeId, pairs: seq<Pair>)
    requires Closes(blobs, sections, su)
    ensures Closes(blobs + [Blob(ScopeTable, Some(scope), TableBytes(pairs), su.sequence)],
                   sections + [(scope, pairs)], su)
  {
    assert ClosesAs(blobs, sections, su, Unfolded);
  }

  class BlobWriter {
    const su: Setup
    var shared: Bytes
    var sharedPairs: nat
    var scope: Option<Open>
    var registry: seq<Entry>
    var scopeBlobs: seq<Blob>
    /** What has been written: shared pairs, closed scopes, and the open one's pairs. */
    ghost var pairs: seq<Pair>
    ghost var sections: seq<Section>
    ghost var filling: seq<Pair>

    ghost predicate Valid()
      reads this`shared, this`sharedPairs, this`pairs, this`scopeBlobs, this`sections, this`scope, this`filling
    {
      && Fills(shared, sharedPairs, pairs) && Closes(scopeBlobs, sections, su)
      && (scope.Some? ==> Fills(scope.value.buf, scope.value.count, filling))
    }

    constructor (su: Setup)
      ensures Valid() && this.su == su
      ensures pairs == [] && sections == [] && registry == [] && scope == None
    {
      this.su := su;
      shared, sharedPairs, scope, registry, scopeBlobs := Word(0, 8), 0, None, [], [];
      pairs, sections, filling := [], [], [];
    }

    method SharedPair(node: NodeId, root: NodeId)
      requires Valid()
      modifies this`shared, this`sharedPairs, this`pairs
      ensures Valid() && pairs == old(pairs) + [(node, root)]
    {
      FillMore(shared, sharedPairs, pairs, node, root);
      shared, sharedPairs := shared + Word(node, 8) + Word(root, 8), sharedPairs + 1;
      pairs := pairs + [(node, root)];
    }

    method ScopeStart(id: ScopeId)
      requires Valid()
      modifies this`scope, this`filling
      ensures Valid() && scope.Some? && scope.value.scope == id && filling == []
    {
      scope, filling := Some(Open(id, Word(0, 8), 0)), [];
    }

    /** Outside a scope there is nowhere to put a pair. */
    method OverlayPair(node: NodeId, root: NodeId)
      requires Valid()
      modifies this`scope, this`filling
      ensures Valid() && scope.Some? == old(scope).Some?
      ensures scope.Some? ==> scope.value.scope == old(scope).value.scope && filling == old(filling) + [(node, root)]
    {
      if scope.Some? {
        var o := scope.value;
        FillMore(o.buf, o.count, filling, node, root);
        scope := Some(Open(o.scope, o.buf + Word(node, 8) + Word(root, 8), o.count + 1));
        filling := filling + [(node, root)];
      }
    }

    /** A scope with nothing to write gets no blob. */
    method ScopeEnd()
      requires Valid()
      modifies this`scope, this`scopeBlobs, this`sections
      ensures Valid() && scope == None
      ensures sections == if old(scope).Some? && filling != [] then old(sections) + [(old(scope).value.scope, filling)]
                          else old(sections)
    {
      if scope.Some? {
        var o := scope.value;
        Filled(o.buf, o.count, filling);
        if o.count > 0 {
          CloseMore(scopeBlobs, sections, su, o.scope, filling);
          var data := CloseTable(o.buf, o.count);
          scopeBlobs := scopeBlobs + [Blob(ScopeTable, Some(o.scope), data, su.sequence)];
          sections := sections + [(o.scope, filling)];
        }
      }
      scope := None;
    }

    method RegistryEntry(root: NodeId, id: ScopeId)
      requires Valid()
      modifies this`registry
      ensures Valid() && registry == old(registry) + [(root, id)]
    {
      registry := registry + [(root, id)];
    }

    /** The overlay keys, read back from the scope blobs. */
    method WrittenKeys() returns (keys: seq<Key>)
      requires Valid() && Sections64(sections)
      ensures keys == OverlayKeys(sections, |sections|, su)
    {
      keys := [];
      assert ClosesAs(scopeBlobs, sections, su, Unfolded);
      for i := 0 to |scopeBlobs|
        invariant keys == OverlayKeys(sections, i, su)
      {
        var b := scopeBlobs[i];
        var read := TablePairs(b.data, sections[i].1);
        keys := keys + ScopeKeys(b.scope.value, Nodes(read), su);
      }
    }

    /** The blobs, the filters and the member index read back from the payloads. */
    method Finish() returns (blobs: seq<Blob>)
      requires Valid() && Pairs64(pairs) && Sections64(sections)
      ensures blobs == BlobsOf(pairs, sections, SortEntries(registry),
                               FilterKeys(Nodes(pairs), OverlayKeys(sections, |sections|, su)), su)
    {
      Filled(shared, sharedPairs, pairs);
      assert ClosesAs(scopeBlobs, sections, su, Unfolded);
      var data := CloseTable(shared, sharedPairs);
      var read := TablePairs(data, pairs);
      var overlay := WrittenKeys();
      var keys := FilterKeys(Nodes(read), overlay);
      var entries := SortEntries(registry);
      var indexes := AddIndexes(entries, keys, su);
      blobs := Complete([Blob(SharedTable, None, data, su.sequence)] + scopeBlobs, indexes, su,
                        pairs, sections, entries, keys);
    }
  }
}

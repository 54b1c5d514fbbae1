/**
 Streaming a forest straight into blobs, and collecting it into a snapshot that is
 then encoded, write the same bytes: tables, registry, filters and member index.
 A snapshot decoded from its blobs is the one that was written.
 */
module Snapshots {
  import opened Types
  import opened Sorting
  import opened ParentForest
  import opened ForestState
  import opened Folds
  import opened Forest
  import opened Compaction
  import opened Streaming
  import opened Varints
  import opened Blobs
  import opened BlobWriters

  // --- the two sinks -------------------------------------------------------------------

  /** The scopes that put out any pair. */
  function Kept(out: seq<Emission>, n: nat): seq<Section>
    requires n <= |out|
  {
    if n == 0 then []
    else Kept(out, n - 1) + if out[n - 1].pairs == [] then [] else [(out[n - 1].scope, out[n - 1].pairs)]
  }

  function SnapshotOf(out: Streamed): Snapshot {
    Snapshot(out.shared, Kept(out.scopes, |out.scopes|))
  }

  class SnapshotCollector {
    var global: seq<Pair>
    var scopes: seq<Section>
    var open: Option<Section>

    constructor ()
      ensures global == [] && scopes == [] && open == None
    {
      global, scopes, open := [], [], None;
    }

    method SharedPair(node: NodeId, root: NodeId)
      modifies this`global
      ensures global == old(global) + [(node, root)]
    {
      global := global + [(node, root)];
    }

    method ScopeStart(scope: ScopeId)
      modifies this`open
      ensures open == Some((scope, []))
    {
      open := Some((scope, []));
    }

    method OverlayPair(node: NodeId, root: NodeId)
      modifies this`open
      ensures open == if old(open).None? then None else Some((old(open).value.0, old(open).value.1 + [(node, root)]))
    {
      if open.Some? {
        open := Some((open.value.0, open.value.1 + [(node, root)]));
      }
    }

    /** A scope with nothing in it is dropped. */
    method ScopeEnd()
      modifies this`open, this`scopes
      ensures open == None
      ensures scopes == if old(open).Some? && old(open).value.1 != [] then old(scopes) + [old(open).value]
                        else old(scopes)
    {
      if open.Some? && open.value.1 != [] {
        scopes := scopes + [open.value];
      }
      open := None;
    }
  }

  method CollectScope(c: SnapshotCollector, e: Emission)
    modifies c`open, c`scopes
    ensures c.scopes == old(c.scopes) + if e.pairs == [] then [] else [(e.scope, e.pairs)]
  {
    c.ScopeStart(e.scope);
    for i := 0 to |e.pairs|
      invariant c.scopes == old(c.scopes) && c.open == Some((e.scope, e.pairs[..i]))
    {
      assert e.pairs[..i + 1] == e.pairs[..i] + [(e.pairs[i].0, e.pairs[i].1)];
      c.OverlayPair(e.pairs[i].0, e.pairs[i].1);
    }
    assert e.pairs[..|e.pairs|] == e.pairs;
    c.ScopeEnd();
  }

  /** Collect a stream. */
  method Collect(out: Streamed) returns (snap: Snapshot)
    ensures snap == SnapshotOf(out)
  {
    var c := new SnapshotCollector();
    for i := 0 to |out.shared|
      invariant fresh(c) && c.global == out.shared[..i] && c.scopes == []
    {
      c.SharedPair(out.shared[i].0, out.shared[i].1);
    }
    assert out.shared[..|out.shared|] == out.shared;
    for i := 0 to |out.scopes|
      invariant fresh(c) && c.global == out.shared && c.scopes == Kept(out.scopes, i)
    {
      CollectScope(c, out.scopes[i]);
    }
    snap := Snapshot(c.global, c.scopes);
  }

  method WritePairs(w: BlobWriter, pairs: seq<Pair>)
    requires w.Valid() && w.scope.Some? && w.filling == []
    modifies w`scope, w`filling
    ensures w.Valid() && w.scope.Some? && w.scope.value.scope == old(w.scope).value.scope && w.filling == pairs
  {
    for i := 0 to |pairs|
      invariant w.Valid() && w.filling == pairs[..i]
      invariant w.scope.Some? && w.scope.value.scope == old(w.scope).value.scope
    {
      assert pairs[..i + 1] == pairs[..i] + [(pairs[i].0, pairs[i].1)];
      w.OverlayPair(pairs[i].0, pairs[i].1);
    }
    assert pairs[..|pairs|] == pairs;
  }

  method WriteEntries(w: BlobWriter, entries: seq<Entry>)
    requires w.Valid()
    modifies w`registry
    ensures w.Valid() && w.registry == old(w.registry) + entries
  {
    for i := 0 to |entries|
      invariant w.Valid() && w.registry == old(w.registry) + entries[..i]
    {
      assert entries[..i + 1] == entries[..i] + [(entries[i].0, entries[i].1)];
      w.RegistryEntry(entries[i].0, entries[i].1);
    }
    assert entries[..|entries|] == entries;
  }

  method WriteScope(w: BlobWriter, e: Emission)
    requires w.Valid()
    modifies w`scope, w`filling, w`scopeBlobs, w`sections, w`registry
    ensures w.Valid() && w.registry == old(w.registry) + e.entries
    ensures w.sections == old(w.sections) + if e.pairs == [] then [] else [(e.scope, e.pairs)]
  {
    w.ScopeStart(e.scope);
    WritePairs(w, e.pairs);
    WriteEntries(w, e.entries);
    w.ScopeEnd();
  }

  ghost function StreamBlobs(out: Streamed, su: Setup): seq<Blob> {
    var snap := SnapshotOf(out);
    BlobsOf(snap.global, snap.scopes, SortEntries(AllEntries(out.scopes)), SnapshotKeys(snap, su), su)
  }

  method WriteShared(w: BlobWriter, shared: seq<Pair>)
    requires w.Valid() && w.pairs == []
    modifies w`shared, w`sharedPairs, w`pairs
    ensures w.Valid() && w.pairs == shared
  {
    for i := 0 to |shared|
      invariant w.Valid() && w.pairs == shared[..i]
    {
      assert shared[..i + 1] == shared[..i] + [(shared[i].0, shared[i].1)];
      w.SharedPair(shared[i].0, shared[i].1);
    }
    assert shared[..|shared|] == shared;
  }

  method WriteScopes(w: BlobWriter, scopes: seq<Emission>)
    requires w.Valid() && w.sections == [] && w.registry == []
    modifies w`scope, w`filling, w`scopeBlobs, w`sections, w`registry
    ensures w.Valid() && w.sections == Kept(scopes, |scopes|) && w.registry == AllEntries(scopes)
  {
    for i := 0 to |scopes|
      invariant w.Valid() && w.sections == Kept(scopes, i) && w.registry == AllEntries(scopes[..i])
    {
      assert scopes[..i + 1][..i] == scopes[..i];
      WriteScope(w, scopes[i]);
    }
    assert scopes[..|scopes|] == scopes;
  }

  /** Encode a stream as it comes. */
  method WriteStream(out: Streamed, su: Setup) returns (blobs: seq<Blob>)
    requires Pairs64(out.shared) && Sections64(Kept(out.scopes, |out.scopes|))
    ensures blobs == StreamBlobs(out, su)
  {
    var w := new BlobWriter(su);
    WriteShared(w, out.shared);
    WriteScopes(w, out.scopes);
    blobs := w.Finish();
  }

  // --- a stream is decided by the forest ---------------------------------------------------

  lemma KeysEntries(pairs: seq<Pair>)
    requires KeysAscend(pairs)
    ensures Ascend(pairs) && SortEntries(pairs) == pairs && UniqueKeys(pairs)
  {
    AscendUnique(SortEntries(pairs), pairs);
  }

  lemma EmitsUnique(p: Parents, keys: set<NodeId>, a: seq<Pair>, b: seq<Pair>)
    requires EmitsSet(p, keys, a) && EmitsSet(p, keys, b)
    ensures a == b
  {
    KeysEntries(a);
    KeysEntries(b);
    forall e: Pair ensures e in a <==> e in b {
      assert (e in a <==> HasPair(a, e.0, e.1)) && (e in b <==> HasPair(b, e.0, e.1));
    }
    AscendUnique(a, b);
  }

  ghost predicate SectionsRise(secs: seq<Section>) {
    forall i, j | 0 <= i < j < |secs| :: secs[i].0 < secs[j].0
  }

  ghost predicate HasScope(secs: seq<Section>, s: ScopeId) {
    exists i :: 0 <= i < |secs| && secs[i].0 == s
  }

  /** The sections are the lists, in scope order. */
  ghost predicate InOrderOf(secs: seq<Section>, lists: map<ScopeId, seq<Pair>>) {
    && SectionsRise(secs)
    && (forall i | 0 <= i < |secs| :: secs[i].0 in lists && lists[secs[i].0] == secs[i].1)
    && forall s | s in lists :: HasScope(secs, s)
  }

  lemma {:induction false} KeptBelow(out: seq<Emission>, n: nat, j: nat)
    requires ScopesRise(out) && n <= j < |out|
    ensures forall i | 0 <= i < |Kept(out, n)| :: Kept(out, n)[i].0 < out[j].scope
  {
    if n > 0 {
      KeptBelow(out, n - 1, j);
    }
  }

  lemma {:induction false} KeptInOrder(out: seq<Emission>, n: nat)
    requires ScopesRise(out) && n <= |out|
    ensures InOrderOf(Kept(out, n), ListsOf(out[..n]))
  {
    if n > 0 {
      KeptInOrder(out, n - 1);
      KeptBelow(out, n - 1, n - 1);
      assert out[..n][..n - 1] == out[..n - 1];
      if out[n - 1].pairs != [] {
        SectionPush(Kept(out, n - 1), ListsOf(out[..n - 1]), out[n - 1].scope, out[n - 1].pairs);
      } else {
        assert Kept(out, n) == Kept(out, n - 1);
      }
    }
  }

  lemma SectionPush(secs: seq<Section>, lists: map<ScopeId, seq<Pair>>, scope: ScopeId, pairs: seq<Pair>)
    requires InOrderOf(secs, lists) && forall i | 0 <= i < |secs| :: secs[i].0 < scope
    ensures InOrderOf(secs + [(scope, pairs)], lists[scope := pairs])
  {
    var more := secs + [(scope, pairs)];
    forall s | s in lists[scope := pairs] ensures HasScope(more, s) {
      if s == scope {
        assert more[|secs|].0 == s;
      } else {
        assert HasScope(secs, s);
        var i :| 0 <= i < |secs| && secs[i].0 == s;
        assert more[i].0 == s;
      }
    }
  }

  function ScopeIds(secs: seq<Section>): seq<nat> {
    seq(|secs|, i requires 0 <= i < |secs| => secs[i].0)
  }

  lemma ScopeIdsOf(secs: seq<Section>, lists: map<ScopeId, seq<Pair>>, s: ScopeId)
    requires InOrderOf(secs, lists)
    ensures s in ScopeIds(secs) <==> s in lists
  {
    if s in lists {
      assert HasScope(secs, s);
      var i :| 0 <= i < |secs| && secs[i].0 == s;
      assert ScopeIds(secs)[i] == s;
    }
  }

  lemma OrderUnique(a: seq<Section>, b: seq<Section>, lists: map<ScopeId, seq<Pair>>)
    requires InOrderOf(a, lists) && InOrderOf(b, lists)
    ensures a == b
  {
    forall s ensures s in ScopeIds(a) <==> s in ScopeIds(b) {
      ScopeIdsOf(a, lists, s);
      ScopeIdsOf(b, lists, s);
    }
    IncreasingUnique(ScopeIds(a), ScopeIds(b));
    forall i | 0 <= i < |a| ensures a[i] == b[i] {
      assert ScopeIds(a)[i] == ScopeIds(b)[i];
    }
  }

  lemma {:induction false} ListsFilled(out: seq<Emission>, s: ScopeId)
    requires s in ListsOf(out)
    ensures ListsOf(out)[s] != []
  {
    if out[|out| - 1].pairs == [] || out[|out| - 1].scope != s {
      ListsFilled(out[..|out| - 1], s);
    }
  }

  /** Streaming twice, the same comes out but for scopes with nothing in them. */
  lemma StreamUnique(t0: Tier, full: bool, a: Streamed, b: Streamed)
    requires Streams(t0, full, a) && Streams(t0, full, b)
    ensures SnapshotOf(a) == SnapshotOf(b)
  {
    EmitsUnique(Shared(t0), FoldKeys(BaseShared(t0.runs), t0.shared, full), a.shared, b.shared);
    forall s ensures ListOf(ListsOf(a.scopes), s) == ListOf(ListsOf(b.scopes), s) {
      assert ScopeDone(t0, full, ListsOf(a.scopes), AllEntries(a.scopes), s);
      assert ScopeDone(t0, full, ListsOf(b.scopes), AllEntries(b.scopes), s);
      EmitsUnique(Overlay(t0, s), Streaming.ScopeKeys(t0, full, s),
                  ListOf(ListsOf(a.scopes), s), ListOf(ListsOf(b.scopes), s));
    }
    SameLists(a.scopes, b.scopes);
    KeptLists(a.scopes);
    KeptLists(b.scopes);
    OrderUnique(Kept(a.scopes, |a.scopes|), Kept(b.scopes, |b.scopes|), ListsOf(a.scopes));
  }

  lemma KeptLists(out: seq<Emission>)
    requires ScopesRise(out)
    ensures InOrderOf(Kept(out, |out|), ListsOf(out))
  {
    KeptInOrder(out, |out|);
    assert out[..|out|] == out;
  }

  lemma SameLists(a: seq<Emission>, b: seq<Emission>)
    requires forall s :: ListOf(ListsOf(a), s) == ListOf(ListsOf(b), s)
    ensures ListsOf(a) == ListsOf(b)
  {
    forall s ensures s in ListsOf(a) <==> s in ListsOf(b) {
      assert ListOf(ListsOf(a), s) == ListOf(ListsOf(b), s);
      if s in ListsOf(a) {
        ListsFilled(a, s);
      }
      if s in ListsOf(b) {
        ListsFilled(b, s);
      }
    }
    forall s | s in ListsOf(a) ensures ListsOf(a)[s] == ListsOf(b)[s] {
      assert ListOf(ListsOf(a), s) == ListOf(ListsOf(b), s);
    }
  }

  // --- the registries agree ---------------------------------------------------------------------

  lemma {:induction false} TableMapHas(pairs: seq<Pair>, k: NodeId)
    requires UniqueKeys(pairs)
    ensures k in TableMap(pairs) <==> exists i :: 0 <= i < |pairs| && pairs[i].0 == k
    ensures forall i | 0 <= i < |pairs| && pairs[i].0 == k :: TableMap(pairs)[k] == pairs[i].1
  {
    if pairs != [] {
      TableMapHas(pairs[..|pairs| - 1], k);
    }
  }

  /** A full stream's shared table gives every node its root. */
  lemma StreamLive(t0: Tier, shared: seq<Pair>, x: NodeId)
    requires EmitsSet(Shared(t0), FoldKeys(BaseShared(t0.runs), t0.shared, true), shared)
    ensures RootIn(TableMap(shared), x) == Root(Shared(t0), x)
  {
    KeysEntries(shared);
    TableMapHas(shared, x);
    if x in Shared(t0) {
      assert HasPair(shared, x, Root(Shared(t0), x));
      var i :| 0 <= i < |shared| && shared[i] == (x, Root(Shared(t0), x));
    } else {
      forall i | 0 <= i < |shared| ensures shared[i].0 != x {
        assert HasPair(shared, shared[i].0, shared[i].1);
      }
    }
  }

  lemma {:induction false} EndsHave(shared: map<NodeId, NodeId>, g: Parents, section: Section, n: nat, e: Entry)
    requires Descending(g) && n <= |section.1| && forall x :: RootIn(shared, x) == Root(g, x)
    ensures e in SectionRoots(shared, section, n) <==> e.1 == section.0 && EndOf(g, section.1[..n], e.0)
  {
    if n > 0 {
      EndsHave(shared, g, section, n - 1, e);
      assert section.1[..n] == section.1[..n - 1] + [(section.1[n - 1].0, section.1[n - 1].1)];
      EndStep(g, section.1[..n - 1], section.1[n - 1].0, section.1[n - 1].1, e.0);
    }
  }

  lemma {:induction false} AllEndsHave(shared: map<NodeId, NodeId>, g: Parents, secs: seq<Section>, n: nat, e: Entry)
    requires Descending(g) && n <= |secs| && forall x :: RootIn(shared, x) == Root(g, x)
    ensures e in AllRoots(shared, secs, n) <==> exists i :: 0 <= i < n && e.1 == secs[i].0 && EndOf(g, secs[i].1, e.0)
  {
    if n > 0 {
      var last := secs[n - 1];
      AllEndsHave(shared, g, secs, n - 1, e);
      EndsHave(shared, g, last, |last.1|, e);
      assert last.1[..|last.1|] == last.1;
    }
  }

  /** The registry derived from a collected stream is the one the stream emitted. */
  lemma RegistriesAgree(t0: Tier, out: Streamed)
    requires Streams(t0, true, out)
    ensures SnapshotRegistry(SnapshotOf(out)) == SortEntries(AllEntries(out.scopes))
  {
    var g, shared, secs := Shared(t0), TableMap(out.shared), Kept(out.scopes, |out.scopes|);
    forall x ensures RootIn(shared, x) == Root(g, x) {
      StreamLive(t0, out.shared, x);
    }
    KeptLists(out.scopes);
    forall e: Entry ensures e in AllRoots(shared, secs, |secs|) <==> e in AllEntries(out.scopes) {
      AllEndsHave(shared, g, secs, |secs|, e);
      assert ScopeDone(t0, true, ListsOf(out.scopes), AllEntries(out.scopes), e.1);
      ListedEnds(g, secs, ListsOf(out.scopes), e);
      assert e == (e.0, e.1);
    }
    AscendUnique(SnapshotRegistry(SnapshotOf(out)), SortEntries(AllEntries(out.scopes)));
  }

  lemma ListedEnds(g: Parents, secs: seq<Section>, lists: map<ScopeId, seq<Pair>>, e: Entry)
    requires Descending(g) && InOrderOf(secs, lists)
    ensures EndOf(g, ListOf(lists, e.1), e.0)
       <==> exists i :: 0 <= i < |secs| && e.1 == secs[i].0 && EndOf(g, secs[i].1, e.0)
  {
    if EndOf(g, ListOf(lists, e.1), e.0) {
      assert e.1 in lists && HasScope(secs, e.1);
      var i :| 0 <= i < |secs| && secs[i].0 == e.1;
      assert EndOf(g, secs[i].1, e.0);
    }
  }

  // --- ids are 64-bit ------------------------------------------------------------------------------

  /** Every id a tier keys is a 64-bit one. */
  ghost predicate Ids64(t: Tier) {
    && (forall k | k in Shared(t) :: k < U64)
    && forall s, k | k in Overlay(t, s) :: k < U64
  }

  lemma {:induction false} KeysSpread(pairs: seq<Pair>, i: nat)
    requires KeysAscend(pairs) && i < |pairs|
    ensures pairs[i].0 >= pairs[0].0 + i
  {
    if i > 0 {
      KeysSpread(pairs, i - 1);
    }
  }

  /** Emitted pairs fit their fields, and their number fits its own. */
  lemma Emitted64(p: Parents, keys: set<NodeId>, pairs: seq<Pair>)
    requires EmitsSet(p, keys, pairs) && forall k | k in p :: k < U64
    ensures Pairs64(pairs)
  {
    forall i | 0 <= i < |pairs| ensures pairs[i].1 < pairs[i].0 < U64 {
      assert HasPair(pairs, pairs[i].0, pairs[i].1);
    }
    if pairs != [] {
      KeysSpread(pairs, |pairs| - 1);
    }
  }

  lemma Stream64(t0: Tier, full: bool, out: Streamed)
    requires Streams(t0, full, out) && Ids64(t0)
    ensures Encodable(SnapshotOf(out))
    ensures SortEntries(out.shared) == out.shared
    ensures SortedSections(SnapshotOf(out).scopes) == SnapshotOf(out).scopes
  {
    Emitted64(Shared(t0), FoldKeys(BaseShared(t0.runs), t0.shared, full), out.shared);
    KeysEntries(out.shared);
    var secs := SnapshotOf(out).scopes;
    KeptLists(out.scopes);
    forall i | 0 <= i < |secs|
      ensures Pairs64(secs[i].1) && UniqueKeys(secs[i].1) && SortEntries(secs[i].1) == secs[i].1
    {
      var s := secs[i].0;
      assert ScopeDone(t0, full, ListsOf(out.scopes), AllEntries(out.scopes), s);
      Emitted64(Overlay(t0, s), Streaming.ScopeKeys(t0, full, s), secs[i].1);
      KeysEntries(secs[i].1);
    }
  }

  // --- the two paths ----------------------------------------------------------------------------------

  ghost predicate FullAs(t0: Tier, out: Streamed, u: Unfold) {
    Streams(t0, true, out)
  }

  /** Everything composed, as a stream of `t0` puts it out. */
  ghost predicate FullStream(t0: Tier, out: Streamed) {
    forall u :: FullAs(t0, out, u)
  }

  /** Compact a forest straight into blobs. */
  method CompactToBlobs(f: ScopedForest, files: seq<RunFile>, su: Setup, ghost t0: Tier)
    returns (blobs: seq<Blob>, ghost out: Streamed)
    requires Reading(f, t0) && EncodesAll(files, f.runs) && Ids64(t0)
    modifies f.mem`shared, f.mem`scoped, f.mem.repr`parents
    ensures Reading(f, t0) && FullStream(t0, out) && blobs == StreamBlobs(out, su)
  {
    var streamed := Stream(f, files, true, t0);
    out := streamed;
    Stream64(t0, true, out);
    blobs := WriteStream(streamed, su);
  }

  /** Capture a snapshot of a forest. */
  method TakeSnapshot(f: ScopedForest, files: seq<RunFile>, ghost t0: Tier)
    returns (snap: Snapshot, ghost out: Streamed)
    requires Reading(f, t0) && EncodesAll(files, f.runs)
    modifies f.mem`shared, f.mem`scoped, f.mem.repr`parents
    ensures Reading(f, t0) && FullStream(t0, out) && snap == SnapshotOf(out)
  {
    var streamed := Stream(f, files, true, t0);
    out := streamed;
    snap := Collect(streamed);
  }

  /** Encoding what one stream collected is what the other wrote. */
  lemma PathsAgree(t0: Tier, a: Streamed, b: Streamed, su: Setup)
    requires FullStream(t0, a) && FullStream(t0, b) && Ids64(t0)
    ensures var snap := SnapshotOf(b);
      && Encodable(snap)
      && StreamBlobs(a, su) == BlobsOf(SortEntries(snap.global), SortedSections(snap.scopes),
                                       SnapshotRegistry(snap), SnapshotKeys(snap, su), su)
  {
    assert FullAs(t0, a, Unfolded) && FullAs(t0, b, Unfolded);
    StreamUnique(t0, true, a, b);
    Stream64(t0, true, b);
    RegistriesAgree(t0, a);
  }

  /** Collect a snapshot, then encode it. */
  method CollectToBlobs(f: ScopedForest, files: seq<RunFile>, su: Setup, ghost t0: Tier, ghost a: Streamed)
    returns (blobs: seq<Blob>)
    requires Reading(f, t0) && EncodesAll(files, f.runs) && Ids64(t0) && FullStream(t0, a)
    modifies f.mem`shared, f.mem`scoped, f.mem.repr`parents
    ensures Reading(f, t0) && blobs == StreamBlobs(a, su)
  {
    var snap;
    ghost var b;
    snap, b := TakeSnapshot(f, files, t0);
    PathsAgree(t0, a, b, su);
    blobs := SnapshotToBlobs(snap, su);
  }

  /** One full stream of the forest: written as it comes or collected and encoded, the same list of blobs. */
  method BothPaths(f: ScopedForest, files: seq<RunFile>, su: Setup)
    returns (streamed: seq<Blob>, collected: seq<Blob>, ghost out: Streamed)
    requires f.Valid() && EncodesAll(files, f.runs) && Ids64(f.State())
    modifies f.mem`shared, f.mem`scoped, f.mem.repr`parents
    ensures f.Valid() && FullStream(old(f.State()), out)
    ensures streamed == StreamBlobs(out, su)
    ensures var snap := SnapshotOf(out);
      && Encodable(snap)
      && collected == BlobsOf(SortEntries(snap.global), SortedSections(snap.scopes),
                              SnapshotRegistry(snap), SnapshotKeys(snap, su), su)
    ensures streamed == collected
  {
    ghost var t0 := f.State();
    ReadingStarts(f);
    streamed, out := CompactToBlobs(f, files, su, t0);
    collected := CollectToBlobs(f, files, su, t0, out);
    PathsAgree(t0, out, out, su);
    assert Sound(f, t0, Now);
  }

  // --- reading blobs back ------------------------------------------------------------------------------

  /** Behind the last section of no later scope. */
  function InsertSection(secs: seq<Section>, x: Section): seq<Section> {
    if secs == [] || secs[|secs| - 1].0 <= x.0 then secs + [x]
    else InsertSection(secs[..|secs| - 1], x) + [secs[|secs| - 1]]
  }

  function SortSections(secs: seq<Section>): seq<Section> {
    if secs == [] then [] else InsertSection(SortSections(secs[..|secs| - 1]), secs[|secs| - 1])
  }

  lemma {:induction false} SortedAlready(secs: seq<Section>)
    requires SectionsRise(secs)
    ensures SortSections(secs) == secs
  {
    if secs != [] {
      SortedAlready(secs[..|secs| - 1]);
    }
  }

  /** Decode every table; other kinds are passed over, and a damaged table refuses the file. */
  method BlobsToSnapshot(blobs: seq<Blob>, ghost shared: seq<Pair>, ghost scopes: seq<Section>, ghost su: Setup)
    returns (r: Option<Snapshot>)
    ensures BeginsWith(blobs, shared, scopes, su) && SectionsRise(scopes) ==> r == Some(Snapshot(shared, scopes))
  {
    var global: seq<Pair>, secs: seq<Section> := [], [];
    for i := 0 to |blobs|
      invariant BeginsWith(blobs, shared, scopes, su) ==> (i > 0 ==> global == shared)
      invariant BeginsWith(blobs, shared, scopes, su) ==> secs == scopes[..ScopesSeen(i, scopes)]
    {
      var b := blobs[i];
      if BeginsWith(blobs, shared, scopes, su) {
        ScopeAt(blobs, shared, scopes, su, i);
      }
      if b.kind.SharedTable? {
        var pairs := DecodePairs(b.data, shared);
        if pairs.None? {
          return None;
        }
        global := pairs.value;
      } else if b.kind.ScopeTable? {
        var pairs := DecodePairs(b.data, if 0 < i <= |scopes| then scopes[i - 1].1 else []);
        if b.scope.None? || pairs.None? {
          return None;
        }
        secs := secs + [(b.scope.value, pairs.value)];
      }
    }
    if BeginsWith(blobs, shared, scopes, su) {
      assert BeginsAs(blobs, shared, scopes, su, Unfolded);
      assert scopes[..|scopes|] == scopes;
      if SectionsRise(scopes) {
        SortedAlready(scopes);
      }
    }
    r := Some(Snapshot(global, SortSections(secs)));
  }

  lemma NoMemberTables(shared: seq<Pair>, scopes: seq<Section>, su: Setup)
    ensures forall b | b in MemberBlobs(shared, scopes, su) :: !IsTable(b)
  {
  }

  lemma BlobsBegin(shared: seq<Pair>, scopes: seq<Section>, registry: seq<Entry>, keys: FilterKeys, su: Setup)
    requires Ascend(registry) && Pairs64(shared) && Sections64(scopes)
    ensures BeginsWith(BlobsOf(shared, scopes, registry, keys, su), shared, scopes, su)
  {
    var indexes := Indexes(registry, keys, su);
    var members := if su.opts.memberIndex then MemberBlobs(shared, scopes, su) else [];
    NoTables(registry, keys, su);
    NoMemberTables(shared, scopes, su);
    forall b | b in indexes + members ensures !IsTable(b) {
      assert b in indexes || b in members;
    }
    TablesBegin(shared, scopes, indexes + members, su);
    Regroup(BlobWriters.Tables(shared, scopes, su), indexes, members);
  }

  /** A snapshot comes back from its blobs, its tables sorted. */
  method SnapshotRoundTrip(snap: Snapshot, su: Setup) returns (back: Option<Snapshot>)
    requires Encodable(snap) && SectionsRise(snap.scopes)
    ensures back == Some(Snapshot(SortEntries(snap.global), SortedSections(snap.scopes)))
  {
    var blobs := SnapshotToBlobs(snap, su);
    Sorted64(snap.global);
    forall i | 0 <= i < |snap.scopes| ensures Pairs64(SortedSections(snap.scopes)[i].1) {
      Sorted64(snap.scopes[i].1);
    }
    BlobsBegin(SortEntries(snap.global), SortedSections(snap.scopes),
               SnapshotRegistry(snap), SnapshotKeys(snap, su), su);
    back := BlobsToSnapshot(blobs, SortEntries(snap.global), SortedSections(snap.scopes), su);
  }
}

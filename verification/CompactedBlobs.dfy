/**
 The bytes of a background merge. It reads the files of a stack and writes the blobs of
 the one run they come to; for a whole stack these are, byte for byte, the blobs the
 forest itself streams out while everything waits for it.
 */
module CompactedBlobs {
  import opened Types
  import opened Sorting
  import opened ParentForest
  import opened Layers
  import opened ForestState
  import opened Folds
  import opened Forest
  import opened Compaction
  import opened Streaming
  import opened Varints
  import opened Filters
  import opened Blobs
  import opened BlobWriters
  import opened Snapshots
  import opened Registries

  // --- writing a merged run ------------------------------------------------------------------

  /** The overlays by ascending scope. */
  method ListSections(lists: map<ScopeId, seq<Pair>>) returns (secs: seq<Section>)
    ensures InOrderOf(secs, lists)
  {
    var scopes := SortKeys(lists.Keys);
    secs := [];
    for i := 0 to |scopes|
      invariant |secs| == i && forall j | 0 <= j < i :: secs[j] == (scopes[j], lists[scopes[j]])
    {
      secs := secs + [(scopes[i], lists[scopes[i]])];
    }
    forall s | s in lists ensures HasScope(secs, s) {
      var i :| 0 <= i < |scopes| && scopes[i] == s;
      assert secs[i].0 == s;
    }
  }

  ghost function FileKeys(file: RunFile, secs: seq<Section>, su: Setup): FilterKeys {
    FilterKeys(Nodes(file.shared), BlobWriters.OverlayKeys(secs, |secs|, su))
  }

  /** The blobs of a run file whose overlays are `secs` in order. */
  ghost function FileBlobs(file: RunFile, secs: seq<Section>, su: Setup): seq<Blob>
    requires Ascend(file.registry)
  {
    BlobsOf(file.shared, secs, file.registry, FileKeys(file, secs, su), su)
  }

  /** Each overlay's table, and its keys read back from the payload. */
  method WriteSections(secs: seq<Section>, su: Setup) returns (blobs: seq<Blob>, keys: seq<Key>)
    requires Sections64(secs)
    ensures blobs == ScopeBlobs(secs, su) && keys == BlobWriters.OverlayKeys(secs, |secs|, su)
  {
    blobs, keys := [], [];
    for i := 0 to |secs|
      invariant blobs == ScopeBlobs(secs, su)[..i] && keys == BlobWriters.OverlayKeys(secs, i, su)
    {
      var data := Blobs.WriteTable(secs[i].1);
      blobs := blobs + [Blob(ScopeTable, Some(secs[i].0), data, su.sequence)];
      var read := TablePairs(data, secs[i].1);
      keys := keys + BlobWriters.ScopeKeys(secs[i].0, Nodes(read), su);
    }
  }

  method WriteFile(file: RunFile, secs: seq<Section>, su: Setup) returns (blobs: seq<Blob>)
    requires Ascend(file.registry) && Pairs64(file.shared) && Sections64(secs)
    ensures blobs == FileBlobs(file, secs, su)
  {
    var shared := Blobs.WriteTable(file.shared);
    var scopes, overlay := WriteSections(secs, su);
    var read := TablePairs(shared, file.shared);
    var keys := FilterKeys(Nodes(read), overlay);
    var indexes := AddIndexes(file.registry, keys, su);
    blobs := Complete([Blob(SharedTable, None, shared, su.sequence)] + scopes, indexes, su,
                      file.shared, secs, file.registry, keys);
  }

  // --- ids are 64-bit ----------------------------------------------------------------------------

  lemma WritesEmits(p: Parents, table: Parents, pairs: seq<Pair>)
    requires Resolves(p, table) && Writes(pairs, table)
    ensures EmitsSet(p, p.Keys, pairs)
  {
    forall k: NodeId, v: NodeId ensures HasPair(pairs, k, v) <==> k in p && v == Root(p, k) {
      if k in p {
        assert HasPair(pairs, k, table[k]);
      }
    }
  }

  lemma Table64(p: Parents, table: Parents, pairs: seq<Pair>)
    requires Resolves(p, table) && Writes(pairs, table) && forall k | k in p :: k < U64
    ensures Pairs64(pairs)
  {
    WritesEmits(p, table, pairs);
    Emitted64(p, p.Keys, pairs);
  }

  lemma Ids64Runs(runs: seq<Run>, s: ScopeId)
    requires Ids64(OnlyRuns(runs))
    ensures forall k | k in BaseShared(runs) :: k < U64
    ensures forall k | k in BaseOverlay(runs, s) :: k < U64
  {
    EmptyMem(BaseShared(runs));
    EmptyMem(BaseOverlay(runs, s));
    assert Shared(OnlyRuns(runs)) == BaseShared(runs) && Overlay(OnlyRuns(runs), s) == BaseOverlay(runs, s);
  }

  lemma Overlay64(runs: seq<Run>, file: RunFile, m: Run, s: ScopeId)
    requires Compacts(runs, m) && Encodes(file, m) && Ids64(OnlyRuns(runs))
    ensures Pairs64(OverlayList(file, s))
  {
    Ids64Runs(runs, s);
    Table64(BaseOverlay(runs, s), OverlayOf(m.overlays, s), OverlayList(file, s));
  }

  lemma Merged64(runs: seq<Run>, file: RunFile, m: Run, secs: seq<Section>)
    requires Compacts(runs, m) && Encodes(file, m) && InOrderOf(secs, file.overlays) && Ids64(OnlyRuns(runs))
    ensures Pairs64(file.shared) && Sections64(secs)
  {
    Ids64Runs(runs, GLOBAL_SCOPE);
    Table64(BaseShared(runs), m.shared, file.shared);
    forall i | 0 <= i < |secs| ensures Pairs64(secs[i].1) {
      Overlay64(runs, file, m, secs[i].0);
      assert OverlayList(file, secs[i].0) == secs[i].1;
    }
  }

  /** Merge a stack's files into the blobs of one run that resolves exactly as they do. */
  method CompactFiles(files: seq<RunFile>, runs: seq<Run>, su: Setup)
    returns (blobs: seq<Blob>, ghost file: RunFile, ghost m: Run, ghost secs: seq<Section>)
    requires EncodesAll(files, runs) && Compaction.Layered(runs) && Ids64(OnlyRuns(runs))
    ensures Encodes(file, m) && Compacts(runs, m) && Trimmed(file) && InOrderOf(secs, file.overlays)
    ensures blobs == FileBlobs(file, secs, su)
  {
    var out;
    out, m := CompactLayers(files, runs);
    var sections := ListSections(out.overlays);
    file, secs := out, sections;
    Merged64(runs, file, m, secs);
    blobs := WriteFile(out, sections, su);
  }

  // --- and streaming it ------------------------------------------------------------------------------

  ghost predicate SameRun(m: Run, n: Run) {
    m.shared == n.shared && m.registry == n.registry && forall s :: OverlayOf(m.overlays, s) == OverlayOf(n.overlays, s)
  }

  lemma EmittedUnique(p: Parents, keys: set<NodeId>, a: Parents, b: Parents)
    requires Folds.Emitted(p, keys, a) && Folds.Emitted(p, keys, b)
    ensures a == b
  {
  }

  lemma EndsUnique(g: Parents, m: Run, n: Run)
    requires Descending(g) && FoldsRegistry(g, m) && FoldsRegistry(g, n)
    requires forall s :: OverlayOf(m.overlays, s) == OverlayOf(n.overlays, s)
    ensures m.registry == n.registry
  {
    forall r: NodeId, s: ScopeId ensures (r, s) in m.registry <==> (r, s) in n.registry {
      assert OverlayOf(m.overlays, s) == OverlayOf(n.overlays, s);
    }
    forall e: (NodeId, ScopeId) ensures e in m.registry <==> e in n.registry {
      assert e == (e.0, e.1);
      assert (e.0, e.1) in m.registry <==> (e.0, e.1) in n.registry;
    }
    assert m.registry == n.registry;
  }

  lemma OverlayUnique(t: Tier, m: Run, n: Run, full: bool, s: ScopeId)
    requires FoldsOverlay(t, m, full, s) && FoldsOverlay(t, n, full, s)
    ensures OverlayOf(m.overlays, s) == OverlayOf(n.overlays, s)
  {
    EmittedUnique(Overlay(t, s), FoldKeys(BaseOverlay(t.runs, s), OverlayOf(t.overlays, s), full),
                  OverlayOf(m.overlays, s), OverlayOf(n.overlays, s));
  }

  lemma FoldUnique(t: Tier, m: Run, n: Run, full: bool)
    requires FoldsTo(t, m, full) && FoldsTo(t, n, full)
    ensures SameRun(m, n)
  {
    EmittedUnique(Shared(t), FoldKeys(BaseShared(t.runs), t.shared, full), m.shared, n.shared);
    forall s ensures OverlayOf(m.overlays, s) == OverlayOf(n.overlays, s) {
      OverlayUnique(t, m, n, full, s);
    }
    EndsUnique(Shared(t), m, n);
  }

  lemma WritesUnique(a: seq<Pair>, b: seq<Pair>, table: Parents)
    requires Writes(a, table) && Writes(b, table)
    ensures a == b
  {
    KeysEntries(a);
    KeysEntries(b);
    forall e: Pair ensures e in a <==> e in b {
      assert e in a ==> HasPair(b, e.0, table[e.0]);
      assert e in b ==> HasPair(a, e.0, table[e.0]);
    }
    AscendUnique(a, b);
  }

  lemma FileUnique(a: RunFile, b: RunFile, m: Run, n: Run)
    requires Encodes(a, m) && Encodes(b, n) && SameRun(m, n) && Trimmed(a) && Trimmed(b)
    ensures a == b
  {
    WritesUnique(a.shared, b.shared, m.shared);
    AscendUnique(a.registry, b.registry);
    forall s ensures OverlayList(a, s) == OverlayList(b, s) {
      WritesUnique(OverlayList(a, s), OverlayList(b, s), OverlayOf(m.overlays, s));
    }
    forall s ensures s in a.overlays <==> s in b.overlays {
      assert OverlayList(a, s) == OverlayList(b, s);
    }
    forall s | s in a.overlays ensures a.overlays[s] == b.overlays[s] {
      assert OverlayList(a, s) == OverlayList(b, s);
    }
    assert a.overlays == b.overlays;
  }

  /** Merging a whole stack in the background and streaming it out write the same run file. */
  lemma MergedFile(runs: seq<Run>, file: RunFile, m: Run, out: Streamed)
    requires BaseInv(runs) && ExactStack(runs) && Compacts(runs, m) && Encodes(file, m) && Trimmed(file)
    requires Streams(OnlyRuns(runs), true, out)
    ensures file == FileOf(out)
  {
    CompactedFolds(runs, m);
    StreamFolds(OnlyRuns(runs), true, out);
    FoldUnique(OnlyRuns(runs), m, Streaming.Open(FileOf(out)), true);
    forall s | s in ListsOf(out.scopes) ensures ListsOf(out.scopes)[s] != [] {
      ListsFilled(out.scopes, s);
    }
    FileUnique(file, FileOf(out), m, Streaming.Open(FileOf(out)));
  }

  lemma MergedBlobs(runs: seq<Run>, file: RunFile, m: Run, secs: seq<Section>, out: Streamed, su: Setup)
    requires BaseInv(runs) && ExactStack(runs) && Compacts(runs, m) && Encodes(file, m) && Trimmed(file)
    requires InOrderOf(secs, file.overlays) && FullStream(OnlyRuns(runs), out)
    ensures FileBlobs(file, secs, su) == StreamBlobs(out, su)
  {
    assert FullAs(OnlyRuns(runs), out, Unfolded);
    MergedFile(runs, file, m, out);
    KeptLists(out.scopes);
    OrderUnique(secs, Kept(out.scopes, |out.scopes|), file.overlays);
  }

  /**
    A forest on its runs alone: the background merge of its files and the stream of the
    forest itself are the same list of blobs, byte for byte.
    */
  method BothCompactors(f: ScopedForest, files: seq<RunFile>, su: Setup)
    returns (merged: seq<Blob>, streamed: seq<Blob>, ghost out: Streamed)
    requires f.Valid() && f.State() == OnlyRuns(f.runs) && EncodesAll(files, f.runs) && Ids64(f.State())
    requires ExactStack(f.runs)
    modifies f.mem`shared, f.mem`scoped, f.mem.repr`parents
    ensures f.Valid() && FullStream(old(f.State()), out)
    ensures merged == StreamBlobs(out, su) && streamed == StreamBlobs(out, su)
  {
    ghost var runs, t0 := f.runs, f.State();
    assert BaseInv(runs);
    SliceLayered(runs, 0, |runs|);
    assert runs[0..|runs|] == runs;
    ghost var file, m, secs;
    merged, file, m, secs := CompactFiles(files, f.runs, su);
    ReadingStarts(f);
    streamed, out := CompactToBlobs(f, files, su, t0);
    assert Sound(f, t0, Now);
    MergedBlobs(runs, file, m, secs, out, su);
  }
}

/**
 Snapshot expiry and the sweep of unreachable objects. What is kept is a closure:
 the newest snapshots, those in the time window, and every snapshot that reading
 one of them back would walk. Nothing such a read needs is swept, nothing inside
 the grace window is touched, and a second sweep finds nothing to do.
 */
module Retention {
  import opened Types
  import opened Catalogs
  import opened RunLists

  type Path = nat

  /** A snapshot's metadata. Its runs are named by file; `modified` is the object's own age. */
  datatype Meta = Meta(
    committedAt: int,
    modified: int,
    puffin: Path,
    files: seq<Path>,
    format: bool,
    base: nat,
    runs: seq<LocalRun>)

  type Snapshots = map<nat, Meta>
  /** Every data and run object, with its modification time. */
  type Objects = map<Path, int>

  /** Times are in milliseconds; `keepFor` and `grace` are lengths of time. */
  datatype Policy = Policy(keepSnapshots: nat, keepFor: nat, grace: nat)

  // --- what reading a snapshot back needs ---------------------------------------------------

  function ReadingOf(snaps: Snapshots, k: nat): Reading
    requires k in snaps
  {
    ReadRunSet(snaps[k].format, k, snaps[k].base, snaps[k].runs)
  }

  /** The snapshots a cold start at `k` fetches. */
  ghost predicate Walks(snaps: Snapshots, k: nat, q: nat) {
    && k in snaps
    && match ReadingOf(snaps, k)
       case Accepted(SequencesOnly(first, last)) => q == k || first <= q <= last
       case _ => q == k
  }

  /** The run objects it downloads: those listed, or those of the snapshots it walks. */
  ghost predicate Downloads(snaps: Snapshots, k: nat, path: Path) {
    && k in snaps
    && match ReadingOf(snaps, k)
       case Accepted(Runs(runs)) => exists i :: 0 <= i < |runs| && runs[i].id == path
       case Accepted(SequencesOnly(_, _)) => exists q :: Walks(snaps, k, q) && q in snaps && snaps[q].puffin == path
       case Refused(_) => false
  }

  // --- the retained closure ------------------------------------------------------------------

  ghost function MaxOf(s: set<nat>): (r: nat)
    requires s != {}
    ensures r in s && forall x | x in s :: x <= r
  {
    var x :| x in s;
    if s == {x} then x
    else
      var rest := s - {x};
      assert s == rest + {x} && rest != {};
      Max(x, MaxOf(rest))
  }

  /** The `keep` highest. */
  ghost function Newest(all: set<nat>, keep: nat): set<nat>
    decreases keep
  {
    if keep == 0 || all == {} then {} else {MaxOf(all)} + Newest(all - {MaxOf(all)}, keep - 1)
  }

  ghost function Seeds(snaps: Snapshots, policy: Policy, now: int): set<nat> {
    Newest(snaps.Keys, Max(policy.keepSnapshots, 1))
    + (set k | k in snaps && snaps[k].committedAt >= now - policy.keepFor)
  }

  /** Whatever a kept snapshot's chain names is kept. */
  ghost predicate Closed(snaps: Snapshots, kept: set<nat>) {
    forall k, q | k in kept && Walks(snaps, k, q) :: q in kept
  }

  /** The least closed set holding the seeds. */
  ghost predicate IsRetained(snaps: Snapshots, policy: Policy, now: int, kept: set<nat>) {
    && Seeds(snaps, policy, now) <= kept && Closed(snaps, kept)
    && forall other | Closed(snaps, other) && Seeds(snaps, policy, now) <= other :: kept <= other
  }

  ghost predicate Named(m: Meta, path: Path) {
    path == m.puffin || path in m.files || exists i :: 0 <= i < |m.runs| && m.runs[i].id == path
  }

  ghost predicate Live(snaps: Snapshots, kept: set<nat>, path: Path) {
    exists k :: k in kept && k in snaps && Named(snaps[k], path)
  }

  /** What a sweep leaves. An empty catalog is left alone. */
  ghost predicate Swept(snaps: Snapshots, objects: Objects, policy: Policy, now: int, kept: set<nat>,
                        snaps': Snapshots, objects': Objects) {
    && (forall k :: k in snaps' <==> k in snaps && (k in kept || snaps[k].modified > now - policy.grace))
    && (forall k | k in snaps' :: snaps'[k] == snaps[k])
    && (forall p :: p in objects' <==> p in objects && (Live(snaps, kept, p) || objects[p] > now - policy.grace))
    && (forall p | p in objects' :: objects'[p] == objects[p])
  }

  // --- the worklist ----------------------------------------------------------------------------

  method Highest(s: set<nat>) returns (r: nat)
    requires s != {}
    ensures r == MaxOf(s)
  {
    var left := s;
    r := 0;
    ghost var seen: set<nat> := {};
    while left != {}
      invariant left <= s && seen == s - left
      invariant forall x | x in seen :: x <= r
      invariant if seen == {} then r == 0 else r in seen
      decreases left
    {
      var x :| x in left;
      r, left := Max(r, x), left - {x};
      seen := seen + {x};
    }
    assert seen == s && MaxOf(s) in seen;
  }

  method TakeNewest(all: set<nat>, keep: nat) returns (kept: set<nat>)
    ensures kept == Newest(all, keep)
  {
    kept := {};
    var left, n := all, keep;
    while n > 0 && left != {}
      invariant kept + Newest(left, n) == Newest(all, keep)
      decreases n
    {
      var top := Highest(left);
      kept, left, n := kept + {top}, left - {top}, n - 1;
    }
  }

  ghost function Between(first: nat, end: nat): (r: set<nat>)
    ensures forall q :: q in r <==> first <= q < end
  {
    if first >= end then {} else Between(first, end - 1) + {end - 1}
  }

  /** Add every snapshot of a chain that is not kept yet, and queue it in turn. */
  method KeepChain(first: nat, last: nat, kept: set<nat>, queue: set<nat>) returns (kept': set<nat>, queue': set<nat>)
    requires queue <= kept
    ensures kept' == kept + Between(first, last + 1) && queue' == queue + (kept' - kept)
  {
    kept', queue' := kept, queue;
    if first <= last {
      for q := first to last + 1
        invariant kept' == kept + Between(first, q) && queue' == queue + (kept' - kept)
      {
        if q !in kept' {
          kept', queue' := kept' + {q}, queue' + {q};
        }
      }
    }
  }

  /** Work through the queue until every kept snapshot's chain is kept. */
  method Close(snaps: Snapshots, seeds: set<nat>) returns (kept: set<nat>)
    ensures seeds <= kept && Closed(snaps, kept)
    ensures forall other | Closed(snaps, other) && seeds <= other :: kept <= other
  {
    kept := seeds;
    var queue := seeds;
    ghost var bound := if seeds == {} then 0 else MaxOf(seeds);
    while queue != {}
      invariant queue <= kept && seeds <= kept && forall k | k in kept :: k <= bound
      invariant forall k, q | k in kept - queue && Walks(snaps, k, q) :: q in kept
      invariant forall other | Closed(snaps, other) && seeds <= other :: kept <= other
      decreases Between(0, bound + 1) - kept, queue
    {
      var k :| k in queue;
      queue := queue - {k};
      if k in snaps {
        var reading := ReadingOf(snaps, k);
        if reading.Accepted? && reading.set_.SequencesOnly? {
          var first, last := reading.set_.first, reading.set_.last;
          ghost var before := kept;
          kept, queue := KeepChain(first, last, kept, queue);
          forall other | Closed(snaps, other) && seeds <= other ensures kept <= other {
            forall q | first <= q <= last ensures q in other {
              assert Walks(snaps, k, q);
            }
          }
        }
      }
    }
  }

  // --- the sweep -------------------------------------------------------------------------------------

  /** A table's snapshots and objects, as a sweep finds and leaves them. */
  class Bucket {
    var snaps: Snapshots
    var objects: Objects

    constructor (snaps: Snapshots, objects: Objects)
      ensures this.snaps == snaps && this.objects == objects
    {
      this.snaps, this.objects := snaps, objects;
    }

    method Collect(policy: Policy, now: int) returns (kept: set<nat>)
      modifies this
      ensures old(snaps) == map[] ==> snaps == map[] && objects == old(objects) && kept == {}
      ensures old(snaps) != map[] ==>
        && IsRetained(old(snaps), policy, now, kept)
        && Swept(old(snaps), old(objects), policy, now, kept, snaps, objects)
    {
      if snaps == map[] {
        return {};
      }
      var newest := TakeNewest(snaps.Keys, Max(policy.keepSnapshots, 1));
      kept := Close(snaps, newest + set k | k in snaps && snaps[k].committedAt >= now - policy.keepFor);
      var live := LivePaths(snaps, kept);
      objects := map p | p in objects && (p in live || objects[p] > now - policy.grace) :: objects[p];
      snaps := map k | k in snaps && (k in kept || snaps[k].modified > now - policy.grace) :: snaps[k];
    }
  }

  function RunPaths(runs: seq<LocalRun>): (r: set<Path>)
    ensures forall p :: p in r <==> exists i :: 0 <= i < |runs| && runs[i].id == p
  {
    set i | 0 <= i < |runs| :: runs[i].id
  }

  /** Everything the retained snapshots name. */
  method LivePaths(snaps: Snapshots, kept: set<nat>) returns (live: set<Path>)
    ensures forall p :: p in live <==> Live(snaps, kept, p)
  {
    live := {};
    var left := snaps.Keys;
    while left != {}
      invariant left <= snaps.Keys
      invariant forall p :: p in live <==> exists k :: k in kept && k in snaps && k !in left && Named(snaps[k], p)
      decreases left
    {
      var k :| k in left;
      left := left - {k};
      if k in kept {
        var m := snaps[k];
        live := live + {m.puffin} + (set p | p in m.files) + RunPaths(m.runs);
      }
    }
  }

  // --- what it promises --------------------------------------------------------------------------------

  lemma NewestFirst(all: set<nat>, keep: nat)
    requires keep >= 1 && all != {}
    ensures MaxOf(all) in Newest(all, keep)
  {
  }

  /** The newest snapshot stays, and so do those inside the window. */
  lemma NewestKept(snaps: Snapshots, objects: Objects, policy: Policy, now: int, kept: set<nat>,
                   snaps': Snapshots, objects': Objects)
    requires snaps != map[] && IsRetained(snaps, policy, now, kept)
    requires Swept(snaps, objects, policy, now, kept, snaps', objects')
    ensures MaxOf(snaps.Keys) in snaps'
    ensures forall k | k in snaps && snaps[k].committedAt >= now - policy.keepFor :: k in snaps'
  {
    NewestFirst(snaps.Keys, Max(policy.keepSnapshots, 1));
  }

  /** Reading a retained snapshot back fetches and downloads just what it did before the sweep. */
  lemma RetainedReadable(snaps: Snapshots, objects: Objects, policy: Policy, now: int, kept: set<nat>,
                         snaps': Snapshots, objects': Objects, k: nat)
    requires IsRetained(snaps, policy, now, kept) && Swept(snaps, objects, policy, now, kept, snaps', objects')
    requires k in kept && k in snaps
    ensures k in snaps' && ReadingOf(snaps', k) == ReadingOf(snaps, k)
    ensures forall q | Walks(snaps, k, q) && q in snaps :: q in snaps' && snaps'[q] == snaps[q]
    ensures forall p | Downloads(snaps, k, p) && p in objects :: p in objects'
  {
    forall p | Downloads(snaps, k, p) && p in objects ensures p in objects' {
      DownloadsLive(snaps, kept, k, p);
    }
  }

  lemma DownloadsLive(snaps: Snapshots, kept: set<nat>, k: nat, p: Path)
    requires Closed(snaps, kept) && k in kept && k in snaps && Downloads(snaps, k, p)
    ensures Live(snaps, kept, p)
  {
    var reading := ReadingOf(snaps, k);
    if reading.set_.Runs? {
      var runs := reading.set_.runs;
      var i :| 0 <= i < |runs| && runs[i].id == p;
      assert runs[i] in multiset(runs);
      assert runs[i] in snaps[k].runs;
      assert Named(snaps[k], p);
    } else {
      var q :| Walks(snaps, k, q) && q in snaps && snaps[q].puffin == p;
      assert Named(snaps[q], p);
    }
  }

  /**
    After a sweep, a process that probes forward from the sequence it last saw reads the
    newest snapshot exactly when the sweep spared every sequence between the two.
    */
  lemma SweptLatest(snaps: Snapshots, objects: Objects, policy: Policy, now: int, kept: set<nat>,
                    snaps': Snapshots, objects': Objects, cached: nat, seen: nat)
    requires snaps != map[] && IsRetained(snaps, policy, now, kept)
    requires Swept(snaps, objects, policy, now, kept, snaps', objects')
    requires 0 < cached && Reaches(snaps', cached, seen)
    ensures var newest := MaxOf(snaps.Keys);
      && newest in snaps' && snaps'[newest] == snaps[newest]
      && (AnswerAt(snaps', seen) == AnswerAt(snaps', newest) <==>
            && cached <= newest
            && forall k | cached < k <= newest ::
                 k in snaps && (k in kept || snaps[k].modified > now - policy.grace))
  {
    NewestKept(snaps, objects, policy, now, kept, snaps', objects');
    ReachesNewestIff(snaps', cached, MaxOf(snaps.Keys), seen);
  }

  /** It lists its runs, so reading it walks no other snapshot, and it is past window and grace. */
  predicate Old(m: Meta, policy: Policy, now: int) {
    m.format && m.committedAt < now - policy.keepFor && m.modified <= now - policy.grace
  }

  /** Two commits and a sweep strand whoever last saw the first of three snapshots. */
  lemma Overtaken(a: Meta, b: Meta, c: Meta, objects: Objects, policy: Policy, now: int, kept: set<nat>,
                  snaps': Snapshots, objects': Objects)
    requires Old(a, policy, now) && Old(b, policy, now) && Old(c, policy, now) && policy.keepSnapshots <= 1
    requires var snaps := map[1 := a, 2 := b, 3 := c];
      IsRetained(snaps, policy, now, kept) && Swept(snaps, objects, policy, now, kept, snaps', objects')
    ensures snaps' == map[3 := c] && Reaches(snaps', 1, 1) && AnswerAt(snaps', 1) == Gone(1)
  {
    var snaps := map[1 := a, 2 := b, 3 := c];
    assert 3 in snaps.Keys;
    assert MaxOf(snaps.Keys) == 3;
    assert Newest(snaps.Keys, 1) == {3} + Newest(snaps.Keys - {3}, 0);
    assert Closed(snaps, {3}) && Seeds(snaps, policy, now) == {3};
    assert kept == {3};
  }

  // --- sweeping twice -------------------------------------------------------------------------------------

  lemma {:induction false} NewestSame(all: set<nat>, some: set<nat>, keep: nat)
    requires some <= all && Newest(all, keep) <= some
    ensures Newest(some, keep) == Newest(all, keep)
    decreases keep
  {
    if keep > 0 && all != {} {
      var top := MaxOf(all);
      assert top in some && MaxOf(some) == top;
      NewestWithin(all - {top}, keep - 1);
      NewestSame(all - {top}, some - {top}, keep - 1);
    }
  }

  /** A sweep leaves what is retained as it was, and so would retain the same again. */
  lemma RetainedSame(snaps: Snapshots, snaps': Snapshots, policy: Policy, now: int, kept: set<nat>, kept': set<nat>)
    requires IsRetained(snaps, policy, now, kept) && IsRetained(snaps', policy, now, kept')
    requires forall k | k in snaps' :: k in snaps && snaps'[k] == snaps[k]
    requires forall k | k in snaps && k in kept :: k in snaps'
    ensures kept' == kept
  {
    SeedsSame(snaps, snaps', policy, now, kept);
    WalksSame(snaps, snaps', kept);
    assert kept' <= kept;
    assert Closed(snaps, kept');
  }

  lemma SeedsSame(snaps: Snapshots, snaps': Snapshots, policy: Policy, now: int, kept: set<nat>)
    requires Seeds(snaps, policy, now) <= kept
    requires forall k | k in snaps' :: k in snaps && snaps'[k] == snaps[k]
    requires forall k | k in snaps && k in kept :: k in snaps'
    ensures Seeds(snaps', policy, now) == Seeds(snaps, policy, now)
  {
    var keep := Max(policy.keepSnapshots, 1);
    NewestWithin(snaps.Keys, keep);
    NewestSame(snaps.Keys, snaps'.Keys, keep);
  }

  lemma WalksSame(snaps: Snapshots, snaps': Snapshots, kept: set<nat>)
    requires forall k | k in snaps' :: k in snaps && snaps'[k] == snaps[k]
    requires forall k | k in snaps && k in kept :: k in snaps'
    ensures forall k, q | k in kept :: Walks(snaps', k, q) == Walks(snaps, k, q)
  {
  }

  lemma {:induction false} NewestWithin(all: set<nat>, keep: nat)
    ensures Newest(all, keep) <= all
    decreases keep
  {
    if keep > 0 && all != {} {
      NewestWithin(all - {MaxOf(all)}, keep - 1);
    }
  }

  /** Nothing is left for a second sweep at the same time under the same policy. */
  lemma SecondSweepIdle(snaps: Snapshots, objects: Objects, policy: Policy, now: int, kept: set<nat>,
                        snaps': Snapshots, objects': Objects, kept': set<nat>, snaps'': Snapshots, objects'': Objects)
    requires IsRetained(snaps, policy, now, kept) && Swept(snaps, objects, policy, now, kept, snaps', objects')
    requires IsRetained(snaps', policy, now, kept') && Swept(snaps', objects', policy, now, kept', snaps'', objects'')
    ensures snaps'' == snaps' && objects'' == objects'
  {
    RetainedSame(snaps, snaps', policy, now, kept, kept');
    forall p ensures Live(snaps, kept, p) <==> Live(snaps', kept, p) {
      LiveSame(snaps, snaps', kept, p);
    }
  }

  lemma LiveSame(snaps: Snapshots, snaps': Snapshots, kept: set<nat>, p: Path)
    requires forall k | k in snaps' :: k in snaps && snaps'[k] == snaps[k]
    requires forall k | k in snaps && k in kept :: k in snaps'
    ensures Live(snaps, kept, p) <==> Live(snaps', kept, p)
  {
    if Live(snaps, kept, p) {
      var k :| k in kept && k in snaps && Named(snaps[k], p);
      assert k in snaps' && Named(snaps'[k], p);
    }
    if Live(snaps', kept, p) {
      var k :| k in kept && k in snaps' && Named(snaps'[k], p);
      assert k in snaps && Named(snaps[k], p);
    }
  }
}

/**
 Runs of the protocol that lose a merge's outcome, step by step, down to a state that
 no worker can leave. Every record is an edge from a node to itself, so every table
 along the way is empty; the stack is as high, and the merge as wide, as one likes.
 */
module LostMerges {
  import opened Types
  import opened ForestState
  import opened Folds
  import opened Events
  import opened Streams
  import opened Ingest
  import opened RunLists
  import opened Protocol
  import opened RunSets
  import Layers

  const NOTHING := Run(map[], map[], {})

  function Loop(k: nat): Record {
    Record(0, k, EdgeEvent(7, 7, Everywhere))
  }

  /** The first `n` records. */
  function Loops(n: nat): set<Record> {
    if n == 0 then {} else Loops(n - 1) + {Loop(n)}
  }

  lemma {:induction false} InLoops(n: nat, r: Record)
    ensures r in Loops(n) <==> 0 < r.offset <= n && r == Loop(r.offset)
  {
    if n > 0 {
      InLoops(n - 1, r);
    }
  }

  lemma LoopsLog(n: nat)
    ensures IsLog(Loops(n)) && forall r | r in Loops(n) :: r == Loop(r.offset)
  {
    forall r ensures r in Loops(n) <==> 0 < r.offset <= n && r == Loop(r.offset) {
      InLoops(n, r);
    }
  }

  // --- steps over empty tables ----------------------------------------------------------------

  /** Runs without a pair or an entry. */
  ghost predicate Bare(runs: seq<ForestState.Run>) {
    forall i | 0 <= i < |runs| :: runs[i] == NOTHING
  }

  lemma BareTables(runs: seq<ForestState.Run>, s: ScopeId)
    requires Bare(runs)
    ensures BaseShared(runs) == map[] && BaseOverlay(runs, s) == map[]
    ensures Shared(OnlyRuns(runs)) == map[] && Overlay(OnlyRuns(runs), s) == map[]
  {
    assert Layers.TableKeys(SharedTables(runs)) == {};
    assert Layers.TableKeys(OverlayTables(runs, s)) == {};
  }

  lemma BareFolds(runs: seq<ForestState.Run>, full: bool)
    requires Bare(runs)
    ensures FoldsTo(OnlyRuns(runs), NOTHING, full)
  {
    forall s ensures FoldsOverlay(OnlyRuns(runs), NOTHING, full, s) {
      BareTables(runs, s);
    }
    BareTables(runs, GLOBAL_SCOPE);
  }

  lemma BareCompacts(runs: seq<ForestState.Run>)
    requires Bare(runs)
    ensures Compacts(runs, NOTHING)
  {
    forall s ensures Layers.Resolves(BaseOverlay(runs, s), OverlayOf(NOTHING.overlays, s)) {
      BareTables(runs, s);
    }
    BareTables(runs, GLOBAL_SCOPE);
  }

  /** An edge from a node to itself joins nothing. */
  lemma BareApplies(runs: seq<ForestState.Run>, k: nat)
    requires Bare(runs)
    ensures Events.Applied(OnlyRuns(runs), OnlyRuns(runs), Loop(k).event)
  {
    BareTables(runs, GLOBAL_SCOPE);
  }

  // --- longer runs ----------------------------------------------------------------------------

  lemma Stays(log: set<Record>, trace: seq<Machine>, es: seq<Event>, e: Event, m: Machine, i: nat)
    requires |trace| == |es| + 1 && i < |es| && Protocol.StepAt(log, trace, es, i)
    ensures Protocol.StepAt(log, trace + [m], es + [e], i)
  {
    assert (trace + [m])[i] == trace[i] && (trace + [m])[i + 1] == trace[i + 1] && (es + [e])[i] == es[i];
  }

  lemma Longer(log: set<Record>, trace: seq<Machine>, es: seq<Event>, e: Event, m: Machine)
    requires Protocol.Run(log, trace, es) && Enabled(log, trace[|es|], e) && m == Next(log, trace[|es|], e)
    ensures Protocol.Run(log, trace + [m], es + [e])
  {
    forall i | 0 <= i <= |es| ensures Protocol.StepAt(log, trace + [m], es + [e], i) {
      if i < |es| {
        Stays(log, trace, es, e, m, i);
      }
    }
  }

  /** With no worker up only a start can happen, and that asks for a newest snapshot that reads. */
  lemma StuckIff(log: set<Record>, m: Machine)
    requires m.up.None?
    ensures (forall e :: !Enabled(log, m, e))
       <==> m.catalog != [] && !Readable(m.catalog[|m.catalog| - 1], |m.catalog|)
  {
    if m.catalog == [] {
      assert Enabled(log, m, Start(true, EMPTY));
    } else if Readable(m.catalog[|m.catalog| - 1], |m.catalog|) {
      assert Enabled(log, m, Start(true, OnRuns(m.catalog[|m.catalog| - 1].stack)));
    }
  }

  // --- a stack of deltas -------------------------------------------------------------------------

  /** `n` committed runs, a sequence each. */
  function Deltas(n: nat): seq<LocalRun> {
    seq(n, i requires 0 <= i < n => LocalRun(i, NOTHING, i + 1, i + 1, true))
  }

  /** The stack as the commit of sequence `n + 1` publishes it. */
  function Fresh(n: nat): seq<LocalRun> {
    Deltas(n) + [LocalRun(n, NOTHING, n + 1, n + 1, false)]
  }

  function At(n: nat): Position {
    if n == 0 then map[] else map[0 := n]
  }

  function Published(n: nat): seq<Snapshot> {
    seq(n, i requires 0 <= i < n => Snapshot(At(i + 1), [Loop(i + 1)], true, Fresh(i), Loops(i + 1)))
  }

  function Serving(n: nat, consumed: nat, sealed: seq<seq<Record>>, pending: Pending, phase: Phase): Worker {
    Worker(true, OnRuns(Deltas(n)), Loops(consumed), Loops(n), At(consumed), None, Held([], sealed), Deltas(n),
           pending, phase)
  }

  /** `n` records are consumed and committed, one by one. */
  function Settled(n: nat): Machine {
    Machine(Published(n), Loops(n), n, Some(Serving(n, n, [], NoMerge, Resting)))
  }

  /** One more is consumed, and a tick has sealed it. */
  function Ticked(n: nat, pending: Pending): Machine {
    Machine(Published(n), Loops(n + 1), n, Some(Serving(n, n + 1, [[Loop(n + 1)]], pending, Ready)))
  }

  lemma BareDeltas(n: nat)
    ensures Bare(Contents(Deltas(n))) && OnRuns(Deltas(n)) == OnlyRuns(Contents(Deltas(n)))
    ensures AllCommitted(Deltas(n)) && LatestPosition(Published(n)) == At(n)
  {
  }

  lemma NextLoop(log: set<Record>, n: nat)
    requires Loop(n + 1) in log && forall r | r in log :: r == Loop(r.offset)
    ensures IsNext(log, At(n), Loop(n + 1)) && Advance(At(n), 0, n + 1) == At(n + 1)
    ensures Loops(n) + {Loop(n + 1)} == Loops(n + 1)
  {
    assert Get(At(n), 0) == n;
  }

  lemma OneUndurable(n: nat)
    ensures Extent([Loop(n + 1)]) == At(n + 1) && Reached(At(n), [[Loop(n + 1)]]) == At(n + 1)
    ensures Undurable([[Loop(n + 1)]], At(n)) == [[Loop(n + 1)]]
    ensures Undurable([[Loop(n + 1)]], At(n + 1)) == []
  {
    assert Reached(At(n), []) == At(n);
    assert Undurable([], At(n)) == [] && Undurable([], At(n + 1)) == [];
  }

  /** A record is applied and appended, and a tick seals it. */
  lemma Consume(log: set<Record>, trace: seq<Machine>, es: seq<Event>, n: nat)
    returns (trace': seq<Machine>, es': seq<Event>)
    requires Protocol.Run(log, trace, es) && trace[|es|] == Settled(n)
    requires Loop(n + 1) in log && forall r | r in log :: r == Loop(r.offset)
    ensures Protocol.Run(log, trace', es') && trace'[|es'|] == Ticked(n, NoMerge)
  {
    var r, t := Loop(n + 1), OnRuns(Deltas(n));
    BareDeltas(n);
    BareApplies(Contents(Deltas(n)), n + 1);
    NextLoop(log, n);
    var applied := Next(log, Settled(n), Deliver(r, t));
    Longer(log, trace, es, Deliver(r, t), applied);
    trace', es' := trace + [applied], es + [Deliver(r, t)];
    var taken := Next(log, applied, Append);
    Longer(log, trace', es', Append, taken);
    trace', es' := trace' + [taken], es' + [Append];
    assert taken.up.value.held == Held([r], []);
    Taking(log, n, taken);
    Longer(log, trace', es', StartTick, Ticked(n, NoMerge));
    trace', es' := trace' + [Ticked(n, NoMerge)], es' + [StartTick];
  }

  lemma Taking(log: set<Record>, n: nat, m: Machine)
    requires var w := Settled(n).up.value.(applied := Loops(n + 1), position := At(n + 1),
                                           held := Held([Loop(n + 1)], []));
      m == Settled(n).(ever := Loops(n + 1), up := Some(w))
    ensures Enabled(log, m, StartTick) && Next(log, m, StartTick) == Ticked(n, NoMerge)
  {
    BareDeltas(n);
    OneUndurable(n);
    assert Sealed(m.up.value.held) == Held([], [[Loop(n + 1)]]);
  }

  /** It is folded out and committed. */
  lemma Settle(log: set<Record>, trace: seq<Machine>, es: seq<Event>, n: nat)
    returns (trace': seq<Machine>, es': seq<Event>)
    requires Protocol.Run(log, trace, es) && trace[|es|] == Ticked(n, NoMerge)
    ensures Protocol.Run(log, trace', es') && trace'[|es'|] == Settled(n + 1)
  {
    BareDeltas(n);
    BareFolds(Contents(Deltas(n)), n == 0);
    var folded := Next(log, trace[|es|], Fold(NOTHING));
    Longer(log, trace, es, Fold(NOTHING), folded);
    trace', es' := trace + [folded], es + [Fold(NOTHING)];
    FoldingIs(log, n);
    Committing(log, n, folded);
    Longer(log, trace', es', Commit(Committed), Settled(n + 1));
    trace', es' := trace' + [Settled(n + 1)], es' + [Commit(Committed)];
  }

  lemma Grows(n: nat)
    ensures Grown(Deltas(n), NOTHING, n, n + 1) == Fresh(n)
    ensures MarkCommitted(Fresh(n)) == Deltas(n + 1) && OnRuns(Fresh(n)) == OnRuns(Deltas(n + 1))
  {
    BareDeltas(n);
    assert Contents(Fresh(n)) == Contents(Deltas(n + 1));
  }

  lemma CommitIs(log: set<Record>, m: Machine)
    requires m.up.Some? && m.up.value.phase.Folded? && m.up.value.held.sealed != []
    ensures Enabled(log, m, Commit(Committed))
    ensures var s := DataSnapshot(m.up.value, LatestPosition(m.catalog));
      Next(log, m, Commit(Committed))
        == Machine(m.catalog + [s], m.ever, m.files, Some(AfterCommit(m.up.value, s.position)))
  {
  }

  /** A worker that has folded its one sealed record out. */
  function Folding(n: nat): Worker {
    Serving(n, n + 1, [[Loop(n + 1)]], NoMerge, Folded(Fresh(n), Loops(n + 1)))
      .(tier := OnRuns(Fresh(n)), folded := Loops(n + 1), local := Fresh(n))
  }

  lemma FoldingIs(log: set<Record>, n: nat)
    requires CanFold(Ticked(n, NoMerge).up.value, NOTHING)
    ensures Next(log, Ticked(n, NoMerge), Fold(NOTHING)) == Ticked(n, NoMerge).(files := n + 1, up := Some(Folding(n)))
  {
    Grows(n);
  }

  lemma FoldingPublishes(n: nat)
    ensures Published(n + 1) == Published(n) + [DataSnapshot(Folding(n), At(n))]
  {
    OneUndurable(n);
    assert Flatten([]) == [] && Flatten([[Loop(n + 1)]]) == [Loop(n + 1)];
  }

  lemma FoldingSettles(n: nat)
    ensures AfterCommit(Folding(n), At(n + 1)) == Settled(n + 1).up.value
  {
    OneUndurable(n);
    Grows(n);
  }

  lemma Committing(log: set<Record>, n: nat, m: Machine)
    requires m == Ticked(n, NoMerge).(files := n + 1, up := Some(Folding(n)))
    ensures Enabled(log, m, Commit(Committed)) && Next(log, m, Commit(Committed)) == Settled(n + 1)
  {
    BareDeltas(n);
    CommitIs(log, m);
    FoldingPublishes(n);
    FoldingSettles(n);
    assert Published(n + 1)[n].position == At(n + 1);
  }

  /** A worker starts on an empty catalog, and settles `n` records. */
  lemma {:induction false} Settling(log: set<Record>, n: nat) returns (trace: seq<Machine>, es: seq<Event>)
    requires forall r | r in log :: r == Loop(r.offset)
    requires Loops(n) <= log
    ensures Protocol.Run(log, trace, es) && trace[|es|] == Settled(n)
  {
    if n == 0 {
      assert OnRuns(Deltas(0)) == EMPTY;
      Longer(log, [EMPTY_MACHINE], [], Start(true, EMPTY), Settled(0));
      trace, es := [EMPTY_MACHINE] + [Settled(0)], [] + [Start(true, EMPTY)];
    } else {
      trace, es := Settling(log, n - 1);
      trace, es := Consume(log, trace, es, n - 1);
      trace, es := Settle(log, trace, es, n - 1);
    }
  }

  /** One more record is consumed, and the runs `lo..hi` are planned for a merge. */
  lemma Planning(n: nat, lo: nat, hi: nat) returns (trace: seq<Machine>, es: seq<Event>)
    requires lo < hi <= n
    ensures var m := Ticked(n, Merging(Deltas(n)[lo..hi], NOTHING));
      Protocol.Run(Loops(n + 1), trace, es) && trace[|es|] == m && CanAdopt(m.up.value, lo)
  {
    var log, m := Loops(n + 1), Ticked(n, Merging(Deltas(n)[lo..hi], NOTHING));
    LoopsLog(n + 1);
    trace, es := Settling(log, n);
    trace, es := Consume(log, trace, es, n);
    BareDeltas(n);
    BareCompacts(Contents(Deltas(n)[lo..hi]));
    Longer(log, trace, es, PlanMerge(lo, hi, NOTHING), m);
    trace, es := trace + [m], es + [PlanMerge(lo, hi, NOTHING)];
  }

  /** Losing the answer leaves the worker's tables and what it holds for the next tick. */
  lemma LossTicks(log: set<Record>, m: Machine, at: nat)
    requires m.up.Some? && CanAdopt(m.up.value, at)
    ensures AfterLoss(log, m, at).up
         == Some(Started(m.up.value.(pending := NoMerge, phase := Resting), LatestPosition(m.catalog)))
  {
  }

  ghost predicate LosingAs(log: set<Record>, m: Machine, at: nat, run: ForestState.Run, u: Unfold) {
    && m.up.Some? && CanAdopt(m.up.value, at)
    && var w := AfterLoss(log, m, at).up.value;
       CanFold(w, run) && w.held.sealed != []
  }

  /** A merge may be adopted here; were its answer lost, `run` would be committed next. */
  ghost predicate Losing(log: set<Record>, m: Machine, at: nat, run: ForestState.Run) {
    forall u :: LosingAs(log, m, at, run, u)
  }

  /** The merge's answer is lost, and the last record is there to be committed. */
  lemma LossFolds(log: set<Record>, n: nat, p: Pending, at: nat)
    requires CanAdopt(Ticked(n, p).up.value, at)
    ensures Losing(log, Ticked(n, p), at, NOTHING)
  {
    LossTicks(log, Ticked(n, p), at);
    BareDeltas(n);
    BareFolds(Contents(Deltas(n)), n == 0);
    OneUndurable(n);
  }

  /** A run goes on as the loss does. */
  lemma LossRun(log: set<Record>, trace: seq<Machine>, es: seq<Event>, at: nat)
    returns (trace': seq<Machine>, es': seq<Event>)
    requires Protocol.Run(log, trace, es) && trace[|es|].up.Some? && CanAdopt(trace[|es|].up.value, at)
    ensures Protocol.Run(log, trace', es') && trace'[|es'|] == AfterLoss(log, trace[|es|], at)
  {
    var lost := Next(log, trace[|es|], AdoptMerge(at, Lost));
    Longer(log, trace, es, AdoptMerge(at, Lost), lost);
    trace', es' := trace + [lost], es + [AdoptMerge(at, Lost)];
    var ticked := Next(log, lost, StartTick);
    Longer(log, trace', es', StartTick, ticked);
    trace', es' := trace' + [ticked], es' + [StartTick];
  }

  /** A run goes on as a fold is committed, and goes down. */
  lemma FoldRun(log: set<Record>, trace: seq<Machine>, es: seq<Event>, run: ForestState.Run)
    returns (trace': seq<Machine>, es': seq<Event>)
    requires Protocol.Run(log, trace, es) && trace[|es|].up.Some?
    requires var w := trace[|es|].up.value; CanFold(w, run) && w.held.sealed != []
    ensures Protocol.Run(log, trace', es')
    ensures trace'[|es'|] == FoldCommitted(log, trace[|es|], run, Committed).(up := None)
  {
    var folded := Next(log, trace[|es|], Fold(run));
    Longer(log, trace, es, Fold(run), folded);
    trace', es' := trace + [folded], es + [Fold(run)];
    var done := Next(log, folded, Commit(Committed));
    Longer(log, trace', es', Commit(Committed), done);
    trace', es' := trace' + [done], es' + [Commit(Committed)];
    Longer(log, trace', es', Crash, done.(up := None));
    trace', es' := trace' + [done.(up := None)], es' + [Crash];
  }

  /** Nothing can happen: the newest snapshot is refused to every reader, and no worker is up. */
  ghost predicate Stuck(log: set<Record>, m: Machine) {
    && m.catalog != [] && !Readable(m.catalog[|m.catalog| - 1], |m.catalog|)
    && forall e :: !Enabled(log, m, e)
  }

  /** Any run that loses a merge's answer with a delta to commit next may end stuck. */
  lemma LossStrands(log: set<Record>, trace: seq<Machine>, es: seq<Event>, at: nat, run: ForestState.Run)
    returns (trace': seq<Machine>, es': seq<Event>)
    requires IsLog(log) && Protocol.Run(log, trace, es) && Losing(log, trace[|es|], at, run)
    ensures Protocol.Run(log, trace', es') && Stuck(log, trace'[|es'|])
    ensures |trace'[|es'|].catalog| == |trace[|es|].catalog| + 2
  {
    assert LosingAs(log, trace[|es|], at, run, Unfolded);
    LostMergeGap(log, trace, es, |es|, at, run);
    trace', es' := LossRun(log, trace, es, at);
    trace', es' := FoldRun(log, trace', es', run);
    StuckIff(log, trace'[|es'|]);
  }

  lemma LosingRun(log: set<Record>, n: nat, lo: nat, hi: nat) returns (trace: seq<Machine>, es: seq<Event>)
    requires lo < hi <= n && log == Loops(n + 1)
    ensures Protocol.Run(log, trace, es) && Losing(log, trace[|es|], lo, NOTHING) && |trace[|es|].catalog| == n
  {
    trace, es := Planning(n, lo, hi);
    LossFolds(log, n, Merging(Deltas(n)[lo..hi], NOTHING), lo);
  }

  /** And there is such a run, for a stack of any height and a merge of any of its runs. */
  lemma LostMergeRun(n: nat, lo: nat, hi: nat) returns (log: set<Record>, trace: seq<Machine>, es: seq<Event>)
    requires lo < hi <= n
    ensures IsLog(log) && Protocol.Run(log, trace, es) && Stuck(log, trace[|es|])
    ensures |trace[|es|].catalog| == n + 2
  {
    log := Loops(n + 1);
    LoopsLog(n + 1);
    trace, es := LosingRun(log, n, lo, hi);
    trace, es := LossStrands(log, trace, es, lo, NOTHING);
  }
}

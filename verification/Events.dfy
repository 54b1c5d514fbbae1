/**
 Edge events and what a forest that has applied a set of them answers. A tier
 serves a set of events when it keeps every invariant for exactly their edges;
 tiers that serve the same events cannot be told apart.
 */
module Events {
  import opened Types
  import opened Sorting
  import opened Graph
  import opened ParentForest
  import opened Layers
  import opened ScopedView
  import opened ForestState
  import opened Folds
  import opened Forest

  datatype Visibility = Everywhere | Scoped(scopes: seq<ScopeId>)

  datatype EdgeEvent = EdgeEvent(src: NodeId, dst: NodeId, visibility: Visibility)

  // --- visibility ---------------------------------------------------------------------

  /** No scopes, or the global one among them, means everybody sees the edge. */
  function Normalize(v: Visibility): (r: Visibility)
    ensures r.Everywhere? <==> v.Everywhere? || v.scopes == [] || GLOBAL_SCOPE in v.scopes
    ensures r.Scoped? ==> Increasing(r.scopes) && (forall s :: s in r.scopes <==> s in v.scopes)
  {
    if v.Scoped? && v.scopes != [] && GLOBAL_SCOPE !in v.scopes then
      var s := SortNumbers(v.scopes);
      assert v.scopes[0] in s;
      Scoped(s)
    else Everywhere
  }

  // --- the edges of a set of events ------------------------------------------------------

  ghost predicate SeenBy(e: EdgeEvent, scope: ScopeId) {
    var v := Normalize(e.visibility);
    if scope == GLOBAL_SCOPE then v.Everywhere? else v.Scoped? && scope in v.scopes
  }

  /** The edges an event set contributes to the shared tier, or to one scope's own. */
  ghost function EdgesFor(events: set<EdgeEvent>, scope: ScopeId): set<Edge> {
    set e | e in events && SeenBy(e, scope) :: (e.src, e.dst)
  }

  ghost predicate HoldsEdges(eg: set<Edge>, es: ScopeEdges, events: set<EdgeEvent>) {
    && eg == EdgesFor(events, GLOBAL_SCOPE)
    && forall s | s != GLOBAL_SCOPE :: EdgesOf(es, s) == EdgesFor(events, s)
  }

  /** `t` keeps every invariant of a forest that has applied `events`. */
  ghost predicate Serves(t: Tier, events: set<EdgeEvent>) {
    exists eg, es :: TierInv(t, eg, es) && HoldsEdges(eg, es, events)
  }

  /** What `scope` sees: the global edges, and its own. */
  ghost function VisibleEdges(events: set<EdgeEvent>, scope: ScopeId): set<Edge> {
    EdgesFor(events, GLOBAL_SCOPE) + (if scope == GLOBAL_SCOPE then {} else EdgesFor(events, scope))
  }

  /** The answer depends on the events alone: the lowest id of the component they form. */
  lemma Answer(t: Tier, events: set<EdgeEvent>, scope: ScopeId, x: NodeId)
    requires Serves(t, events)
    ensures Descending(Shared(t)) && Descending(Overlay(t, scope))
    ensures IsComponentMin(VisibleEdges(events, scope), x, ScopeRoot(t, scope, x))
  {
    var eg, es :| TierInv(t, eg, es) && HoldsEdges(eg, es, events);
    ScopeRootIsMin(t, eg, es, scope, x);
    assert Visible(eg, es, scope) == VisibleEdges(events, scope);
  }

  lemma SameEventsSameAnswers(t: Tier, t': Tier, events: set<EdgeEvent>, scope: ScopeId, x: NodeId)
    requires Serves(t, events) && Serves(t', events)
    ensures Descending(Shared(t)) && Descending(Overlay(t, scope))
    ensures Descending(Shared(t')) && Descending(Overlay(t', scope))
    ensures ScopeRoot(t, scope, x) == ScopeRoot(t', scope, x)
  {
    Answer(t, events, scope, x);
    Answer(t', events, scope, x);
    ComponentMinUnique(VisibleEdges(events, scope), x, ScopeRoot(t, scope, x), ScopeRoot(t', scope, x));
  }

  // --- steps of one forest -------------------------------------------------------------------

  ghost predicate Applied(t: Tier, t': Tier, e: EdgeEvent) {
    match Normalize(e.visibility)
    case Everywhere => GlobalApplied(t, t', e.src, e.dst)
    case Scoped(scopes) => AppliedToScopes(t, t', e.src, e.dst, scopes)
  }

  datatype Step =
    | Apply(event: EdgeEvent)
    | Query
    | FoldAll(run: Run)
    | FoldDelta(run: Run)
    | SwapRuns(runs: seq<Run>)

  ghost predicate Stepped(t: Tier, t': Tier, step: Step) {
    match step
    case Apply(e) => Applied(t, t', e)
    case Query => Compressed(t, t')
    case FoldAll(run) => FoldsTo(t, run, true) && t' == Folded(t, run, true)
    case FoldDelta(run) => FoldsTo(t, run, false) && t' == Folded(t, run, false)
    case SwapRuns(runs) => Equivalent(t.runs, runs) && t' == t.(runs := runs)
  }

  ghost predicate SteppedAs(t: Tier, t': Tier, step: Step, u: Unfold) {
    Stepped(t, t', step)
  }

  /** The forest took this step of the step system. */
  ghost predicate Stepping(t: Tier, t': Tier, step: Step) {
    forall u :: SteppedAs(t, t', step, u)
  }

  lemma HoldsGlobal(eg: set<Edge>, es: ScopeEdges, events: set<EdgeEvent>, e: EdgeEvent)
    requires HoldsEdges(eg, es, events) && Normalize(e.visibility).Everywhere?
    ensures HoldsEdges(eg + {(e.src, e.dst)}, es, events + {e})
  {
    forall s ensures EdgesFor(events + {e}, s)
        == EdgesFor(events, s) + (if s == GLOBAL_SCOPE then {(e.src, e.dst)} else {})
    {
    }
  }

  lemma HoldsScoped(eg: set<Edge>, es: ScopeEdges, events: set<EdgeEvent>, e: EdgeEvent)
    requires HoldsEdges(eg, es, events) && Normalize(e.visibility).Scoped?
    ensures HoldsEdges(eg, WithEdges(es, Normalize(e.visibility).scopes, (e.src, e.dst)), events + {e})
  {
    var scopes, edge := Normalize(e.visibility).scopes, (e.src, e.dst);
    forall s
      ensures EdgesFor(events + {e}, s) == EdgesFor(events, s) + (if SeenBy(e, s) then {edge} else {})
      ensures EdgesOf(WithEdges(es, scopes, edge), s) == EdgesOf(es, s) + (if s in scopes then {edge} else {})
    {
      WithEdgesAt(es, scopes, edge, s);
    }
  }

  lemma {:induction false} WithEdgesAt(es: ScopeEdges, scopes: seq<ScopeId>, edge: Edge, s: ScopeId)
    ensures EdgesOf(WithEdges(es, scopes, edge), s) == EdgesOf(es, s) + (if s in scopes then {edge} else {})
  {
    if scopes != [] {
      var front := scopes[..|scopes| - 1];
      assert scopes == front + [scopes[|scopes| - 1]];
      WithEdgesAt(es, front, edge, s);
    }
  }

  lemma {:induction false} AppliedToScopesInv(t: Tier, t': Tier, eg: set<Edge>, es: ScopeEdges,
                                              u: NodeId, v: NodeId, scopes: seq<ScopeId>)
    requires TierInv(t, eg, es) && AppliedToScopes(t, t', u, v, scopes)
    ensures TierInv(t', eg, WithEdges(es, scopes, (u, v)))
    decreases |scopes|
  {
    if scopes == [] {
      CompressedInv(t, t', eg, es);
    } else {
      var front, last := scopes[..|scopes| - 1], scopes[|scopes| - 1];
      var m :| AppliedToScopes(t, m, u, v, front) && ScopedApplied(m, t', u, v, last);
      AppliedToScopesInv(t, m, eg, es, u, v, front);
      ScopedAppliedInv(m, t', eg, WithEdges(es, front, (u, v)), u, v, last);
    }
  }

  ghost function EventsAfter(events: set<EdgeEvent>, step: Step): set<EdgeEvent> {
    if step.Apply? then events + {step.event} else events
  }

  /** Applying adds the event's edges; folds, swaps and queries add nothing and lose nothing. */
  lemma StepServes(t: Tier, t': Tier, step: Step, events: set<EdgeEvent>)
    requires Serves(t, events) && Stepped(t, t', step)
    ensures Serves(t', EventsAfter(events, step))
  {
    var eg, es :| TierInv(t, eg, es) && HoldsEdges(eg, es, events);
    match step
    case Apply(e) =>
      if Normalize(e.visibility).Everywhere? {
        GlobalAppliedInv(t, t', eg, es, e.src, e.dst);
        HoldsGlobal(eg, es, events, e);
      } else {
        AppliedToScopesInv(t, t', eg, es, e.src, e.dst, Normalize(e.visibility).scopes);
        HoldsScoped(eg, es, events, e);
      }
    case Query => CompressedInv(t, t', eg, es);
    case FoldAll(run) => FoldInv(t, run, true, eg, es);
    case FoldDelta(run) => FoldInv(t, run, false, eg, es);
    case SwapRuns(runs) => SwapInv(t, runs, eg, es);
  }

  // --- every history -----------------------------------------------------------------------------

  ghost predicate StepAt(tiers: seq<Tier>, steps: seq<Step>, i: nat)
    requires |tiers| == |steps| + 1 && i < |steps|
  {
    Stepped(tiers[i], tiers[i + 1], steps[i])
  }

  /** `tiers` is a history of one forest from empty, by `steps`. */
  ghost predicate History(tiers: seq<Tier>, steps: seq<Step>) {
    && |tiers| == |steps| + 1 && tiers[0] == EMPTY
    && forall i | 0 <= i < |steps| :: StepAt(tiers, steps, i)
  }

  ghost function EventsOf(steps: seq<Step>): set<EdgeEvent> {
    if steps == [] then {} else EventsAfter(EventsOf(steps[..|steps| - 1]), steps[|steps| - 1])
  }

  lemma {:induction false} HistoryServes(tiers: seq<Tier>, steps: seq<Step>, i: nat)
    requires History(tiers, steps) && i <= |steps|
    ensures Serves(tiers[i], EventsOf(steps[..i]))
  {
    if i == 0 {
      EmptyInv();
      assert HoldsEdges({}, map[], {});
    } else {
      HistoryServes(tiers, steps, i - 1);
      assert StepAt(tiers, steps, i - 1);
      StepServes(tiers[i - 1], tiers[i], steps[i - 1], EventsOf(steps[..i - 1]));
      assert steps[..i][..i - 1] == steps[..i - 1];
    }
  }

  /**
    However applies, queries, folds and base swaps interleave, every answer is
    the lowest id of the component, and so what an all-heap forest that applied
    the same events in any order would say.
    */
  lemma FoldsInvisible(tiers: seq<Tier>, steps: seq<Step>, heap: seq<Tier>, applies: seq<Step>, scope: ScopeId,
                       x: NodeId)
    requires History(tiers, steps) && History(heap, applies) && EventsOf(steps) == EventsOf(applies)
    ensures var t, h := tiers[|steps|], heap[|applies|];
      && Descending(Shared(t)) && Descending(Overlay(t, scope))
      && Descending(Shared(h)) && Descending(Overlay(h, scope))
      && ScopeRoot(t, scope, x) == ScopeRoot(h, scope, x)
      && IsComponentMin(VisibleEdges(EventsOf(steps), scope), x, ScopeRoot(t, scope, x))
  {
    HistoryServes(tiers, steps, |steps|);
    HistoryServes(heap, applies, |applies|);
    assert steps[..|steps|] == steps && applies[..|applies|] == applies;
    SameEventsSameAnswers(tiers[|steps|], heap[|applies|], EventsOf(steps), scope, x);
    Answer(tiers[|steps|], EventsOf(steps), scope, x);
  }

  /**
    In every reachable state the memtable holds no key of the base, and neither it
    nor any run stores a parent that has one of its own below.
    */
  lemma LayeringKept(tiers: seq<Tier>, steps: seq<Step>, i: nat, scope: ScopeId)
    requires History(tiers, steps) && i <= |steps|
    ensures Stacked(SharedTables(tiers[i].runs)) && Stacked(OverlayTables(tiers[i].runs, scope))
    ensures Over(BaseShared(tiers[i].runs), tiers[i].shared)
    ensures Over(BaseOverlay(tiers[i].runs, scope), OverlayOf(tiers[i].overlays, scope))
  {
    HistoryServes(tiers, steps, i);
    var eg, es :| TierInv(tiers[i], eg, es) && HoldsEdges(eg, es, EventsOf(steps[..i]));
    assert ScopeInv(tiers[i], scope, eg, EdgesOf(es, scope)) && BaseScopeInv(tiers[i].runs, scope);
  }

  /**
    In every reachable state an overlay element that is still a shared root is
    registered, so absorbing it notifies the scope; one that is not shares an
    overlay class with its live root, which is an element too.
    */
  lemma RegistryComplete(tiers: seq<Tier>, steps: seq<Step>, i: nat, scope: ScopeId, e: NodeId)
    requires History(tiers, steps) && i <= |steps|
    ensures Descending(Overlay(tiers[i], scope))
    ensures Element(Overlay(tiers[i], scope), e) ==> Followed(tiers[i], scope, e)
  {
    HistoryServes(tiers, steps, i);
    var eg, es :| TierInv(tiers[i], eg, es) && HoldsEdges(eg, es, EventsOf(steps[..i]));
    assert ScopeInv(tiers[i], scope, eg, EdgesOf(es, scope));
    ElementFollowed(tiers[i], scope, eg, EdgesOf(es, scope), e);
  }

  /** An overlay element tracks its live shared root, and the scope is registered on that. */
  ghost predicate Followed(t: Tier, scope: ScopeId, e: NodeId) {
    && Descending(Shared(t)) && Descending(Overlay(t, scope)) && Tracks(Shared(t), Overlay(t, scope), e)
    && Registered(t, Root(Shared(t), e), scope) && (e !in Shared(t) ==> Registered(t, e, scope))
  }

  lemma ElementFollowed(t: Tier, scope: ScopeId, eg: set<Edge>, own: set<Edge>, e: NodeId)
    requires ScopeInv(t, scope, eg, own)
    ensures Element(Overlay(t, scope), e) ==> Followed(t, scope, e)
  {
    if Element(Overlay(t, scope), e) {
      assert Tracks(Shared(t), Overlay(t, scope), e);
      assert Root(Shared(t), e) in RegisteredRoots(t, scope);
    }
  }

  // --- applying an event to the live forest ----------------------------------------------------------

  /** Apply one event; the forest then holds its edges besides those it held. */
  method ApplyEvent(f: ScopedForest, e: EdgeEvent, ghost events: set<EdgeEvent>)
    requires f.Valid() && HoldsEdges(f.eg, f.es, events)
    modifies f`registry, f`eg, f`es, f.mem, f.mem.repr
    ensures f.Valid() && HoldsEdges(f.eg, f.es, events + {e})
    ensures Stepping(old(f.State()), f.State(), Apply(e)) && fresh(f.mem.repr - old(f.mem.repr))
  {
    match Normalize(e.visibility)
    case Everywhere =>
      HoldsGlobal(f.eg, f.es, events, e);
      f.ApplyGlobal(e.src, e.dst);
    case Scoped(scopes) =>
      HoldsScoped(f.eg, f.es, events, e);
      ghost var t := f.State();
      f.ApplyScoped(e.src, e.dst, scopes);
      assert AllTakeAs(t, f.State(), e.src, e.dst, scopes, Unfolded);
  }
}

/**
 One disjoint-set object under races. Any number of lookups, one map read or one
 map write at a time, interleave with each other and with one serialized union
 writer. Halving and repair writes store what a lookup read earlier, so they may
 be stale; they are still compression of the forest as it then is.
 */
module DsuRaces {
  import opened Types
  import opened Graph
  import opened ParentForest
  import opened ScopedView
  import opened DisjointSets

  type ThreadId = nat

  /** Where a lookup of `arg` is, between two accesses to the parent map. */
  datatype Call =
    | FindAt(arg: NodeId, x: NodeId)
    | FindHave(arg: NodeId, x: NodeId, parent: NodeId)
    | FindWrite(arg: NodeId, x: NodeId, grandparent: NodeId)
    | RoAt(arg: NodeId, cur: NodeId, depth: nat)
    | RoWrite(arg: NodeId, root: NodeId)
    | Done(arg: NodeId, root: NodeId)

  /** The one union in progress: two lookups, the link, and the child index. */
  datatype Writer =
    | Idle
    | FindingU(u: NodeId, v: NodeId, call: Call)
    | FindingV(u: NodeId, v: NodeId, ru: NodeId, call: Call)
    | Linking(u: NodeId, v: NodeId, child: NodeId, parent: NodeId)
    | Indexing(child: NodeId, parent: NodeId)

  /** A lookup and the moment it was called. */
  datatype Thread = Thread(call: Call, since: nat)

  /**
    `merged` are the merge edges, without compression; `edges` the unions that
    have taken effect. Both only describe: nothing reads them.
    */
  datatype State = State(
    clock: nat,
    parents: Parents,
    children: Children,
    merged: Parents,
    edges: set<Edge>,
    threads: map<ThreadId, Thread>,
    writer: Writer)

  datatype Event =
    | Invoke(t: ThreadId, arg: NodeId, readOnly: bool)
    | Step(t: ThreadId)
    | Union(u: NodeId, v: NodeId)
    | Write

  const INITIAL := State(0, map[], map[], map[], {}, map[], Idle)

  // --- the steps -------------------------------------------------------------------

  /** The next access of a lookup: at most one read or one write of the parent map. */
  function StepCall(p: Parents, c: Call): (Parents, Call) {
    match c
    case FindAt(arg, x) => (p, if x in p then FindHave(arg, x, p[x]) else Done(arg, x))
    case FindHave(arg, x, y) => (p, if y in p then FindWrite(arg, x, p[y]) else Done(arg, y))
    case FindWrite(arg, x, gp) => (p[x := gp], FindAt(arg, gp))
    case RoAt(arg, cur, depth) =>
      (p, if cur in p then RoAt(arg, p[cur], depth + 1)
          else if depth > RO_COMPRESS_DEPTH then RoWrite(arg, cur)
          else Done(arg, cur))
    case RoWrite(arg, root) => (p[arg := root], Done(arg, root))
    case Done(_, _) => (p, c)
  }

  function WriterStep(s: State): State {
    match s.writer
    case Idle => s
    case FindingU(u, v, c) =>
      if c.Done? then s.(writer := FindingV(u, v, c.root, FindAt(v, v)))
      else
        var (q, c') := StepCall(s.parents, c);
        s.(parents := q, writer := FindingU(u, v, c'))
    case FindingV(u, v, ru, c) =>
      if c.Done? then
        if ru == c.root then s.(writer := Idle, edges := s.edges + {(u, v)})
        else s.(writer := Linking(u, v, Max(ru, c.root), Min(ru, c.root)))
      else
        var (q, c') := StepCall(s.parents, c);
        s.(parents := q, writer := FindingV(u, v, ru, c'))
    case Linking(u, v, child, parent) =>
      s.(parents := s.parents[child := parent], merged := s.merged[child := parent],
         edges := s.edges + {(u, v)}, writer := Indexing(child, parent))
    case Indexing(child, parent) =>
      s.(children := s.children[parent := Kids(s.children, parent) + [child]], writer := Idle)
  }

  /** What an event does to everything but the clock; one that is not enabled does nothing. */
  function Effect(s: State, e: Event): State {
    match e
    case Invoke(t, arg, readOnly) =>
      if t in s.threads && !s.threads[t].call.Done? then s
      else
        var call := if readOnly then RoAt(arg, arg, 0) else FindAt(arg, arg);
        s.(threads := s.threads[t := Thread(call, s.clock + 1)])
    case Step(t) =>
      if t !in s.threads then s
      else
        var (q, c) := StepCall(s.parents, s.threads[t].call);
        s.(parents := q, threads := s.threads[t := s.threads[t].(call := c)])
    case Union(u, v) => if s.writer.Idle? then s.(writer := FindingU(u, v, FindAt(u, u))) else s
    case Write => WriterStep(s)
  }

  function Next(s: State, e: Event): State {
    Effect(s, e).(clock := s.clock + 1)
  }

  /** `trace` is the run of `es`: `trace[i]` is the state after the first `i` events. */
  ghost predicate Run(trace: seq<State>, es: seq<Event>) {
    && |trace| == |es| + 1 && trace[0] == INITIAL
    && forall i | 0 <= i < |es| :: trace[i + 1] == Next(trace[i], es[i])
  }

  // --- what every state keeps ----------------------------------------------------------

  ghost predicate InClass(p: Parents, x: NodeId, y: NodeId)
    requires Descending(p)
  {
    Root(p, x) == Root(p, y)
  }

  /** All a lookup carries is still in its argument's class, however long ago it was read. */
  ghost predicate CallInv(p: Parents, c: Call)
    requires Descending(p)
  {
    match c
    case FindAt(arg, x) => InClass(p, x, arg)
    case FindHave(arg, x, y) => x in p && y < x && InClass(p, x, arg) && InClass(p, y, arg)
    case FindWrite(arg, x, gp) => x in p && gp < x && InClass(p, x, arg) && InClass(p, gp, arg)
    case RoAt(arg, cur, depth) => InClass(p, cur, arg) && (if depth == 0 then cur == arg else arg in p && cur < arg)
    case RoWrite(arg, root) => arg in p && root < arg && InClass(p, root, arg)
    case Done(_, _) => true
  }

  /** The writer uses the halving lookup. */
  ghost predicate WriterCall(p: Parents, arg: NodeId, c: Call)
    requires Descending(p)
  {
    && c.arg == arg && !c.RoAt? && !c.RoWrite?
    && CallInv(p, c) && (c.Done? ==> c.root == Root(p, arg))
  }

  /** Only the writer links, so what it found stays a root until it links. */
  ghost predicate WriterInv(s: State)
    requires Descending(s.parents)
  {
    var p := s.parents;
    match s.writer
    case Idle => true
    case FindingU(u, _, c) => WriterCall(p, u, c)
    case FindingV(u, v, ru, c) => ru == Root(p, u) && WriterCall(p, v, c)
    case Linking(u, v, child, parent) =>
      child == Max(Root(p, u), Root(p, v)) && parent == Min(Root(p, u), Root(p, v)) && parent < child
    case Indexing(child, parent) => child in s.merged && s.merged[child] == parent
  }

  /** Merge edges the child index holds: all but one being published. */
  ghost function IndexedEdges(s: State): Parents {
    if s.writer.Indexing? then s.merged - {s.writer.child} else s.merged
  }

  ghost predicate Inv(s: State) {
    && SharedInv(s.parents, s.edges)
    && Same(s.parents, s.merged)
    && Inverts(s.children, IndexedEdges(s))
    && (forall t | t in s.threads :: CallInv(s.parents, s.threads[t].call))
    && WriterInv(s)
  }

  // --- one access ------------------------------------------------------------------------

  /** Keys are never removed and classes never split. */
  ghost predicate Coarser(p: Parents, q: Parents) {
    && Descending(p) && Descending(q) && p.Keys <= q.Keys
    && forall x, y {:trigger InClass(q, x, y)} | InClass(p, x, y) :: InClass(q, x, y)
  }

  lemma SameCoarser(p: Parents, q: Parents)
    requires Same(p, q)
    ensures Coarser(p, q)
  {
    forall x, y | InClass(p, x, y) ensures InClass(q, x, y) {
      assert Agree(p, q, x) && Agree(p, q, y);
    }
  }

  lemma LinkedCoarser(p: Parents, q: Parents, child: NodeId, parent: NodeId)
    requires Linked(p, q, child, parent) && p.Keys <= q.Keys
    ensures Coarser(p, q)
  {
    forall x, y | InClass(p, x, y) ensures InClass(q, x, y) {
      assert Relinked(p, q, child, parent, x) && Relinked(p, q, child, parent, y);
    }
  }

  lemma CallInvAfter(p: Parents, q: Parents, c: Call)
    requires Coarser(p, q) && CallInv(p, c)
    ensures CallInv(q, c)
  {
  }

  /** A lookup's access, stale or not, changes no class and no key. */
  lemma CallStepKeeps(p: Parents, c: Call)
    requires Descending(p) && CallInv(p, c)
    ensures var (q, c') := StepCall(p, c); Same(p, q) && CallInv(q, c') && c'.arg == c.arg
  {
    match c
    case FindWrite(arg, x, gp) =>
      CompressOne(p, x, gp);
      assert Agree(p, p[x := gp], gp) && Agree(p, p[x := gp], arg);
    case RoWrite(arg, root) =>
      CompressOne(p, arg, root);
    case _ =>
  }

  /** A lookup that ends, or settles what it will return, has its argument's root in hand. */
  lemma CallSettles(p: Parents, c: Call)
    requires Descending(p) && CallInv(p, c) && !c.Done? && !c.RoWrite?
    ensures var c' := StepCall(p, c).1; (c'.Done? || c'.RoWrite?) ==> c'.root == Root(p, c.arg)
  {
  }

  // --- every event keeps the invariant -----------------------------------------------------

  /** Compressing, by whoever, disturbs neither the writer nor what unions mean. */
  lemma SameKeeps(s: State, q: Parents)
    requires Inv(s) && Same(s.parents, q)
    ensures Inv(s.(parents := q))
  {
    SharedInvSame(s.parents, q, s.edges);
    SameSymmetric(s.parents, q);
    SameTransitive(q, s.parents, s.merged);
    SameCoarser(s.parents, q);
    forall t | t in s.threads ensures CallInv(q, s.threads[t].call) {
      CallInvAfter(s.parents, q, s.threads[t].call);
    }
    SameKeepsWriter(s, q);
  }

  lemma SameKeepsWriter(s: State, q: Parents)
    requires Descending(s.parents) && WriterInv(s) && Same(s.parents, q) && Coarser(s.parents, q)
    ensures WriterInv(s.(parents := q))
  {
    match s.writer
    case FindingU(u, v, c) =>
      assert Agree(s.parents, q, u);
      CallInvAfter(s.parents, q, c);
    case FindingV(u, v, ru, c) =>
      assert Agree(s.parents, q, u) && Agree(s.parents, q, v);
      CallInvAfter(s.parents, q, c);
    case Linking(u, v, child, parent) =>
      assert Agree(s.parents, q, u) && Agree(s.parents, q, v);
    case _ =>
  }

  lemma ThreadStepKeeps(s: State, t: ThreadId)
    requires Inv(s) && t in s.threads
    ensures Inv(Effect(s, Step(t)))
    ensures Same(s.parents, Effect(s, Step(t)).parents)
  {
    var (q, c) := StepCall(s.parents, s.threads[t].call);
    CallStepKeeps(s.parents, s.threads[t].call);
    SameKeeps(s, q);
  }

  lemma WriterFinds(p: Parents, arg: NodeId, c: Call)
    requires Descending(p) && WriterCall(p, arg, c) && !c.Done?
    ensures var (q, c') := StepCall(p, c); Same(p, q) && WriterCall(q, arg, c')
  {
    CallStepKeeps(p, c);
    CallSettles(p, c);
    assert Agree(p, StepCall(p, c).0, arg);
  }

  /** Publishing a link is exactly a union of the two arguments, whatever raced with the lookups. */
  lemma LinkingJoins(s: State)
    requires SharedInv(s.parents, s.edges) && WriterInv(s) && s.writer.Linking?
    ensures var w := s.writer;
      Linked(s.parents, WriterStep(s).parents, w.child, w.parent) && Joined(s.parents, WriterStep(s).parents, w.u, w.v)
  {
    Link(s.parents, s.writer.child, s.writer.parent);
  }

  lemma ThreadsKeep(s: State, q: Parents)
    requires Inv(s) && Coarser(s.parents, q)
    ensures forall t | t in s.threads :: CallInv(q, s.threads[t].call)
  {
    forall t | t in s.threads ensures CallInv(q, s.threads[t].call) {
      CallInvAfter(s.parents, q, s.threads[t].call);
    }
  }

  lemma LinkingKeeps(s: State)
    requires Inv(s) && s.writer.Linking?
    ensures var w, s' := s.writer, WriterStep(s);
            Joined(s.parents, s'.parents, w.u, w.v) && Inv(s')
  {
    var s', u, v, child, parent := WriterStep(s), s.writer.u, s.writer.v, s.writer.child, s.writer.parent;
    var p, q := s.parents, s'.parents;
    LinkingJoins(s);
    SharedJoin(p, q, s.edges, u, v);
    MergedLinks(p, s.merged, child, parent);
    assert s'.merged - {child} == s.merged;
    LinkedCoarser(p, q, child, parent);
    ThreadsKeep(s, q);
  }

  lemma MergedLinks(p: Parents, merged: Parents, child: NodeId, parent: NodeId)
    requires Same(p, merged) && child !in p && parent !in p && parent < child
    ensures Same(p[child := parent], merged[child := parent])
  {
    var q, m := p[child := parent], merged[child := parent];
    forall x ensures Agree(q, m, x) {
      LinkRoot(p, child, parent, x);
      LinkRoot(merged, child, parent, x);
      assert Agree(p, merged, x);
    }
  }

  lemma FindingKeeps(s: State)
    requires Inv(s) && (s.writer.FindingU? || s.writer.FindingV?) && !s.writer.call.Done?
    ensures Inv(WriterStep(s)) && Same(s.parents, WriterStep(s).parents)
  {
    var (q, c) := StepCall(s.parents, s.writer.call);
    WriterFinds(s.parents, s.writer.call.arg, s.writer.call);
    SameKeeps(s, q);
    assert s.writer.FindingV? ==> Agree(s.parents, q, s.writer.u);
  }

  lemma WriterKeeps(s: State)
    requires Inv(s)
    ensures Inv(WriterStep(s))
  {
    match s.writer
    case Idle =>
    case FindingU(u, v, c) =>
      if !c.Done? {
        FindingKeeps(s);
      }
    case FindingV(u, v, ru, c) =>
      if !c.Done? {
        FindingKeeps(s);
      } else if ru == c.root {
        SharedJoin(s.parents, s.parents, s.edges, u, v);
      }
    case Linking(_, _, _, _) =>
      LinkingKeeps(s);
    case Indexing(child, parent) =>
      InvertsLink(s.children, s.merged - {child}, child, parent);
      assert (s.merged - {child})[child := parent] == s.merged;
  }

  lemma EventKeeps(s: State, e: Event)
    requires Inv(s)
    ensures Inv(Next(s, e))
  {
    if e.Step? && e.t in s.threads {
      ThreadStepKeeps(s, e.t);
    } else if e.Write? {
      WriterKeeps(s);
    } else {
      CallKeeps(s, e);
    }
  }

  /** A call begins, or there is nobody to step. */
  lemma CallKeeps(s: State, e: Event)
    requires Inv(s) && !e.Write? && !(e.Step? && e.t in s.threads)
    ensures Inv(Next(s, e))
  {
    if e.Union? {
      UnionBegins(s, e.u, e.v);
    } else if e.Invoke? {
      LookupBegins(s, e.t, e.arg, e.readOnly);
    } else {
      TablesKept(s, Next(s, e));
    }
  }

  lemma UnionBegins(s: State, u: NodeId, v: NodeId)
    requires Inv(s)
    ensures Inv(Next(s, Union(u, v)))
  {
    TablesKept(s, Next(s, Union(u, v)));
  }

  lemma LookupBegins(s: State, t: ThreadId, arg: NodeId, readOnly: bool)
    requires Inv(s)
    ensures Inv(Next(s, Invoke(t, arg, readOnly)))
  {
    TablesKept(s, Next(s, Invoke(t, arg, readOnly)));
  }

  lemma TablesKept(s: State, s': State)
    requires Inv(s) && s'.parents == s.parents && s'.merged == s.merged && s'.edges == s.edges
    requires s'.children == s.children && IndexedEdges(s') == IndexedEdges(s)
    requires (forall t | t in s'.threads :: CallInv(s.parents, s'.threads[t].call)) && WriterInv(s')
    ensures Inv(s')
  {
  }

  // --- every run -------------------------------------------------------------------------------

  lemma {:induction false} Invariant(trace: seq<State>, es: seq<Event>, i: nat)
    requires Run(trace, es) && i <= |es|
    ensures Inv(trace[i]) && trace[i].clock == i
  {
    if i > 0 {
      Invariant(trace, es, i - 1);
      EventKeeps(trace[i - 1], es[i - 1]);
    }
  }

  /** A thread's lookup is left alone, makes one access, or is called. */
  ghost predicate ThreadMoves(s: State, e: Event, s': State, t: ThreadId) {
    if t !in s'.threads then t !in s.threads
    else
      var th := s'.threads[t];
      || (t in s.threads && th == s.threads[t] && (e == Step(t) ==> th.call.Done?))
      || (t in s.threads && !s.threads[t].call.Done? && e == Step(t)
          && th == s.threads[t].(call := StepCall(s.parents, s.threads[t].call).1))
      || (th.since == s.clock + 1 && (th.call.FindAt? || th.call.RoAt?)
          && (t in s.threads ==> s.threads[t].call.Done?))
  }

  lemma NextMoves(s: State, e: Event, t: ThreadId)
    ensures ThreadMoves(s, e, Next(s, e), t)
  {
  }

  ghost predicate RootIsMin(s: State, x: NodeId)
    requires Descending(s.parents)
  {
    IsComponentMin(s.edges, x, Root(s.parents, x))
  }

  /** What the lookups need of a state. */
  ghost predicate Answers(s: State) {
    && Descending(s.parents)
    && (forall x :: RootIsMin(s, x))
    && (forall t | t in s.threads :: CallInv(s.parents, s.threads[t].call))
  }

  ghost predicate Moves(trace: seq<State>, es: seq<Event>, i: nat, t: ThreadId)
    requires |trace| == |es| + 1 && i < |es|
  {
    ThreadMoves(trace[i], es[i], trace[i + 1], t)
  }

  /** What the lookups need of a run. */
  ghost predicate Sound(trace: seq<State>, es: seq<Event>) {
    && |trace| == |es| + 1 && trace[0].threads == map[]
    && (forall i | 0 <= i <= |es| :: trace[i].clock == i && Answers(trace[i]))
    && (forall i, t | 0 <= i < |es| :: Moves(trace, es, i, t))
  }

  lemma RunSound(trace: seq<State>, es: seq<Event>)
    requires Run(trace, es)
    ensures Sound(trace, es)
  {
    forall i | 0 <= i <= |es| ensures trace[i].clock == i && Answers(trace[i]) {
      Invariant(trace, es, i);
      forall x ensures RootIsMin(trace[i], x) {
        SharedRootIsMin(trace[i].parents, trace[i].edges, x);
      }
    }
    forall i, t | 0 <= i < |es| ensures Moves(trace, es, i, t) {
      NextMoves(trace[i], es[i], t);
    }
  }

  /**
    A lookup returns what was its argument's root at some moment between call and
    return: the lowest id joined to it by the unions that had by then taken effect.
    */
  lemma Linearizable(trace: seq<State>, es: seq<Event>, j: nat, t: ThreadId) returns (k: nat)
    requires Run(trace, es) && j <= |es| && t in trace[j].threads && trace[j].threads[t].call.Done?
    ensures trace[j].threads[t].since <= k <= j
    ensures IsComponentMin(trace[k].edges, trace[j].threads[t].call.arg, trace[j].threads[t].call.root)
  {
    RunSound(trace, es);
    k := SettledAt(trace, es, j, t);
  }

  lemma {:induction false} SettledAt(trace: seq<State>, es: seq<Event>, j: nat, t: ThreadId) returns (k: nat)
    requires Sound(trace, es) && j <= |es| && t in trace[j].threads
    requires trace[j].threads[t].call.Done? || trace[j].threads[t].call.RoWrite?
    ensures trace[j].threads[t].since <= k <= j
    ensures IsComponentMin(trace[k].edges, trace[j].threads[t].call.arg, trace[j].threads[t].call.root)
  {
    var s, th := trace[j - 1], trace[j].threads[t];
    assert Moves(trace, es, j - 1, t);
    var c := s.threads[t].call;
    if c.Done? || c.RoWrite? {
      k := SettledAt(trace, es, j - 1, t);
    } else {
      k := j - 1;
      CalledBefore(trace, es, j - 1, t);
      CallSettles(s.parents, c);
      assert RootIsMin(s, c.arg);
    }
  }

  lemma {:induction false} CalledBefore(trace: seq<State>, es: seq<Event>, j: nat, t: ThreadId)
    requires Sound(trace, es) && j <= |es| && t in trace[j].threads
    ensures trace[j].threads[t].since <= j
  {
    assert Moves(trace, es, j - 1, t);
    if trace[j].threads[t].since != j {
      CalledBefore(trace, es, j - 1, t);
    }
  }

  // --- lookups finish ---------------------------------------------------------------------------

  /** Accesses a lookup still has to make, at most. */
  function Remaining(c: Call): nat {
    match c
    case FindAt(_, x) => 3 * x + 2
    case FindHave(_, x, _) => 3 * x + 1
    case FindWrite(_, x, _) => 3 * x
    case RoAt(_, cur, _) => cur + 2
    case RoWrite(_, _) => 1
    case Done(_, _) => 0
  }

  lemma StepShrinks(p: Parents, c: Call)
    requires Descending(p) && CallInv(p, c) && !c.Done?
    ensures Remaining(StepCall(p, c).1) < Remaining(c)
  {
  }

  /** Accesses `t` makes between `i` and `j`. */
  function OwnSteps(es: seq<Event>, i: nat, j: nat, t: ThreadId): nat
    requires i <= j <= |es|
    decreases j - i
  {
    if i == j then 0 else (if es[i] == Step(t) then 1 else 0) + OwnSteps(es, i + 1, j, t)
  }

  /** The lookup `th` has returned. */
  ghost predicate Returned(s: State, t: ThreadId, th: Thread) {
    && t in s.threads && s.threads[t].since == th.since
    && s.threads[t].call.Done? && s.threads[t].call.arg == th.call.arg
  }

  /**
    However the others are scheduled, a lookup that has made as many accesses of
    its own as `Remaining` said has returned: at most `3 * arg + 2` from its call.
    */
  lemma WaitFree(trace: seq<State>, es: seq<Event>, i: nat, j: nat, t: ThreadId) returns (k: nat)
    requires Run(trace, es) && i <= j <= |es| && t in trace[i].threads
    requires OwnSteps(es, i, j, t) >= Remaining(trace[i].threads[t].call)
    ensures i <= k <= j && Returned(trace[k], t, trace[i].threads[t])
  {
    RunSound(trace, es);
    k := ReturnsBy(trace, es, i, j, t);
  }

  lemma {:induction false} ReturnsBy(trace: seq<State>, es: seq<Event>, i: nat, j: nat, t: ThreadId) returns (k: nat)
    requires Sound(trace, es) && i <= j <= |es| && t in trace[i].threads
    requires OwnSteps(es, i, j, t) >= Remaining(trace[i].threads[t].call)
    ensures i <= k <= j && Returned(trace[k], t, trace[i].threads[t])
    decreases j - i
  {
    var c := trace[i].threads[t].call;
    if c.Done? {
      k := i;
    } else {
      assert Moves(trace, es, i, t);
      StepShrinks(trace[i].parents, c);
      CallStepKeeps(trace[i].parents, c);
      k := ReturnsBy(trace, es, i + 1, j, t);
    }
  }

  // --- unions -------------------------------------------------------------------------------------

  /** Racing lookups touch neither the partition, the key set nor the child index. */
  lemma LookupsOnlyCompress(s: State, e: Event)
    requires Inv(s) && !(e.Write? && (s.writer.Linking? || s.writer.Indexing?))
    ensures Same(s.parents, Next(s, e).parents)
    ensures Next(s, e).merged == s.merged && Next(s, e).children == s.children
  {
    LookupsKeepEdges(s, e);
    LookupsKeepClasses(s, e);
  }

  lemma LookupsKeepEdges(s: State, e: Event)
    requires !(e.Write? && (s.writer.Linking? || s.writer.Indexing?))
    ensures Next(s, e).merged == s.merged && Next(s, e).children == s.children
  {
  }

  lemma LookupsKeepClasses(s: State, e: Event)
    requires Inv(s) && !(e.Write? && (s.writer.Linking? || s.writer.Indexing?))
    ensures Same(s.parents, Next(s, e).parents)
  {
    match e
    case Step(t) =>
      if t in s.threads {
        CallStepKeeps(s.parents, s.threads[t].call);
      }
    case Write =>
      if (s.writer.FindingU? || s.writer.FindingV?) && !s.writer.call.Done? {
        CallStepKeeps(s.parents, s.writer.call);
      }
    case _ =>
  }

  /** A union takes effect once, joining exactly its arguments' classes under the lower root. */
  lemma UnionsJoin(s: State, e: Event)
    requires Inv(s) && Next(s, e).edges != s.edges
    ensures e.Write? && (s.writer.FindingV? || s.writer.Linking?)
    ensures Next(s, e).edges == s.edges + {(s.writer.u, s.writer.v)}
    ensures Joined(s.parents, Next(s, e).parents, s.writer.u, s.writer.v)
  {
    if s.writer.Linking? {
      LinkingJoins(s);
    }
  }

  /** Outside the moment between link and index, the index inverts the merge edges exactly. */
  lemma IndexComplete(trace: seq<State>, es: seq<Event>, i: nat)
    requires Run(trace, es) && i <= |es| && !trace[i].writer.Indexing?
    ensures Inverts(trace[i].children, trace[i].merged) && Same(trace[i].parents, trace[i].merged)
  {
    Invariant(trace, es, i);
  }
}

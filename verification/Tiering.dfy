/**
 The size-tiered merge policy: which stretch of runs to merge next, and what it
 costs over a whole deployment. Levels never rise up the stack, a run's level is
 bounded by the logarithm of the folds it covers, and so is the work per fold.
 */
module Tiering {
  import opened Types

  const MAX_LEVEL: nat := 255

  /** A half-open range of stack positions. */
  datatype Range = Range(start: nat, end: nat)

  // --- picking a stretch -----------------------------------------------------------

  /** `r` holds consecutive runs of one level, and cannot be extended either way. */
  ghost predicate IsStretch(levels: seq<nat>, r: Range) {
    && r.start < r.end <= |levels|
    && (forall i | r.start <= i < r.end :: levels[i] == levels[r.start])
    && (r.start > 0 ==> levels[r.start - 1] != levels[r.start])
    && (r.end < |levels| ==> levels[r.end] != levels[r.start])
  }

  ghost predicate Eligible(levels: seq<nat>, min: nat, r: Range) {
    IsStretch(levels, r) && r.end - r.start >= min
  }

  /** `r` is of a lower level than `q`, or of the same and older. */
  ghost predicate Preferred(levels: seq<nat>, r: Range, q: Range)
    requires IsStretch(levels, r) && IsStretch(levels, q)
  {
    levels[r.start] < levels[q.start] || (levels[r.start] == levels[q.start] && r.start <= q.start)
  }

  /** The oldest stretch of the lowest level among those of at least `min` runs. */
  ghost predicate IsLowestStretch(levels: seq<nat>, min: nat, best: Option<Range>) {
    match best
    case None => forall q :: !Eligible(levels, min, q)
    case Some(r) => Eligible(levels, min, r) && forall q | Eligible(levels, min, q) :: Preferred(levels, r, q)
  }

  method LowestStretch(levels: seq<nat>, min: nat) returns (best: Option<Range>)
    ensures IsLowestStretch(levels, min, best)
  {
    best := None;
    var start := 0;
    while start < |levels|
      invariant start <= |levels|
      invariant 0 < start < |levels| ==> levels[start - 1] != levels[start]
      invariant best.Some? ==> Eligible(levels, min, best.value) && best.value.end <= start
      invariant forall q | Eligible(levels, min, q) && q.start < start ::
          q.end <= start && best.Some? && Preferred(levels, best.value, q)
    {
      var end := start;
      while end < |levels| && levels[end] == levels[start]
        invariant start <= end <= |levels|
        invariant forall i | start <= i < end :: levels[i] == levels[start]
      {
        end := end + 1;
      }
      var here := Range(start, end);
      assert IsStretch(levels, here);
      forall q | IsStretch(levels, q) && start <= q.start < end ensures q == here {
        StretchUnique(levels, here, q);
      }
      if end - start >= min {
        if best.None? || levels[start] < levels[best.value.start] {
          best := Some(here);
        }
      }
      start := end;
    }
  }

  /** Stretches that overlap coincide. */
  lemma StretchUnique(levels: seq<nat>, r: Range, q: Range)
    requires IsStretch(levels, r) && IsStretch(levels, q) && r.start <= q.start < r.end
    ensures r == q
  {
  }

  /** What the policy may answer: a full level first, then depth past the ceiling. */
  ghost predicate Picks(levels: seq<nat>, fanout: nat, maxRuns: nat, r: Option<Range>) {
    var width := Max(fanout, 2);
    if exists q :: Eligible(levels, width, q) then
      && r.Some? && r.value.end == r.value.start + width
      && exists q: Range :: q.start == r.value.start && IsLowestStretch(levels, width, Some(q))
    else if |levels| >= maxRuns then IsLowestStretch(levels, 2, r)
    else r == None
  }

  method PickMerge(levels: seq<nat>, fanout: nat, maxRuns: nat) returns (r: Option<Range>)
    ensures Picks(levels, fanout, maxRuns, r)
  {
    var width := Max(fanout, 2);
    var stretch := LowestStretch(levels, width);
    if stretch.Some? {
      assert Eligible(levels, width, stretch.value);
      return Some(Range(stretch.value.start, stretch.value.start + width));
    }
    if |levels| >= maxRuns {
      r := LowestStretch(levels, 2);
    } else {
      r := None;
    }
  }

  // --- a deployment -----------------------------------------------------------------

  /** A run: its level, and how many folds went into it. */
  datatype Tiered = Tiered(level: nat, folds: nat)

  /** Stack, folds so far, and folds rewritten by merges so far. */
  datatype Deployment = Deployment(runs: seq<Tiered>, folds: nat, work: nat)

  /** A merge was planned on the `planned` oldest runs; folds may have landed since. */
  datatype Event =
    | Fold
    | Merge(planned: nat, fanout: nat, maxRuns: nat, picked: Range)

  function Levels(runs: seq<Tiered>): seq<nat> {
    seq(|runs|, i requires 0 <= i < |runs| => runs[i].level)
  }

  /** The folds in the oldest `n` runs. */
  function FoldsIn(runs: seq<Tiered>, n: nat): nat
    requires n <= |runs|
  {
    if n == 0 then 0 else FoldsIn(runs, n - 1) + runs[n - 1].folds
  }

  function TotalFolds(runs: seq<Tiered>): nat {
    FoldsIn(runs, |runs|)
  }

  /** Every fold in the oldest `n` runs, counted once per level it has climbed. */
  function ClimbsIn(runs: seq<Tiered>, n: nat): nat
    requires n <= |runs|
  {
    if n == 0 then 0 else ClimbsIn(runs, n - 1) + Climb(runs[n - 1].folds, runs[n - 1].level)
  }

  function Climbed(runs: seq<Tiered>): nat {
    ClimbsIn(runs, |runs|)
  }

  /** `folds` rewrites for each of `level` climbs. */
  function Climb(folds: nat, level: nat): nat {
    if level == 0 then 0 else Climb(folds, level - 1) + folds
  }

  function MaxLevel(runs: seq<Tiered>): nat
    requires runs != []
  {
    MaxIn(runs, |runs|)
  }

  function MaxIn(runs: seq<Tiered>, n: nat): nat
    requires 0 < n <= |runs|
  {
    if n == 1 then runs[0].level else Max(MaxIn(runs, n - 1), runs[n - 1].level)
  }

  /** One above the highest input, saturating. */
  function MergedRun(runs: seq<Tiered>): Tiered
    requires runs != []
  {
    Tiered(Min(MaxLevel(runs) + 1, MAX_LEVEL), TotalFolds(runs))
  }

  ghost predicate Enabled(d: Deployment, e: Event) {
    match e
    case Fold => true
    case Merge(planned, fanout, maxRuns, picked) =>
      planned <= |d.runs| && Picks(Levels(d.runs[..planned]), fanout, maxRuns, Some(picked))
  }

  ghost function Next(d: Deployment, e: Event): Deployment
    requires Enabled(d, e)
  {
    match e
    case Fold => Deployment(d.runs + [Tiered(0, 1)], d.folds + 1, d.work)
    case Merge(planned, fanout, maxRuns, picked) =>
      PickedInRange(Levels(d.runs[..planned]), fanout, maxRuns, picked);
      var slice := d.runs[picked.start..picked.end];
      Deployment(
        d.runs[..picked.start] + [MergedRun(slice)] + d.runs[picked.end..],
        d.folds,
        d.work + TotalFolds(slice))
  }

  /** A picked range is two or more runs of one level, not preceded by another of it. */
  ghost predicate OneLevel(levels: seq<nat>, r: Range) {
    && r.start + 2 <= r.end <= |levels|
    && (forall i | r.start <= i < r.end :: levels[i] == levels[r.start])
    && (r.start > 0 ==> levels[r.start - 1] != levels[r.start])
  }

  lemma PickedInRange(levels: seq<nat>, fanout: nat, maxRuns: nat, r: Range)
    requires Picks(levels, fanout, maxRuns, Some(r))
    ensures OneLevel(levels, r)
  {
  }

  // --- arithmetic -------------------------------------------------------------------------

  function Pow(b: nat, e: nat): nat {
    if e == 0 then 1 else b * Pow(b, e - 1)
  }

  lemma {:induction false} PowGrows(b: nat, e: nat)
    requires b >= 2
    ensures 1 <= Pow(b, e) < Pow(b, e + 1)
  {
    if e > 0 {
      PowGrows(b, e - 1);
    }
  }

  function LogFrom(b: nat, n: nat, k: nat): (r: nat)
    requires b >= 2 && Pow(b, k) <= n
    ensures Pow(b, r) <= n < Pow(b, r + 1)
    decreases n - Pow(b, k)
  {
    PowGrows(b, k);
    if n < Pow(b, k + 1) then k else LogFrom(b, n, k + 1)
  }

  /** The largest `k` with `b^k <= n`. */
  function Log(b: nat, n: nat): (r: nat)
    requires b >= 2 && n >= 1
    ensures Pow(b, r) <= n < Pow(b, r + 1)
  {
    LogFrom(b, n, 0)
  }

  lemma {:induction false} PowMonotone(b: nat, i: nat, j: nat)
    requires b >= 1 && i <= j
    ensures 1 <= Pow(b, i) <= Pow(b, j)
    decreases j
  {
    if i < j {
      PowMonotone(b, i, j - 1);
      assert Pow(b, j) == b * Pow(b, j - 1) >= Pow(b, j - 1);
    } else if i > 0 {
      PowMonotone(b, i - 1, j - 1);
    }
  }

  lemma LogBounds(b: nat, n: nat, level: nat)
    requires b >= 2 && n >= 1 && Pow(b, level) <= n
    ensures level <= Log(b, n)
  {
    if level > Log(b, n) {
      PowMonotone(b, Log(b, n) + 1, level);
    }
  }

  // --- sums over the stack ------------------------------------------------------------------

  lemma {:induction false} Prefix(a: seq<Tiered>, b: seq<Tiered>, n: nat)
    requires n <= |a|
    ensures FoldsIn(a + b, n) == FoldsIn(a, n) && ClimbsIn(a + b, n) == ClimbsIn(a, n)
  {
    if n > 0 {
      Prefix(a, b, n - 1);
    }
  }

  lemma {:induction false} Suffix(a: seq<Tiered>, b: seq<Tiered>, n: nat)
    requires n <= |b|
    ensures FoldsIn(a + b, |a| + n) == TotalFolds(a) + FoldsIn(b, n)
    ensures ClimbsIn(a + b, |a| + n) == Climbed(a) + ClimbsIn(b, n)
  {
    if n == 0 {
      Prefix(a, b, |a|);
    } else {
      Suffix(a, b, n - 1);
    }
  }

  lemma Sums(a: seq<Tiered>, b: seq<Tiered>)
    ensures TotalFolds(a + b) == TotalFolds(a) + TotalFolds(b)
    ensures Climbed(a + b) == Climbed(a) + Climbed(b)
  {
    Suffix(a, b, |b|);
  }

  lemma {:induction false} ClimbSum(a: nat, b: nat, level: nat)
    ensures Climb(a + b, level) == Climb(a, level) + Climb(b, level)
  {
    if level > 0 {
      ClimbSum(a, b, level - 1);
    }
  }

  lemma {:induction false} ClimbBound(folds: nat, level: nat, top: nat)
    requires level <= top
    ensures Climb(folds, level) <= folds * top
    decreases top
  {
    if level > 0 {
      ClimbBound(folds, level - 1, top - 1);
      Distribute(top - 1, 1, folds);
    }
  }

  lemma {:induction false} Uniform(runs: seq<Tiered>, n: nat, level: nat, least: nat)
    requires 0 < n <= |runs| && forall i | 0 <= i < n :: runs[i].level == level && runs[i].folds >= least
    ensures MaxIn(runs, n) == level && ClimbsIn(runs, n) == Climb(FoldsIn(runs, n), level)
    ensures FoldsIn(runs, n) >= n * least
  {
    if n > 1 {
      Uniform(runs, n - 1, level, least);
      ClimbSum(FoldsIn(runs, n - 1), runs[n - 1].folds, level);
      Distribute(n - 1, 1, least);
    }
  }

  lemma {:induction false} Exact(runs: seq<Tiered>, n: nat, each: nat)
    requires n <= |runs| && forall i | 0 <= i < n :: runs[i].folds == each
    ensures FoldsIn(runs, n) == n * each
  {
    if n > 0 {
      Exact(runs, n - 1, each);
      Distribute(n - 1, 1, each);
    }
  }

  lemma {:induction false} ClimbedBound(runs: seq<Tiered>, n: nat, top: nat)
    requires n <= |runs| && forall i | 0 <= i < n :: runs[i].level <= top
    ensures ClimbsIn(runs, n) <= FoldsIn(runs, n) * top
  {
    if n > 0 {
      ClimbedBound(runs, n - 1, top);
      ClimbBound(runs[n - 1].folds, runs[n - 1].level, top);
      Distribute(FoldsIn(runs, n - 1), runs[n - 1].folds, top);
    }
  }

  // --- what every step keeps -------------------------------------------------------------------

  ghost predicate Descends(levels: seq<nat>) {
    forall i, j | 0 <= i <= j < |levels| :: levels[i] >= levels[j]
  }

  ghost predicate Covers(run: Tiered) {
    Pow(2, run.level) <= run.folds
  }

  ghost predicate Full(run: Tiered, width: nat) {
    run.folds == Pow(width, run.level)
  }

  ghost predicate Kept(d: Deployment) {
    && Descends(Levels(d.runs))
    && (forall i | 0 <= i < |d.runs| :: Covers(d.runs[i]))
    && TotalFolds(d.runs) == d.folds && Climbed(d.runs) == d.work
  }

  lemma FoldKeeps(d: Deployment)
    requires Kept(d)
    ensures Kept(Next(d, Fold))
  {
    var runs := d.runs + [Tiered(0, 1)];
    Sums(d.runs, [Tiered(0, 1)]);
    assert forall i | 0 <= i < |d.runs| :: Levels(runs)[i] == Levels(d.runs)[i];
  }

  /** The merge of one level's stretch is one level up, below which it still stands. */
  lemma MergedLevels(levels: seq<nat>, r: Range, level: nat)
    requires Descends(levels) && OneLevel(levels, r) && level == levels[r.start] + 1
    ensures Descends(levels[..r.start] + [level] + levels[r.end..])
  {
    var next := levels[..r.start] + [level] + levels[r.end..];
    forall i, j | 0 <= i <= j < |next| ensures next[i] >= next[j] {
      assert forall k | 0 <= k < r.start :: levels[k] >= levels[r.start - 1] > levels[r.start];
    }
  }

  /** What a stack's sums are with one run in place of a middle stretch. */
  lemma Replaced(a: seq<Tiered>, b: seq<Tiered>, c: seq<Tiered>, run: Tiered)
    ensures TotalFolds(a + [run] + c) + TotalFolds(b) == TotalFolds(a + b + c) + run.folds
    ensures Climbed(a + [run] + c) + Climbed(b) == Climbed(a + b + c) + Climb(run.folds, run.level)
  {
    ThreeSums(a, b, c);
    ThreeSums(a, [run], c);
    assert FoldsIn([run], 1) == FoldsIn([run], 0) + run.folds;
    assert ClimbsIn([run], 1) == ClimbsIn([run], 0) + Climb(run.folds, run.level);
  }

  lemma ThreeSums(a: seq<Tiered>, b: seq<Tiered>, c: seq<Tiered>)
    ensures TotalFolds(a + b + c) == TotalFolds(a) + TotalFolds(b) + TotalFolds(c)
    ensures Climbed(a + b + c) == Climbed(a) + Climbed(b) + Climbed(c)
  {
    Sums(a, b);
    Sums(a + b, c);
  }

  /** A slice picked from the planned prefix has one level, whatever landed on top since. */
  lemma PickedSlice(d: Deployment, e: Event)
    requires Enabled(d, e) && e.Merge?
    ensures OneLevel(Levels(d.runs), e.picked)
  {
    var prefix := Levels(d.runs[..e.planned]);
    PickedInRange(prefix, e.fanout, e.maxRuns, e.picked);
    assert forall i | 0 <= i < |prefix| :: prefix[i] == Levels(d.runs)[i];
  }

  /** The stack with a stretch of one level replaced by its merge, one level up. */
  ghost function Lifted(runs: seq<Tiered>, r: Range): seq<Tiered>
    requires r.start < r.end <= |runs|
  {
    Around(runs, r, Tiered(runs[r.start].level + 1, TotalFolds(runs[r.start..r.end])))
  }

  /** The stack with one run in place of a stretch. */
  ghost function Around(runs: seq<Tiered>, r: Range, run: Tiered): seq<Tiered>
    requires r.start < r.end <= |runs|
  {
    runs[..r.start] + [run] + runs[r.end..]
  }

  /** Below 2^255 folds no level saturates. */
  lemma MergeLifts(d: Deployment, e: Event)
    requires Kept(d) && Enabled(d, e) && e.Merge? && d.folds < Pow(2, MAX_LEVEL)
    ensures OneLevel(Levels(d.runs), e.picked)
    ensures var folds := TotalFolds(d.runs[e.picked.start..e.picked.end]);
      Next(d, e) == Deployment(Lifted(d.runs, e.picked), d.folds, d.work + folds)
  {
    PickedSlice(d, e);
    SmallLevel(d, e.picked.start);
    MergedAbove(d.runs, e.picked);
  }

  lemma MergeKeeps(d: Deployment, e: Event)
    requires Kept(d) && Enabled(d, e) && e.Merge? && d.folds < Pow(2, MAX_LEVEL)
    ensures Kept(Next(d, e))
  {
    MergeLifts(d, e);
    SpliceKeeps(d, e.picked);
  }

  lemma SpliceKeeps(d: Deployment, r: Range)
    requires Kept(d) && OneLevel(Levels(d.runs), r)
    ensures Kept(Deployment(Lifted(d.runs, r), d.folds, d.work + TotalFolds(d.runs[r.start..r.end])))
  {
    LiftedCovers(d.runs, r);
    SpliceSums(d.runs, r);
    SpliceLevels(d.runs, r);
  }

  lemma LiftedCovers(runs: seq<Tiered>, r: Range)
    requires OneLevel(Levels(runs), r) && forall i | 0 <= i < |runs| :: Covers(runs[i])
    ensures forall i | 0 <= i < |Lifted(runs, r)| :: Covers(Lifted(runs, r)[i])
  {
    MergedAbove(runs, r);
  }

  lemma SpliceSums(runs: seq<Tiered>, r: Range)
    requires OneLevel(Levels(runs), r) && forall i | 0 <= i < |runs| :: Covers(runs[i])
    ensures TotalFolds(Lifted(runs, r)) == TotalFolds(runs)
    ensures Climbed(Lifted(runs, r)) == Climbed(runs) + TotalFolds(runs[r.start..r.end])
  {
    MergedAbove(runs, r);
    AroundSums(runs, r, Tiered(runs[r.start].level + 1, TotalFolds(runs[r.start..r.end])));
  }

  lemma AroundSums(runs: seq<Tiered>, r: Range, run: Tiered)
    requires r.start < r.end <= |runs| && run.level > 0 && run.folds == TotalFolds(runs[r.start..r.end])
    requires Climbed(runs[r.start..r.end]) == Climb(run.folds, run.level - 1)
    ensures TotalFolds(Around(runs, r, run)) == TotalFolds(runs)
    ensures Climbed(Around(runs, r, run)) == Climbed(runs) + run.folds
  {
    var a, b, c := runs[..r.start], runs[r.start..r.end], runs[r.end..];
    assert runs == a + b + c;
    Replaced(a, b, c, run);
  }

  lemma SpliceLevels(runs: seq<Tiered>, r: Range)
    requires Descends(Levels(runs)) && OneLevel(Levels(runs), r)
    ensures Descends(Levels(Lifted(runs, r)))
  {
    var level := runs[r.start].level;
    assert Levels(runs)[r.start] == level;
    MergedLevels(Levels(runs), r, level + 1);
    assert Levels(Lifted(runs, r)) == Levels(runs)[..r.start] + [level + 1] + Levels(runs)[r.end..];
  }

  lemma SmallLevel(d: Deployment, i: nat)
    requires Kept(d) && i < |d.runs| && d.folds < Pow(2, MAX_LEVEL)
    ensures d.runs[i].level < MAX_LEVEL && d.runs[i].folds <= d.folds
  {
    PartOfTotal(d.runs, |d.runs|, i);
    assert Covers(d.runs[i]);
    if d.runs[i].level >= MAX_LEVEL {
      PowMonotone(2, MAX_LEVEL, d.runs[i].level);
    }
  }

  lemma {:induction false} PartOfTotal(runs: seq<Tiered>, n: nat, i: nat)
    requires i < n <= |runs|
    ensures runs[i].folds <= FoldsIn(runs, n)
  {
    if i < n - 1 {
      PartOfTotal(runs, n - 1, i);
    }
  }

  /** Two or more runs of `2^L` folds make one of `2^(L+1)`. */
  lemma MergedAbove(runs: seq<Tiered>, r: Range)
    requires OneLevel(Levels(runs), r) && forall i | 0 <= i < |runs| :: Covers(runs[i])
    ensures var slice, level := runs[r.start..r.end], runs[r.start].level;
      && MaxLevel(slice) == level && Climbed(slice) == Climb(TotalFolds(slice), level)
      && Covers(Tiered(level + 1, TotalFolds(slice)))
  {
    var slice, level := runs[r.start..r.end], runs[r.start].level;
    forall i | 0 <= i < |slice| ensures slice[i].level == level && slice[i].folds >= Pow(2, level) {
      assert Levels(runs)[r.start + i] == Levels(runs)[r.start];
      assert Covers(runs[r.start + i]);
    }
    Uniform(slice, |slice|, level, Pow(2, level));
    Scale(2, |slice|, Pow(2, level));
    assert Pow(2, level + 1) == 2 * Pow(2, level);
  }

  // --- with one fanout and the ceiling never reached ----------------------------------------------

  /** Every merge takes a full level: the stack it was planned on was below the ceiling. */
  ghost predicate FullLevels(e: Event, width: nat) {
    e.Merge? ==> Max(e.fanout, 2) == width && e.planned < e.maxRuns
  }

  ghost predicate AllFull(runs: seq<Tiered>, width: nat) {
    forall i | 0 <= i < |runs| :: Full(runs[i], width)
  }

  lemma FullWidth(d: Deployment, e: Event, width: nat)
    requires Enabled(d, e) && e.Merge? && FullLevels(e, width)
    ensures e.picked.end == e.picked.start + width
  {
  }

  lemma FullKeeps(d: Deployment, e: Event, width: nat)
    requires Kept(d) && Enabled(d, e) && d.folds < Pow(2, MAX_LEVEL)
    requires FullLevels(e, width) && AllFull(d.runs, width)
    ensures AllFull(Next(d, e).runs, width)
  {
    if e.Merge? {
      MergeLifts(d, e);
      FullWidth(d, e, width);
      LiftedFull(d.runs, e.picked, width);
    }
  }

  lemma LiftedFull(runs: seq<Tiered>, r: Range, width: nat)
    requires OneLevel(Levels(runs), r) && AllFull(runs, width) && r.end == r.start + width
    ensures AllFull(Lifted(runs, r), width)
  {
    MergedFull(runs, r, width);
  }

  /** `T` runs of `T^L` folds make one of `T^(L+1)`. */
  lemma MergedFull(runs: seq<Tiered>, r: Range, width: nat)
    requires OneLevel(Levels(runs), r) && AllFull(runs, width) && r.end == r.start + width
    ensures var slice, level := runs[r.start..r.end], runs[r.start].level;
      MaxLevel(slice) == level && Full(Tiered(level + 1, TotalFolds(slice)), width)
  {
    var slice, level := runs[r.start..r.end], runs[r.start].level;
    forall i | 0 <= i < |slice| ensures slice[i].level == level && slice[i].folds == Pow(width, level) {
      assert Levels(runs)[r.start + i] == Levels(runs)[r.start];
      assert Full(runs[r.start + i], width);
    }
    Uniform(slice, |slice|, level, Pow(width, level));
    Exact(slice, |slice|, Pow(width, level));
  }

  // --- depth -----------------------------------------------------------------------------------------

  /** Equal neighbours lie in one stretch. */
  lemma StretchAround(levels: seq<nat>, lo: nat, hi: nat) returns (q: Range)
    requires lo < hi <= |levels| && forall i | lo <= i < hi :: levels[i] == levels[lo]
    ensures IsStretch(levels, q) && q.start <= lo && hi <= q.end
  {
    var start, end := lo, hi;
    while start > 0 && levels[start - 1] == levels[lo]
      invariant 0 <= start <= lo && forall i | start <= i < hi :: levels[i] == levels[lo]
    {
      start := start - 1;
    }
    while end < |levels| && levels[end] == levels[lo]
      invariant hi <= end <= |levels| && forall i | start <= i < end :: levels[i] == levels[lo]
    {
      end := end + 1;
    }
    q := Range(start, end);
  }

  /** With no stretch of `width` runs, each `width - 1` runs down the stack cost a level. */
  lemma {:induction false} DepthFrom(levels: seq<nat>, width: nat, i: nat)
    requires width >= 2 && Descends(levels) && i < |levels|
    requires forall q :: !Eligible(levels, width, q)
    ensures |levels| - i <= (levels[i] + 1) * (width - 1)
    decreases |levels| - i
  {
    var j := i + width - 1;
    if j < |levels| {
      if levels[i] == levels[j] {
        forall k | i <= k < j + 1 ensures levels[k] == levels[i] {
          assert levels[i] >= levels[k] >= levels[j];
        }
        var q := StretchAround(levels, i, j + 1);
        assert Eligible(levels, width, q);
        assert false;
      }
      assert levels[i] >= levels[j];
      DepthFrom(levels, width, j);
      Scale(levels[j] + 1, levels[i], width - 1);
    }
    Distribute(levels[i], 1, width - 1);
  }

  // --- any run of the policy ---------------------------------------------------------------------------

  ghost predicate Step(trace: seq<Deployment>, es: seq<Event>, i: nat)
    requires |trace| == |es| + 1 && i < |es|
  {
    Enabled(trace[i], es[i]) && trace[i + 1] == Next(trace[i], es[i])
  }

  ghost predicate Run(trace: seq<Deployment>, es: seq<Event>) {
    && |trace| == |es| + 1 && trace[0] == Deployment([], 0, 0)
    && forall i | 0 <= i < |es| :: Step(trace, es, i)
  }

  lemma {:induction false} RunKeeps(trace: seq<Deployment>, es: seq<Event>, i: nat)
    requires Run(trace, es) && i <= |es| && trace[i].folds < Pow(2, MAX_LEVEL)
    ensures Kept(trace[i])
  {
    if i > 0 {
      assert Step(trace, es, i - 1);
      RunKeeps(trace, es, i - 1);
      if es[i - 1].Fold? {
        FoldKeeps(trace[i - 1]);
      } else {
        MergeKeeps(trace[i - 1], es[i - 1]);
      }
    }
  }

  /**
    However merges are picked, planned and adopted among fewer than 2^255 folds:
    levels do not rise up the stack, a level-`L` run covers at least `2^L` folds,
    no fold is lost, and the folds rewritten number at most `F * log2 F`.
    */
  lemma MergeWork(trace: seq<Deployment>, es: seq<Event>, i: nat)
    requires Run(trace, es) && i <= |es| && 1 <= trace[i].folds < Pow(2, MAX_LEVEL)
    ensures Kept(trace[i])
    ensures trace[i].work <= trace[i].folds * Log(2, trace[i].folds)
  {
    RunKeeps(trace, es, i);
    LevelsBound(trace[i], 2);
    WorkBound(trace[i], Log(2, trace[i].folds));
  }

  ghost predicate AtLeast(run: Tiered, width: nat) {
    Pow(width, run.level) <= run.folds
  }

  lemma LevelsBound(d: Deployment, width: nat)
    requires TotalFolds(d.runs) == d.folds && width >= 2 && d.folds >= 1
    requires forall i | 0 <= i < |d.runs| :: AtLeast(d.runs[i], width)
    ensures forall i | 0 <= i < |d.runs| :: d.runs[i].level <= Log(width, d.folds)
  {
    forall i | 0 <= i < |d.runs| ensures d.runs[i].level <= Log(width, d.folds) {
      PartOfTotal(d.runs, |d.runs|, i);
      assert AtLeast(d.runs[i], width);
      LogBounds(width, d.folds, d.runs[i].level);
    }
  }

  lemma WorkBound(d: Deployment, top: nat)
    requires TotalFolds(d.runs) == d.folds && Climbed(d.runs) == d.work
    requires forall i | 0 <= i < |d.runs| :: d.runs[i].level <= top
    ensures d.work <= d.folds * top
  {
    ClimbedBound(d.runs, |d.runs|, top);
  }

  lemma {:induction false} RunFull(trace: seq<Deployment>, es: seq<Event>, i: nat, width: nat)
    requires Run(trace, es) && i <= |es| && trace[i].folds < Pow(2, MAX_LEVEL)
    requires forall k | 0 <= k < i :: FullLevels(es[k], width)
    ensures AllFull(trace[i].runs, width)
  {
    if i > 0 {
      assert Step(trace, es, i - 1);
      RunFull(trace, es, i - 1, width);
      RunKeeps(trace, es, i - 1);
      FullKeeps(trace[i - 1], es[i - 1], width);
    }
  }

  /** Taking only full levels of `T`: runs hold exactly `T^L` folds, rewritten `F * log_T F` at most. */
  lemma FullLevelWork(trace: seq<Deployment>, es: seq<Event>, i: nat, width: nat)
    requires width >= 2 && Run(trace, es) && i <= |es| && 1 <= trace[i].folds < Pow(2, MAX_LEVEL)
    requires forall k | 0 <= k < i :: FullLevels(es[k], width)
    ensures AllFull(trace[i].runs, width)
    ensures trace[i].work <= trace[i].folds * Log(width, trace[i].folds)
  {
    RunKeeps(trace, es, i);
    RunFull(trace, es, i, width);
    FullBound(trace[i], width);
    WorkBound(trace[i], Log(width, trace[i].folds));
  }

  lemma FullBound(d: Deployment, width: nat)
    requires TotalFolds(d.runs) == d.folds && width >= 2 && d.folds >= 1 && AllFull(d.runs, width)
    ensures forall i | 0 <= i < |d.runs| :: d.runs[i].level <= Log(width, d.folds)
  {
    forall k | 0 <= k < |d.runs| ensures AtLeast(d.runs[k], width) {
      assert Full(d.runs[k], width);
    }
    LevelsBound(d, width);
  }

  /** When the policy then rests, the stack is at most `(T - 1)(1 + log_T F)` deep. */
  lemma RestingDepth(trace: seq<Deployment>, es: seq<Event>, i: nat, width: nat, maxRuns: nat)
    requires width >= 2 && Run(trace, es) && i <= |es| && 1 <= trace[i].folds < Pow(2, MAX_LEVEL)
    requires forall k | 0 <= k < i :: FullLevels(es[k], width)
    requires Picks(Levels(trace[i].runs), width, maxRuns, None)
    ensures |trace[i].runs| <= (width - 1) * (1 + Log(width, trace[i].folds))
  {
    RunKeeps(trace, es, i);
    RunFull(trace, es, i, width);
    Rests(trace[i], width, maxRuns);
  }

  lemma Rests(d: Deployment, width: nat, maxRuns: nat)
    requires width >= 2 && d.folds >= 1 && Kept(d) && AllFull(d.runs, width)
    requires Picks(Levels(d.runs), width, maxRuns, None)
    ensures |d.runs| <= (width - 1) * (1 + Log(width, d.folds))
  {
    FullBound(d, width);
    NoneEligible(Levels(d.runs), width, maxRuns);
    Depth(d, width);
  }

  lemma NoneEligible(levels: seq<nat>, width: nat, maxRuns: nat)
    requires width >= 2 && Picks(levels, width, maxRuns, None)
    ensures forall q :: !Eligible(levels, width, q)
  {
    assert Max(width, 2) == width;
    assert !exists q :: Eligible(levels, Max(width, 2), q);
  }

  lemma Depth(d: Deployment, width: nat)
    requires width >= 2 && Descends(Levels(d.runs)) && d.folds >= 1
    requires forall i | 0 <= i < |d.runs| :: d.runs[i].level <= Log(width, d.folds)
    requires forall q :: !Eligible(Levels(d.runs), width, q)
    ensures |d.runs| <= (width - 1) * (1 + Log(width, d.folds))
  {
    if d.runs != [] {
      DepthFrom(Levels(d.runs), width, 0);
      Scale(d.runs[0].level + 1, 1 + Log(width, d.folds), width - 1);
    }
  }

  /** Past the ceiling the policy rests only on a stack of distinct levels: `1 + log2 F` deep. */
  lemma CeilingDepth(trace: seq<Deployment>, es: seq<Event>, i: nat, fanout: nat, maxRuns: nat)
    requires Run(trace, es) && i <= |es| && 1 <= trace[i].folds < Pow(2, MAX_LEVEL)
    requires |trace[i].runs| >= maxRuns && Picks(Levels(trace[i].runs), fanout, maxRuns, None)
    ensures |trace[i].runs| <= 1 + Log(2, trace[i].folds)
  {
    RunKeeps(trace, es, i);
    LevelsBound(trace[i], 2);
    Depth(trace[i], 2);
  }
}

/**
 A snapshot's list of runs, and how a reader takes it: exactly when the spans
 partition the sequences up to the snapshot's own.
 */
module RunLists {
  import ForestState

  /** A run of the local stack: its file, contents, span, and whether a snapshot names it. */
  datatype LocalRun = LocalRun(id: nat, content: ForestState.Run, min: nat, max: nat, committed: bool)

  datatype RunSet = Runs(runs: seq<LocalRun>) | SequencesOnly(first: nat, last: nat)

  datatype Problem = NoRuns | Backwards | NotAdjacent | NewestShort

  datatype Reading = Accepted(set_: RunSet) | Refused(problem: Problem)

  // --- reading a run set ---------------------------------------------------------------

  /** Stable insertion by the start of the span. */
  function Place(sorted: seq<LocalRun>, r: LocalRun): (out: seq<LocalRun>)
    ensures multiset(out) == multiset(sorted) + multiset{r}
  {
    if sorted == [] then [r]
    else
      var front, last := sorted[..|sorted| - 1], sorted[|sorted| - 1];
      assert sorted == front + [last];
      if last.min <= r.min then sorted + [r] else Place(front, r) + [last]
  }

  function SortByMin(runs: seq<LocalRun>): (out: seq<LocalRun>)
    ensures multiset(out) == multiset(runs)
  {
    if runs == [] then []
    else
      assert runs == runs[..|runs| - 1] + [runs[|runs| - 1]];
      Place(SortByMin(runs[..|runs| - 1]), runs[|runs| - 1])
  }

  predicate Forwards(runs: seq<LocalRun>) {
    forall i | 0 <= i < |runs| :: runs[i].min <= runs[i].max
  }

  predicate Adjacent(runs: seq<LocalRun>) {
    forall i | 0 < i < |runs| :: runs[i - 1].max + 1 == runs[i].min
  }

  /** `format` says the snapshot claims to list its runs; `base` is the older format's chain start. */
  function ReadRunSet(format: bool, sequence: nat, base: nat, runs: seq<LocalRun>): Reading {
    if format && runs == [] then Refused(NoRuns)
    else if runs == [] then Accepted(SequencesOnly(if base == 0 then sequence else base, sequence))
    else
      var sorted := SortByMin(runs);
      assert |sorted| == |multiset(runs)| == |runs|;
      if !Forwards(sorted) then Refused(Backwards)
      else if !Adjacent(sorted) then Refused(NotAdjacent)
      else if sorted[|sorted| - 1].max != sequence then Refused(NewestShort)
      else Accepted(Runs(sorted))
  }

  // --- what acceptance means --------------------------------------------------------------

  predicate Claims(r: LocalRun, q: nat) {
    r.min <= q <= r.max
  }

  /** How many runs claim `q`. */
  function Claimants(runs: seq<LocalRun>, q: nat): nat {
    if runs == [] then 0
    else Claimants(runs[..|runs| - 1], q) + if Claims(runs[|runs| - 1], q) then 1 else 0
  }

  /** The spans partition `first..=last`: no gap, no overlap, nothing outside. */
  ghost predicate Partition(runs: seq<LocalRun>, first: nat, last: nat) {
    && Forwards(runs) && first <= last
    && forall q: nat :: Claimants(runs, q) == if first <= q <= last then 1 else 0
  }

  lemma {:induction false} ClaimsCount(runs: seq<LocalRun>, i: nat, j: nat, q: nat)
    requires i <= j < |runs| && Claims(runs[i], q) && Claims(runs[j], q)
    ensures Claimants(runs, q) >= if i == j then 1 else 2
  {
    var n := |runs| - 1;
    if j < n {
      ClaimsCount(runs[..n], i, j, q);
    } else if i < n {
      ClaimsCount(runs[..n], i, i, q);
    }
  }

  lemma {:induction false} Claimant(runs: seq<LocalRun>, q: nat) returns (i: nat)
    requires Claimants(runs, q) > 0
    ensures i < |runs| && Claims(runs[i], q)
  {
    var n := |runs| - 1;
    if Claims(runs[n], q) {
      i := n;
    } else {
      i := Claimant(runs[..n], q);
    }
  }

  lemma {:induction false} PlaceClaims(sorted: seq<LocalRun>, r: LocalRun, q: nat)
    ensures Claimants(Place(sorted, r), q) == Claimants(sorted, q) + if Claims(r, q) then 1 else 0
  {
    if sorted != [] {
      var front, last := sorted[..|sorted| - 1], sorted[|sorted| - 1];
      if last.min <= r.min {
        assert (sorted + [r])[..|sorted|] == sorted;
      } else {
        PlaceClaims(front, r, q);
        assert (Place(front, r) + [last])[..|Place(front, r)|] == Place(front, r);
      }
    }
  }

  lemma {:induction false} SortClaims(runs: seq<LocalRun>, q: nat)
    ensures Claimants(SortByMin(runs), q) == Claimants(runs, q)
  {
    if runs != [] {
      SortClaims(runs[..|runs| - 1], q);
      PlaceClaims(SortByMin(runs[..|runs| - 1]), runs[|runs| - 1], q);
    }
  }

  lemma SortForwards(runs: seq<LocalRun>)
    ensures Forwards(SortByMin(runs)) <==> Forwards(runs)
  {
    var sorted := SortByMin(runs);
    if Forwards(runs) {
      SameElements(runs, sorted);
    }
    if Forwards(sorted) {
      SameElements(sorted, runs);
    }
  }

  lemma SameElements(runs: seq<LocalRun>, other: seq<LocalRun>)
    requires multiset(runs) == multiset(other) && Forwards(runs)
    ensures Forwards(other)
  {
    forall i | 0 <= i < |other| ensures other[i].min <= other[i].max {
      assert other[i] in multiset(other);
      assert other[i] in runs;
    }
  }

  ghost predicate SortedByMin(runs: seq<LocalRun>) {
    forall i, j | 0 <= i < j < |runs| :: runs[i].min <= runs[j].min
  }

  lemma {:induction false} PlaceSorted(sorted: seq<LocalRun>, r: LocalRun)
    requires SortedByMin(sorted)
    ensures SortedByMin(Place(sorted, r))
  {
    if sorted != [] {
      var front, last := sorted[..|sorted| - 1], sorted[|sorted| - 1];
      if r.min < last.min {
        PlaceSorted(front, r);
        var placed := Place(front, r);
        forall i | 0 <= i < |placed| ensures placed[i].min <= last.min {
          assert placed[i] in multiset(placed);
          assert placed[i] in multiset(front) || placed[i] == r;
        }
      }
    }
  }

  lemma {:induction false} SortSorted(runs: seq<LocalRun>)
    ensures SortedByMin(SortByMin(runs))
  {
    if runs != [] {
      SortSorted(runs[..|runs| - 1]);
      PlaceSorted(SortByMin(runs[..|runs| - 1]), runs[|runs| - 1]);
    }
  }

  /** A set already in span order is read as it stands. */
  lemma {:induction false} SortFixed(runs: seq<LocalRun>)
    requires SortedByMin(runs)
    ensures SortByMin(runs) == runs
  {
    if runs != [] {
      var front := runs[..|runs| - 1];
      SortFixed(front);
      assert runs == front + [runs[|runs| - 1]];
    }
  }

  lemma {:induction false} AdjacentOrder(runs: seq<LocalRun>, i: nat, j: nat)
    requires Forwards(runs) && Adjacent(runs) && i < j < |runs|
    ensures runs[i].max < runs[j].min
  {
    if i < j - 1 {
      AdjacentOrder(runs, i, j - 1);
    }
  }

  lemma {:induction false} AdjacentCount(runs: seq<LocalRun>, q: nat)
    requires runs != [] && Forwards(runs) && Adjacent(runs)
    ensures Claimants(runs, q) == if runs[0].min <= q <= runs[|runs| - 1].max then 1 else 0
  {
    var front, n := runs[..|runs| - 1], |runs| - 1;
    if front == [] {
      assert Claimants(front, q) == 0;
    } else {
      assert forall i | 0 <= i < n :: front[i] == runs[i];
      AdjacentCount(front, q);
      AdjacentOrder(runs, 0, n);
    }
  }

  /** Adjacent forward spans in order partition what lies between their ends. */
  lemma AdjacentPartition(runs: seq<LocalRun>)
    requires runs != [] && Forwards(runs) && Adjacent(runs)
    ensures Partition(runs, runs[0].min, runs[|runs| - 1].max)
  {
    forall q: nat ensures Claimants(runs, q) == if runs[0].min <= q <= runs[|runs| - 1].max then 1 else 0 {
      AdjacentCount(runs, q);
    }
    if |runs| > 1 {
      AdjacentOrder(runs, 0, |runs| - 1);
    }
  }

  /** A partition listed in span order is adjacent, and ends where the partition does. */
  lemma PartitionAdjacent(runs: seq<LocalRun>, first: nat, last: nat)
    requires SortedByMin(runs) && Partition(runs, first, last)
    ensures runs != [] && Adjacent(runs) && runs[0].min == first && runs[|runs| - 1].max == last
  {
    forall i | 0 < i < |runs| ensures runs[i - 1].max + 1 == runs[i].min {
      NeighboursMeet(runs, first, last, i);
    }
    LastEnds(runs, first, last);
  }

  lemma Disjoint(runs: seq<LocalRun>, first: nat, last: nat, i: nat, j: nat, q: nat)
    requires Partition(runs, first, last) && i < |runs| && j < |runs| && Claims(runs[i], q) && Claims(runs[j], q)
    ensures i == j && first <= q <= last
  {
    if i <= j {
      ClaimsCount(runs, i, j, q);
    } else {
      ClaimsCount(runs, j, i, q);
    }
  }

  lemma NeighboursMeet(runs: seq<LocalRun>, first: nat, last: nat, i: nat)
    requires SortedByMin(runs) && Partition(runs, first, last) && 0 < i < |runs|
    ensures runs[i - 1].max + 1 == runs[i].min
  {
    var a, b := runs[i - 1], runs[i];
    if b.min <= a.max {
      Disjoint(runs, first, last, i - 1, i, b.min);
      assert false;
    }
    Disjoint(runs, first, last, i, i, b.min);
    Disjoint(runs, first, last, i - 1, i - 1, a.max);
    var gap := a.max + 1;
    assert Claimants(runs, gap) == 1;
    var k := Claimant(runs, gap);
    if k < i {
      if k < i - 1 {
        Disjoint(runs, first, last, k, i - 1, a.min);
      }
      assert false;
    }
  }

  lemma LastEnds(runs: seq<LocalRun>, first: nat, last: nat)
    requires SortedByMin(runs) && Partition(runs, first, last)
    requires forall i | 0 < i < |runs| :: runs[i - 1].max + 1 == runs[i].min
    ensures runs != [] && runs[0].min == first && runs[|runs| - 1].max == last
  {
    assert Claimants(runs, first) == 1 && Claimants(runs, last) == 1;
    var n := |runs| - 1;
    var h := Claimant(runs, first);
    var i := Claimant(runs, last);
    Disjoint(runs, first, last, 0, 0, runs[0].min);
    Disjoint(runs, first, last, n, n, runs[n].max);
    if i < n {
      AdjacentOrder(runs, i, n);
    }
  }

  /** Listed runs are accepted exactly when their spans partition some range ending at the snapshot. */
  lemma AcceptedIffPartition(format: bool, sequence: nat, base: nat, runs: seq<LocalRun>)
    requires runs != []
    ensures ReadRunSet(format, sequence, base, runs).Accepted? <==> exists first :: Partition(runs, first, sequence)
  {
    var sorted := SortByMin(runs);
    SortSorted(runs);
    SortForwards(runs);
    forall q: nat ensures Claimants(sorted, q) == Claimants(runs, q) {
      SortClaims(runs, q);
    }
    assert |sorted| == |multiset(runs)| == |runs|;
    if ReadRunSet(format, sequence, base, runs).Accepted? {
      AdjacentPartition(sorted);
      assert Partition(runs, sorted[0].min, sequence);
    }
    if first :| Partition(runs, first, sequence) {
      PartitionAdjacent(sorted, first, sequence);
    }
  }

  /** In order and apart, whether or not anything is missing between. */
  ghost predicate Rising(runs: seq<LocalRun>) {
    Forwards(runs) && forall i | 0 < i < |runs| :: runs[i - 1].max < runs[i].min
  }

  lemma {:induction false} RisingOrder(runs: seq<LocalRun>, i: nat, j: nat)
    requires Rising(runs) && i < j < |runs|
    ensures runs[i].max < runs[j].min
  {
    if i < j - 1 {
      RisingOrder(runs, i, j - 1);
    }
  }

  lemma RisingSpan(runs: seq<LocalRun>, i: nat, j: nat)
    requires Rising(runs) && i <= j < |runs|
    ensures runs[i].min <= runs[j].max
  {
    if i < j {
      RisingOrder(runs, i, j);
    }
  }

  /** Rising runs up to the snapshot are read as they stand, or refused for a gap. */
  lemma RisingRead(sequence: nat, runs: seq<LocalRun>)
    requires runs != [] && Rising(runs) && runs[|runs| - 1].max == sequence
    ensures ReadRunSet(true, sequence, 0, runs)
         == if Adjacent(runs) then Accepted(Runs(runs)) else Refused(NotAdjacent)
  {
    forall i, j | 0 <= i < j < |runs| ensures runs[i].min <= runs[j].min {
      RisingOrder(runs, i, j);
    }
    SortFixed(runs);
  }
}

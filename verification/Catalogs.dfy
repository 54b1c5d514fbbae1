/**
 The newest snapshot of a catalog, found by listing once and by probing forward from
 then on. Probing trusts that sequences leave no hole, which expiry does not keep up:
 from the sequence a process last saw it finds the newest exactly when nothing between
 the two was expired.
 */
module Catalogs {
  import opened Types

  /** A snapshot read, no snapshot at all, or a sequence whose object is gone. */
  datatype Answer<T> = NoSnapshot | Read(sequence: nat, snapshot: T) | Gone(sequence: nat)

  /** Sequences start at one and leave no hole. */
  ghost predicate Dense<T>(store: map<nat, T>) {
    forall k :: k in store <==> 1 <= k <= |store|
  }

  /** The highest sequence, or zero. */
  ghost predicate IsNewest<T>(store: map<nat, T>, n: nat) {
    (n == 0 || n in store) && forall k | k in store :: k <= n
  }

  /** Probing forward from `from` stops at `n`. */
  ghost predicate Reaches<T>(store: map<nat, T>, from: nat, n: nat) {
    from <= n && n + 1 !in store && forall k | from < k <= n :: k in store
  }

  function AnswerAt<T>(store: map<nat, T>, n: nat): Answer<T> {
    if n == 0 then NoSnapshot else if n in store then Read(n, store[n]) else Gone(n)
  }

  /** Nothing after `cached` is missing up to the newest. */
  ghost predicate Unbroken<T>(store: map<nat, T>, cached: nat, newest: nat) {
    cached <= newest && forall k | cached < k <= newest :: k in store
  }

  lemma ReachesNewestIff<T>(store: map<nat, T>, cached: nat, newest: nat, n: nat)
    requires IsNewest(store, newest) && 0 < cached && Reaches(store, cached, n)
    ensures AnswerAt(store, n) == AnswerAt(store, newest) <==> Unbroken(store, cached, newest)
  {
    assert Unbroken(store, cached, newest) ==> !(n < newest);
  }

  /** The highest sequence listed, or zero. */
  method Scan<T>(store: map<nat, T>) returns (newest: nat)
    ensures IsNewest(store, newest)
  {
    newest := 0;
    var left := store.Keys;
    while left != {}
      invariant left <= store.Keys && (newest == 0 || newest in store)
      invariant forall k | k in store && k !in left :: k <= newest
      decreases left
    {
      var k :| k in left;
      newest, left := Max(newest, k), left - {k};
    }
  }

  /** Scan if nothing is cached, then probe forward and read; `seen` is cached for the next time. */
  method Latest<T>(store: map<nat, T>, cached: nat) returns (r: Answer<T>, seen: nat)
    ensures r == AnswerAt(store, seen)
    ensures if cached == 0 then IsNewest(store, seen) else Reaches(store, cached, seen)
    ensures forall n | IsNewest(store, n) ::
      r == AnswerAt(store, n) <==> cached == 0 || Unbroken(store, cached, n)
    ensures Dense(store) && cached <= |store| ==> r == AnswerAt(store, |store|)
  {
    seen := cached;
    if seen == 0 {
      seen := Scan(store);
      if seen == 0 {
        return NoSnapshot, 0;
      }
    }
    while seen + 1 in store
      invariant forall k | cached < k <= seen && cached > 0 :: k in store
      invariant cached <= seen && (cached == 0 ==> IsNewest(store, seen))
      decreases set k | k in store && seen < k
    {
      ghost var above := set k | k in store && seen < k;
      assert seen + 1 in above;
      seen := seen + 1;
    }
    r := AnswerAt(store, seen);
    forall n | IsNewest(store, n) && cached > 0
      ensures r == AnswerAt(store, n) <==> Unbroken(store, cached, n)
    {
      ReachesNewestIff(store, cached, n, seen);
    }
  }

  /**
    Expiry that leaves the sequences `lo..n` only: a process whose cached sequence has
    lost its successor asks for an object that is gone, and any other finds the newest.
    */
  lemma AfterExpiry<T>(store: map<nat, T>, lo: nat, n: nat, cached: nat, seen: nat)
    requires 0 < lo <= n && (forall k :: k in store <==> lo <= k <= n)
    requires 0 < cached <= n && Reaches(store, cached, seen)
    ensures AnswerAt(store, seen) == if lo <= cached + 1 then AnswerAt(store, n) else Gone(cached)
  {
    assert cached + 1 in store <==> lo <= cached + 1 <= n;
    assert cached < seen ==> cached + 1 in store;
  }
}

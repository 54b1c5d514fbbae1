/**
 Sorted lists: inserting, sorting with duplicates dropped, searching by halving,
 and the values a list of entries holds for one key.
 */
module Sorting {
  type Entry = (nat, nat)

  // --- sorting ------------------------------------------------------------------------

  ghost predicate Strict<T(!new)>(less: (T, T) -> bool) {
    && (forall x :: !less(x, x))
    && (forall x, y, z :: less(x, y) && less(y, z) ==> less(x, z))
    && (forall x, y :: x == y || less(x, y) || less(y, x))
  }

  ghost predicate Ascends<T>(s: seq<T>, less: (T, T) -> bool) {
    forall i, j {:trigger less(s[i], s[j])} | 0 <= i < j < |s| :: less(s[i], s[j])
  }

  lemma PlacedBelow<T(!new)>(s: seq<T>, x: T, placed: seq<T>, less: (T, T) -> bool)
    requires Strict(less) && Ascends(s, less) && s != [] && x != s[|s| - 1] && !less(s[|s| - 1], x)
    requires forall y :: y in placed <==> y in s[..|s| - 1] || y == x
    ensures forall i | 0 <= i < |placed| :: less(placed[i], s[|s| - 1])
  {
    forall i | 0 <= i < |placed| ensures less(placed[i], s[|s| - 1]) {
      assert placed[i] in placed;
      if placed[i] != x {
        var j :| 0 <= j < |s| - 1 && s[..|s| - 1][j] == placed[i];
        assert less(s[j], s[|s| - 1]);
      }
    }
  }

  /** Insert into an ascending list, dropping a duplicate. */
  function Insert<T(!new, ==)>(s: seq<T>, x: T, less: (T, T) -> bool): (r: seq<T>)
    requires Strict(less) && Ascends(s, less)
    ensures Ascends(r, less) && (forall y :: y in r <==> y in s || y == x) && |r| <= |s| + 1
  {
    if s == [] then [x]
    else
      var front, last := s[..|s| - 1], s[|s| - 1];
      assert s == front + [last];
      if x == last then s
      else if less(last, x) then s + [x]
      else
        var placed := Insert(front, x, less);
        PlacedBelow(s, x, placed, less);
        placed + [last]
  }

  function SortDedup<T(!new, ==)>(s: seq<T>, less: (T, T) -> bool): (r: seq<T>)
    requires Strict(less)
    ensures Ascends(r, less) && (forall y :: y in r <==> y in s) && |r| <= |s|
  {
    if s == [] then []
    else
      assert s == s[..|s| - 1] + [s[|s| - 1]];
      Insert(SortDedup(s[..|s| - 1], less), s[|s| - 1], less)
  }

  lemma LastGreatest<T(!new)>(s: seq<T>, x: T, less: (T, T) -> bool)
    requires Strict(less) && Ascends(s, less) && x in s
    ensures x == s[|s| - 1] || less(x, s[|s| - 1])
    ensures s[|s| - 1] !in s[..|s| - 1]
  {
    var i :| 0 <= i < |s| && s[i] == x;
    if i < |s| - 1 {
      assert less(s[i], s[|s| - 1]);
    }
    forall j | 0 <= j < |s| - 1 ensures s[j] != s[|s| - 1] {
      assert less(s[j], s[|s| - 1]);
    }
  }

  /** Ascending without duplicates, a list is decided by its elements. */
  lemma {:induction false} AscendsUnique<T(!new)>(a: seq<T>, b: seq<T>, less: (T, T) -> bool)
    requires Strict(less) && Ascends(a, less) && Ascends(b, less) && forall e :: e in a <==> e in b
    ensures a == b
  {
    assert b != [] ==> b[0] in b;
    if a != [] {
      assert a[0] in b;
      var x, y := a[|a| - 1], b[|b| - 1];
      LastGreatest(b, x, less);
      LastGreatest(a, y, less);
      var front, front' := a[..|a| - 1], b[..|b| - 1];
      assert a == front + [x] && b == front' + [y] && x == y;
      forall e ensures e in front <==> e in front' {
        assert e in a <==> e in front || e == x;
        assert e in b <==> e in front' || e == x;
      }
      forall i, j | 0 <= i < j < |front| ensures less(front[i], front[j]) {
        assert less(a[i], a[j]);
      }
      forall i, j | 0 <= i < j < |front'| ensures less(front'[i], front'[j]) {
        assert less(b[i], b[j]);
      }
      AscendsUnique(front, front', less);
    }
  }

  predicate Below(a: nat, b: nat) {
    a < b
  }

  /** By key, then by value. */
  predicate Less(a: Entry, b: Entry) {
    a.0 < b.0 || (a.0 == b.0 && a.1 < b.1)
  }

  ghost predicate Increasing(s: seq<nat>) {
    forall i, j | 0 <= i < j < |s| :: s[i] < s[j]
  }

  ghost predicate Ascend(s: seq<Entry>) {
    forall i, j {:trigger Less(s[i], s[j])} | 0 <= i < j < |s| :: Less(s[i], s[j])
  }

  function SortNumbers(s: seq<nat>): (r: seq<nat>)
    ensures Increasing(r) && forall y :: y in r <==> y in s
  {
    BelowIncreases(SortDedup(s, Below));
    SortDedup(s, Below)
  }

  lemma BelowIncreases(s: seq<nat>)
    ensures Ascends(s, Below) <==> Increasing(s)
  {
    var less: (nat, nat) -> bool := Below;
    if Ascends(s, less) {
      forall i, j | 0 <= i < j < |s| ensures s[i] < s[j] {
        assert less(s[i], s[j]);
      }
    }
  }

  function SortEntries(s: seq<Entry>): (r: seq<Entry>)
    ensures Ascend(r) && (forall y :: y in r <==> y in s) && |r| <= |s|
  {
    SortDedup(s, Less)
  }

  lemma IncreasingUnique(a: seq<nat>, b: seq<nat>)
    requires Increasing(a) && Increasing(b) && forall x :: x in a <==> x in b
    ensures a == b
  {
    BelowIncreases(a);
    BelowIncreases(b);
    AscendsUnique<nat>(a, b, Below);
  }

  lemma AscendUnique(a: seq<Entry>, b: seq<Entry>)
    requires Ascend(a) && Ascend(b) && forall e :: e in a <==> e in b
    ensures a == b
  {
    AscendsUnique(a, b, Less);
  }

  // --- searching -------------------------------------------------------------------------

  ghost predicate NonDecreasing(keys: seq<nat>) {
    forall i, j | 0 <= i < j < |keys| :: keys[i] <= keys[j]
  }

  /** How many leading keys satisfy `key < want`, or `key <= want`. */
  method PartitionPoint(keys: seq<nat>, want: nat, inclusive: bool) returns (n: nat)
    requires NonDecreasing(keys)
    ensures n <= |keys|
    ensures forall i | 0 <= i < n :: keys[i] < want || (inclusive && keys[i] == want)
    ensures forall i | n <= i < |keys| :: want < keys[i] || (!inclusive && keys[i] == want)
  {
    var lo, hi := 0, |keys|;
    while lo < hi
      invariant 0 <= lo <= hi <= |keys|
      invariant forall i | 0 <= i < lo :: keys[i] < want || (inclusive && keys[i] == want)
      invariant forall i | hi <= i < |keys| :: want < keys[i] || (!inclusive && keys[i] == want)
    {
      var mid := (lo + hi) / 2;
      if keys[mid] < want || (inclusive && keys[mid] == want) {
        lo := mid + 1;
      } else {
        hi := mid;
      }
    }
    n := lo;
  }

  // --- the values of a key --------------------------------------------------------------------

  /** The values of `key` among the first `n` entries, in order. */
  function ValuesIn(entries: seq<Entry>, n: nat, key: nat): seq<nat>
    requires n <= |entries|
  {
    if n == 0 then []
    else ValuesIn(entries, n - 1, key) + if entries[n - 1].0 == key then [entries[n - 1].1] else []
  }

  function ValuesFor(entries: seq<Entry>, key: nat): seq<nat> {
    ValuesIn(entries, |entries|, key)
  }

  /** Entries of other keys add nothing. */
  lemma {:induction false} NoneBetween(entries: seq<Entry>, key: nat, i: nat, n: nat)
    requires i <= n <= |entries| && forall j | i <= j < n :: entries[j].0 != key
    ensures ValuesIn(entries, n, key) == ValuesIn(entries, i, key)
    decreases n
  {
    if i < n {
      NoneBetween(entries, key, i, n - 1);
    }
  }

  /** Entries behind others come after them. */
  lemma {:induction false} ValuesJoin(a: seq<Entry>, b: seq<Entry>, n: nat, key: nat)
    requires n <= |b|
    ensures ValuesIn(a + b, |a| + n, key) == ValuesFor(a, key) + ValuesIn(b, n, key)
  {
    if n == 0 {
      ValuesPrefix(a, b, |a|, key);
    } else {
      ValuesJoin(a, b, n - 1, key);
    }
  }

  lemma ValuesAppend(a: seq<Entry>, b: seq<Entry>, key: nat)
    ensures ValuesFor(a + b, key) == ValuesFor(a, key) + ValuesFor(b, key)
  {
    ValuesJoin(a, b, |b|, key);
  }

  lemma {:induction false} ValuesPrefix(a: seq<Entry>, b: seq<Entry>, n: nat, key: nat)
    requires n <= |a|
    ensures ValuesIn(a + b, n, key) == ValuesIn(a, n, key)
  {
    if n > 0 {
      ValuesPrefix(a, b, n - 1, key);
    }
  }
}

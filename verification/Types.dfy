/** Identifier types and option values shared by every module. */
module Types {
  /** Graph node id. Ids are ordered and compared; the byte formats say where 64 bits matter. */
  type NodeId = nat

  /** Tenant scope id; `GLOBAL_SCOPE` is the view that sees global edges only. */
  type ScopeId = nat

  const GLOBAL_SCOPE: ScopeId := 0

  datatype Option<+T> = None | Some(value: T)

  /**
   A predicate stated for every `u: Unfold` is a name to the verifier until a proof
   mentions its instance at `Unfolded`.
   */
  datatype Unfold = Unfolded

  function Max(a: nat, b: nat): nat {
    if a < b then b else a
  }

  function Min(a: nat, b: nat): nat {
    if a < b then a else b
  }

  lemma Distribute(a: nat, b: nat, c: nat)
    ensures (a + b) * c == a * c + b * c
  {
  }

  lemma Scale(a: nat, b: nat, c: nat)
    requires a <= b
    ensures a * c <= b * c
  {
    Distribute(a, b - a, c);
  }

  /** No element occurs twice. */
  ghost predicate Distinct<T>(s: seq<T>) {
    forall i, j | 0 <= i < j < |s| :: s[i] != s[j]
  }

  /** The elements of a sequence as a set. */
  ghost function Elements<T>(s: seq<T>): set<T> {
    set x | x in s
  }

  /** A duplicate-free sequence has as many elements as positions. */
  lemma {:induction false} DistinctCount<T>(s: seq<T>)
    requires Distinct(s)
    ensures |Elements(s)| == |s|
  {
    if s == [] {
      assert Elements(s) == {};
    } else {
      var init, last := s[..|s| - 1], s[|s| - 1];
      DistinctCount(init);
      assert Elements(s) == Elements(init) + {last};
      assert last !in init;
    }
  }

  /** What is appended without repeats is exactly what is new. */
  lemma AddedElements<T>(out: seq<T>, added: seq<T>)
    requires Distinct(out + added)
    ensures Distinct(added) && Elements(added) == Elements(out + added) - Elements(out)
  {
    var all := out + added;
    forall i | 0 <= i < |added| ensures added[i] !in Elements(out) && added[i] in Elements(all) {
      assert all[|out| + i] == added[i];
      assert forall j | 0 <= j < |out| :: all[j] == out[j];
    }
    forall i, j | 0 <= i < j < |added| ensures added[i] != added[j] {
      assert all[|out| + i] == added[i] && all[|out| + j] == added[j];
    }
  }

  /** A sub-collection of a finite set with as many elements is the whole set. */
  lemma SubsetCount<T>(a: set<T>, b: set<T>)
    requires a <= b
    ensures |a| <= |b|
    ensures |a| == |b| ==> a == b
  {
    var rest := b - a;
    assert b == a + rest;
  }
}

/** A fact about rearranged sequences shared by the order-independence proofs. */
module SeqFacts {

  /** Where the last element of `a` sits in its rearrangement `b`, and what is
      left of `b` without it. */
  lemma RemoveOne<T>(a: seq<T>, b: seq<T>) returns (j: nat, p: seq<T>, q: seq<T>)
    requires a != [] && multiset(a) == multiset(b)
    ensures j < |b| && b[j] == a[|a| - 1] && p == b[..j] && q == b[j + 1..]
    ensures b == p + [a[|a| - 1]] + q
    ensures multiset(a[..|a| - 1]) == multiset(p + q)
  {
    var x := a[|a| - 1];
    var a' := a[..|a| - 1];
    assert a == a' + [x];
    assert multiset(a) == multiset(a') + multiset{x};
    assert x in multiset(b);
    assert x in b;
    j :| 0 <= j < |b| && b[j] == x;
    p, q := b[..j], b[j + 1..];
    assert b == p + [x] + q;
    assert multiset(b) == multiset(p) + multiset{x} + multiset(q);
    assert multiset(p + q) == multiset(p) + multiset(q);
    assert multiset(a') == multiset(a) - multiset{x};
    assert multiset(p + q) == multiset(b) - multiset{x};
  }
}

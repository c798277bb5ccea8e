/** `Array.prototype.filter` and the order-preserving sub-sequence relation it
    produces. */
module Seqs {
  /** `a` is `b` with some elements left out, the rest in their order. */
  predicate SubseqOf<T(==)>(a: seq<T>, b: seq<T>)
    decreases |b|
  {
    if a == [] then true
    else if b == [] then false
    else (a[0] == b[0] && SubseqOf(a[1..], b[1..])) || SubseqOf(a, b[1..])
  }

  /** `s.filter(p)`: the elements satisfying `p`, in their order. */
  function Filter<T(==)>(s: seq<T>, p: T -> bool): (r: seq<T>)
    ensures |r| <= |s|
    ensures forall x | x in r :: x in s && p(x)
    ensures forall x | x in s && p(x) :: x in r
    ensures SubseqOf(r, s)
    ensures forall x | x in s && p(x) :: multiset(r)[x] == multiset(s)[x]
  {
    if s == [] then []
    else
      var rest := Filter(s[1..], p);
      assert s == [s[0]] + s[1..];
      if p(s[0]) then
        var r := [s[0]] + rest;
        assert r[0] == s[0] && r[1..] == rest;
        r
      else
        assert rest == [] || SubseqOf(rest, s[1..]);
        rest
  }

  /** A filter that keeps everything is the identity. */
  lemma {:induction false} FilterAll<T>(s: seq<T>, p: T -> bool)
    requires forall x | x in s :: p(x)
    ensures Filter(s, p) == s
  {
    if s != [] {
      assert forall x | x in s[1..] :: x in s;
      FilterAll(s[1..], p);
    }
  }

  /** The number of elements satisfying `p`. */
  function CountIf<T>(s: seq<T>, p: T -> bool): (n: nat)
    ensures n <= |s|
  {
    if s == [] then 0 else (if p(s[0]) then 1 else 0) + CountIf(s[1..], p)
  }

  /** Counting is filtering and taking the length. */
  lemma {:induction false} CountIfFilter<T>(s: seq<T>, p: T -> bool)
    ensures CountIf(s, p) == |Filter(s, p)|
  {
    if s != [] {
      CountIfFilter(s[1..], p);
    }
  }

  /** Two conditions that never hold together count at most the whole
      sequence. */
  lemma {:induction false} CountDisjoint<T>(s: seq<T>, p: T -> bool, q: T -> bool)
    requires forall x | x in s :: !(p(x) && q(x))
    ensures CountIf(s, p) + CountIf(s, q) <= |s|
  {
    if s != [] {
      assert forall x | x in s[1..] :: x in s;
      CountDisjoint(s[1..], p, q);
    }
  }
}

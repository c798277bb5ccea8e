/** The query component of a URL as `URLSearchParams` holds it: an ordered list of
    name/value pairs. `get`, `set` and `delete` behave as section 6.2 of the WHATWG
    URL Standard defines them: `get` returns the first value, `set` overwrites the
    first pair with that name and removes the others (or appends when there is
    none), `delete` removes every pair with that name. Percent-encoding of the
    serialised string is not modelled. */
module SearchParams {
  import opened Wrappers

  datatype Entry = Entry(key: string, value: string)

  type Params = seq<Entry>

  predicate Has(p: Params, k: string) {
    exists i | 0 <= i < |p| :: p[i].key == k
  }

  lemma HasCons(p: Params, k: string)
    requires p != []
    ensures Has(p, k) <==> p[0].key == k || Has(p[1..], k)
  {
    if Has(p, k) && p[0].key != k {
      var i :| 0 <= i < |p| && p[i].key == k;
      assert p[1..][i - 1].key == k;
    }
    if Has(p[1..], k) {
      var i :| 0 <= i < |p[1..]| && p[1..][i].key == k;
      assert p[i + 1].key == k;
    }
  }

  /** `get(k)`: the value of the first pair named `k`, or null. */
  function Get(p: Params, k: string): (r: Option<string>)
    ensures r.Some? <==> Has(p, k)
    ensures r.Some? ==> Entry(k, r.value) in p
  {
    if p == [] then None
    else (HasCons(p, k); if p[0].key == k then Some(p[0].value) else Get(p[1..], k))
  }

  /** The number of pairs named `k`. */
  function Count(p: Params, k: string): (n: nat)
    ensures n <= |p|
    ensures n == 0 <==> !Has(p, k)
  {
    if p == [] then 0
    else (HasCons(p, k); (if p[0].key == k then 1 else 0) + Count(p[1..], k))
  }

  /** The names that occur in `p`. */
  function Names(p: Params): (ns: set<string>)
    ensures forall k :: k in ns <==> Has(p, k)
  {
    set i | 0 <= i < |p| :: p[i].key
  }

  /** The pairs whose names are not in `ks`, in their original order. */
  function Drop(p: Params, ks: set<string>): (r: Params)
    ensures |r| <= |p|
    ensures forall k | k in ks :: !Has(r, k)
    ensures forall k | k !in ks :: Get(r, k) == Get(p, k)
    ensures forall k | k !in ks :: Count(r, k) == Count(p, k)
    ensures (forall k | k in ks :: !Has(p, k)) ==> r == p
    ensures Names(r) == Names(p) - ks
  {
    if p == [] then []
    else
      var rest := Drop(p[1..], ks);
      forall k ensures Has(p, k) <==> p[0].key == k || Has(p[1..], k) { HasCons(p, k); }
      if p[0].key in ks then rest
      else
        var r := [p[0]] + rest;
        assert r[1..] == rest;
        forall k ensures Has(r, k) <==> p[0].key == k || Has(rest, k) { HasCons(r, k); }
        r
  }

  /** Dropping two sets of names one after the other drops their union. */
  lemma {:induction false} DropDrop(p: Params, a: set<string>, b: set<string>)
    ensures Drop(Drop(p, a), b) == Drop(p, a + b)
  {
    if p != [] {
      DropDrop(p[1..], a, b);
      if p[0].key !in a {
        assert Drop(p, a)[1..] == Drop(p[1..], a);
      }
    }
  }

  /** Two lists that agree once `k` is dropped agree once any superset of `{k}` is. */
  lemma DropWiden(p: Params, q: Params, k: string, ks: set<string>)
    requires Drop(p, {k}) == Drop(q, {k})
    requires k in ks
    ensures Drop(p, ks) == Drop(q, ks)
  {
    var both := {k} + ks;
    assert both == ks;
    calc {
      Drop(p, ks);
      Drop(p, both);
      { DropDrop(p, {k}, ks); }
      Drop(Drop(p, {k}), ks);
      Drop(Drop(q, {k}), ks);
      { DropDrop(q, {k}, ks); }
      Drop(q, both);
    }
  }

  /** `delete(k)`. */
  function Delete(p: Params, k: string): (r: Params)
    ensures !Has(r, k)
    ensures forall k' | k' != k :: Get(r, k') == Get(p, k')
    ensures forall k' | k' != k :: Count(r, k') == Count(p, k')
    ensures Names(r) == Names(p) - {k}
  {
    Drop(p, {k})
  }

  /** `set(k, v)`. */
  function Set(p: Params, k: string, v: string): (r: Params)
    ensures Get(r, k) == Some(v)
    ensures Count(r, k) == 1
    ensures forall k' | k' != k :: Get(r, k') == Get(p, k')
    ensures forall k' | k' != k :: Count(r, k') == Count(p, k')
  {
    if p == [] then
      var r := [Entry(k, v)];
      assert r[1..] == [];
      r
    else if p[0].key == k then
      var rest := Delete(p[1..], k);
      var r := [Entry(k, v)] + rest;
      assert r[1..] == rest;
      r
    else
      var rest := Set(p[1..], k, v);
      var r := [p[0]] + rest;
      assert r[1..] == rest;
      r
  }

  /** Deleting a name undoes any `set` of it: only the other pairs remain. */
  lemma {:induction false} DeleteAfterSet(p: Params, k: string, v: string)
    ensures Delete(Set(p, k, v), k) == Delete(p, k)
  {
    if p != [] {
      if p[0].key == k {
        var rest := Delete(p[1..], k);
        var r := [Entry(k, v)] + rest;
        assert r[1..] == rest;
        assert Drop(rest, {k}) == rest;
        DropDrop(p[1..], {k}, {k});
        assert {k} + {k} == {k};
      } else {
        DeleteAfterSet(p[1..], k, v);
        var r := Set(p, k, v);
        assert r[1..] == Set(p[1..], k, v);
      }
    }
  }

  /** `set(k, v)` leaves every other name as it was. */
  lemma SetOther(p: Params, k: string, v: string, other: string)
    requires other != k
    ensures Get(Set(p, k, v), other) == Get(p, other)
    ensures Count(Set(p, k, v), other) == Count(p, other)
  {
  }

  /** `set(k, v)` adds `k` to the names and removes none. */
  lemma SetNames(p: Params, k: string, v: string)
    ensures Names(Set(p, k, v)) == Names(p) + {k}
  {
    var r := Set(p, k, v);
    forall k' ensures k' in Names(r) <==> k' in Names(p) + {k} {
      if k' != k {
        assert Get(r, k') == Get(p, k');
      }
    }
  }

  /** `p` holds exactly the names of `m`, each once, with the values `m` gives. */
  ghost predicate Represents(p: Params, m: map<string, string>) {
    && Names(p) == m.Keys
    && forall k | k in m :: Get(p, k) == Some(m[k]) && Count(p, k) == 1
  }

  /** Setting on a list that holds a map holds the updated map. */
  lemma SetRepresents(p: Params, m: map<string, string>, k: string, v: string)
    requires Represents(p, m)
    ensures Represents(Set(p, k, v), m[k := v])
  {
    var r, m' := Set(p, k, v), m[k := v];
    SetNames(p, k, v);
    assert Names(r) == m'.Keys;
    forall k' | k' in m' ensures Get(r, k') == Some(m'[k']) && Count(r, k') == 1 {
      if k' != k {
        assert k' in m && m'[k'] == m[k'];
        SetOther(p, k, v, k');
      }
    }
  }

  /** What a list holding `m` says about one name. */
  lemma ProjectRepresents(p: Params, m: map<string, string>, k: string)
    requires Represents(p, m)
    ensures Get(p, k) == (if k in m then Some(m[k]) else None)
    ensures Count(p, k) == (if k in m then 1 else 0)
  {
  }

  /** The first value of every name, as a framework hands query parameters to a
      page: a record from name to value. */
  function ToRecord(p: Params): (rec: map<string, string>)
    ensures rec.Keys == Names(p)
    ensures forall k | k in rec :: Get(p, k) == Some(rec[k])
  {
    map k | k in Names(p) :: Get(p, k).value
  }
}

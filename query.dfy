/** A decoded query string as `URLSearchParams` holds it: an ordered list of
    name/value pairs, with the `has`, `get` and `set` operations the client
    uses. Percent-decoding and serialisation belong to the browser. */
module Query {
  import opened Wrappers

  type Query = seq<(string, string)>

  /** `params.has(k)`. */
  predicate Has(q: Query, k: string)
  {
    exists i | 0 <= i < |q| :: q[i].0 == k
  }

  /** `params.get(k)`: the value of the first pair named `k`, or null. */
  function Get(q: Query, k: string): (r: Option<string>)
    ensures r.Some? <==> Has(q, k)
    decreases |q|
  {
    if q == [] then None
    else if q[0].0 == k then Some(q[0].1)
    else
      assert Has(q, k) <==> Has(q[1..], k) by {
        assert forall i :: 1 <= i < |q| ==> q[i] == q[1..][i - 1];
      }
      Get(q[1..], k)
  }

  /** How many pairs are named `k`. */
  function Count(q: Query, k: string): nat
    decreases |q|
  {
    if q == [] then 0 else (if q[0].0 == k then 1 else 0) + Count(q[1..], k)
  }

  /** The pairs whose name is not in `ks`, in their order. */
  function Drop(q: Query, ks: set<string>): Query
    decreases |q|
  {
    if q == [] then []
    else if q[0].0 in ks then Drop(q[1..], ks)
    else [q[0]] + Drop(q[1..], ks)
  }

  /** `params.set(k, v)`: the first pair named `k` takes the value `v` and the
      other pairs named `k` are removed; without such a pair, `(k, v)` is appended. */
  function Set(q: Query, k: string, v: string): Query
  {
    if Has(q, k) then ReplaceFirst(q, k, v) else q + [(k, v)]
  }

  function ReplaceFirst(q: Query, k: string, v: string): Query
    decreases |q|
  {
    if q == [] then []
    else if q[0].0 == k then [(k, v)] + Drop(q[1..], {k})
    else [q[0]] + ReplaceFirst(q[1..], k, v)
  }

  lemma {:induction false} DropAppend(a: Query, b: Query, ks: set<string>)
    ensures Drop(a + b, ks) == Drop(a, ks) + Drop(b, ks)
    decreases |a|
  {
    if a == [] {
      assert a + b == b;
    } else {
      assert (a + b)[1..] == a[1..] + b;
      DropAppend(a[1..], b, ks);
    }
  }

  lemma {:induction false} DropDrop(q: Query, ks: set<string>, ks': set<string>)
    ensures Drop(Drop(q, ks'), ks) == Drop(q, ks + ks')
    decreases |q|
  {
    if q != [] {
      DropDrop(q[1..], ks, ks');
    }
  }

  lemma {:induction false} CountDropped(q: Query, ks: set<string>, k: string)
    ensures k in ks ==> Count(Drop(q, ks), k) == 0
    ensures k !in ks ==> Count(Drop(q, ks), k) == Count(q, k)
    ensures k !in ks ==> Get(Drop(q, ks), k) == Get(q, k)
    decreases |q|
  {
    if q != [] {
      CountDropped(q[1..], ks, k);
    }
  }

  lemma {:induction false} CountAppend(a: Query, b: Query, k: string)
    ensures Count(a + b, k) == Count(a, k) + Count(b, k)
    decreases |a|
  {
    if a == [] {
      assert a + b == b;
    } else {
      assert (a + b)[1..] == a[1..] + b;
      CountAppend(a[1..], b, k);
    }
  }

  lemma {:induction false} GetAppend(a: Query, b: Query, k: string)
    ensures Get(a + b, k) == if Has(a, k) then Get(a, k) else Get(b, k)
    decreases |a|
  {
    if a == [] {
      assert a + b == b;
    } else {
      assert (a + b)[1..] == a[1..] + b;
      GetAppend(a[1..], b, k);
    }
  }

  lemma {:induction false} ReplaceFirstFacts(q: Query, k: string, v: string, ks: set<string>, k': string)
    requires Has(q, k) && k in ks && k' != k
    ensures Get(ReplaceFirst(q, k, v), k) == Some(v)
    ensures Count(ReplaceFirst(q, k, v), k) == 1
    ensures Drop(ReplaceFirst(q, k, v), ks) == Drop(q, ks)
    ensures Get(ReplaceFirst(q, k, v), k') == Get(q, k')
    ensures Count(ReplaceFirst(q, k, v), k') == Count(q, k')
    decreases |q|
  {
    if q[0].0 == k {
      CountDropped(q[1..], {k}, k);
      CountDropped(q[1..], {k}, k');
      DropDrop(q[1..], ks, {k});
      assert ks + {k} == ks;
    } else {
      assert Has(q[1..], k) by {
        var i :| 0 <= i < |q| && q[i].0 == k;
        assert q[1..][i - 1] == q[i];
      }
      ReplaceFirstFacts(q[1..], k, v, ks, k');
    }
  }

  /** After `set(k, v)` there is exactly one pair named `k`, it carries `v`, the
      pairs with other names are untouched (in order), and so are their values. */
  lemma SetFacts(q: Query, k: string, v: string, ks: set<string>, k': string)
    requires k in ks && k' != k
    ensures Get(Set(q, k, v), k) == Some(v)
    ensures Count(Set(q, k, v), k) == 1
    ensures Drop(Set(q, k, v), ks) == Drop(q, ks)
    ensures Get(Set(q, k, v), k') == Get(q, k')
    ensures Count(Set(q, k, v), k') == Count(q, k')
  {
    if Has(q, k) {
      ReplaceFirstFacts(q, k, v, ks, k');
    } else {
      DropAppend(q, [(k, v)], ks);
      CountAppend(q, [(k, v)], k);
      CountAppend(q, [(k, v)], k');
      GetAppend(q, [(k, v)], k);
      GetAppend(q, [(k, v)], k');
      CountAbsent(q, k);
    }
  }

  lemma {:induction false} CountAbsent(q: Query, k: string)
    requires !Has(q, k)
    ensures Count(q, k) == 0
    decreases |q|
  {
    if q != [] {
      assert forall i :: 0 <= i < |q[1..]| ==> q[1..][i] == q[i + 1];
      CountAbsent(q[1..], k);
    }
  }
}

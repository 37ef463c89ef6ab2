/**
 * The token-keyed collections of the destinations package (TokenizedConsumers,
 * TokenizedStorages, TokenizedIDs): a map from token ID to a map from a name to a value.
 */
module Tokenized {

  /** token ID -> name -> value */
  type Nested<V> = map<string, map<string, V>>

  /** `m[t][k]` exists. */
  predicate Has<V>(m: Nested<V>, t: string, k: string)
  {
    t in m && k in m[t]
  }

  /** Go's `m[t]`: a missing token reads as the nil (empty) inner map. */
  function Get<V>(m: Nested<V>, t: string): map<string, V>
  {
    if t in m then m[t] else map[]
  }

  /** No token keeps an empty inner map. */
  ghost predicate NoEmpty<V>(m: Nested<V>)
  {
    forall t :: t in m ==> m[t] != map[]
  }

  /** `Add(t, k, v)`: set `m[t][k] = v`, creating the inner map if needed. */
  function Add<V>(m: Nested<V>, t: string, k: string, v: V): (r: Nested<V>)
    ensures forall t', k' :: Has(r, t', k') <==> Has(m, t', k') || (t' == t && k' == k)
    ensures Has(r, t, k) && r[t][k] == v
    ensures forall t', k' :: Has(m, t', k') && !(t' == t && k' == k) ==> Has(r, t', k') && r[t'][k'] == m[t'][k']
    ensures NoEmpty(m) ==> NoEmpty(r)
  {
    m[t := Get(m, t)[k := v]]
  }

  /** `AddAll(n)`: every `n[t][k]` is added to `m`, the entries of `n` winning. */
  function AddAll<V>(m: Nested<V>, n: Nested<V>): (r: Nested<V>)
    ensures forall t, k :: Has(r, t, k) <==> Has(m, t, k) || Has(n, t, k)
    ensures forall t, k :: Has(n, t, k) ==> Has(r, t, k) && r[t][k] == n[t][k]
    ensures forall t, k :: Has(m, t, k) && !Has(n, t, k) ==> Has(r, t, k) && r[t][k] == m[t][k]
    ensures NoEmpty(m) && NoEmpty(n) ==> NoEmpty(r)
  {
    map t | t in m.Keys + n.Keys :: Get(m, t) + Get(n, t)
  }

  /**
   * `delete(m[t], k)` followed by dropping `m[t]` once it is empty; a token
   * that is absent is left absent.
   */
  function Delete<V>(m: Nested<V>, t: string, k: string): (r: Nested<V>)
    ensures forall t', k' :: Has(r, t', k') <==> Has(m, t', k') && !(t' == t && k' == k)
    ensures forall t', k' :: Has(r, t', k') ==> Has(m, t', k') && r[t'][k'] == m[t'][k']
    ensures NoEmpty(m) ==> NoEmpty(r)
    ensures t !in r || r[t] != map[]
  {
    if t !in m then m
    else
      var inner := m[t] - {k};
      assert forall k' :: k' in m[t] && k' != k ==> k' in inner;
      if inner == map[] then m - {t} else m[t := inner]
  }

  /** Drop `m[t]` when it exists and is empty (`if len(m[t]) == 0 { delete(m, t) }`). */
  function Prune<V>(m: Nested<V>, t: string): (r: Nested<V>)
    ensures forall t', k' :: Has(r, t', k') <==> Has(m, t', k')
    ensures forall t', k' :: Has(r, t', k') ==> Has(m, t', k') && r[t'][k'] == m[t'][k']
    ensures NoEmpty(m) ==> r == m
  {
    if t in m && m[t] == map[] then m - {t} else m
  }

  /**
   * `for _, v := range m { vs = append(vs, v) }`: one value per key of `m`, in
   * an order the map does not fix; `keys` records which key each value came from.
   */
  method ListValues<V(==)>(m: map<string, V>) returns (vs: seq<V>, ghost keys: seq<string>)
    ensures |vs| == |m| && forall v :: v in vs <==> v in m.Values
    ensures |keys| == |m|
    ensures forall i :: 0 <= i < |keys| ==> keys[i] in m && vs[i] == m[keys[i]]
    ensures forall i, j :: 0 <= i < j < |keys| ==> keys[i] != keys[j]
    ensures forall k :: k in m ==> k in keys
  {
    vs, keys := [], [];
    var rest := m.Keys;
    while rest != {}
      invariant rest <= m.Keys
      invariant |vs| == |keys| && |keys| + |rest| == |m|
      invariant forall i :: 0 <= i < |keys| ==> keys[i] in m && keys[i] !in rest && vs[i] == m[keys[i]]
      invariant forall i, j :: 0 <= i < j < |keys| ==> keys[i] != keys[j]
      invariant forall k :: k in m && k !in rest ==> k in keys
      decreases |rest|
    {
      var k :| k in rest;
      vs, keys := vs + [m[k]], keys + [k];
      rest := rest - {k};
    }
    forall v | v in m.Values ensures v in vs {
      var k :| k in m && m[k] == v;
      var i :| 0 <= i < |keys| && keys[i] == k;
      assert vs[i] == v;
    }
  }

  /** Merging an empty collection changes nothing. */
  lemma AddAllEmpty<V>(m: Nested<V>)
    ensures AddAll(m, map[]) == m
  {
    var none: Nested<V> := map[];
    forall t | t in m ensures AddAll(m, none)[t] == m[t] {
      assert Get(none, t) == map[];
    }
  }

  /** Two collections without empty inner maps are equal when every token reads the same. */
  lemma GetExt<V>(a: Nested<V>, b: Nested<V>)
    requires NoEmpty(a) && NoEmpty(b)
    requires forall t :: Get(a, t) == Get(b, t)
    ensures a == b
  {
    forall t | t in a ensures t in b && a[t] == b[t] {
      assert Get(a, t) == a[t];
    }
    forall t | t in b ensures t in a {
      assert Get(b, t) == b[t];
    }
  }

  lemma GetDelete<V>(m: Nested<V>, t: string, k: string)
    ensures forall t' :: Get(Delete(m, t, k), t') == if t' == t then Get(m, t) - {k} else Get(m, t')
  {
  }

  lemma GetAdd<V>(m: Nested<V>, t: string, k: string, v: V)
    ensures forall t' :: Get(Add(m, t, k, v), t') == if t' == t then Get(m, t)[k := v] else Get(m, t')
  {
  }

  lemma GetAddAll<V>(m: Nested<V>, n: Nested<V>)
    ensures forall t :: Get(AddAll(m, n), t) == Get(m, t) + Get(n, t)
  {
  }

  lemma UpdateSame<V>(a: map<string, V>, k: string, v: V)
    requires k in a && a[k] == v
    ensures a[k := v] == a
  {
  }

  lemma MinusAbsent<V>(a: map<string, V>, k: string)
    requires k !in a
    ensures a - {k} == a
  {
  }

  lemma MinusAdded<V>(a: map<string, V>, k: string, v: V)
    requires k !in a
    ensures (a + map[k := v]) - {k} == a
  {
  }

  lemma UnionMinus<V>(a: map<string, V>, b: map<string, V>, k: string)
    requires k !in b
    ensures (a - {k}) + b == (a + b) - {k}
  {
  }

  lemma UnionUpdate<V>(a: map<string, V>, b: map<string, V>, k: string, v: V)
    ensures a + b[k := v] == (a + b)[k := v]
  {
  }

  lemma UpdateUnion<V>(a: map<string, V>, b: map<string, V>, k: string, v: V)
    requires k !in b
    ensures a[k := v] + b == (a + b)[k := v]
  {
  }

  /** Deleting from the base of a merge deletes from the merge, when the overlay lacks that entry. */
  lemma AddAllDelete<V>(m: Nested<V>, n: Nested<V>, t: string, k: string)
    requires NoEmpty(m) && NoEmpty(n) && !Has(n, t, k)
    ensures AddAll(Delete(m, t, k), n) == Delete(AddAll(m, n), t, k)
  {
    var left, right := AddAll(Delete(m, t, k), n), Delete(AddAll(m, n), t, k);
    GetDelete(m, t, k);
    GetDelete(AddAll(m, n), t, k);
    GetAddAll(m, n);
    GetAddAll(Delete(m, t, k), n);
    forall t' ensures Get(left, t') == Get(right, t') {
      if t' == t {
        UnionMinus(Get(m, t), Get(n, t), k);
      }
    }
    GetExt(left, right);
  }

  /** Adding to the overlay of a merge adds to the merge. */
  lemma AddAllAdd<V>(m: Nested<V>, n: Nested<V>, t: string, k: string, v: V)
    requires NoEmpty(m) && NoEmpty(n)
    ensures AddAll(m, Add(n, t, k, v)) == Add(AddAll(m, n), t, k, v)
  {
    var left, right := AddAll(m, Add(n, t, k, v)), Add(AddAll(m, n), t, k, v);
    GetAdd(n, t, k, v);
    GetAdd(AddAll(m, n), t, k, v);
    GetAddAll(m, n);
    GetAddAll(m, Add(n, t, k, v));
    forall t' ensures Get(left, t') == Get(right, t') {
      if t' == t {
        UnionUpdate(Get(m, t), Get(n, t), k, v);
      }
    }
    GetExt(left, right);
  }
}

/** Python dicts as insertion-ordered association lists: what `asdict(...)`
    produces and what `{**a, **b}` does with two of them. */
module PyDict {
  import opened Wrappers

  type Dict<K, V> = seq<(K, V)>

  function Keys<K, V>(d: Dict<K, V>): (ks: seq<K>)
    ensures |ks| == |d|
  {
    seq(|d|, i requires 0 <= i < |d| => d[i].0)
  }

  /** What every real dict satisfies: no key twice. */
  predicate UniqueKeys<K(==), V>(d: Dict<K, V>) { forall i, j | 0 <= i < j < |d| :: d[i].0 != d[j].0 }

  /** `d.get(k)` */
  function Get<K(==), V>(d: Dict<K, V>, k: K): Option<V>
  {
    if d == [] then None else if d[0].0 == k then Some(d[0].1) else Get(d[1..], k)
  }

  /** `d[k] = v`: an existing key keeps its place and takes the new value, a new
      key goes last. */
  function Put<K(==), V>(d: Dict<K, V>, k: K, v: V): Dict<K, V>
  {
    if d == [] then [(k, v)]
    else if d[0].0 == k then [(k, v)] + d[1..]
    else [d[0]] + Put(d[1..], k, v)
  }

  /** `{**a, **b}`: start from `a` and assign b's entries one by one, in b's order. */
  function Merge<K(==), V>(a: Dict<K, V>, b: Dict<K, V>): Dict<K, V>
    decreases |b|
  {
    if b == [] then a else Merge(Put(a, b[0].0, b[0].1), b[1..])
  }

  lemma KeysCons<K, V>(d: Dict<K, V>)
    requires d != []
    ensures Keys(d) == [d[0].0] + Keys(d[1..])
  {
  }

  /** A key is absent exactly when `get` finds nothing. */
  lemma {:induction false} GetNone<K, V>(d: Dict<K, V>, k: K)
    ensures Get(d, k).None? <==> k !in Keys(d)
  {
    if d != [] {
      KeysCons(d);
      GetNone(d[1..], k);
    }
  }

  /** `d[k] = v` changes the value at `k` only, and adds `k` at the end if it was
      new. */
  lemma {:induction false} PutSpec<K, V>(d: Dict<K, V>, k: K, v: V)
    ensures Keys(Put(d, k, v)) == if k in Keys(d) then Keys(d) else Keys(d) + [k]
    ensures Get(Put(d, k, v), k) == Some(v)
    ensures forall k' | k' != k :: Get(Put(d, k, v), k') == Get(d, k')
  {
    if d != [] {
      KeysCons(d);
      if d[0].0 == k {
        KeysCons(Put(d, k, v));
      } else {
        PutSpec(d[1..], k, v);
        KeysCons(Put(d, k, v));
      }
    }
  }

  /** `get` returns the value of the first entry holding the key. */
  lemma {:induction false} GetAt<K, V>(d: Dict<K, V>, i: nat)
    requires i < |d|
    requires forall j | 0 <= j < i :: d[j].0 != d[i].0
    ensures Get(d, d[i].0) == Some(d[i].1)
  {
    if i > 0 {
      assert d[1..][i - 1] == d[i];
      GetAt(d[1..], i - 1);
    }
  }

  /** Assigning a key the dict does not hold appends the entry. */
  lemma {:induction false} PutAppends<K, V>(d: Dict<K, V>, k: K, v: V)
    requires k !in Keys(d)
    ensures Put(d, k, v) == d + [(k, v)]
  {
    if d != [] {
      KeysCons(d);
      PutAppends(d[1..], k, v);
      assert [d[0]] + (d[1..] + [(k, v)]) == d + [(k, v)];
    }
  }

  /** Assigning the key at position `i` replaces that entry where it stands. */
  lemma {:induction false} PutReplaces<K, V>(d: Dict<K, V>, i: nat, v: V)
    requires i < |d|
    requires forall j | 0 <= j < i :: d[j].0 != d[i].0
    ensures Put(d, d[i].0, v) == d[..i] + [(d[i].0, v)] + d[i + 1..]
  {
    if i > 0 {
      assert forall j | 0 <= j < i - 1 :: d[1..][j].0 != d[1..][i - 1].0 by {
        forall j | 0 <= j < i - 1 ensures d[1..][j].0 != d[1..][i - 1].0 {
          assert d[1..][j] == d[j + 1];
        }
      }
      PutReplaces(d[1..], i - 1, v);
      assert d[..i] == [d[0]] + d[1..][..i - 1];
      assert d[i + 1..] == d[1..][i..];
    }
  }

  lemma {:induction false} PutUnique<K, V>(d: Dict<K, V>, k: K, v: V)
    requires UniqueKeys(d)
    ensures UniqueKeys(Put(d, k, v))
  {
    PutSpec(d, k, v);
    var r := Put(d, k, v);
    forall i, j | 0 <= i < j < |r| ensures r[i].0 != r[j].0 {
      assert Keys(r)[i] == r[i].0 && Keys(r)[j] == r[j].0;
      if k !in Keys(d) && j == |d| {
        assert Keys(d)[i] == Keys(r)[i];
      } else {
        assert Keys(d)[i] == d[i].0 && Keys(d)[j] == d[j].0;
      }
    }
  }

  /** `{**a, **b}` keeps a's keys where they were, holds exactly the keys of both,
      and takes b's value wherever b has the key. */
  lemma {:induction false} MergeSpec<K, V>(a: Dict<K, V>, b: Dict<K, V>)
    requires UniqueKeys(b)
    ensures |a| <= |Merge(a, b)| && Keys(Merge(a, b))[..|a|] == Keys(a)
    ensures forall k :: k in Keys(Merge(a, b)) <==> k in Keys(a) || k in Keys(b)
    ensures forall k :: Get(Merge(a, b), k) == if k in Keys(b) then Get(b, k) else Get(a, k)
    decreases |b|
  {
    if b != [] {
      var a' := Put(a, b[0].0, b[0].1);
      PutSpec(a, b[0].0, b[0].1);
      assert UniqueKeys(b[1..]);
      MergeSpec(a', b[1..]);
      KeysCons(b);
      assert Keys(a')[..|a|] == Keys(a);
      forall k ensures Get(Merge(a, b), k) == if k in Keys(b) then Get(b, k) else Get(a, k) {
        GetNone(b[1..], k);
        if k != b[0].0 && k in Keys(b) {
          assert k in Keys(b[1..]);
        }
      }
    }
  }
}

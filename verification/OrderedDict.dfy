/**
 Dictionaries that keep insertion order, as Python's do.
 */
module OrderedDict {
  import opened Json

  type Dict<K, V> = seq<(K, V)>

  predicate Unique<K(==), V>(d: Dict<K, V>) { forall i, j | 0 <= i < j < |d| :: d[i].0 != d[j].0 }

  predicate Has<K(==), V>(d: Dict<K, V>, k: K) { exists i | 0 <= i < |d| :: d[i].0 == k }

  function Find<K(==), V>(d: Dict<K, V>, k: K): (r: Option<V>)
    ensures r.Some? <==> Has(d, k)
    ensures r.Some? ==> exists i | 0 <= i < |d| :: d[i] == (k, r.value)
  {
    if d == [] then None
    else if d[0].0 == k then assert d[0] == (k, d[0].1); Some(d[0].1)
    else
      var r := Find(d[1..], k);
      assert forall i | 0 <= i < |d[1..]| :: d[1..][i] == d[i + 1];
      assert Has(d, k) ==> Has(d[1..], k) by {
        if i :| 0 <= i < |d| && d[i].0 == k { assert d[1..][i - 1].0 == k; }
      }
      r
  }

  /** d[k] = v: in place when the key is there, else at the end. */
  function Put<K(==), V>(d: Dict<K, V>, k: K, v: V): Dict<K, V>
  {
    if d == [] then [(k, v)]
    else if d[0].0 == k then [(k, v)] + d[1..]
    else [d[0]] + Put(d[1..], k, v)
  }

  /** d.pop(k, None). */
  function Remove<K(==), V>(d: Dict<K, V>, k: K): (r: Dict<K, V>)
    ensures |r| <= |d|
  {
    if d == [] then [] else (if d[0].0 == k then [] else [d[0]]) + Remove(d[1..], k)
  }

  function KeySet<K(==), V>(d: Dict<K, V>): set<K> { set i | 0 <= i < |d| :: d[i].0 }

  lemma {:induction false} FindPut<K, V>(d: Dict<K, V>, k: K, v: V, q: K)
    ensures Find(Put(d, k, v), q) == if q == k then Some(v) else Find(d, q)
  {
    if d != [] && d[0].0 != k {
      FindPut(d[1..], k, v, q);
    }
  }

  lemma {:induction false} FindRemove<K, V>(d: Dict<K, V>, k: K, q: K)
    ensures Find(Remove(d, k), q) == if q == k then None else Find(d, q)
  {
    if d != [] {
      FindRemove(d[1..], k, q);
      var rest := Remove(d[1..], k);
      if d[0].0 == k {
        assert Remove(d, k) == rest;
      } else {
        assert Remove(d, k) == [d[0]] + rest;
        assert ([d[0]] + rest)[1..] == rest;
      }
    }
  }

  lemma {:induction false} FindAppend<K, V>(d: Dict<K, V>, k: K, v: V, q: K)
    requires !Has(d, k)
    ensures Find(d + [(k, v)], q) == if q == k then Some(v) else Find(d, q)
  {
    if d != [] {
      assert d[0].0 != k;
      assert (d + [(k, v)])[1..] == d[1..] + [(k, v)];
      assert forall i | 0 <= i < |d[1..]| :: d[1..][i] == d[i + 1];
      FindAppend(d[1..], k, v, q);
    }
  }

  lemma FindTail<K, V>(d: Dict<K, V>, q: K)
    requires d != [] && Unique(d)
    ensures Find(d[1..], q) == if q == d[0].0 then None else Find(d, q)
  {
    assert forall i | 0 <= i < |d[1..]| :: d[1..][i] == d[i + 1];
  }

  lemma {:induction false} FindAt<K, V>(d: Dict<K, V>, i: nat)
    requires Unique(d) && i < |d|
    ensures Find(d, d[i].0) == Some(d[i].1)
  {
    if i > 0 {
      FindAt(d[1..], i - 1);
    }
  }

  lemma {:induction false} RemoveMembers<K, V>(d: Dict<K, V>, k: K, p: (K, V))
    ensures p in Remove(d, k) <==> p in d && p.0 != k
  {
    if d != [] {
      RemoveMembers(d[1..], k, p);
      assert d == [d[0]] + d[1..];
    }
  }

  lemma {:induction false} PutMembers<K, V>(d: Dict<K, V>, k: K, v: V, p: (K, V))
    requires p in Put(d, k, v)
    ensures p == (k, v) || p in d
  {
    if d != [] && d[0].0 != k {
      if p != d[0] {
        PutMembers(d[1..], k, v, p);
      }
    }
  }

  lemma {:induction false} RemoveUnique<K, V>(d: Dict<K, V>, k: K)
    requires Unique(d)
    ensures Unique(Remove(d, k)) && !Has(Remove(d, k), k)
  {
    FindRemove(d, k, k);
    if d != [] {
      RemoveUnique(d[1..], k);
      var rest := Remove(d[1..], k);
      forall i | 0 <= i < |rest| ensures rest[i].0 != d[0].0 {
        RemoveMembers(d[1..], k, rest[i]);
        assert forall j | 0 <= j < |d[1..]| :: d[1..][j] == d[j + 1];
      }
    }
  }

  lemma {:induction false} PutUnique<K, V>(d: Dict<K, V>, k: K, v: V)
    requires Unique(d)
    ensures Unique(Put(d, k, v))
    ensures |Put(d, k, v)| == if Has(d, k) then |d| else |d| + 1
  {
    if d != [] {
      assert forall j | 0 <= j < |d[1..]| :: d[1..][j] == d[j + 1];
      if d[0].0 != k {
        PutUnique(d[1..], k, v);
        assert Has(d, k) <==> Has(d[1..], k) by {
          FindTail(d, k);
        }
        var rest := Put(d[1..], k, v);
        forall i | 0 <= i < |rest| ensures rest[i].0 != d[0].0 {
          PutMembers(d[1..], k, v, rest[i]);
        }
      } else {
        assert d[0].0 == k;
      }
    }
  }

  /** Replacing the value of a key that is there keeps every key where it is. */
  lemma {:induction false} PutInPlace<K, V>(d: Dict<K, V>, k: K, v: V)
    requires Has(d, k)
    ensures |Put(d, k, v)| == |d| && forall i | 0 <= i < |d| :: Put(d, k, v)[i].0 == d[i].0
  {
    if d[0].0 != k {
      FindTailHas(d, k);
      PutInPlace(d[1..], k, v);
    }
  }

  lemma FindTailHas<K, V>(d: Dict<K, V>, k: K)
    requires Has(d, k) && d[0].0 != k
    ensures Has(d[1..], k)
  {
    var i :| 0 <= i < |d| && d[i].0 == k;
    assert d[1..][i - 1].0 == k;
  }

  lemma TailLacks<K, V>(d: Dict<K, V>, k: K)
    requires d != [] && !Has(d, k)
    ensures d[0].0 != k && !Has(d[1..], k)
  {
    assert forall i | 0 <= i < |d[1..]| :: d[1..][i] == d[i + 1];
  }

  lemma {:induction false} PutAbsent<K, V>(d: Dict<K, V>, k: K, v: V)
    requires !Has(d, k)
    ensures Put(d, k, v) == d + [(k, v)]
  {
    hide Has;
    if d != [] {
      TailLacks(d, k);
      PutAbsent(d[1..], k, v);
      assert d + [(k, v)] == [d[0]] + (d[1..] + [(k, v)]);
    }
  }

  lemma {:induction false} RemoveAbsent<K, V>(d: Dict<K, V>, k: K)
    requires !Has(d, k)
    ensures Remove(d, k) == d
  {
    hide Has;
    if d != [] {
      TailLacks(d, k);
      RemoveAbsent(d[1..], k);
      assert [d[0]] + d[1..] == d;
    }
  }

  lemma {:induction false} RemoveAt<K, V>(d: Dict<K, V>, i: nat)
    requires Unique(d) && i < |d|
    ensures Remove(d, d[i].0) == d[..i] + d[i + 1..]
  {
    if i == 0 {
      assert forall j | 0 <= j < |d[1..]| :: d[1..][j] == d[j + 1];
      RemoveAbsent(d[1..], d[0].0);
    } else {
      RemoveAt(d[1..], i - 1);
      assert d[..i] + d[i + 1..] == [d[0]] + (d[1..][..i - 1] + d[1..][i..]);
    }
  }
}

/** Python's insertion-ordered `dict`, as a sequence of (key, value) pairs with
    distinct keys. Assigning to a key that is present keeps its position;
    a new key goes last. */
module PyDict {
  import opened Wrappers

  type Dict<K, V> = seq<(K, V)>

  function Keys<K, V>(d: Dict<K, V>): (r: seq<K>)
    ensures |r| == |d| && forall i :: 0 <= i < |d| ==> r[i] == d[i].0
  {
    if d == [] then [] else [d[0].0] + Keys(d[1..])
  }

  predicate UniqueKeys<K(==), V>(d: Dict<K, V>) {
    forall i, j :: 0 <= i < j < |d| ==> d[i].0 != d[j].0
  }

  /** `d.get(k)`. */
  function Get<K(==), V>(d: Dict<K, V>, k: K): (r: Option<V>)
    ensures r.Some? <==> k in Keys(d)
  {
    if d == [] then None else if d[0].0 == k then Some(d[0].1) else Get(d[1..], k)
  }

  /** A key no pair holds is not found. */
  lemma {:induction false} GetAbsent<K, V>(d: Dict<K, V>, k: K)
    requires forall i :: 0 <= i < |d| ==> d[i].0 != k
    ensures Get(d, k) == None
  {
    if d != [] {
      assert forall i :: 0 <= i < |d| - 1 ==> d[1..][i] == d[i + 1];
      GetAbsent(d[1..], k);
    }
  }

  /** Where `Get` finds a value. */
  lemma {:induction false} GetIndex<K, V>(d: Dict<K, V>, k: K) returns (i: nat)
    requires Get(d, k).Some?
    ensures i < |d| && d[i] == (k, Get(d, k).value)
  {
    if d[0].0 == k {
      i := 0;
    } else {
      var j := GetIndex(d[1..], k);
      i := j + 1;
    }
  }

  /** `d[k] = v`. */
  function Set<K(==), V>(d: Dict<K, V>, k: K, v: V): Dict<K, V> {
    if d == [] then [(k, v)]
    else if d[0].0 == k then [(k, v)] + d[1..]
    else [d[0]] + Set(d[1..], k, v)
  }

  /** After `d[k] = v`, `k` maps to `v`, every other key keeps its value, and the
      key order is that of `d` with `k` last if it is new. */
  lemma SetGet<K, V>(d: Dict<K, V>, k: K, v: V)
    ensures Get(Set(d, k, v), k) == Some(v)
    ensures forall k' :: k' != k ==> Get(Set(d, k, v), k') == Get(d, k')
    ensures Keys(Set(d, k, v)) == if k in Keys(d) then Keys(d) else Keys(d) + [k]
  {
    SetGetSame(d, k, v);
    forall k' | k' != k ensures Get(Set(d, k, v), k') == Get(d, k') {
      SetGetOther(d, k, v, k');
    }
    SetKeys(d, k, v);
  }

  lemma {:induction false} SetGetSame<K, V>(d: Dict<K, V>, k: K, v: V)
    ensures Get(Set(d, k, v), k) == Some(v)
  {
    if d != [] && d[0].0 != k {
      SetGetSame(d[1..], k, v);
      assert Set(d, k, v)[1..] == Set(d[1..], k, v);
    }
  }

  lemma {:induction false} SetGetOther<K, V>(d: Dict<K, V>, k: K, v: V, k': K)
    requires k' != k
    ensures Get(Set(d, k, v), k') == Get(d, k')
  {
    if d != [] {
      var r := Set(d, k, v);
      if d[0].0 == k {
        assert r[1..] == d[1..];
      } else if d[0].0 != k' {
        SetGetOther(d[1..], k, v, k');
        assert r[1..] == Set(d[1..], k, v);
      }
    }
  }

  lemma {:induction false} SetKeys<K, V>(d: Dict<K, V>, k: K, v: V)
    ensures Keys(Set(d, k, v)) == if k in Keys(d) then Keys(d) else Keys(d) + [k]
  {
    if d != [] {
      var r := Set(d, k, v);
      assert Keys(d) == [d[0].0] + Keys(d[1..]);
      if d[0].0 == k {
        assert r[1..] == d[1..];
      } else {
        SetKeys(d[1..], k, v);
        assert r[1..] == Set(d[1..], k, v);
      }
      assert Keys(r) == [r[0].0] + Keys(r[1..]);
    }
  }

  lemma SetKeepsUniqueKeys<K, V>(d: Dict<K, V>, k: K, v: V)
    requires UniqueKeys(d)
    ensures UniqueKeys(Set(d, k, v))
  {
    SetGet(d, k, v);
    var r := Set(d, k, v);
    assert Keys(r) == Keys(d) || Keys(r) == Keys(d) + [k];
    forall i, j | 0 <= i < j < |r| ensures r[i].0 != r[j].0 {
      assert Keys(r)[i] == r[i].0 && Keys(r)[j] == r[j].0;
    }
  }

  /** At the first position holding `k`, `Get` finds its value and `Set` replaces it there. */
  lemma SetAt<K, V>(d: Dict<K, V>, j: nat, k: K, v: V)
    requires j < |d| && d[j].0 == k && forall i :: 0 <= i < j ==> d[i].0 != k
    ensures Get(d, k) == Some(d[j].1)
    ensures Set(d, k, v) == d[j := (k, v)]
  {
    GetAt(d, j, k);
    SetReplaces(d, j, k, v);
  }

  lemma {:induction false} GetAt<K, V>(d: Dict<K, V>, j: nat, k: K)
    requires j < |d| && d[j].0 == k && forall i :: 0 <= i < j ==> d[i].0 != k
    ensures Get(d, k) == Some(d[j].1)
  {
    if j > 0 {
      assert d[0].0 != k;
      GetAt(d[1..], j - 1, k);
    }
  }

  lemma {:induction false} SetReplaces<K, V>(d: Dict<K, V>, j: nat, k: K, v: V)
    requires j < |d| && d[j].0 == k && forall i :: 0 <= i < j ==> d[i].0 != k
    ensures Set(d, k, v) == d[j := (k, v)]
  {
    if j > 0 {
      assert d[0].0 != k;
      SetReplaces(d[1..], j - 1, k, v);
      assert [d[0]] + d[1..][j - 1 := (k, v)] == d[j := (k, v)];
    } else {
      assert [(k, v)] + d[1..] == d[0 := (k, v)];
    }
  }

  /** A key that is absent is appended. */
  lemma {:induction false} SetAbsent<K, V>(d: Dict<K, V>, k: K, v: V)
    requires k !in Keys(d)
    ensures Set(d, k, v) == d + [(k, v)]
  {
    if d != [] {
      assert Keys(d)[0] == d[0].0;
      assert forall i :: 0 <= i < |d| - 1 ==> Keys(d[1..])[i] == Keys(d)[i + 1];
      SetAbsent(d[1..], k, v);
    }
  }

  /** `d.update(e)`, and `{**d, **e}`: the pairs of `e` assigned one by one, in order. */
  function Update<K(==), V>(d: Dict<K, V>, e: seq<(K, V)>): Dict<K, V> {
    if e == [] then d
    else
      var last := e[|e| - 1];
      Set(Update(d, e[..|e| - 1]), last.0, last.1)
  }

  lemma UpdateSingle<K, V>(d: Dict<K, V>, k: K, v: V)
    ensures Update(d, [(k, v)]) == Set(d, k, v)
  {
    assert [(k, v)][..0] == [];
  }

  /** Updating with `e + f` is updating with `e`, then with `f`. */
  lemma {:induction false} UpdateAppend<K, V>(d: Dict<K, V>, e: seq<(K, V)>, f: seq<(K, V)>)
    ensures Update(d, e + f) == Update(Update(d, e), f)
  {
    if f == [] {
      assert e + f == e;
    } else {
      assert (e + f)[..|e + f| - 1] == e + f[..|f| - 1];
      UpdateAppend(d, e, f[..|f| - 1]);
    }
  }

  /** Looking a key up in `a + b` finds it in `a` first. */
  lemma {:induction false} GetAppend<K, V>(a: Dict<K, V>, b: Dict<K, V>, k: K)
    ensures Get(a + b, k) == if Get(a, k).Some? then Get(a, k) else Get(b, k)
  {
    if a != [] {
      assert (a + b)[1..] == a[1..] + b;
      GetAppend(a[1..], b, k);
    } else {
      assert a + b == b;
    }
  }

  /** `dict(pairs)`, and a JSON object's members as Python's decoder collects them. */
  function FromPairs<K(==), V>(ps: seq<(K, V)>): Dict<K, V> {
    Update([], ps)
  }

  /** The value of the last pair with key `k`. */
  function LastValue<K(==), V>(ps: seq<(K, V)>, k: K): Option<V> {
    if ps == [] then None
    else if ps[|ps| - 1].0 == k then Some(ps[|ps| - 1].1)
    else LastValue(ps[..|ps| - 1], k)
  }

  /** Later pairs win: a key of `e` takes its last value in `e`, any other key keeps its value in `d`. */
  lemma {:induction false} UpdateGet<K, V>(d: Dict<K, V>, e: seq<(K, V)>, k: K)
    ensures Get(Update(d, e), k) == if LastValue(e, k).Some? then LastValue(e, k) else Get(d, k)
  {
    if e != [] {
      var last := e[|e| - 1];
      UpdateGet(d, e[..|e| - 1], k);
      SetGet(Update(d, e[..|e| - 1]), last.0, last.1);
    }
  }

  lemma {:induction false} UpdateKeepsUniqueKeys<K, V>(d: Dict<K, V>, e: seq<(K, V)>)
    requires UniqueKeys(d)
    ensures UniqueKeys(Update(d, e))
  {
    if e != [] {
      UpdateKeepsUniqueKeys(d, e[..|e| - 1]);
      SetKeepsUniqueKeys(Update(d, e[..|e| - 1]), e[|e| - 1].0, e[|e| - 1].1);
    }
  }

  /** The keys of `d` keep their order; the new keys of `e` follow in first-seen order. */
  lemma {:induction false} UpdateKeysPrefix<K, V>(d: Dict<K, V>, e: seq<(K, V)>)
    ensures |Keys(d)| <= |Keys(Update(d, e))| && Keys(Update(d, e))[..|Keys(d)|] == Keys(d)
  {
    if e != [] {
      var last := e[|e| - 1];
      var u := Update(d, e[..|e| - 1]);
      UpdateKeysPrefix(d, e[..|e| - 1]);
      SetKeys(u, last.0, last.1);
      var ku, kr := Keys(u), Keys(Set(u, last.0, last.1));
      assert kr[..|ku|] == ku;
      assert ku[..|Keys(d)|] == Keys(d);
      assert kr[..|Keys(d)|] == ku[..|Keys(d)|];
    }
  }

  /** Building a dict from pairs whose keys are already distinct changes nothing. */
  lemma {:induction false} FromPairsOfUnique<K, V>(ps: seq<(K, V)>)
    requires UniqueKeys(ps)
    ensures FromPairs(ps) == ps
  {
    if ps != [] {
      var init := ps[..|ps| - 1];
      var last := ps[|ps| - 1];
      assert UniqueKeys(init);
      FromPairsOfUnique(init);
      assert FromPairs(ps) == Set(init, last.0, last.1);
      forall i | 0 <= i < |init| ensures Keys(init)[i] != last.0 {
        assert Keys(init)[i] == ps[i].0;
      }
      SetAbsent(init, last.0, last.1);
      assert init + [last] == ps;
    }
  }

  lemma {:induction false} LastValueSome<K, V>(ps: seq<(K, V)>, k: K)
    ensures LastValue(ps, k).Some? <==> exists i :: 0 <= i < |ps| && ps[i].0 == k
  {
    if ps != [] {
      LastValueSome(ps[..|ps| - 1], k);
      if LastValue(ps[..|ps| - 1], k).Some? {
        var i :| 0 <= i < |ps| - 1 && ps[..|ps| - 1][i].0 == k;
        assert ps[i].0 == k;
      }
    }
  }

  /** The dict built from pairs has the single key `k` exactly when every pair
      has key `k`; its value is then that of the last pair. */
  lemma FromPairsSingleKey<K, V>(ps: seq<(K, V)>, k: K)
    ensures (|FromPairs(ps)| == 1 && FromPairs(ps)[0].0 == k) <==> (|ps| > 0 && forall i :: 0 <= i < |ps| ==> ps[i].0 == k)
    ensures |FromPairs(ps)| == 1 && FromPairs(ps)[0].0 == k ==> FromPairs(ps)[0].1 == ps[|ps| - 1].1
  {
    var o := FromPairs(ps);
    UpdateKeepsUniqueKeys([], ps);
    UpdateGet([], ps, k);
    LastValueSome(ps, k);
    if |o| == 1 && o[0].0 == k {
      forall i | 0 <= i < |ps| ensures ps[i].0 == k {
        UpdateGet([], ps, ps[i].0);
        LastValueSome(ps, ps[i].0);
      }
      LastValueOfSameKey(ps, k);
    } else if |ps| > 0 && forall i :: 0 <= i < |ps| ==> ps[i].0 == k {
      forall i | 0 <= i < |o| ensures o[i].0 == k {
        assert o[i].0 == Keys(o)[i];
        UpdateGet([], ps, o[i].0);
        LastValueSome(ps, o[i].0);
      }
    }
  }

  lemma LastValueOfSameKey<K, V>(ps: seq<(K, V)>, k: K)
    requires |ps| > 0 && forall i :: 0 <= i < |ps| ==> ps[i].0 == k
    ensures LastValue(ps, k) == Some(ps[|ps| - 1].1)
  {
  }

  /** A key appended last is found there, and assigning it again replaces
      that last pair. */
  lemma SetLast<K, V>(d: Dict<K, V>, k: K, v0: V, v: V)
    requires k !in Keys(d)
    ensures Get(d + [(k, v0)], k) == Some(v0)
    ensures Set(d + [(k, v0)], k, v) == d + [(k, v)]
  {
    var e := d + [(k, v0)];
    forall i | 0 <= i < |d| ensures e[i].0 != k {
      assert Keys(d)[i] == d[i].0;
    }
    SetAt(e, |d|, k, v);
    assert e[|d| := (k, v)] == d + [(k, v)];
  }

  /** The last pair for `k` in `x + y` is in `y` when `y` has one. */
  lemma {:induction false} LastValueAppend<K, V>(x: seq<(K, V)>, y: seq<(K, V)>, k: K)
    ensures LastValue(x + y, k) == if LastValue(y, k).Some? then LastValue(y, k) else LastValue(x, k)
  {
    if y == [] {
      assert x + y == x;
    } else {
      assert (x + y)[..|x + y| - 1] == x + y[..|y| - 1];
      LastValueAppend(x, y[..|y| - 1], k);
    }
  }
}

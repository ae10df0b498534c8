/** Python dicts as the board scripts build them: dict literals read with
    `.get`, and loops that store, for each input element, the keys and
    values it gives (`d[k] = v`), a later store overwriting an earlier one. */
module Dicts {
  import opened Py
  import Seqs

  /** `d.get(k)` on a dict literal written as its (key, value) pairs in
      order: a later pair for the same key wins, as in Python. */
  function Lookup<K(==), V>(pairs: seq<(K, V)>, k: K): Option<V> {
    if pairs == [] then None
    else if pairs[|pairs| - 1].0 == k then Some(pairs[|pairs| - 1].1)
    else Lookup(pairs[..|pairs| - 1], k)
  }

  /** A key is found exactly when some pair has it, and then the value is
      that of its latest pair. */
  lemma {:induction false} LookupFound<K, V>(pairs: seq<(K, V)>, k: K) returns (i: nat)
    ensures Lookup(pairs, k).Some? <==> exists j :: 0 <= j < |pairs| && pairs[j].0 == k
    ensures Lookup(pairs, k).Some? ==>
      i < |pairs| && pairs[i] == (k, Lookup(pairs, k).value) &&
      forall j :: i < j < |pairs| ==> pairs[j].0 != k
  {
    i := 0;
    if pairs != [] && pairs[|pairs| - 1].0 != k {
      var init := pairs[..|pairs| - 1];
      i := LookupFound(init, k);
      assert forall j :: 0 <= j < |init| ==> init[j] == pairs[j];
    } else if pairs != [] {
      i := |pairs| - 1;
    }
  }

  /** `list(d.values())` of a dict literal whose keys are distinct. */
  function Values<K, V>(pairs: seq<(K, V)>): (r: seq<V>)
    ensures |r| == |pairs| && forall i :: 0 <= i < |pairs| ==> r[i] == pairs[i].1
  {
    Seqs.Map(pairs, (p: (K, V)) => p.1)
  }

  /** A found value is one of the literal's values. */
  lemma LookupIsValue<K, V>(pairs: seq<(K, V)>, k: K)
    requires Lookup(pairs, k).Some?
    ensures Lookup(pairs, k).value in Values(pairs)
  {
    var i := LookupFound(pairs, k);
    assert Values(pairs)[i] == Lookup(pairs, k).value;
  }

  /** `for k, v in pairs: d[k] = v`. */
  function Store<K(==), V>(d: map<K, V>, pairs: seq<(K, V)>): map<K, V> {
    if pairs == [] then d
    else Store(d, pairs[..|pairs| - 1])[pairs[|pairs| - 1].0 := pairs[|pairs| - 1].1]
  }

  /** After the stores, a key holds the value of its latest pair, and keys
      no pair names keep what they had. */
  lemma {:induction false} StoreLatest<K, V>(d: map<K, V>, pairs: seq<(K, V)>, k: K)
    ensures k in Store(d, pairs) <==> k in d || exists j :: 0 <= j < |pairs| && pairs[j].0 == k
    ensures Store(d, pairs).Keys == d.Keys + set j | 0 <= j < |pairs| :: pairs[j].0
    ensures Lookup(pairs, k).Some? ==> k in Store(d, pairs) && Store(d, pairs)[k] == Lookup(pairs, k).value
    ensures Lookup(pairs, k).None? && k in d ==> Store(d, pairs)[k] == d[k]
  {
    var _ := LookupFound(pairs, k);
    if pairs != [] {
      var init := pairs[..|pairs| - 1];
      StoreLatest(d, init, k);
      assert forall j :: 0 <= j < |init| ==> init[j] == pairs[j];
      assert (set j | 0 <= j < |pairs| :: pairs[j].0) ==
        (set j | 0 <= j < |init| :: init[j].0) + {pairs[|pairs| - 1].0};
    }
  }

  /** The loop `for x in s: for k, v in entry(x): d[k] = v` starting from an
      empty dict, where computing an element's entries may raise; the first
      exception ends the loop. */
  function StoreAll<T, K(==), V>(s: seq<T>, entry: T -> Result<seq<(K, V)>>): Result<map<K, V>> {
    if s == [] then Ok(map[])
    else
      var d :- StoreAll(s[..|s| - 1], entry);
      var pairs :- entry(s[|s| - 1]);
      Ok(Store(d, pairs))
  }

  /** One more element: the loop so far, then its entries. */
  lemma StoreAllSnoc<T, K, V>(s: seq<T>, x: T, entry: T -> Result<seq<(K, V)>>)
    ensures StoreAll(s + [x], entry) ==
      if StoreAll(s, entry).Raise? || entry(x).Raise? then Raise
      else Ok(Store(StoreAll(s, entry).value, entry(x).value))
  {
    assert (s + [x])[..|s|] == s;
  }

  /** Once a prefix has raised, the whole loop raises. */
  lemma {:induction false} StoreAllRaisePersists<T, K, V>(s: seq<T>, entry: T -> Result<seq<(K, V)>>, n: nat)
    requires n <= |s| && StoreAll(s[..n], entry).Raise?
    ensures StoreAll(s, entry).Raise?
    decreases |s| - n
  {
    if n < |s| {
      assert s[..n + 1] == s[..n] + [s[n]];
      StoreAllSnoc(s[..n], s[n], entry);
      StoreAllRaisePersists(s, entry, n + 1);
    } else {
      assert s[..n] == s;
    }
  }

  /** The loop succeeds exactly when every element's entries can be
      computed. */
  lemma {:induction false} StoreAllOk<T, K, V>(s: seq<T>, entry: T -> Result<seq<(K, V)>>)
    ensures StoreAll(s, entry).Ok? <==> forall i :: 0 <= i < |s| ==> entry(s[i]).Ok?
  {
    if s != [] {
      var init := s[..|s| - 1];
      StoreAllOk(init, entry);
      assert forall i :: 0 <= i < |init| ==> init[i] == s[i];
    }
  }

  /** Every key some element gives lies in `ks`. */
  ghost predicate KeysWithin<T, K, V>(s: seq<T>, entry: T -> Result<seq<(K, V)>>, ks: set<K>) {
    forall i, j :: 0 <= i < |s| && entry(s[i]).Ok? && 0 <= j < |entry(s[i]).value| ==>
      entry(s[i]).value[j].0 in ks
  }

  /** The dict holds no key that no element gives. */
  lemma {:induction false} StoreAllKeys<T, K, V>(s: seq<T>, entry: T -> Result<seq<(K, V)>>, ks: set<K>)
    requires KeysWithin(s, entry, ks)
    requires StoreAll(s, entry).Ok?
    ensures StoreAll(s, entry).value.Keys <= ks
  {
    if s != [] {
      var init := s[..|s| - 1];
      assert forall i :: 0 <= i < |init| ==> init[i] == s[i];
      StoreAllKeys(init, entry, ks);
      var pairs := entry(s[|s| - 1]).value;
      if pairs != [] {
        StoreLatest(StoreAll(init, entry).value, pairs, pairs[0].0);
      }
    }
  }

  /** The element `i` sets `k` to `v` when it is the latest element whose
      entries mention `k` and `v` is its latest value for `k`. */
  lemma {:induction false} StoreAllLatest<T, K, V>(s: seq<T>, entry: T -> Result<seq<(K, V)>>, i: nat, k: K, v: V)
    requires StoreAll(s, entry).Ok?
    requires i < |s| && entry(s[i]).Ok? && Lookup(entry(s[i]).value, k) == Some(v)
    requires forall j :: i < j < |s| && entry(s[j]).Ok? ==> Lookup(entry(s[j]).value, k).None?
    ensures k in StoreAll(s, entry).value && StoreAll(s, entry).value[k] == v
  {
    var init := s[..|s| - 1];
    assert forall j :: 0 <= j < |init| ==> init[j] == s[j];
    var pairs := entry(s[|s| - 1]).value;
    StoreLatest(StoreAll(init, entry).value, pairs, k);
    if i < |s| - 1 {
      StoreAllLatest(init, entry, i, k, v);
    }
  }

  /** Every stored key comes from the latest element whose entries mention
      it. */
  lemma {:induction false} StoreAllOrigin<T, K, V>(s: seq<T>, entry: T -> Result<seq<(K, V)>>, k: K) returns (i: nat)
    requires StoreAll(s, entry).Ok? && k in StoreAll(s, entry).value
    ensures i < |s| && entry(s[i]).Ok?
    ensures Lookup(entry(s[i]).value, k) == Some(StoreAll(s, entry).value[k])
    ensures forall j :: i < j < |s| ==> entry(s[j]).Ok? && Lookup(entry(s[j]).value, k).None?
  {
    StoreAllOk(s, entry);
    var init := s[..|s| - 1];
    assert forall j :: 0 <= j < |init| ==> init[j] == s[j];
    var d := StoreAll(init, entry).value;
    var pairs := entry(s[|s| - 1]).value;
    StoreLatest(d, pairs, k);
    var _ := LookupFound(pairs, k);
    if Lookup(pairs, k).Some? {
      i := |s| - 1;
    } else {
      i := StoreAllOrigin(init, entry, k);
    }
  }

  /** An element that gives no entries can be dropped from the loop. */
  lemma {:induction false} StoreAllSkip<T, K, V>(a: seq<T>, x: T, b: seq<T>, entry: T -> Result<seq<(K, V)>>)
    requires entry(x) == Ok([])
    ensures StoreAll(a + [x] + b, entry) == StoreAll(a + b, entry)
    decreases |b|
  {
    StoreAllSnoc(a, x, entry);
    if b == [] {
      assert a + [x] + b == a + [x];
      assert a + b == a;
    } else {
      var b' := b[..|b| - 1];
      var y := b[|b| - 1];
      StoreAllSkip(a, x, b', entry);
      assert a + [x] + b == (a + [x] + b') + [y];
      assert a + b == (a + b') + [y];
      StoreAllSnoc(a + [x] + b', y, entry);
      StoreAllSnoc(a + b', y, entry);
    }
  }

  /** The loop `for x in s: k = key(x); if k: buckets[k].append(row(x))`
      over buckets that start empty, one per name. An element without a key
      is dropped; computing its row may raise, and so does a key with no
      bucket (KeyError). */
  function Buckets<T, K(==), U>(names: seq<K>, s: seq<T>, key: T -> Option<K>, row: T -> Result<U>): (r: Result<map<K, seq<U>>>)
    ensures r.Ok? ==> r.value.Keys == set n | n in names
  {
    if s == [] then Ok(map n | n in names :: [])
    else
      var b :- Buckets(names, s[..|s| - 1], key, row);
      var x := s[|s| - 1];
      if key(x).None? then Ok(b)
      else
        var u :- row(x);
        if key(x).value in b then Ok(b[key(x).value := b[key(x).value] + [u]]) else Raise
  }

  /** The elements whose key is `n`. */
  function HasKey<T, K(==)>(key: T -> Option<K>, n: K): T -> bool {
    x => key(x) == Some(n)
  }

  /** The loop succeeds exactly when every element with a key has a row and
      a bucket; every bucket then holds the rows of its own elements, in
      order. */
  lemma {:induction false} BucketsRows<T, K, U>(names: seq<K>, s: seq<T>, key: T -> Option<K>, row: T -> Result<U>)
    ensures Buckets(names, s, key, row).Ok? <==>
      forall i :: 0 <= i < |s| && key(s[i]).Some? ==> row(s[i]).Ok? && key(s[i]).value in names
    ensures Buckets(names, s, key, row).Ok? ==>
      forall n :: n in names ==>
        MapOk(Seqs.Filter(s, HasKey(key, n)), row) == Ok(Buckets(names, s, key, row).value[n])
  {
    if s != [] {
      var init := s[..|s| - 1];
      var x := s[|s| - 1];
      BucketsRows(names, init, key, row);
      assert forall i :: 0 <= i < |init| ==> init[i] == s[i];
      var r := Buckets(names, s, key, row);
      if r.Ok? {
        forall n | n in names
          ensures MapOk(Seqs.Filter(s, HasKey(key, n)), row) == Ok(r.value[n])
        {
          var mine := Seqs.Filter(init, HasKey(key, n));
          assert Seqs.Filter(s, HasKey(key, n)) == mine + if key(x) == Some(n) then [x] else [];
          if key(x) == Some(n) {
            MapOkSnoc(mine, x, row);
          } else {
            assert mine + [] == mine;
          }
        }
      }
    }
  }

  /** Once a prefix has raised, the whole loop raises. */
  lemma {:induction false} BucketsRaisePersists<T, K, U>(names: seq<K>, s: seq<T>, key: T -> Option<K>, row: T -> Result<U>, n: nat)
    requires n <= |s| && Buckets(names, s[..n], key, row).Raise?
    ensures Buckets(names, s, key, row).Raise?
    decreases |s| - n
  {
    if n < |s| {
      assert s[..n + 1][..n] == s[..n];
      BucketsRaisePersists(names, s, key, row, n + 1);
    } else {
      assert s[..n] == s;
    }
  }
}

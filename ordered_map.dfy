/**
 * PHP arrays with string keys: an ordered dictionary, here a sequence of
 * key/value entries in insertion order. A PHP array never holds a key twice,
 * which `NoDupKeys` states; lookups return the first entry with the key.
 */
module OrderedMap {

  type Dict<K, V> = seq<(K, V)>

  /** The keys, in iteration (insertion) order. */
  function Keys<K, V>(d: Dict<K, V>): seq<K>
  {
    seq(|d|, i requires 0 <= i < |d| => d[i].0)
  }

  predicate NoDupKeys<K(==), V>(d: Dict<K, V>)
  {
    forall i, j :: 0 <= i < j < |d| ==> d[i].0 != d[j].0
  }

  lemma KeysCons<K, V>(d: Dict<K, V>)
    requires d != []
    ensures Keys(d) == [d[0].0] + Keys(d[1..])
  {
  }

  /** Position of the first entry with key `k`. */
  function IndexOf<K(==), V>(d: Dict<K, V>, k: K): (i: nat)
    requires k in Keys(d)
    ensures i < |d| && d[i].0 == k
    ensures forall j :: 0 <= j < i ==> d[j].0 != k
  {
    KeysCons(d);
    if d[0].0 == k then 0 else 1 + IndexOf(d[1..], k)
  }

  /** `$d[$k]` for a key that is present. */
  function Get<K(==), V>(d: Dict<K, V>, k: K): V
    requires k in Keys(d)
  {
    d[IndexOf(d, k)].1
  }

  /** `$d[$k] = $v`: an existing key keeps its position and takes the new value; a new key is appended. */
  function Put<K(==), V>(d: Dict<K, V>, k: K, v: V): Dict<K, V>
  {
    if k in Keys(d) then d[IndexOf(d, k) := (k, v)] else d + [(k, v)]
  }

  /** `array_merge($a, $b)` for string keys: each entry of `b`, in order, written into `a`. */
  function Merge<K(==), V>(a: Dict<K, V>, b: Dict<K, V>): Dict<K, V>
    decreases |b|
  {
    if b == [] then a else Merge(Put(a, b[0].0, b[0].1), b[1..])
  }

  /** `$a + $b`: each entry of `b` whose key `a` lacks, appended in order. */
  function Union<K(==), V>(a: Dict<K, V>, b: Dict<K, V>): Dict<K, V>
    decreases |b|
  {
    if b == [] then a
    else Union(if b[0].0 in Keys(a) then a else a + [b[0]], b[1..])
  }

  /** The elements of `ks` that are not in `seen`, in order. */
  function Absent<K(==)>(seen: seq<K>, ks: seq<K>): seq<K>
  {
    if ks == [] then [] else (if ks[0] in seen then [] else [ks[0]]) + Absent(seen, ks[1..])
  }

  /** With unique keys, the entry at position `i` is the one a lookup of its key finds. */
  lemma GetAt<K, V>(d: Dict<K, V>, i: nat)
    requires NoDupKeys(d) && i < |d|
    ensures d[i].0 in Keys(d) && Get(d, d[i].0) == d[i].1
  {
    assert Keys(d)[i] == d[i].0;
  }

  /** A lookup only depends on the keys up to the first match, so it survives extending the keys. */
  lemma IndexOfPrefix<K, V>(d: Dict<K, V>, e: Dict<K, V>, k: K)
    requires k in Keys(d) && |d| <= |e|
    requires forall i :: 0 <= i < |d| ==> e[i].0 == d[i].0
    ensures k in Keys(e) && IndexOf(e, k) == IndexOf(d, k)
  {
    var i := IndexOf(d, k);
    assert Keys(e)[i] == k;
    var j := IndexOf(e, k);
    assert j <= i;
    assert d[j].0 == k;
  }

  /** `$d[$k] = $v` sets `k` to `v`, keeps every other key's value, and keeps the key order. */
  lemma PutSpec<K, V>(d: Dict<K, V>, k: K, v: V)
    ensures k in Keys(d) ==> Keys(Put(d, k, v)) == Keys(d)
    ensures k !in Keys(d) ==> Keys(Put(d, k, v)) == Keys(d) + [k]
    ensures k in Keys(Put(d, k, v)) && Get(Put(d, k, v), k) == v
    ensures forall k' :: k' in Keys(d) && k' != k ==> Get(Put(d, k, v), k') == Get(d, k')
    ensures NoDupKeys(d) ==> NoDupKeys(Put(d, k, v))
  {
    var r := Put(d, k, v);
    if k in Keys(d) {
      var n := IndexOf(d, k);
      assert forall i :: 0 <= i < |d| ==> r[i].0 == d[i].0;
      assert Keys(r) == Keys(d);
      IndexOfPrefix(d, r, k);
      forall k' | k' in Keys(d) && k' != k
        ensures Get(r, k') == Get(d, k')
      {
        IndexOfPrefix(d, r, k');
      }
    } else {
      assert Keys(r) == Keys(d) + [k];
      assert Keys(r)[|d|] == k;
      var j := IndexOf(r, k);
      assert forall i :: 0 <= i < |d| ==> r[i].0 == Keys(d)[i];
      assert j == |d|;
      forall k' | k' in Keys(d) && k' != k
        ensures Get(r, k') == Get(d, k')
      {
        IndexOfPrefix(d, r, k');
      }
      if NoDupKeys(d) {
        forall i, j | 0 <= i < j < |r| ensures r[i].0 != r[j].0 {
          if j == |d| {
            assert Keys(d)[i] == d[i].0;
          }
        }
      }
    }
  }

  /** The rest of an array without duplicates lacks its first key and has no duplicates either. */
  lemma NoDupTail<K, V>(d: Dict<K, V>)
    requires NoDupKeys(d) && d != []
    ensures d[0].0 !in Keys(d[1..]) && NoDupKeys(d[1..])
  {
    forall j | 0 <= j < |d| - 1
      ensures Keys(d[1..])[j] != d[0].0
    {
      assert d[1..][j] == d[j + 1];
    }
  }

  /** A key not among `ks` does not change which of them are absent. */
  lemma {:induction false} AbsentSkip<K>(seen: seq<K>, x: K, ks: seq<K>)
    requires x !in ks
    ensures Absent(seen + [x], ks) == Absent(seen, ks)
  {
    if ks != [] {
      AbsentSkip(seen, x, ks[1..]);
    }
  }

  /** The first entry of a dictionary is what a lookup of its key finds; other keys are looked up in the rest. */
  lemma GetCons<K, V>(d: Dict<K, V>, k: K)
    requires k in Keys(d)
    ensures k == d[0].0 ==> Get(d, k) == d[0].1
    ensures k != d[0].0 ==> k in Keys(d[1..]) && Get(d, k) == Get(d[1..], k)
  {
    KeysCons(d);
  }

  /** `array_merge` keeps `a`'s keys in place and appends `b`'s new keys in `b`'s order. */
  lemma {:induction false} MergeKeys<K, V>(a: Dict<K, V>, b: Dict<K, V>)
    requires NoDupKeys(b)
    ensures Keys(Merge(a, b)) == Keys(a) + Absent(Keys(a), Keys(b))
    decreases |b|
  {
    if b == [] {
      assert Keys(b) == [];
    } else {
      var x, b' := b[0].0, b[1..];
      var a' := Put(a, x, b[0].1);
      PutSpec(a, x, b[0].1);
      KeysCons(b);
      NoDupTail(b);
      MergeKeys(a', b');
      assert Merge(a, b) == Merge(a', b');
      assert Absent(Keys(a), Keys(b)) == (if x in Keys(a) then [] else [x]) + Absent(Keys(a), Keys(b'));
      if x !in Keys(a) {
        AbsentSkip(Keys(a), x, Keys(b'));
      }
    }
  }

  /**
   * `array_merge` is right-biased: every key of `b` takes `b`'s value, every other
   * key of `a` keeps its value, and no other key appears.
   */
  lemma {:induction false} MergeGet<K, V>(a: Dict<K, V>, b: Dict<K, V>)
    requires NoDupKeys(b)
    ensures forall k :: k in Keys(Merge(a, b)) <==> k in Keys(a) || k in Keys(b)
    ensures forall k :: k in Keys(b) ==> k in Keys(Merge(a, b)) && Get(Merge(a, b), k) == Get(b, k)
    ensures forall k :: k in Keys(a) && k !in Keys(b) ==> Get(Merge(a, b), k) == Get(a, k)
    decreases |b|
  {
    if b == [] {
      assert Keys(b) == [];
    } else {
      var x := b[0].0;
      var a' := Put(a, x, b[0].1);
      var b' := b[1..];
      PutSpec(a, x, b[0].1);
      KeysCons(b);
      MergeGet(a', b');
      NoDupTail(b);
      forall k | k in Keys(b)
        ensures Get(Merge(a, b), k) == Get(b, k)
      {
        GetCons(b, k);
      }
    }
  }

  /** `array_merge` of two arrays is again an array: no key twice. */
  lemma {:induction false} MergeNoDup<K, V>(a: Dict<K, V>, b: Dict<K, V>)
    requires NoDupKeys(a)
    ensures NoDupKeys(Merge(a, b))
    decreases |b|
  {
    if b != [] {
      PutSpec(a, b[0].0, b[0].1);
      MergeNoDup(Put(a, b[0].0, b[0].1), b[1..]);
    }
  }

  /** `+` keeps `a`'s keys in place and appends `b`'s new keys in `b`'s order. */
  lemma {:induction false} UnionKeys<K, V>(a: Dict<K, V>, b: Dict<K, V>)
    requires NoDupKeys(b)
    ensures Keys(Union(a, b)) == Keys(a) + Absent(Keys(a), Keys(b))
    decreases |b|
  {
    if b == [] {
      assert Keys(b) == [];
    } else {
      var x := b[0].0;
      var a' := if x in Keys(a) then a else a + [b[0]];
      assert Keys(a') == if x in Keys(a) then Keys(a) else Keys(a) + [x];
      KeysCons(b);
      UnionKeys(a', b[1..]);
      if x !in Keys(a) {
        NoDupTail(b);
        AbsentSkip(Keys(a), x, Keys(b[1..]));
      }
    }
  }

  /**
   * `+` is left-biased: every key of `a` keeps `a`'s value, every other key of `b`
   * takes `b`'s value, and no other key appears.
   */
  lemma {:induction false} UnionGet<K, V>(a: Dict<K, V>, b: Dict<K, V>)
    ensures forall k :: k in Keys(Union(a, b)) <==> k in Keys(a) || k in Keys(b)
    ensures forall k :: k in Keys(a) ==> k in Keys(Union(a, b)) && Get(Union(a, b), k) == Get(a, k)
    ensures forall k :: k in Keys(b) && k !in Keys(a) ==> Get(Union(a, b), k) == Get(b, k)
    decreases |b|
  {
    if b == [] {
      assert Keys(b) == [];
    } else {
      var x := b[0].0;
      var a' := if x in Keys(a) then a else a + [b[0]];
      KeysCons(b);
      if x !in Keys(a) {
        assert a' == Put(a, x, b[0].1);
      }
      PutSpec(a, x, b[0].1);
      UnionGet(a', b[1..]);
      forall k | k in Keys(b) && k !in Keys(a)
        ensures Get(Union(a, b), k) == Get(b, k)
      {
        GetCons(b, k);
      }
    }
  }

  /** `+` of two arrays is again an array: no key twice. */
  lemma {:induction false} UnionNoDup<K, V>(a: Dict<K, V>, b: Dict<K, V>)
    requires NoDupKeys(a)
    ensures NoDupKeys(Union(a, b))
    decreases |b|
  {
    if b != [] {
      var x := b[0].0;
      if x !in Keys(a) {
        assert a + [b[0]] == Put(a, x, b[0].1);
        PutSpec(a, x, b[0].1);
      }
      UnionNoDup(if x in Keys(a) then a else a + [b[0]], b[1..]);
    }
  }

  /** `+` with an array that shares no key with `a` is plain concatenation. */
  lemma {:induction false} UnionDisjoint<K, V>(a: Dict<K, V>, b: Dict<K, V>)
    requires NoDupKeys(b)
    requires forall k :: k in Keys(b) ==> k !in Keys(a)
    ensures Union(a, b) == a + b
    decreases |b|
  {
    if b != [] {
      KeysCons(b);
      NoDupTail(b);
      var a' := a + [b[0]];
      assert Keys(a') == Keys(a) + [b[0].0];
      UnionDisjoint(a', b[1..]);
      assert a' + b[1..] == a + b;
    }
  }
}

/**
  PHP's ordered array: a sequence of (key, value) entries in insertion order,
  no key occurring twice. A key is an integer or a string.
  The operations are element assignment `$a[$k] = $v` (Set) and the union
  operator `$a + $b` (Union), which keeps every entry of the left operand
  and appends those entries of the right operand whose key is missing.
  What Get, Set and Union mean is stated by the lemmas after each of them.
 */
module PhpArray {
  import opened Wrappers

  datatype Key = IntKey(i: int) | StrKey(s: string)

  datatype Entry<V> = Entry(key: Key, val: V)

  predicate DistinctKeys<V>(a: seq<Entry<V>>) {
    forall i, j :: 0 <= i < j < |a| ==> a[i].key != a[j].key
  }

  /** A PHP array value: no key occurs twice. */
  type PArray<V> = a: seq<Entry<V>> | DistinctKeys(a) witness []

  predicate HasKey<V>(a: seq<Entry<V>>, k: Key) {
    exists i :: 0 <= i < |a| && a[i].key == k
  }

  /** `$a[$k]`, or `None` when the array has no key `$k`. */
  function Get<V>(a: PArray<V>, k: Key): Option<V> {
    if a == [] then None
    else if a[0].key == k then Some(a[0].val)
    else Get(a[1..], k)
  }

  /** Lookup finds the value of the one entry that has the key, and nothing when no entry has it. */
  lemma {:induction false} GetSpec<V>(a: PArray<V>, k: Key)
    ensures Get(a, k).None? <==> !HasKey(a, k)
    ensures forall i :: 0 <= i < |a| && a[i].key == k ==> Get(a, k) == Some(a[i].val)
  {
    if a != [] && a[0].key != k {
      GetSpec(a[1..], k);
      assert forall i :: 1 <= i < |a| ==> a[i] == a[1..][i - 1];
      if HasKey(a, k) {
        var i :| 0 <= i < |a| && a[i].key == k;
        assert a[1..][i - 1].key == k;
      }
    }
  }

  /** A list: the keys are 0, 1, ..., |a| - 1 in this order, as `$a[] = $v` builds them from []. */
  predicate IsList<V>(a: seq<Entry<V>>) {
    forall i :: 0 <= i < |a| ==> a[i].key == IntKey(i)
  }

  lemma ListIsArray<V>(a: seq<Entry<V>>)
    requires IsList(a)
    ensures DistinctKeys(a)
  {
  }

  lemma ListHasKey<V>(a: seq<Entry<V>>, n: int)
    requires IsList(a)
    ensures HasKey(a, IntKey(n)) <==> 0 <= n < |a|
  {
    if 0 <= n < |a| {
      assert a[n].key == IntKey(n);
    }
  }

  /** The assignment `$a[$k] = $v`. */
  function Set<V>(a: PArray<V>, k: Key, v: V): PArray<V> {
    if HasKey(a, k) then
      var r := seq(|a|, i requires 0 <= i < |a| => if a[i].key == k then Entry(k, v) else a[i]);
      assert forall i :: 0 <= i < |a| ==> r[i].key == a[i].key;
      r
    else
      a + [Entry(k, v)]
  }

  /**
    An existing key keeps its position and takes the new value; a missing key
    is appended at the end; every other entry stays where it was.
   */
  lemma SetSpec<V>(a: PArray<V>, k: Key, v: V)
    ensures |Set(a, k, v)| == if HasKey(a, k) then |a| else |a| + 1
    ensures !HasKey(a, k) ==> Set(a, k, v)[|a|] == Entry(k, v)
    ensures forall i :: 0 <= i < |a| ==> Set(a, k, v)[i] == if a[i].key == k then Entry(k, v) else a[i]
  {
  }

  /** The keys of `a` in order, as `array_keys` lists them. */
  function Keys<V>(a: seq<Entry<V>>): seq<Key> {
    seq(|a|, i requires 0 <= i < |a| => a[i].key)
  }

  lemma HasKeyKeys<V>(a: seq<Entry<V>>, k: Key)
    ensures HasKey(a, k) <==> k in Keys(a)
  {
    if k in Keys(a) {
      var i :| 0 <= i < |a| && Keys(a)[i] == k;
      assert a[i].key == k;
    }
    if HasKey(a, k) {
      var i :| 0 <= i < |a| && a[i].key == k;
      assert Keys(a)[i] == k;
    }
  }

  /** An array is determined by the order of its keys and by what each key reads. */
  lemma SameKeysAndValues<V>(a: PArray<V>, b: PArray<V>)
    requires Keys(a) == Keys(b)
    requires forall k :: Get(a, k) == Get(b, k)
    ensures a == b
  {
    forall i | 0 <= i < |a| ensures a[i] == b[i] {
      assert Keys(a)[i] == Keys(b)[i];
      GetSpec(a, a[i].key);
      GetSpec(b, a[i].key);
    }
  }

  /** `$a[$k] = $v` keeps the order of the keys: an existing key stays in place, a new key comes last. */
  lemma SetKeys<V>(a: PArray<V>, k: Key, v: V)
    ensures Keys(Set(a, k, v)) == if k in Keys(a) then Keys(a) else Keys(a) + [k]
  {
    SetSpec(a, k, v);
    HasKeyKeys(a, k);
  }

  /** After `$a[$k] = $v`, key `$k` reads `$v` and every other key reads as before. */
  lemma GetSet<V>(a: PArray<V>, k: Key, v: V, k': Key)
    ensures Get(Set(a, k, v), k') == if k' == k then Some(v) else Get(a, k')
  {
    var r := Set(a, k, v);
    SetSpec(a, k, v);
    GetSpec(a, k');
    GetSpec(r, k');
    if k' == k {
      if HasKey(a, k) {
        var i :| 0 <= i < |a| && a[i].key == k;
        assert r[i] == Entry(k, v);
      } else {
        assert r[|a|] == Entry(k, v);
      }
    } else if HasKey(a, k') {
      var i :| 0 <= i < |a| && a[i].key == k';
      assert r[i] == a[i];
    }
  }

  /**
    Any array with the key order of SetKeys and the lookups of GetSet is the
    result of `$a[$k] = $v`: the two lemmas say all there is to say about it.
   */
  lemma SetCharacterised<V>(a: PArray<V>, k: Key, v: V, r: PArray<V>)
    requires Keys(r) == if k in Keys(a) then Keys(a) else Keys(a) + [k]
    requires forall k' :: Get(r, k') == if k' == k then Some(v) else Get(a, k')
    ensures r == Set(a, k, v)
  {
    SetKeys(a, k, v);
    forall k' ensures Get(r, k') == Get(Set(a, k, v), k') {
      GetSet(a, k, v, k');
    }
    SameKeysAndValues(r, Set(a, k, v));
  }

  /** The position of key `k` in `a`; |a| when `a` has no such key. */
  function IndexOf<V>(a: seq<Entry<V>>, k: Key): nat {
    if a == [] then 0
    else if a[0].key == k then 0
    else 1 + IndexOf(a[1..], k)
  }

  lemma {:induction false} IndexOfSpec<V>(a: PArray<V>, i: int)
    requires 0 <= i < |a|
    ensures IndexOf(a, a[i].key) == i
  {
    if i > 0 {
      assert a[0].key != a[i].key;
      assert a[1..][i - 1] == a[i];
      IndexOfSpec(a[1..], i - 1);
    }
  }

  /** GetSet for every key at once. */
  lemma GetSetAll<V>(a: PArray<V>, k: Key, v: V)
    ensures Get(Set(a, k, v), k) == Some(v)
    ensures forall k' :: k' != k ==> Get(Set(a, k, v), k') == Get(a, k')
  {
    forall k' ensures Get(Set(a, k, v), k') == if k' == k then Some(v) else Get(a, k') {
      GetSet(a, k, v, k');
    }
  }

  /** The entries of `b`, in order, whose key `a` lacks: what `$a + $b` appends. */
  function Missing<V>(a: PArray<V>, b: PArray<V>): (r: seq<Entry<V>>)
    ensures DistinctKeys(r)
    ensures forall i :: 0 <= i < |r| ==> r[i] in b && !HasKey(a, r[i].key)
    ensures forall j :: 0 <= j < |b| && !HasKey(a, b[j].key) ==> b[j] in r
    decreases |b|
  {
    if b == [] then []
    else
      var init, last := b[..|b| - 1], b[|b| - 1];
      var m := Missing(a, init);
      assert forall i :: 0 <= i < |m| ==> m[i].key != last.key by {
        forall i | 0 <= i < |m| ensures m[i].key != last.key {
          var j :| 0 <= j < |init| && init[j] == m[i];
          assert b[j] == m[i];
        }
      }
      m + (if HasKey(a, last.key) then [] else [last])
  }

  lemma MissingKeys<V>(a: PArray<V>, b: PArray<V>, k: Key)
    ensures HasKey(Missing(a, b), k) <==> HasKey(b, k) && !HasKey(a, k)
  {
    var m := Missing(a, b);
    if HasKey(m, k) {
      var i :| 0 <= i < |m| && m[i].key == k;
      var j :| 0 <= j < |b| && b[j] == m[i];
    }
    if HasKey(b, k) && !HasKey(a, k) {
      var j :| 0 <= j < |b| && b[j].key == k;
      assert b[j] in m;
      var i :| 0 <= i < |m| && m[i] == b[j];
    }
  }

  lemma MissingGet<V>(a: PArray<V>, b: PArray<V>, k: Key)
    requires !HasKey(a, k)
    ensures Get(Missing(a, b), k) == Get(b, k)
  {
    var m: PArray<V> := Missing(a, b);
    MissingKeys(a, b, k);
    GetSpec(m, k);
    GetSpec(b, k);
    if HasKey(b, k) {
      var j :| 0 <= j < |b| && b[j].key == k;
      assert b[j] in m;
      var i :| 0 <= i < |m| && m[i] == b[j];
    }
  }

  lemma ConcatGet<V>(a: PArray<V>, m: PArray<V>, k: Key)
    requires DistinctKeys(a + m)
    ensures HasKey(a + m, k) <==> HasKey(a, k) || HasKey(m, k)
    ensures Get(a + m, k) == if HasKey(a, k) then Get(a, k) else Get(m, k)
  {
    var r: PArray<V> := a + m;
    GetSpec(r, k);
    GetSpec(a, k);
    GetSpec(m, k);
    if HasKey(a, k) {
      var i :| 0 <= i < |a| && a[i].key == k;
      assert r[i] == a[i];
    } else if HasKey(m, k) {
      var i :| 0 <= i < |m| && m[i].key == k;
      assert r[|a| + i] == m[i];
    }
  }

  lemma UnionDistinct<V>(a: PArray<V>, b: PArray<V>)
    ensures DistinctKeys(a + Missing(a, b))
  {
    var m := Missing(a, b);
    forall i, j | 0 <= i < j < |a + m| ensures (a + m)[i].key != (a + m)[j].key {
      if j >= |a| && i < |a| {
        assert (a + m)[j] == m[j - |a|];
        assert !HasKey(a, (a + m)[j].key);
      }
    }
  }

  /** The union `$a + $b`. */
  function Union<V>(a: PArray<V>, b: PArray<V>): PArray<V> {
    UnionDistinct(a, b);
    a + Missing(a, b)
  }

  /**
    The left operand of `$a + $b` is kept whole as a prefix; the result has
    the keys of both; a key present in both keeps its left-hand value (first
    write wins) and any other key the value it has in `$b`.
   */
  lemma UnionSpec<V>(a: PArray<V>, b: PArray<V>)
    ensures |Union(a, b)| >= |a| && Union(a, b)[..|a|] == a
    ensures forall k :: HasKey(Union(a, b), k) <==> HasKey(a, k) || HasKey(b, k)
    ensures forall k :: Get(Union(a, b), k) == if HasKey(a, k) then Get(a, k) else Get(b, k)
  {
    var m := Missing(a, b);
    UnionDistinct(a, b);
    forall k ensures HasKey(a + m, k) <==> HasKey(a, k) || HasKey(b, k)
      ensures Get(a + m, k) == if HasKey(a, k) then Get(a, k) else Get(b, k)
    {
      MissingKeys(a, b, k);
      ConcatGet(a, m, k);
      if !HasKey(a, k) { MissingGet(a, b, k); }
    }
  }

  /** Missing lists its entries in the order they have in `b`. */
  lemma {:induction false} MissingOrder<V>(a: PArray<V>, b: PArray<V>)
    ensures forall i, j :: 0 <= i < j < |Missing(a, b)| ==>
      IndexOf(b, Missing(a, b)[i].key) < IndexOf(b, Missing(a, b)[j].key)
    decreases |b|
  {
    if b != [] {
      var init, last := b[..|b| - 1], b[|b| - 1];
      var m := Missing(a, init);
      MissingOrder(a, init);
      forall i | 0 <= i < |m|
        ensures IndexOf(b, m[i].key) == IndexOf(init, m[i].key) < |b| - 1
      {
        var j :| 0 <= j < |init| && init[j] == m[i];
        assert b[j] == m[i];
        IndexOfSpec(b, j);
        IndexOfSpec(init, j);
      }
      IndexOfSpec(b, |b| - 1);
      assert Missing(a, b) == m + (if HasKey(a, last.key) then [] else [last]);
    }
  }

  /**
    `$a + $b` appends, after all of `$a`, the entries of `$b` whose key `$a`
    lacks, each with its value in `$b` and in the order they have in `$b`.
   */
  lemma UnionOrder<V>(a: PArray<V>, b: PArray<V>)
    ensures forall i :: |a| <= i < |Union(a, b)| ==> Union(a, b)[i] in b && !HasKey(a, Union(a, b)[i].key)
    ensures forall i, j :: |a| <= i < j < |Union(a, b)| ==>
      IndexOf(b, Union(a, b)[i].key) < IndexOf(b, Union(a, b)[j].key)
  {
    var m := Missing(a, b);
    MissingOrder(a, b);
    assert forall i :: |a| <= i < |Union(a, b)| ==> Union(a, b)[i] == m[i - |a|];
  }

  /** The union of the empty array with any array is that array. */
  lemma UnionWithEmpty<V>(b: PArray<V>)
    ensures Union([], b) == b
  {
    MissingAll(b);
  }

  lemma {:induction false} MissingAll<V>(b: PArray<V>)
    ensures Missing([], b) == b
    decreases |b|
  {
    if b != [] {
      MissingAll(b[..|b| - 1]);
      assert b[..|b| - 1] + [b[|b| - 1]] == b;
    }
  }

  /** The part of a list `b` that `a + b` keeps when `a` is a list: the entries at index |a| and beyond. */
  lemma {:induction false} MissingFromList<V>(a: PArray<V>, b: PArray<V>)
    requires IsList(a) && IsList(b)
    ensures Missing(a, b) == if |b| <= |a| then [] else b[|a|..]
    decreases |b|
  {
    if b != [] {
      var init, last := b[..|b| - 1], b[|b| - 1];
      MissingFromList(a, init);
      ListHasKey(a, |b| - 1);
      assert last.key == IntKey(|b| - 1);
      if |b| > |a| && |init| > |a| {
        assert init[|a|..] + [last] == b[|a|..];
      }
    }
  }

  /**
    The union of two lists keeps the left list whole and adds only the right
    list's entries at indexes past the left one's length.
   */
  lemma ListUnion<V>(a: PArray<V>, b: PArray<V>)
    requires IsList(a) && IsList(b)
    ensures Union(a, b) == if |b| <= |a| then a else a + b[|a|..]
    ensures IsList(Union(a, b))
    ensures |Union(a, b)| == if |b| <= |a| then |a| else |b|
  {
    MissingFromList(a, b);
    assert Union(a, b) == a + Missing(a, b);
    if |b| <= |a| {
      assert a + [] == a;
    }
  }
}

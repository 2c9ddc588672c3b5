/** The array helpers the core uses: `groupBy`, `compact` (drop the null and
    undefined entries) and JavaScript's `Array.prototype.at`. */
module Utils {
  import opened Wrappers

  /** `s.at(i)`: a negative index counts from the end; out of range is
      undefined. */
  function At<T>(s: seq<T>, i: int): (r: Option<T>)
    ensures r.Some? <==> -|s| <= i < |s|
    ensures i >= 0 && r.Some? ==> r.value == s[i]
    ensures i < 0 && r.Some? ==> r.value == s[|s| + i]
  {
    var k := if i >= 0 then i else |s| + i;
    if 0 <= k < |s| then Some(s[k]) else None
  }

  /** `compact`: the present entries, in order. */
  function Compact<T(==)>(xs: seq<Option<T>>): (r: seq<T>)
    ensures |r| <= |xs|
    ensures forall i :: 0 <= i < |r| ==> Some(r[i]) in xs
    ensures forall i :: 0 <= i < |xs| && xs[i].Some? ==> xs[i].value in r
    ensures (forall i :: 0 <= i < |xs| ==> xs[i].Some?) ==> |r| == |xs|
    ensures (forall i :: 0 <= i < |xs| ==> xs[i].None?) ==> r == []
  {
    if xs == [] then []
    else
      var rest := Compact(xs[1..]);
      assert forall i :: 1 <= i < |xs| ==> xs[i] == xs[1..][i - 1];
      match xs[0]
      case Some(v) => [v] + rest
      case None => rest
  }

  /** Compacting a concatenation compacts each part. */
  lemma {:induction false} CompactAppend<T>(a: seq<Option<T>>, b: seq<Option<T>>)
    ensures Compact(a + b) == Compact(a) + Compact(b)
  {
    if a != [] {
      assert (a + b)[1..] == a[1..] + b;
      CompactAppend(a[1..], b);
    } else {
      assert a + b == b;
    }
  }

  /** On entries that are all present `compact` only unwraps them. */
  lemma {:induction false} CompactAllPresent<T>(xs: seq<Option<T>>)
    requires forall i :: 0 <= i < |xs| ==> xs[i].Some?
    ensures forall i :: 0 <= i < |xs| ==> Compact(xs)[i] == xs[i].value
  {
    if xs != [] {
      assert forall i :: 1 <= i < |xs| ==> xs[1..][i - 1] == xs[i];
      CompactAllPresent(xs[1..]);
    }
  }

  // ---------------------------------------------------------------------
  // groupBy

  /** The items of `list` whose key is `k`, in input order. */
  function Bucket<K(==), T>(list: seq<T>, keyGetter: T -> K, k: K): seq<T>
  {
    if list == [] then []
    else
      var last := list[|list| - 1];
      Bucket(list[..|list| - 1], keyGetter, k) + (if keyGetter(last) == k then [last] else [])
  }

  /** The keys `list` produces. */
  function KeysOf<K(==), T>(list: seq<T>, keyGetter: T -> K): set<K>
  {
    set j | 0 <= j < |list| :: keyGetter(list[j])
  }

  /** The map `groupBy` builds: one bucket per key produced. */
  function Grouped<K(==), T>(list: seq<T>, keyGetter: T -> K): map<K, seq<T>>
  {
    map k | k in KeysOf(list, keyGetter) :: Bucket(list, keyGetter, k)
  }

  /** The loop of `groupBy`: each item goes to the end of its key's bucket,
      which is created on the key's first item. */
  method GroupBy<K(==), T>(list: seq<T>, keyGetter: T -> K) returns (m: map<K, seq<T>>)
    ensures m == Grouped(list, keyGetter)
  {
    m := map[];
    var i := 0;
    while i < |list|
      invariant 0 <= i <= |list|
      invariant m.Keys == KeysOf(list[..i], keyGetter)
      invariant forall k :: k in m ==> m[k] == Bucket(list[..i], keyGetter, k)
    {
      var item := list[i];
      var key := keyGetter(item);
      assert list[..i + 1] == list[..i] + [item];
      KeysOfSnoc(list[..i], keyGetter, item);
      if key !in m {
        BucketEmptyOutsideKeys(list[..i], keyGetter, key);
        m := m[key := [item]];
      } else {
        m := m[key := m[key] + [item]];
      }
      i := i + 1;
    }
    assert list[..i] == list;
  }

  /** A key nobody produced has an empty bucket. */
  lemma {:induction false} BucketEmptyOutsideKeys<K, T>(list: seq<T>, keyGetter: T -> K, k: K)
    requires k !in KeysOf(list, keyGetter)
    ensures Bucket(list, keyGetter, k) == []
  {
    if list != [] {
      var init := list[..|list| - 1];
      assert forall j :: 0 <= j < |init| ==> init[j] == list[j];
      assert KeysOf(init, keyGetter) <= KeysOf(list, keyGetter);
      BucketEmptyOutsideKeys(init, keyGetter, k);
      assert keyGetter(list[|list| - 1]) != k;
    }
  }

  /** Every item lies in the bucket of its own key. */
  lemma {:induction false} ItemInOwnBucket<K, T>(list: seq<T>, keyGetter: T -> K, j: nat)
    requires j < |list|
    ensures list[j] in Bucket(list, keyGetter, keyGetter(list[j]))
  {
    var init := list[..|list| - 1];
    if j < |list| - 1 {
      assert init[j] == list[j];
      ItemInOwnBucket(init, keyGetter, j);
    }
  }

  /** Bucketing a concatenation keeps the first part's items first: the
      relative input order survives within each bucket. */
  lemma {:induction false} BucketAppend<K, T>(a: seq<T>, b: seq<T>, keyGetter: T -> K, k: K)
    ensures Bucket(a + b, keyGetter, k) == Bucket(a, keyGetter, k) + Bucket(b, keyGetter, k)
  {
    if b == [] {
      assert a + b == a;
    } else {
      var bInit := b[..|b| - 1];
      assert (a + b)[..|a + b| - 1] == a + bInit;
      BucketAppend(a, bInit, keyGetter, k);
    }
  }

  /** Every item of a bucket has that bucket's key. */
  lemma {:induction false} BucketItemsHaveKey<K, T>(list: seq<T>, keyGetter: T -> K, k: K)
    ensures forall x :: x in Bucket(list, keyGetter, k) ==> keyGetter(x) == k
  {
    if list != [] {
      BucketItemsHaveKey(list[..|list| - 1], keyGetter, k);
    }
  }

  /** The map's keys are exactly the keys produced, and no bucket is empty;
      an empty list gives an empty map. */
  lemma GroupedKeysAndBuckets<K, T>(list: seq<T>, keyGetter: T -> K)
    ensures Grouped(list, keyGetter).Keys == KeysOf(list, keyGetter)
    ensures forall k :: k in Grouped(list, keyGetter) ==> Grouped(list, keyGetter)[k] != []
    ensures list == [] ==> Grouped(list, keyGetter) == map[]
  {
    forall k | k in KeysOf(list, keyGetter)
      ensures Bucket(list, keyGetter, k) != []
    {
      var j :| 0 <= j < |list| && keyGetter(list[j]) == k;
      ItemInOwnBucket(list, keyGetter, j);
    }
  }

  /** The total size of the buckets of a map. */
  ghost function SumSizes<K, T>(m: map<K, seq<T>>): nat
    decreases |m|
  {
    if m == map[] then 0
    else
      var k :| k in m;
      assert |m - {k}| < |m| by { assert (m - {k}).Keys == m.Keys - {k}; }
      |m[k]| + SumSizes(m - {k})
  }

  /** The total does not depend on which key is counted first. */
  lemma {:induction false} SumSizesRemove<K, T>(m: map<K, seq<T>>, k: K)
    requires k in m
    ensures SumSizes(m) == |m[k]| + SumSizes(m - {k})
    decreases |m|
  {
    var k' :| k' in m && SumSizes(m) == |m[k']| + SumSizes(m - {k'});
    if k' != k {
      assert (m - {k'}).Keys == m.Keys - {k'};
      assert (m - {k}).Keys == m.Keys - {k};
      SumSizesRemove(m - {k'}, k);
      SumSizesRemove(m - {k}, k');
      assert m - {k'} - {k} == m - {k} - {k'};
    }
  }

  /** Appending an item to one bucket adds one to the total. */
  lemma SumSizesPush<K, T>(m: map<K, seq<T>>, k: K, x: T)
    ensures SumSizes(m[k := (if k in m then m[k] else []) + [x]]) == SumSizes(m) + 1
  {
    var m' := m[k := (if k in m then m[k] else []) + [x]];
    SumSizesRemove(m', k);
    if k in m {
      SumSizesRemove(m, k);
      assert m' - {k} == m - {k};
    } else {
      assert m' - {k} == m;
    }
  }

  /** The keys of a list with one more item. */
  lemma KeysOfSnoc<K, T>(list: seq<T>, keyGetter: T -> K, x: T)
    ensures KeysOf(list + [x], keyGetter) == KeysOf(list, keyGetter) + {keyGetter(x)}
  {
    var l' := list + [x];
    assert l'[|list|] == x;
    assert forall j :: 0 <= j < |list| ==> l'[j] == list[j];
  }

  /** Grouping a list with one more item extends that item's bucket. */
  lemma GroupedSnoc<K, T>(list: seq<T>, keyGetter: T -> K, x: T)
    ensures var g := Grouped(list, keyGetter); var k := keyGetter(x);
            Grouped(list + [x], keyGetter) == g[k := (if k in g then g[k] else []) + [x]]
  {
    var g := Grouped(list, keyGetter);
    var k := keyGetter(x);
    var l' := list + [x];
    KeysOfSnoc(list, keyGetter, x);
    if k !in g {
      BucketEmptyOutsideKeys(list, keyGetter, k);
    }
    forall k1 | k1 in KeysOf(l', keyGetter)
      ensures Bucket(l', keyGetter, k1) == (if k1 == k then (if k in g then g[k] else []) + [x] else g[k1])
    {
      assert l'[..|l'| - 1] == list;
    }
  }

  /** Nothing is dropped or duplicated: the bucket sizes add up to the
      length of the input. */
  lemma {:induction false} GroupedSizesSumToLength<K, T>(list: seq<T>, keyGetter: T -> K)
    ensures SumSizes(Grouped(list, keyGetter)) == |list|
  {
    if list == [] {
      assert Grouped(list, keyGetter) == map[];
    } else {
      var init := list[..|list| - 1];
      var x := list[|list| - 1];
      assert list == init + [x];
      GroupedSizesSumToLength(init, keyGetter);
      GroupedSnoc(init, keyGetter, x);
      SumSizesPush(Grouped(init, keyGetter), keyGetter(x), x);
    }
  }
}

/** `LRUCache` and `lru_memoize` of tomominer/common/cache.py.

    The `OrderedDict` is a sequence of key/value pairs with distinct keys,
    least recently used first; `size` is the running total of `size_fn`
    over the stored values.  An unset limit is `Unbounded` (the source's
    `float('inf')`). */
module Cache {
  import opened Py

  datatype Limit = Unbounded | AtMost(n: int)

  /** `x >= limit`. */
  predicate Reached(limit: Limit, x: int)
  {
    limit.AtMost? && x >= limit.n
  }

  // ----- the ordered dictionary -----

  function Lookup<K(==), V>(od: seq<(K, V)>, k: K): Option<V>
    decreases |od|
  {
    if od == [] then None else if od[0].0 == k then Some(od[0].1) else Lookup(od[1..], k)
  }

  predicate DistinctKeys<K(==), V>(od: seq<(K, V)>)
  {
    forall i, j :: 0 <= i < j < |od| ==> od[i].0 != od[j].0
  }

  /** `od.pop(k)` when `k` is present, nothing otherwise. */
  function Remove<K(==), V>(od: seq<(K, V)>, k: K): seq<(K, V)>
    decreases |od|
  {
    if od == [] then [] else (if od[0].0 == k then [] else [od[0]]) + Remove(od[1..], k)
  }

  /** The sum of `size_fn` over the stored values. */
  function Sizes<K(==), V>(od: seq<(K, V)>, f: V -> nat): nat
    decreases |od|
  {
    if od == [] then 0 else f(od[0].1) + Sizes(od[1..], f)
  }

  lemma {:induction false} LookupNone<K, V>(od: seq<(K, V)>, k: K)
    ensures Lookup(od, k).None? <==> forall i :: 0 <= i < |od| ==> od[i].0 != k
    decreases |od|
  {
    if od != [] {
      LookupNone(od[1..], k);
      if od[0].0 != k {
        forall i | 0 < i < |od| ensures od[i] == od[1..][i - 1] { }
      }
    }
  }

  lemma {:induction false} LookupRemove<K, V>(od: seq<(K, V)>, k: K, j: K)
    ensures Lookup(Remove(od, k), j) == if j == k then None else Lookup(od, j)
    decreases |od|
  {
    if od != [] {
      LookupRemove(od[1..], k, j);
      var rest := Remove(od[1..], k);
      if od[0].0 != k {
        assert ([od[0]] + rest)[0] == od[0] && ([od[0]] + rest)[1..] == rest;
      } else {
        assert [] + rest == rest;
      }
    }
  }

  lemma {:induction false} LookupAppend<K, V>(od: seq<(K, V)>, x: (K, V), j: K)
    ensures Lookup(od + [x], j) == if Lookup(od, j).Some? then Lookup(od, j) else if x.0 == j then Some(x.1) else None
    decreases |od|
  {
    if od == [] {
      assert [] + [x] == [x] && [x][1..] == [];
    } else {
      assert (od + [x])[1..] == od[1..] + [x];
      LookupAppend(od[1..], x, j);
    }
  }

  lemma {:induction false} RemoveKeepsDistinct<K, V>(od: seq<(K, V)>, k: K)
    requires DistinctKeys(od)
    ensures DistinctKeys(Remove(od, k)) && Lookup(Remove(od, k), k).None?
    ensures forall i :: 0 <= i < |Remove(od, k)| ==> Lookup(od, Remove(od, k)[i].0).Some?
    decreases |od|
  {
    LookupRemove(od, k, k);
    if od != [] {
      RemoveKeepsDistinct(od[1..], k);
      var rest := Remove(od[1..], k);
      var r := Remove(od, k);
      forall i | 0 <= i < |rest| ensures rest[i].0 != od[0].0 {
        assert Lookup(od[1..], rest[i].0).Some?;
        LookupNone(od[1..], od[0].0);
        assert forall m :: 0 <= m < |od[1..]| ==> od[1..][m].0 != od[0].0 by {
          forall m | 0 <= m < |od[1..]| ensures od[1..][m].0 != od[0].0 {
            assert od[1..][m] == od[m + 1];
          }
        }
        LookupNone(od[1..], rest[i].0);
      }
      if od[0].0 != k {
        assert r == [od[0]] + rest;
        forall i | 0 <= i < |r| ensures Lookup(od, r[i].0).Some? {
          if i > 0 {
            assert r[i] == rest[i - 1];
          }
        }
        forall i, j | 0 <= i < j < |r| ensures r[i].0 != r[j].0 {
          assert r[j] == rest[j - 1];
          if i > 0 {
            assert r[i] == rest[i - 1];
          }
        }
      }
    }
  }

  lemma {:induction false} SizesAppend<K, V>(od: seq<(K, V)>, x: (K, V), f: V -> nat)
    ensures Sizes(od + [x], f) == Sizes(od, f) + f(x.1)
    decreases |od|
  {
    if od == [] {
      assert [] + [x] == [x] && [x][1..] == [];
    } else {
      assert (od + [x])[1..] == od[1..] + [x];
      SizesAppend(od[1..], x, f);
    }
  }

  lemma {:induction false} SizesRemove<K, V>(od: seq<(K, V)>, k: K, f: V -> nat)
    requires DistinctKeys(od)
    ensures Lookup(od, k).None? ==> Remove(od, k) == od
    ensures Lookup(od, k).Some? ==> Sizes(Remove(od, k), f) == Sizes(od, f) - f(Lookup(od, k).value)
    decreases |od|
  {
    if od != [] {
      SizesRemove(od[1..], k, f);
      if od[0].0 == k {
        LookupNone(od[1..], k);
        assert forall m :: 0 <= m < |od[1..]| ==> od[1..][m].0 != k by {
          forall m | 0 <= m < |od[1..]| ensures od[1..][m].0 != k {
            assert od[1..][m] == od[m + 1];
          }
        }
        assert [] + Remove(od[1..], k) == od[1..];
      } else {
        assert ([od[0]] + Remove(od[1..], k))[1..] == Remove(od[1..], k);
        if Lookup(od, k).None? {
          assert [od[0]] + od[1..] == od;
        }
      }
    }
  }

  lemma {:induction false} AppendKeepsDistinct<K, V>(od: seq<(K, V)>, x: (K, V))
    requires DistinctKeys(od) && Lookup(od, x.0).None?
    ensures DistinctKeys(od + [x])
  {
    LookupNone(od, x.0);
  }

  // ----- eviction -----

  /** A cache holding `od` has reached one of its limits. */
  predicate Over<K(==), V>(od: seq<(K, V)>, maxCount: Limit, maxSize: Limit, f: V -> nat)
  {
    Reached(maxCount, |od|) || Reached(maxSize, Sizes(od, f))
  }

  /** The eviction loop: how many entries it drops from the least recently
      used end, or `None` when it would pop from an empty dictionary. */
  function Evicted<K(==), V>(q: seq<(K, V)>, maxCount: Limit, maxSize: Limit, f: V -> nat): Option<nat>
    decreases |q|
  {
    if !Over(q, maxCount, maxSize, f) then Some(0)
    else if q == [] then None
    else match Evicted(q[1..], maxCount, maxSize, f)
      case None => None
      case Some(k) => Some(k + 1)
  }

  /** Eviction drops the fewest least recently used entries that bring the
      cache strictly under both limits; it fails exactly when a limit is
      zero or less, since even the empty cache has then reached it. */
  lemma {:induction false} EvictedSpec<K, V>(q: seq<(K, V)>, maxCount: Limit, maxSize: Limit, f: V -> nat)
    ensures Evicted(q, maxCount, maxSize, f).Some? ==>
      var k := Evicted(q, maxCount, maxSize, f).value;
      k <= |q| && !Over(q[k..], maxCount, maxSize, f) &&
      forall j :: 0 <= j < k ==> Over(q[j..], maxCount, maxSize, f)
    ensures Evicted(q, maxCount, maxSize, f).None? <==> Reached(maxCount, 0) || Reached(maxSize, 0)
    decreases |q|
  {
    if !Over(q, maxCount, maxSize, f) {
      assert q[0..] == q;
      assert !Reached(maxCount, 0) && !Reached(maxSize, 0);
    } else if q != [] {
      EvictedSpec(q[1..], maxCount, maxSize, f);
      if Evicted(q, maxCount, maxSize, f).Some? {
        var k := Evicted(q, maxCount, maxSize, f).value;
        assert q[1..][k - 1..] == q[k..];
        forall j | 0 <= j < k ensures Over(q[j..], maxCount, maxSize, f) {
          if j > 0 {
            assert q[1..][j - 1..] == q[j..];
          } else {
            assert q[0..] == q;
          }
        }
      }
    }
  }

  /** The dictionary `__setitem__` leaves, or `None` when it raises
      `KeyError` from popping an empty dictionary. */
  function Put<K(==), V>(od: seq<(K, V)>, key: K, value: V, maxCount: Limit, maxSize: Limit, f: V -> nat): Option<seq<(K, V)>>
  {
    var q := Remove(od, key) + [(key, value)];
    match Evicted(q, maxCount, maxSize, f)
    case None => None
    case Some(k) => if k <= |q| then Some(q[k..]) else None
  }

  /** After a successful `__setitem__` the count and the total size are
      strictly below their limits; the survivors are the most recently
      used entries in their old order, each with the value the update
      gives it; the size total is the sum over what is left; and only a
      limit of zero or less makes it raise. */
  lemma PutSpec<K, V>(od: seq<(K, V)>, key: K, value: V, maxCount: Limit, maxSize: Limit, f: V -> nat)
    requires DistinctKeys(od)
    ensures Put(od, key, value, maxCount, maxSize, f).None? <==> Reached(maxCount, 0) || Reached(maxSize, 0)
    ensures Put(od, key, value, maxCount, maxSize, f).Some? ==>
      var r := Put(od, key, value, maxCount, maxSize, f).value;
      var q := Remove(od, key) + [(key, value)];
      && !Reached(maxCount, |r|) && !Reached(maxSize, Sizes(r, f))
      && DistinctKeys(r)
      && (exists k :: 0 <= k <= |q| && r == q[k..])
      && (forall j :: Lookup(r, j).Some? ==> Lookup(r, j) == (if j == key then Some(value) else Lookup(od, j)))
  {
    var q := Remove(od, key) + [(key, value)];
    EvictedSpec(q, maxCount, maxSize, f);
    RemoveKeepsDistinct(od, key);
    AppendKeepsDistinct(Remove(od, key), (key, value));
    if Put(od, key, value, maxCount, maxSize, f).Some? {
      var k := Evicted(q, maxCount, maxSize, f).value;
      var r := q[k..];
      forall j | Lookup(r, j).Some?
        ensures Lookup(r, j) == (if j == key then Some(value) else Lookup(od, j))
      {
        LookupSuffix(q, k, j);
        LookupAppend(Remove(od, key), (key, value), j);
        LookupRemove(od, key, j);
      }
    }
  }

  lemma {:induction false} LookupSuffix<K, V>(q: seq<(K, V)>, k: nat, j: K)
    requires DistinctKeys(q) && k <= |q|
    ensures Lookup(q[k..], j).Some? ==> Lookup(q[k..], j) == Lookup(q, j)
    decreases k
  {
    if k > 0 {
      assert q[1..][k - 1..] == q[k..];
      LookupSuffix(q[1..], k - 1, j);
      if q[0].0 == j && Lookup(q[k..], j).Some? {
        LookupNone(q[k..], j);
      }
    } else {
      assert q[0..] == q;
    }
  }

  /** A value whose own size reaches `max_size` does not survive its own
      insertion. */
  lemma PutDropsOversized<K, V>(od: seq<(K, V)>, key: K, value: V, maxCount: Limit, maxSize: Limit, f: V -> nat)
    requires DistinctKeys(od) && Reached(maxSize, f(value))
    requires Put(od, key, value, maxCount, maxSize, f).Some?
    ensures Put(od, key, value, maxCount, maxSize, f).value == []
  {
    var q := Remove(od, key) + [(key, value)];
    EvictedSpec(q, maxCount, maxSize, f);
    var k := Evicted(q, maxCount, maxSize, f).value;
    if k < |q| {
      var r := q[k..];
      assert r == q[k..|q| - 1] + [(key, value)];
      SizesAppend(q[k..|q| - 1], (key, value), f);
      assert false;
    }
  }

  /** `__getitem__` on a present key: the pair moves to the most recently
      used end. */
  function Touch<K(==), V>(od: seq<(K, V)>, key: K, value: V): seq<(K, V)>
  {
    Remove(od, key) + [(key, value)]
  }

  /** A read changes the order only: every key maps to what it did, the
      key read is now the most recently used, and the size total is
      unchanged. */
  lemma TouchKeepsContents<K, V>(od: seq<(K, V)>, key: K, f: V -> nat)
    requires DistinctKeys(od) && Lookup(od, key).Some?
    ensures var t := Touch(od, key, Lookup(od, key).value);
      && DistinctKeys(t)
      && (forall j :: Lookup(t, j) == Lookup(od, j))
      && t[|t| - 1].0 == key
      && Sizes(t, f) == Sizes(od, f)
  {
    var v := Lookup(od, key).value;
    RemoveKeepsDistinct(od, key);
    AppendKeepsDistinct(Remove(od, key), (key, v));
    SizesRemove(od, key, f);
    SizesAppend(Remove(od, key), (key, v), f);
    forall j ensures Lookup(Touch(od, key, v), j) == Lookup(od, j) {
      LookupAppend(Remove(od, key), (key, v), j);
      LookupRemove(od, key, j);
    }
  }

  // ----- the cache object -----

  class LRUCache<K(==), V> {
    var od: seq<(K, V)>
    var size: int
    const maxSize: Limit
    const maxCount: Limit
    const sizeFn: V -> nat

    /** Keys are distinct and `size` is the sum of `size_fn` over the
        stored values. */
    ghost predicate Valid()
      reads this
    {
      DistinctKeys(od) && size == Sizes(od, sizeFn)
    }

    /** A limit left as `None` is infinite. */
    constructor (maxSize: Option<int>, maxCount: Option<int>, sizeFn: V -> nat)
      ensures Valid() && od == [] && size == 0 && this.sizeFn == sizeFn
      ensures this.maxSize == (if maxSize.None? then Unbounded else AtMost(maxSize.value))
      ensures this.maxCount == (if maxCount.None? then Unbounded else AtMost(maxCount.value))
    {
      od := [];
      this.maxSize := if maxSize.None? then Unbounded else AtMost(maxSize.value);
      this.maxCount := if maxCount.None? then Unbounded else AtMost(maxCount.value);
      size := 0;
      this.sizeFn := sizeFn;
    }

    /** `__getitem__`. */
    method Get(key: K) returns (r: Result<V>)
      requires Valid()
      modifies this`od
      ensures Valid() && size == old(size)
      ensures Lookup(old(od), key).None? ==> r.Err? && od == old(od)
      ensures Lookup(old(od), key).Some? ==>
        r == Ok(Lookup(old(od), key).value) && od == Touch(old(od), key, r.value)
    {
      var found := Lookup(od, key);
      if found.None? {
        return Err("KeyError");
      }
      TouchKeepsContents(od, key, sizeFn);
      od := Remove(od, key) + [(key, found.value)];
      r := Ok(found.value);
    }

    /** `__setitem__`. */
    method Set(key: K, value: V) returns (o: Outcome)
      requires Valid()
      modifies this`od, this`size
      ensures Valid()
      ensures Put(old(od), key, value, maxCount, maxSize, sizeFn).None? ==> o.Raised? && od == []
      ensures Put(old(od), key, value, maxCount, maxSize, sizeFn).Some? ==>
        o == Completed && od == Put(old(od), key, value, maxCount, maxSize, sizeFn).value
    {
      var found := Lookup(od, key);
      SizesRemove(od, key, sizeFn);
      RemoveKeepsDistinct(od, key);
      if found.Some? {
        od := Remove(od, key);
        size := size - sizeFn(found.value);
      }
      AppendKeepsDistinct(od, (key, value));
      SizesAppend(od, (key, value), sizeFn);
      od := od + [(key, value)];
      size := size + sizeFn(value);
      ghost var q := od;
      EvictedSpec(q, maxCount, maxSize, sizeFn);
      o := EvictAll();
    }

    /** The eviction loop of `__setitem__`: pop the least recently used
        entry while a limit is reached. */
    method EvictAll() returns (o: Outcome)
      requires Valid()
      modifies this`od, this`size
      ensures Valid()
      ensures Evicted(old(od), maxCount, maxSize, sizeFn).None? ==> o.Raised? && od == []
      ensures Evicted(old(od), maxCount, maxSize, sizeFn).Some? ==>
        o == Completed && Evicted(old(od), maxCount, maxSize, sizeFn).value <= |old(od)| &&
        od == old(od)[Evicted(old(od), maxCount, maxSize, sizeFn).value..]
    {
      ghost var dropped := 0;
      while Reached(maxCount, |od|) || Reached(maxSize, size)
        invariant 0 <= dropped <= |old(od)| && od == old(od)[dropped..]
        invariant DistinctKeys(od) && size == Sizes(od, sizeFn)
        invariant Evicted(old(od), maxCount, maxSize, sizeFn) ==
          (match Evicted(od, maxCount, maxSize, sizeFn) case None => None case Some(k) => Some(k + dropped))
        decreases |od|
      {
        if od == [] {
          return Raised("'dictionary is empty'");
        }
        size := size - sizeFn(od[0].1);
        od := od[1..];
        assert old(od)[dropped + 1..] == od;
        dropped := dropped + 1;
      }
      o := Completed;
    }

    /** `__contains__`: membership, without touching the order. */
    method Contains(key: K) returns (b: bool)
      ensures b <==> Lookup(od, key).Some?
    {
      b := Lookup(od, key).Some?;
    }
  }

  // ----- lru_memoize -----

  /** The memo key: the positional arguments followed by one `(name,
      value)` pair per keyword argument, in the order `sorted` puts them. */
  type MemoKey = seq<Value>

  function KeyOf(args: seq<Value>, kwargs: seq<(string, Value)>): (key: MemoKey)
    ensures |key| == |args| + |kwargs| && key[..|args|] == args
    ensures forall i :: 0 <= i < |kwargs| ==> key[|args| + i] == VList([VStr(kwargs[i].0), kwargs[i].1])
    decreases |kwargs|
  {
    if kwargs == [] then args
    else KeyOf(args + [VList([VStr(kwargs[0].0), kwargs[0].1])], kwargs[1..])
  }

  /** The key does not tell a keyword argument from a positional pair:
      `f(('a', 1))` and `f(a=1)` share a cache entry. */
  lemma KeywordPositionalCollide(name: string, v: Value)
    ensures KeyOf([VList([VStr(name), v])], []) == KeyOf([], [(name, v)])
  {
    assert [] + [VList([VStr(name), v])] == [VList([VStr(name), v])];
  }

  /** A function wrapped by `lru_memoize`, with its cache and counters.
      `fn` is the wrapped function as a function of the memo key: a result,
      or the exception it raises. */
  class Memo {
    const cache: LRUCache<MemoKey, Value>
    const fn: MemoKey -> Result<Value>
    var hits: nat
    var misses: nat

    /** The cache holds only values the function returned for their keys. */
    ghost predicate Valid()
      reads this, cache
    {
      && cache.Valid()
      && forall i :: 0 <= i < |cache.od| ==> fn(cache.od[i].0) == Ok(cache.od[i].1)
    }

    constructor (cache: LRUCache<MemoKey, Value>, fn: MemoKey -> Result<Value>)
      requires cache.Valid() && cache.od == []
      ensures Valid() && this.cache == cache && this.fn == fn && hits == 0 && misses == 0
    {
      this.cache := cache;
      this.fn := fn;
      hits := 0;
      misses := 0;
    }

    /** One call of the wrapper: a hit answers from the cache and refreshes
        the entry; a miss calls the function, counts the miss and stores the
        value (which raises when a limit is zero or less).  Either way an
        answer is what the function gives for the key. */
    method Call(args: seq<Value>, kwargs: seq<(string, Value)>) returns (r: Result<Value>)
      requires Valid()
      modifies this`hits, this`misses, cache`od, cache`size
      ensures Valid()
      ensures r.Ok? ==> fn(KeyOf(args, kwargs)) == r
      ensures Lookup(old(cache.od), KeyOf(args, kwargs)).Some? ==>
        hits == old(hits) + 1 && misses == old(misses) && r.Ok? &&
        cache.od == Touch(old(cache.od), KeyOf(args, kwargs), r.value)
      ensures Lookup(old(cache.od), KeyOf(args, kwargs)).None? && fn(KeyOf(args, kwargs)).Err? ==>
        hits == old(hits) && misses == old(misses) && r == fn(KeyOf(args, kwargs)) && cache.od == old(cache.od)
      ensures Lookup(old(cache.od), KeyOf(args, kwargs)).None? && fn(KeyOf(args, kwargs)).Ok? ==>
        var stored := Put(old(cache.od), KeyOf(args, kwargs), fn(KeyOf(args, kwargs)).value,
                          cache.maxCount, cache.maxSize, cache.sizeFn);
        && hits == old(hits) && misses == old(misses) + 1
        && (stored.Some? ==> r == fn(KeyOf(args, kwargs)) && cache.od == stored.value)
        && (stored.None? ==> r.Err? && cache.od == [])
    {
      var key := KeyOf(args, kwargs);
      var present := cache.Contains(key);
      if present {
        hits := hits + 1;
        ghost var before := cache.od;
        r := cache.Get(key);
        FnOfLookup(before, key);
        TouchKeepsContents(before, key, cache.sizeFn);
        forall i | 0 <= i < |cache.od| ensures fn(cache.od[i].0) == Ok(cache.od[i].1) {
          LookupAt(cache.od, i);
          LookupAt(before, IndexOf(before, cache.od[i].0));
        }
        return;
      }
      var value := fn(key);
      if value.Err? {
        return value;
      }
      misses := misses + 1;
      ghost var before := cache.od;
      var o := cache.Set(key, value.value);
      if o.Raised? {
        return Err("KeyError");
      }
      PutSpec(before, key, value.value, cache.maxCount, cache.maxSize, cache.sizeFn);
      forall i | 0 <= i < |cache.od| ensures fn(cache.od[i].0) == Ok(cache.od[i].1) {
        LookupAt(cache.od, i);
        var j := cache.od[i].0;
        if j != key {
          LookupAt(before, IndexOf(before, j));
        }
      }
      r := value;
    }

    /** The invariant says a cached value is the function's own result. */
    lemma FnOfLookup(od: seq<(MemoKey, Value)>, key: MemoKey)
      requires forall i :: 0 <= i < |od| ==> fn(od[i].0) == Ok(od[i].1)
      ensures Lookup(od, key).Some? ==> fn(key) == Ok(Lookup(od, key).value)
      decreases |od|
    {
      if od != [] && od[0].0 != key {
        FnOfLookup(od[1..], key);
      }
    }
  }

  /** The position of a present key. */
  function IndexOf<K(==), V>(od: seq<(K, V)>, k: K): (i: nat)
    requires Lookup(od, k).Some?
    ensures i < |od| && od[i].0 == k && Lookup(od, k) == Some(od[i].1)
    decreases |od|
  {
    if od[0].0 == k then 0 else 1 + IndexOf(od[1..], k)
  }

  lemma {:induction false} LookupAt<K, V>(od: seq<(K, V)>, i: nat)
    requires DistinctKeys(od) && i < |od|
    ensures Lookup(od, od[i].0) == Some(od[i].1)
    decreases i
  {
    if i > 0 {
      assert od[1..][i - 1] == od[i];
      LookupAt(od[1..], i - 1);
    }
  }
}

/** The bounded least-recently-used memoizer of server/utils/memoize.js.

    The source keeps a `Map` whose insertion order is the recency order; here
    the cache is a sequence of (key, value) entries, oldest first. A key is
    cached when `Lookup` finds it, and `Lookup` is the cache's map view. */
module Memoize {
  import opened JsValues

  // ---------------------------------------------------------------------------
  // Options and their validation (createMemoizationLru, lines 1-15)
  // ---------------------------------------------------------------------------

  /** An option that must be a function: left undefined, a function, or some
      other value. */
  datatype Callable<F> = Absent | Fn(f: F) | NonCallable

  /** The `cacheSize` option: left undefined (defaults to 100), a finite
      number, a number that is NaN or infinite, or a value that is no number. */
  datatype SizeArg = DefaultSize | Finite(x: real) | NonFinite | NonNumber

  datatype MemoOptions<!A, K, V> = MemoOptions(
    funcToMemoize: Callable<A -> Completion<V>>,
    cacheSize: SizeArg,
    keyGenerator: Callable<A -> Option<K>>)

  /** Validated settings. `keyGen` returns `None` when key generation throws. */
  datatype Settings<!A, K, V> = Settings(
    fn: A -> Completion<V>,
    cacheSize: real,
    keyGen: A -> Option<K>)

  datatype TypeError = TypeError(message: string)

  const DefaultCacheSize: real := 100.0
  const FnMessage := "funcToMemoize must be a function."
  const SizeMessage := "cacheSize must be a finite number."
  const KeyGenMessage := "keyGenerator must be a function."

  /** The checks of createMemoizationLru, in the source's order; the default
      key generator (JSON serialization of the arguments) is a parameter. */
  function CheckOptions<A, K, V>(opts: MemoOptions<A, K, V>, defaultKeyGen: A -> Option<K>)
    : (r: Result<Settings<A, K, V>, TypeError>)
    ensures r.Success? <==>
      opts.funcToMemoize.Fn? &&
      (opts.cacheSize.DefaultSize? || opts.cacheSize.Finite?) &&
      !opts.keyGenerator.NonCallable?
    ensures !opts.funcToMemoize.Fn? ==> r == Failure(TypeError(FnMessage))
    ensures opts.funcToMemoize.Fn? && (opts.cacheSize.NonFinite? || opts.cacheSize.NonNumber?)
      ==> r == Failure(TypeError(SizeMessage))
    ensures (opts.funcToMemoize.Fn? && (opts.cacheSize.DefaultSize? || opts.cacheSize.Finite?) &&
             opts.keyGenerator.NonCallable?) ==> r == Failure(TypeError(KeyGenMessage))
    ensures r.Success? ==>
      r.value.fn == opts.funcToMemoize.f &&
      r.value.cacheSize == (if opts.cacheSize.Finite? then opts.cacheSize.x else DefaultCacheSize) &&
      r.value.keyGen == (if opts.keyGenerator.Fn? then opts.keyGenerator.f else defaultKeyGen)
  {
    if !opts.funcToMemoize.Fn? then Failure(TypeError(FnMessage))
    else if opts.cacheSize.NonFinite? || opts.cacheSize.NonNumber? then Failure(TypeError(SizeMessage))
    else if opts.keyGenerator.NonCallable? then Failure(TypeError(KeyGenMessage))
    else
      var size := if opts.cacheSize.Finite? then opts.cacheSize.x else DefaultCacheSize;
      var keyGen := if opts.keyGenerator.Fn? then opts.keyGenerator.f else defaultKeyGen;
      Success(Settings(opts.funcToMemoize.f, size, keyGen))
  }

  // ---------------------------------------------------------------------------
  // The cache as a recency-ordered sequence
  // ---------------------------------------------------------------------------

  /** `Map.get`: the value of the first entry with key `k`. */
  function Lookup<K(==), V>(e: seq<(K, V)>, k: K): (r: Option<V>)
    ensures r.None? <==> forall i :: 0 <= i < |e| ==> e[i].0 != k
    ensures r.Some? ==> (k, r.value) in e
  {
    if e == [] then None
    else if e[0].0 == k then Some(e[0].1)
    else Lookup(e[1..], k)
  }

  /** Position of the first entry with key `k`. */
  function IndexOf<K(==), V>(e: seq<(K, V)>, k: K): (i: nat)
    requires Lookup(e, k).Some?
    ensures i < |e| && e[i] == (k, Lookup(e, k).value)
    ensures forall j :: 0 <= j < i ==> e[j].0 != k
  {
    if e[0].0 == k then 0 else 1 + IndexOf(e[1..], k)
  }

  /** No key occurs twice, as in a `Map`. */
  predicate DistinctKeys<K(==), V>(e: seq<(K, V)>)
  {
    e == [] || (Lookup(e[1..], e[0].0).None? && DistinctKeys(e[1..]))
  }

  /** `Map.delete`: drop the entries with key `k`; every other key keeps
      its value. */
  function RemoveKey<K(==), V>(e: seq<(K, V)>, k: K): (r: seq<(K, V)>)
    ensures Lookup(r, k).None?
    ensures |r| <= |e|
  {
    if e == [] then []
    else if e[0].0 == k then RemoveKey(e[1..], k)
    else [e[0]] + RemoveKey(e[1..], k)
  }

  /** `deleteOldest`: drop the first (least recently used) entry, if any. */
  function DropOldest<K(==), V>(e: seq<(K, V)>): (r: seq<(K, V)>)
    ensures |e| > 0 ==> [e[0]] + r == e
    ensures |e| == 0 ==> r == []
  {
    if |e| > 0 then e[1..] else e
  }

  /** A miss that returned `v`: evict the oldest entry when the cache already
      holds `cacheSize` or more entries, then append the new one. */
  function Admit<K(==), V>(e: seq<(K, V)>, k: K, v: V, cacheSize: real): (r: seq<(K, V)>)
    ensures |r| > 0 && r[|r| - 1] == (k, v)
    ensures |r| == if |e| > 0 && |e| as real >= cacheSize then |e| else |e| + 1
  {
    (if |e| as real >= cacheSize then DropOldest(e) else e) + [(k, v)]
  }

  /** The cache invariant: keys are distinct; a disabled cache stays empty;
      otherwise one entry fewer than the cache holds is below `cacheSize`
      (for an integer `cacheSize` this is `|e| <= cacheSize`). */
  predicate Inv<K(==), V>(e: seq<(K, V)>, cacheSize: real)
  {
    DistinctKeys(e) &&
    (cacheSize <= 0.0 ==> e == []) &&
    (cacheSize > 0.0 ==> (|e| - 1) as real < cacheSize)
  }

  /** One call of `memoized`: new cache, the call's outcome, and whether the
      wrapped function was invoked. */
  datatype Step<K, V> = Step(entries: seq<(K, V)>, result: Completion<V>, invoked: bool)

  /** One call of `memoized(args)` on cache `e` (lines 26-60), sequentially. */
  function MemoStep<A, K(==), V>(s: Settings<A, K, V>, e: seq<(K, V)>, args: A): (r: Step<K, V>)
    ensures r.invoked ==> r.result == s.fn(args)
    ensures !r.invoked ==>
      s.keyGen(args).Some? && r.result.Normal? && (s.keyGen(args).value, r.result.value) in r.entries
    ensures r.result.Abrupt? ==> r.entries == e
    ensures |r.entries| <= |e| + 1
  {
    if s.cacheSize <= 0.0 then Step(e, s.fn(args), true)
    else match s.keyGen(args)
      case None => Step(e, s.fn(args), true)
      case Some(key) =>
        match Lookup(e, key)
        case Some(v) => Step(RemoveKey(e, key) + [(key, v)], Normal(v), false)
        case None =>
          match s.fn(args)
          case Abrupt(err) => Step(e, Abrupt(err), true)
          case Normal(v) => Step(Admit(e, key, v, s.cacheSize), Normal(v), true)
  }

  // ---------------------------------------------------------------------------
  // Lemmas about the sequence operations
  // ---------------------------------------------------------------------------

  lemma {:induction false} LookupAppend<K, V>(e: seq<(K, V)>, k: K, v: V, x: K)
    ensures Lookup(e + [(k, v)], x) ==
      if Lookup(e, x).Some? then Lookup(e, x) else if x == k then Some(v) else None
  {
    if e != [] {
      assert (e + [(k, v)])[1..] == e[1..] + [(k, v)];
      LookupAppend(e[1..], k, v, x);
    }
  }

  /** After `RemoveKey(e, k)` every other key keeps its value. */
  lemma {:induction false} LookupRemoveKey<K, V>(e: seq<(K, V)>, k: K, x: K)
    ensures Lookup(RemoveKey(e, k), x) == if x == k then None else Lookup(e, x)
  {
    if e != [] {
      LookupRemoveKey(e[1..], k, x);
    }
  }

  lemma {:induction false} DistinctAppend<K, V>(e: seq<(K, V)>, k: K, v: V)
    requires DistinctKeys(e) && Lookup(e, k).None?
    ensures DistinctKeys(e + [(k, v)])
  {
    if e != [] {
      assert (e + [(k, v)])[1..] == e[1..] + [(k, v)];
      LookupAppend(e[1..], k, v, e[0].0);
      DistinctAppend(e[1..], k, v);
    }
  }

  lemma {:induction false} DistinctRemoveKey<K, V>(e: seq<(K, V)>, k: K)
    requires DistinctKeys(e)
    ensures DistinctKeys(RemoveKey(e, k))
  {
    if e != [] {
      DistinctRemoveKey(e[1..], k);
      if e[0].0 != k {
        LookupRemoveKey(e[1..], k, e[0].0);
        assert ([e[0]] + RemoveKey(e[1..], k))[1..] == RemoveKey(e[1..], k);
      }
    }
  }

  /** Removing an absent key changes nothing. */
  lemma {:induction false} RemoveAbsentKey<K, V>(e: seq<(K, V)>, k: K)
    requires Lookup(e, k).None?
    ensures RemoveKey(e, k) == e
  {
    if e != [] {
      RemoveAbsentKey(e[1..], k);
    }
  }

  /** With distinct keys, removing a present key removes exactly its one
      entry and keeps every other entry in its order. */
  lemma {:induction false} RemovePresentKey<K, V>(e: seq<(K, V)>, k: K, i: nat)
    requires DistinctKeys(e) && i < |e| && e[i].0 == k
    ensures RemoveKey(e, k) == e[..i] + e[i + 1..]
    ensures |RemoveKey(e, k)| == |e| - 1
  {
    var t := e[1..];
    if i == 0 {
      RemoveAbsentKey(t, k);
      assert e[..0] + e[1..] == t;
    } else {
      assert t[i - 1].0 == k;
      assert e[0].0 != k;
      RemovePresentKey(t, k, i - 1);
      assert e[..i] == [e[0]] + t[..i - 1];
      assert e[i + 1..] == t[i..];
    }
  }

  /** The key-to-value view after admitting `(k, v)` for an absent `k`. */
  lemma {:induction false} AdmitLookup<K, V>(e: seq<(K, V)>, k: K, v: V, cacheSize: real, x: K)
    requires DistinctKeys(e) && Lookup(e, k).None?
    ensures |e| as real >= cacheSize && |e| > 0 ==>
      Lookup(Admit(e, k, v, cacheSize), x) ==
        if x == e[0].0 then None else if x == k then Some(v) else Lookup(e, x)
    ensures |e| as real < cacheSize ==>
      Lookup(Admit(e, k, v, cacheSize), x) == if x == k then Some(v) else Lookup(e, x)
  {
    if |e| as real >= cacheSize && |e| > 0 {
      assert Admit(e, k, v, cacheSize) == e[1..] + [(k, v)];
      assert Lookup(e[1..], k).None?;
      assert Lookup(e[1..], e[0].0).None?;
      LookupAppend(e[1..], k, v, x);
      if x != e[0].0 {
        assert Lookup(e, x) == Lookup(e[1..], x);
      }
    } else if |e| as real < cacheSize {
      assert Admit(e, k, v, cacheSize) == e + [(k, v)];
      LookupAppend(e, k, v, x);
    }
  }

  // ---------------------------------------------------------------------------
  // Lemmas about one call of `memoized`
  // ---------------------------------------------------------------------------

  /** With `cacheSize <= 0` every call invokes the function, returns its
      outcome and leaves the cache alone (lines 27-30). */
  lemma PassThroughWhenDisabled<A, K, V>(s: Settings<A, K, V>, e: seq<(K, V)>, args: A)
    requires s.cacheSize <= 0.0
    ensures MemoStep(s, e, args) == Step(e, s.fn(args), true)
  {
  }

  /** A key generator that throws makes the call uncached: the function is
      invoked and the cache is unchanged (lines 32-38). */
  lemma KeyFailureBypassesCache<A, K, V>(s: Settings<A, K, V>, e: seq<(K, V)>, args: A)
    requires s.keyGen(args).None?
    ensures MemoStep(s, e, args) == Step(e, s.fn(args), true)
  {
  }

  /** A hit returns the stored value without invoking the function, moves
      that entry to the most-recent end, keeps every other entry in order,
      and leaves the map view unchanged (lines 41-47). */
  lemma {:induction false} HitMovesKeyToBack<A, K, V>(s: Settings<A, K, V>, e: seq<(K, V)>, args: A)
    requires Inv(e, s.cacheSize) && s.cacheSize > 0.0
    requires s.keyGen(args).Some? && Lookup(e, s.keyGen(args).value).Some?
    ensures var key := s.keyGen(args).value;
            var i := IndexOf(e, key);
            var st := MemoStep(s, e, args);
            && !st.invoked
            && st.result == Normal(e[i].1)
            && st.entries == e[..i] + e[i + 1..] + [e[i]]
            && multiset(st.entries) == multiset(e)
            && (forall x :: Lookup(st.entries, x) == Lookup(e, x))
  {
    var key := s.keyGen(args).value;
    var i := IndexOf(e, key);
    var v := e[i].1;
    RemovePresentKey(e, key, IndexOf(e, key));
    var st := MemoStep(s, e, args);
    assert st.entries == RemoveKey(e, key) + [(key, v)];
    assert e == e[..i] + [e[i]] + e[i + 1..];
    forall x
      ensures Lookup(st.entries, x) == Lookup(e, x)
    {
      LookupAppend(RemoveKey(e, key), key, v, x);
      LookupRemoveKey(e, key, x);
    }
  }

  /** A miss invokes the function once. If it throws, nothing is inserted.
      If it returns `v`, `(key, v)` becomes the most recent entry; when the
      cache was full, exactly the oldest entry is evicted first and every
      other entry is kept; otherwise every entry is kept (lines 50-57). */
  lemma {:induction false} MissInserts<A, K, V>(s: Settings<A, K, V>, e: seq<(K, V)>, args: A)
    requires Inv(e, s.cacheSize) && s.cacheSize > 0.0
    requires s.keyGen(args).Some? && Lookup(e, s.keyGen(args).value).None?
    ensures var key := s.keyGen(args).value;
            var st := MemoStep(s, e, args);
            && st.invoked
            && st.result == s.fn(args)
            && (st.result.Abrupt? ==> st.entries == e)
            && (st.result.Normal? ==>
                  && Lookup(st.entries, key) == Some(st.result.value)
                  && st.entries[|st.entries| - 1] == (key, st.result.value)
                  && (|e| as real >= s.cacheSize ==>
                        && |e| > 0
                        && st.entries == e[1..] + [(key, st.result.value)]
                        && Lookup(st.entries, e[0].0).None?
                        && (forall x :: x != e[0].0 && x != key ==> Lookup(st.entries, x) == Lookup(e, x)))
                  && (|e| as real < s.cacheSize ==>
                        && st.entries == e + [(key, st.result.value)]
                        && (forall x :: x != key ==> Lookup(st.entries, x) == Lookup(e, x))))
  {
    var key := s.keyGen(args).value;
    var st := MemoStep(s, e, args);
    if st.result.Normal? {
      var v := st.result.value;
      assert st.entries == Admit(e, key, v, s.cacheSize);
      if |e| as real >= s.cacheSize {
        assert |e| > 0;
        assert e[0].0 != key;
        forall x
          ensures Lookup(st.entries, x) ==
            if x == e[0].0 then None else if x == key then Some(v) else Lookup(e, x)
        {
          AdmitLookup(e, key, v, s.cacheSize, x);
        }
      } else {
        forall x
          ensures Lookup(st.entries, x) == if x == key then Some(v) else Lookup(e, x)
        {
          AdmitLookup(e, key, v, s.cacheSize, x);
        }
      }
    }
  }

  /** Every call keeps the cache invariant, so for a positive integer
      `cacheSize` the cache never holds more than `cacheSize` entries. */
  lemma {:induction false} MemoStepKeepsInv<A, K, V>(s: Settings<A, K, V>, e: seq<(K, V)>, args: A)
    requires Inv(e, s.cacheSize)
    ensures Inv(MemoStep(s, e, args).entries, s.cacheSize)
  {
    if s.cacheSize > 0.0 && s.keyGen(args).Some? {
      var key := s.keyGen(args).value;
      match Lookup(e, key)
      case Some(v) =>
        RemovePresentKey(e, key, IndexOf(e, key));
        DistinctRemoveKey(e, key);
        DistinctAppend(RemoveKey(e, key), key, v);
      case None =>
        if s.fn(args).Normal? {
          var v := s.fn(args).value;
          var kept := if |e| as real >= s.cacheSize then DropOldest(e) else e;
          assert DistinctKeys(kept);
          assert Lookup(kept, key).None?;
          DistinctAppend(kept, key, v);
        }
    }
  }

  /** For an integer `cacheSize` the invariant is the size bound. */
  lemma CapacityBound<K, V>(e: seq<(K, V)>, n: int)
    requires n > 0 && Inv(e, n as real)
    ensures |e| <= n
  {
  }

  /** Two sequential calls with the same arguments: when the first returns,
      the second is a hit that invokes nothing, returns the same value and
      leaves the cache as the first left it. */
  lemma {:induction false} RepeatCallHits<A, K, V>(s: Settings<A, K, V>, e: seq<(K, V)>, args: A)
    requires Inv(e, s.cacheSize) && s.cacheSize > 0.0 && s.keyGen(args).Some?
    requires MemoStep(s, e, args).result.Normal?
    ensures var first := MemoStep(s, e, args);
            var second := MemoStep(s, first.entries, args);
            && !second.invoked
            && second.result == first.result
            && second.entries == first.entries
  {
    var key := s.keyGen(args).value;
    var first := MemoStep(s, e, args);
    var v := first.result.value;
    var rest := first.entries[..|first.entries| - 1];
    match Lookup(e, key) {
      case Some(_) =>
        assert first.entries == RemoveKey(e, key) + [(key, v)];
        assert rest == RemoveKey(e, key);
      case None =>
        assert first.entries == Admit(e, key, v, s.cacheSize);
        assert rest == if |e| as real >= s.cacheSize then DropOldest(e) else e;
        assert Lookup(rest, key).None?;
    }
    assert first.entries == rest + [(key, v)];
    LookupAppend(rest, key, v, key);
    RemoveAbsentKey(rest, key);
    assert RemoveKey(first.entries, key) == rest by {
      RemoveKeyAppend(rest, key, v);
    }
  }

  lemma {:induction false} RemoveKeyAppend<K, V>(e: seq<(K, V)>, k: K, v: V)
    ensures RemoveKey(e + [(k, v)], k) == RemoveKey(e, k)
  {
    if e != [] {
      assert (e + [(k, v)])[1..] == e[1..] + [(k, v)];
      RemoveKeyAppend(e[1..], k, v);
    }
  }

  /** `invalidateKey` on the cache's contents: it reports whether the key was
      present; a present key loses exactly its entry, an absent key changes
      nothing, and the invariant is kept (lines 62-68). */
  lemma {:induction false} InvalidateKeyExact<K, V>(e: seq<(K, V)>, cacheSize: real, k: K)
    requires Inv(e, cacheSize)
    ensures Inv(RemoveKey(e, k), cacheSize)
    ensures Lookup(e, k).None? ==> RemoveKey(e, k) == e
    ensures Lookup(e, k).Some? ==>
      var i := IndexOf(e, k); RemoveKey(e, k) == e[..i] + e[i + 1..]
  {
    DistinctRemoveKey(e, k);
    if Lookup(e, k).None? {
      RemoveAbsentKey(e, k);
    } else {
      RemovePresentKey(e, k, IndexOf(e, k));
    }
  }

  // ---------------------------------------------------------------------------
  // The memoized function object
  // ---------------------------------------------------------------------------

  /** The function returned by createMemoizationLru together with its
      closure-owned `cache` and its attached operations. */
  class MemoizedLru<A, K(==), V> {
    const settings: Settings<A, K, V>
    /** The `Map` in insertion (= recency) order, oldest first. */
    var entries: seq<(K, V)>
    /** Every argument list the wrapped function was invoked with, in order. */
    ghost var invocations: seq<A>

    ghost predicate Valid()
      reads this
    {
      Inv(entries, settings.cacheSize)
    }

    constructor (s: Settings<A, K, V>)
      ensures settings == s && entries == [] && invocations == [] && Valid()
    {
      settings := s;
      entries := [];
      invocations := [];
    }

    /** createMemoizationLru: validate the options, then build an empty cache. */
    static method Create(opts: MemoOptions<A, K, V>, defaultKeyGen: A -> Option<K>)
      returns (r: Result<MemoizedLru<A, K, V>, TypeError>)
      ensures r.Failure? ==> CheckOptions(opts, defaultKeyGen) == Failure(r.error)
      ensures r.Success? ==>
        && CheckOptions(opts, defaultKeyGen) == Success(r.value.settings)
        && fresh(r.value) && r.value.entries == [] && r.value.invocations == []
        && r.value.Valid()
    {
      var checked := CheckOptions(opts, defaultKeyGen);
      if checked.Failure? {
        return Failure(checked.error);
      }
      var m := new MemoizedLru(checked.value);
      return Success(m);
    }

    /** deleteOldest (lines 19-24). */
    method DeleteOldest()
      requires Valid()
      modifies this
      ensures Valid()
      ensures entries == DropOldest(old(entries))
      ensures invocations == old(invocations)
    {
      if |entries| > 0 {
        entries := entries[1..];
      }
    }

    /** memoized(...args) (lines 26-60). */
    method Call(args: A) returns (r: Completion<V>)
      requires Valid()
      modifies this
      ensures Valid()
      ensures var st := MemoStep(settings, old(entries), args);
        && entries == st.entries
        && r == st.result
        && invocations == old(invocations) + (if st.invoked then [args] else [])
    {
      MemoStepKeepsInv(settings, entries, args);
      if settings.cacheSize <= 0.0 {
        r := settings.fn(args);
        invocations := invocations + [args];
        return;
      }
      var key := settings.keyGen(args);
      if key.None? {
        r := settings.fn(args);
        invocations := invocations + [args];
        return;
      }
      var cached := Lookup(entries, key.value);
      if cached.Some? {
        entries := RemoveKey(entries, key.value);
        entries := entries + [(key.value, cached.value)];
        r := Normal(cached.value);
        return;
      }
      r := settings.fn(args);
      invocations := invocations + [args];
      if r.Abrupt? {
        return;
      }
      if |entries| as real >= settings.cacheSize {
        DeleteOldest();
      }
      entries := entries + [(key.value, r.value)];
    }

    /** memoized.invalidateKey (lines 62-68). */
    method InvalidateKey(k: K) returns (removed: bool)
      requires Valid()
      modifies this
      ensures Valid()
      ensures removed == Lookup(old(entries), k).Some?
      ensures entries == RemoveKey(old(entries), k)
      ensures invocations == old(invocations)
    {
      InvalidateKeyExact(entries, settings.cacheSize, k);
      removed := Lookup(entries, k).Some?;
      if removed {
        entries := RemoveKey(entries, k);
      }
    }

    /** memoized.invalidateArgs (lines 70-78): false when key generation
        throws, otherwise invalidateKey of the generated key. */
    method InvalidateArgs(args: A) returns (removed: bool)
      requires Valid()
      modifies this
      ensures Valid()
      ensures settings.keyGen(args).None? ==> !removed && entries == old(entries)
      ensures settings.keyGen(args).Some? ==>
        var k := settings.keyGen(args).value;
        removed == Lookup(old(entries), k).Some? && entries == RemoveKey(old(entries), k)
      ensures invocations == old(invocations)
    {
      var key := settings.keyGen(args);
      if key.None? {
        return false;
      }
      removed := InvalidateKey(key.value);
    }

    /** memoized.clearCache (lines 80-82). */
    method ClearCache()
      requires Valid()
      modifies this
      ensures Valid()
      ensures entries == [] && invocations == old(invocations)
    {
      entries := [];
    }

    /** memoized.getCacheSnapshot (lines 84-90): entries copied one by one,
        in order; the cache is not modified. */
    method Snapshot() returns (snap: seq<(K, V)>)
      ensures snap == entries
    {
      snap := [];
      var i := 0;
      while i < |entries|
        invariant 0 <= i <= |entries|
        invariant snap == entries[..i]
      {
        snap := snap + [entries[i]];
        i := i + 1;
      }
    }
  }
}

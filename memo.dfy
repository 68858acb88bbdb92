/** The memoisation idiom `cache || (cache = source())` of the repository's lazy getters,
    stated on values so that properties of repeated calls can be proved. */
module Memo {
  import opened Js

  /** One evaluation: the value returned, the cache afterwards, and how often the source was read. */
  datatype Lookup<V> = Lookup(value: V, cache: Option<V>, sourceReads: nat)

  /** `cache || (cache = source)`: a truthy cached value short-circuits the `||`;
      a missing (`null`) or falsy one makes the source be read, stored and returned. */
  function OrAssign<V>(cache: Option<V>, truthy: V -> bool, source: V): Lookup<V>
  {
    if cache.Some? && truthy(cache.value) then Lookup(cache.value, cache, 0)
    else Lookup(source, Some(source), 1)
  }

  /** The results of n successive calls of a getter whose source yields `source`. */
  datatype Run<V> = Run(values: seq<V>, cache: Option<V>, sourceReads: nat)

  function Calls<V>(cache: Option<V>, truthy: V -> bool, source: V, n: nat): (r: Run<V>)
    ensures |r.values| == n
    decreases n
  {
    if n == 0 then Run([], cache, 0)
    else
      var first := OrAssign(cache, truthy, source);
      var rest := Calls(first.cache, truthy, source, n - 1);
      Run([first.value] + rest.values, rest.cache, first.sourceReads + rest.sourceReads)
  }

  /** Once a truthy value is cached, no later call reads the source and every call returns it. */
  lemma {:induction false} CachedTruthyIsStable<V>(v: V, truthy: V -> bool, source: V, n: nat)
    requires truthy(v)
    ensures Calls(Some(v), truthy, source, n).sourceReads == 0
    ensures Calls(Some(v), truthy, source, n).cache == Some(v)
    ensures forall i :: 0 <= i < n ==> Calls(Some(v), truthy, source, n).values[i] == v
    decreases n
  {
    if n > 0 {
      CachedTruthyIsStable(v, truthy, source, n - 1);
    }
  }

  /** With a truthy source, n >= 1 calls read the source at most once (exactly once when nothing
      truthy was cached), and all of them return the value of the first call. */
  lemma {:induction false} TruthySourceReadAtMostOnce<V>(cache: Option<V>, truthy: V -> bool, source: V, n: nat)
    requires truthy(source) && n >= 1
    ensures var r := Calls(cache, truthy, source, n);
      && r.sourceReads == (if cache.Some? && truthy(cache.value) then 0 else 1)
      && r.cache.Some? && truthy(r.cache.value)
      && forall i :: 0 <= i < n ==> r.values[i] == r.values[0]
  {
    var first := OrAssign(cache, truthy, source);
    CachedTruthyIsStable(first.value, truthy, source, n - 1);
  }

  /** A falsy source value is stored but does not short-circuit later calls: with nothing
      truthy cached, every one of n calls reads the source again and returns what it read. */
  lemma {:induction false} FalsySourceReadEveryCall<V>(cache: Option<V>, truthy: V -> bool, source: V, n: nat)
    requires !truthy(source)
    requires !(cache.Some? && truthy(cache.value))
    ensures Calls(cache, truthy, source, n).sourceReads == n
    ensures n > 0 ==> Calls(cache, truthy, source, n).cache == Some(source)
    ensures forall i :: 0 <= i < n ==> Calls(cache, truthy, source, n).values[i] == source
    decreases n
  {
    if n > 0 {
      FalsySourceReadEveryCall(Some(source), truthy, source, n - 1);
    }
  }
}

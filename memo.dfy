/**
 * `memoize` (lib/splitString.ts): wraps a pure function with a cache that
 * maps an argument list to the value the function returned for it.
 * The cache is keyed by the argument value itself.
 */
module Memo {

  class Memoized<A(==), B> {
    /** The wrapped function. */
    const fn: A -> B
    /** Arguments seen so far, with the value returned for each. */
    var cache: map<A, B>

    /** The cache only ever holds values of `fn`. */
    ghost predicate Valid()
      reads this
    {
      forall a :: a in cache ==> cache[a] == fn(a)
    }

    constructor (fn: A -> B)
      ensures Valid()
      ensures this.fn == fn && cache == map[]
    {
      this.fn := fn;
      cache := map[];
    }

    /** The memoized function: a cache hit or a fresh call, both giving `fn(a)`. */
    method Call(a: A) returns (r: B)
      requires Valid()
      modifies this
      ensures Valid()
      ensures r == fn(a)
      ensures a in old(cache) ==> cache == old(cache)
      ensures cache == old(cache)[a := r]
    {
      if a in cache {
        r := cache[a];
      } else {
        r := fn(a);
        cache := cache[a := r];
      }
    }
  }
}

/**
 * `batchify` (lib/index.ts): cuts a list into consecutive batches of at most
 * `size` records by splicing them off the front of a copy of the list.
 */
module Batching {
  import opened Base

  /** What `copied.splice(0, size)` removes from the front of `a`. */
  function Front<T>(a: seq<T>, size: nat): seq<T>
  {
    a[..Min(size, |a|)]
  }

  /** What stays in `copied` after `splice(0, size)`. */
  function Rest<T>(a: seq<T>, size: nat): seq<T>
  {
    a[Min(size, |a|)..]
  }

  /** The batches `batchify` returns: fronts spliced off until nothing is left. */
  function Batches<T>(a: seq<T>, size: nat): (r: seq<seq<T>>)
    requires size > 0
    ensures r == [] <==> a == []
    decreases |a|
  {
    if a == [] then [] else [Front(a, size)] + Batches(Rest(a, size), size)
  }

  /** `Math.ceil(n / size)` for a natural `n` and a positive `size`. */
  function CeilDiv(n: nat, size: nat): (q: nat)
    requires size > 0
    ensures q * size >= n
    ensures q == 0 || (q - 1) * size < n
  {
    var q := (n + size - 1) / size;
    assert q * size + (n + size - 1) % size == n + size - 1;
    q
  }

  lemma {:induction false} MulMonotone(a: nat, b: nat, c: nat)
    requires a <= b
    ensures a * c <= b * c
    decreases b - a
  {
    if a < b {
      MulMonotone(a, b - 1, c);
      assert (b - 1) * c + c == b * c;
    }
  }

  /** The two postconditions of `CeilDiv` determine it. */
  lemma CeilDivUnique(n: nat, size: nat, q: nat)
    requires size > 0
    requires q * size >= n
    requires q == 0 || (q - 1) * size < n
    ensures q == CeilDiv(n, size)
  {
    var c := CeilDiv(n, size);
    if q < c {
      MulMonotone(q, c - 1, size);
    } else if c < q {
      MulMonotone(c, q - 1, size);
    }
  }

  lemma CeilDivStep(n: nat, size: nat)
    requires size > 0 && n > size
    ensures CeilDiv(n, size) == CeilDiv(n - size, size) + 1
  {
    var q' := CeilDiv(n - size, size);
    assert (q' + 1) * size == q' * size + size;
    CeilDivUnique(n, size, q' + 1);
  }

  /** There are `ceil(n / size)` batches. */
  lemma {:induction false} BatchesCount<T>(a: seq<T>, size: nat)
    requires size > 0
    ensures |Batches(a, size)| == CeilDiv(|a|, size)
    decreases |a|
  {
    if a == [] {
      CeilDivUnique(0, size, 0);
    } else {
      BatchesCount(Rest(a, size), size);
      if |a| > size {
        CeilDivStep(|a|, size);
      } else {
        CeilDivUnique(|a|, size, 1);
        CeilDivUnique(0, size, 0);
      }
    }
  }

  /** The batches concatenate back to the input. */
  lemma {:induction false} BatchesFlatten<T>(a: seq<T>, size: nat)
    requires size > 0
    ensures Flatten(Batches(a, size)) == a
    decreases |a|
  {
    if a != [] {
      var bs := Batches(a, size);
      assert bs[0] == Front(a, size);
      assert bs[1..] == Batches(Rest(a, size), size);
      BatchesFlatten(Rest(a, size), size);
      assert Front(a, size) + Rest(a, size) == a;
    }
  }

  /** Every batch is non-empty and holds at most `size` records; all but the last hold exactly `size`. */
  lemma {:induction false} BatchesSizes<T>(a: seq<T>, size: nat, b: nat)
    requires size > 0
    requires b < |Batches(a, size)|
    ensures 0 < |Batches(a, size)[b]| <= size
    ensures b < |Batches(a, size)| - 1 ==> |Batches(a, size)[b]| == size
    decreases |a|
  {
    if b > 0 {
      BatchesSizes(Rest(a, size), size, b - 1);
    } else if |a| <= size {
      assert Rest(a, size) == [];
    }
  }

  /** `batchify(array, size)`: the input is copied, so it is left as it was. */
  method Batchify<T>(records: seq<T>, size: nat) returns (batched: seq<seq<T>>)
    requires size > 0
    ensures batched == Batches(records, size)
    ensures |batched| == CeilDiv(|records|, size)
    ensures Flatten(batched) == records
  {
    batched := [];
    var copied := records;
    var numOfChild := CeilDiv(|records|, size);
    BatchesCount(records, size);
    for i := 0 to numOfChild
      invariant batched + Batches(copied, size) == Batches(records, size)
      invariant |batched| == i
    {
      assert copied != [];
      batched := batched + [Front(copied, size)];
      copied := Rest(copied, size);
    }
    assert Batches(copied, size) == [];
    BatchesFlatten(records, size);
  }
}

/**
 * Small shared vocabulary: an optional value, the errors the `Vectorizer`
 * throws, and the flattening of nested sequences.
 */
module Base {

  datatype Option<+T> = None | Some(value: T)

  /** The errors the pipeline throws. */
  datatype Error =
    | NoFilesToSplit          // splitFiles on an empty list
    | NoFilesToVectorize      // vectorize on an empty list
    | MaxTokenNotPositive     // constructor with maxToken <= 0
    | MemoryIdNotSet          // getMemoryId before a memory exists
    | CreateMemoryRejected    // createMemory rejected
    | UpdateMemoryRejected    // an updateMemory of a batch rejected
    | SplitDiverges           // splitString did not return within the recursion bound

  datatype Result<+T> = Ok(value: T) | Err(error: Error)

  /** The concatenation, in order, of every sequence in `ss`. */
  function Flatten<T>(ss: seq<seq<T>>): seq<T>
  {
    if ss == [] then [] else ss[0] + Flatten(ss[1..])
  }

  lemma {:induction false} FlattenAppend<T>(a: seq<seq<T>>, b: seq<seq<T>>)
    ensures Flatten(a + b) == Flatten(a) + Flatten(b)
  {
    if a == [] {
      assert a + b == b;
    } else {
      assert (a + b)[1..] == a[1..] + b;
      FlattenAppend(a[1..], b);
    }
  }

  lemma FlattenSingle<T>(x: seq<T>)
    ensures Flatten([x]) == x
  {
    assert [x][1..] == [];
  }

  /** A sequence is its prefix followed by the rest. */
  lemma TakeDrop<T>(s: seq<T>, k: nat)
    requires k <= |s|
    ensures s[..k] + s[k..] == s
  {
  }

  /** A non-empty sequence is its initial part followed by its last element. */
  lemma InitLast<T>(s: seq<T>)
    requires |s| > 0
    ensures s == s[..|s| - 1] + [s[|s| - 1]]
  {
  }

  /** Flattening a prefix gives a prefix of the flattening. */
  lemma FlattenPrefix<T>(a: seq<seq<T>>, n: nat)
    requires n <= |a|
    ensures |Flatten(a[..n])| <= |Flatten(a)|
    ensures Flatten(a[..n]) == Flatten(a)[..|Flatten(a[..n])|]
  {
    assert a == a[..n] + a[n..];
    FlattenAppend(a[..n], a[n..]);
  }

  function Min(a: int, b: int): int
  {
    if a <= b then a else b
  }
}

/**
 * Token-bounded recursive segmentation of a text (lib/splitString.ts).
 *
 * `binarySplit` scans the text once, scoring every index, and cuts the text at
 * the first index whose score beats every earlier score (and the initial 0).
 * `splitString` keeps a text whole when it is under the token budget and
 * otherwise cuts it with `binarySplit` and recurses on both halves.
 *
 * The token counter and the floating-point position weight (`binomialScore`,
 * built on `stirling`) are parameters: the model holds for every counter and
 * every weight. Scores are real numbers, not IEEE doubles.
 *
 * A text is a sequence of Unicode scalar values (Dafny's `char`), not of
 * UTF-16 code units: lengths, indices and cuts count characters, so they
 * agree with the original only on text inside the Basic Multilingual Plane.
 */
module Segmenter {
  import opened Base

  /** Token count of a text under a fixed encoding. */
  type TokenCounter = string -> nat

  /** Position weight of index `i` in a text of length `n`. */
  type Weight = (nat, nat) -> real

  /** Structural weight of the character at `i`: paragraph break 50, other newline 5, else 1. */
  function NewLineScore(s: string, i: nat): (r: real)
    requires i < |s|
    ensures r == 1.0 <==> (i == |s| - 1 || s[i] != '\n')
    ensures r == 50.0 <==> (i < |s| - 1 && s[i] == '\n' && s[i + 1] == '\n')
    ensures r == 5.0 <==> (i < |s| - 1 && s[i] == '\n' && s[i + 1] != '\n')
  {
    if |s| == i + 1 || s[i] != '\n' then 1.0
    else if s[i + 1] == '\n' then 50.0
    else 5.0
  }

  /**
   * The index of the last newline strictly before `i`, or -1 when there is
   * none: the scan's `lastNewLine` when it reaches index `i`.
   */
  function LastNewLine(s: string, i: nat): (r: int)
    requires i <= |s|
    ensures -1 <= r < i
    ensures r >= 0 ==> s[r] == '\n'
    ensures forall j :: r < j < i ==> s[j] != '\n'
    decreases i
  {
    if i == 0 then -1
    else if s[i - 1] == '\n' then i - 1
    else LastNewLine(s, i - 1)
  }

  /** The x50 boost at a newline that is the first one or does not follow a tab-indented line. */
  function NewLineBoost(s: string, i: nat): real
    requires i < |s|
  {
    var last := LastNewLine(s, i);
    if s[i] == '\n' && (last == -1 || s[last + 1] != '\t') then 50.0 else 1.0
  }

  /** The x2 factor at a space. */
  function SpaceFactor(s: string, i: nat): real
    requires i < |s|
  {
    if s[i] == ' ' then 2.0 else 1.0
  }

  /** The score `binarySplit` computes for index `i`. */
  function Score(w: Weight, s: string, i: nat): (r: real)
    requires i < |s|
    ensures s[i] != '\n' && s[i] != ' ' ==> r == w(i, |s|)
    ensures s[i] == ' ' ==> r == 2.0 * w(i, |s|)
    ensures s[i] == '\n' ==> r == w(i, |s|) * NewLineScore(s, i) * NewLineBoost(s, i)
  {
    w(i, |s|) * NewLineScore(s, i) * NewLineBoost(s, i) * SpaceFactor(s, i)
  }

  /**
   * `k` is the index the scan keeps after looking at indices `0 .. n-1`, with
   * best score `m`: either no index scored above the initial 0 (then `k` is 0),
   * or `k` is the first index reaching the largest score, which is positive.
   */
  ghost predicate IsFirstMax(w: Weight, s: string, n: nat, k: nat, m: real)
    requires n <= |s|
  {
    && m >= 0.0
    && (forall j :: 0 <= j < n ==> Score(w, s, j) <= m)
    && (|| (m == 0.0 && k == 0)
        || (k < n && m > 0.0 && Score(w, s, k) == m && forall j :: 0 <= j < k ==> Score(w, s, j) < m))
  }

  /** `(maxScoreI, maxScore)` after the scan has looked at indices `0 .. n-1`. */
  function Best(w: Weight, s: string, n: nat): (r: (nat, real))
    requires n <= |s|
    ensures r.0 == 0 || r.0 < n
    decreases n
  {
    if n == 0 then (0, 0.0)
    else
      var prev := Best(w, s, n - 1);
      var score := Score(w, s, n - 1);
      if score > prev.1 then (n - 1, score) else prev
  }

  /** The index at which `binarySplit` cuts `s`. */
  function SplitIndex(w: Weight, s: string): (k: nat)
    ensures |s| == 0 ==> k == 0
    ensures |s| > 0 ==> k < |s|
  {
    Best(w, s, |s|).0
  }

  /** The scan keeps the first index with the strictly largest positive score, or 0. */
  lemma {:induction false} BestIsFirstMax(w: Weight, s: string, n: nat)
    requires n <= |s|
    ensures IsFirstMax(w, s, n, Best(w, s, n).0, Best(w, s, n).1)
  {
    if n > 0 {
      BestIsFirstMax(w, s, n - 1);
    }
  }

  /** The first-maximum characterisation determines the index and the score. */
  lemma FirstMaxUnique(w: Weight, s: string, n: nat, k: nat, m: real, k': nat, m': real)
    requires n <= |s|
    requires IsFirstMax(w, s, n, k, m) && IsFirstMax(w, s, n, k', m')
    ensures k == k' && m == m'
  {
  }

  /** `SplitIndex` is the unique first maximum of the scores over the whole text. */
  lemma SplitIndexIsFirstMax(w: Weight, s: string, k: nat, m: real)
    ensures IsFirstMax(w, s, |s|, SplitIndex(w, s), Best(w, s, |s|).1)
    ensures IsFirstMax(w, s, |s|, k, m) ==> k == SplitIndex(w, s)
  {
    BestIsFirstMax(w, s, |s|);
    if IsFirstMax(w, s, |s|, k, m) {
      FirstMaxUnique(w, s, |s|, k, m, SplitIndex(w, s), Best(w, s, |s|).1);
    }
  }

  /** `p` is the last newline strictly before index `i`. */
  ghost predicate PreviousNewLine(s: string, i: nat, p: nat)
    requires i <= |s|
  {
    p < i && s[p] == '\n' && forall j :: p < j < i ==> s[j] != '\n'
  }

  /**
   * The boost applies at a newline exactly when no newline came before it, or
   * the character right after the previous newline is not a tab.
   */
  lemma NewLineBoostIff(s: string, i: nat)
    requires i < |s|
    ensures NewLineBoost(s, i) == 50.0 <==>
      s[i] == '\n' &&
      ((forall j :: 0 <= j < i ==> s[j] != '\n') ||
       (exists p: nat :: PreviousNewLine(s, i, p) && s[p + 1] != '\t'))
  {
    var last := LastNewLine(s, i);
    if last != -1 {
      assert PreviousNewLine(s, i, last);
      forall p: nat | PreviousNewLine(s, i, p)
        ensures p == last
      {
        assert s[p] == '\n' && s[last] == '\n';
      }
    }
  }

  /** The scan of `binarySplit`: returns the two halves of `s` around `SplitIndex`. */
  method BinarySplit(w: Weight, s: string) returns (left: string, right: string)
    ensures left + right == s
    ensures left == s[..SplitIndex(w, s)] && right == s[SplitIndex(w, s)..]
  {
    var maxScore := 0.0;
    var maxScoreI := 0;
    var lastNewLine := -1;
    for i := 0 to |s|
      invariant (maxScoreI, maxScore) == Best(w, s, i)
      invariant lastNewLine == LastNewLine(s, i)
    {
      var score := w(i, |s|) * NewLineScore(s, i);
      if s[i] == '\n' {
        if lastNewLine == -1 || s[lastNewLine + 1] != '\t' {
          score := score * 50.0;
        }
        lastNewLine := i;
      }
      if s[i] == ' ' {
        score := score * 2.0;
      }
      assert score == Score(w, s, i);
      if score > maxScore {
        maxScore := score;
        maxScoreI := i;
      }
    }
    left, right := s[..maxScoreI], s[maxScoreI..];
  }

  /** Where a text is cut: any index within the text. */
  type Cutter = string -> nat

  /** `cut` always returns an index within (or at the end of) its text. */
  ghost predicate WithinText(cut: Cutter)
  {
    forall t: string :: cut(t) <= |t|
  }

  /**
   * The recursion of `splitString` for a given cut, with a bound on its depth:
   * `Some(segments)` when it returns within `fuel` levels, `None` when it needs more.
   */
  function SplitWith(tokens: TokenCounter, cut: Cutter, s: string, maxToken: int, fuel: nat)
    : (r: Option<seq<string>>)
    requires WithinText(cut)
    ensures tokens(s) < maxToken ==> r == Some([s])
    ensures r.Some? ==> |r.value| >= 1
    decreases fuel
  {
    if tokens(s) < maxToken then Some([s])
    else if fuel == 0 then None
    else
      var k := cut(s);
      var left := SplitWith(tokens, cut, s[..k], maxToken, fuel - 1);
      var right := SplitWith(tokens, cut, s[k..], maxToken, fuel - 1);
      if left.Some? && right.Some? then Some(left.value + right.value)
      else None
  }

  /** The cut of `binarySplit`. */
  function BinaryCut(w: Weight): (cut: Cutter)
    ensures WithinText(cut)
    ensures forall t: string :: cut(t) == SplitIndex(w, t)
  {
    (t: string) => SplitIndex(w, t)
  }

  /**
   * `splitString` with a bound on its recursion depth: `Some(segments)` when
   * the recursion returns within `fuel` levels, `None` when it needs more.
   */
  function SplitString(tokens: TokenCounter, w: Weight, s: string, maxToken: int, fuel: nat)
    : (r: Option<seq<string>>)
    ensures tokens(s) < maxToken ==> r == Some([s])
    ensures r.Some? ==> |r.value| >= 1
  {
    SplitWith(tokens, BinaryCut(w), s, maxToken, fuel)
  }

  /** Whenever the recursion returns, its segments concatenate back to the text. */
  lemma {:induction false} SplitWithLossless(tokens: TokenCounter, cut: Cutter, s: string, maxToken: int, fuel: nat)
    requires WithinText(cut)
    requires SplitWith(tokens, cut, s, maxToken, fuel).Some?
    ensures Flatten(SplitWith(tokens, cut, s, maxToken, fuel).value) == s
    decreases fuel
  {
    if tokens(s) < maxToken {
      FlattenSingle(s);
    } else {
      var k := cut(s);
      var left := SplitWith(tokens, cut, s[..k], maxToken, fuel - 1);
      var right := SplitWith(tokens, cut, s[k..], maxToken, fuel - 1);
      assert SplitWith(tokens, cut, s, maxToken, fuel).value == left.value + right.value;
      assert Flatten(left.value) == s[..k] by {
        SplitWithLossless(tokens, cut, s[..k], maxToken, fuel - 1);
      }
      assert Flatten(right.value) == s[k..] by {
        SplitWithLossless(tokens, cut, s[k..], maxToken, fuel - 1);
      }
      FlattenAppend(left.value, right.value);
      TakeDrop(s, k);
    }
  }

  /** Whenever `splitString` returns, its segments concatenate back to the text. */
  lemma SplitStringLossless(tokens: TokenCounter, w: Weight, s: string, maxToken: int, fuel: nat)
    requires SplitString(tokens, w, s, maxToken, fuel).Some?
    ensures Flatten(SplitString(tokens, w, s, maxToken, fuel).value) == s
  {
    SplitWithLossless(tokens, BinaryCut(w), s, maxToken, fuel);
  }

  /** Whenever the recursion returns, every segment is under the token budget: only the base case emits. */
  lemma {:induction false} SplitWithUnderBudget(
    tokens: TokenCounter, cut: Cutter, s: string, maxToken: int, fuel: nat, seg: string)
    requires WithinText(cut)
    requires SplitWith(tokens, cut, s, maxToken, fuel).Some?
    requires seg in SplitWith(tokens, cut, s, maxToken, fuel).value
    ensures tokens(seg) < maxToken
    decreases fuel
  {
    if tokens(s) >= maxToken {
      var k := cut(s);
      var left := SplitWith(tokens, cut, s[..k], maxToken, fuel - 1).value;
      if seg in left {
        SplitWithUnderBudget(tokens, cut, s[..k], maxToken, fuel - 1, seg);
      } else {
        SplitWithUnderBudget(tokens, cut, s[k..], maxToken, fuel - 1, seg);
      }
    }
  }

  /** Whenever `splitString` returns, every segment is under the token budget. */
  lemma SplitStringUnderBudget(tokens: TokenCounter, w: Weight, s: string, maxToken: int, fuel: nat, seg: string)
    requires SplitString(tokens, w, s, maxToken, fuel).Some?
    requires seg in SplitString(tokens, w, s, maxToken, fuel).value
    ensures tokens(seg) < maxToken
  {
    SplitWithUnderBudget(tokens, BinaryCut(w), s, maxToken, fuel, seg);
  }

  /** More fuel never changes a result that was reached. */
  lemma {:induction false} SplitWithFuelMonotone(
    tokens: TokenCounter, cut: Cutter, s: string, maxToken: int, fuel: nat, more: nat)
    requires WithinText(cut)
    requires SplitWith(tokens, cut, s, maxToken, fuel).Some?
    requires fuel <= more
    ensures SplitWith(tokens, cut, s, maxToken, more) == SplitWith(tokens, cut, s, maxToken, fuel)
    decreases fuel
  {
    if tokens(s) >= maxToken {
      var k := cut(s);
      SplitWithFuelMonotone(tokens, cut, s[..k], maxToken, fuel - 1, more - 1);
      SplitWithFuelMonotone(tokens, cut, s[k..], maxToken, fuel - 1, more - 1);
    }
  }

  /** More fuel never changes a result `splitString` reached: the unbounded `splitString` returns it. */
  lemma SplitStringFuelMonotone(tokens: TokenCounter, w: Weight, s: string, maxToken: int, fuel: nat, more: nat)
    requires SplitString(tokens, w, s, maxToken, fuel).Some?
    requires fuel <= more
    ensures SplitString(tokens, w, s, maxToken, more) == SplitString(tokens, w, s, maxToken, fuel)
  {
    SplitWithFuelMonotone(tokens, BinaryCut(w), s, maxToken, fuel, more);
  }

  /**
   * When the cut falls at index 0 of an over-budget text, the right half is the
   * text itself, so the recursion never returns: no fuel is enough.
   */
  lemma {:induction false} CutAtZeroDiverges(tokens: TokenCounter, cut: Cutter, s: string, maxToken: int, fuel: nat)
    requires WithinText(cut)
    requires tokens(s) >= maxToken
    requires cut(s) == 0
    ensures SplitWith(tokens, cut, s, maxToken, fuel) == None
    decreases fuel
  {
    if fuel > 0 {
      assert s[0..] == s;
      CutAtZeroDiverges(tokens, cut, s, maxToken, fuel - 1);
    }
  }

  /**
   * In particular every one-character text over budget makes `splitString`
   * diverge. In the original this holds of a one-code-unit text; a single
   * character outside the Basic Multilingual Plane has two code units there.
   */
  lemma SingleCharOverBudgetDiverges(tokens: TokenCounter, w: Weight, s: string, maxToken: int, fuel: nat)
    requires |s| == 1 && tokens(s) >= maxToken
    ensures SplitString(tokens, w, s, maxToken, fuel) == None
  {
    CutAtZeroDiverges(tokens, BinaryCut(w), s, maxToken, fuel);
  }
}

/**
 * Records and their expansion into token-bounded pieces (lib/index.ts,
 * `TFile` and `splitFiles`).
 */
module Records {
  import opened Base
  import opened Segmenter

  /** A text-bearing record: a path-like identity, its text, optional PDF metadata and the saved flag. */
  datatype TFile = TFile(
    path: string,
    content: string,
    page: Option<int>,
    filename: Option<string>,
    saved: Option<bool>)

  /** What segmentation depends on: the token counter, the position weight and the recursion bound. */
  datatype Segmentation = Segmentation(tokens: TokenCounter, weight: Weight, fuel: nat)

  /** How `splitFiles` cuts a record's content: `None` when the cut does not return. */
  type Splitter = string -> Option<seq<string>>

  /** `content => splitString(content, maxToken)` under segmentation `seg`: the splitter `splitFiles` uses. */
  function Splitting(seg: Segmentation, maxToken: int): Splitter
  {
    (content: string) => SplitString(seg.tokens, seg.weight, content, maxToken, seg.fuel)
  }

  /** Whenever `split` returns, its pieces concatenate back to the content. */
  ghost predicate Lossless(split: Splitter)
  {
    forall content: string :: split(content).Some? ==> Flatten(split(content).value) == content
  }

  /** Whenever `split` returns, it returns at least one piece and every piece is under the budget. */
  ghost predicate Bounded(split: Splitter, tokens: TokenCounter, maxToken: int)
  {
    forall content: string :: split(content).Some? ==>
      |split(content).value| >= 1 && forall p :: p in split(content).value ==> tokens(p) < maxToken
  }

  /** The splitter built on `splitString` is lossless. */
  lemma SplittingLossless(seg: Segmentation, maxToken: int)
    ensures Lossless(Splitting(seg, maxToken))
  {
    forall content: string | Splitting(seg, maxToken)(content).Some?
      ensures Flatten(Splitting(seg, maxToken)(content).value) == content
    {
      SplitStringLossless(seg.tokens, seg.weight, content, maxToken, seg.fuel);
    }
  }

  /** The splitter built on `splitString` keeps every piece under the budget. */
  lemma SplittingBounded(seg: Segmentation, maxToken: int)
    ensures Bounded(Splitting(seg, maxToken), seg.tokens, maxToken)
  {
    forall content: string, p | Splitting(seg, maxToken)(content).Some? && p in Splitting(seg, maxToken)(content).value
      ensures seg.tokens(p) < maxToken
    {
      SplitStringUnderBudget(seg.tokens, seg.weight, content, maxToken, seg.fuel, p);
    }
  }

  function Digit(d: nat): (c: char)
    requires d < 10
    ensures '0' <= c <= '9'
  {
    (48 + d) as char
  }

  /** The decimal rendering of `n`, as a template literal `${i}` produces it. */
  function Decimal(n: nat): (r: string)
    ensures |r| >= 1
    ensures forall k :: 0 <= k < |r| ==> '0' <= r[k] <= '9'
    decreases n
  {
    if n < 10 then [Digit(n)] else Decimal(n / 10) + [Digit(n % 10)]
  }

  /** The value of a string of decimal digits. */
  function ParseDecimal(s: string): nat
    requires forall k :: 0 <= k < |s| ==> '0' <= s[k] <= '9'
    decreases |s|
  {
    if s == [] then 0
    else ParseDecimal(s[..|s| - 1]) * 10 + (s[|s| - 1] as int - 48)
  }

  lemma {:induction false} DecimalRoundTrip(n: nat)
    ensures ParseDecimal(Decimal(n)) == n
    decreases n
  {
    if n >= 10 {
      var r := Decimal(n);
      assert r[..|r| - 1] == Decimal(n / 10);
      DecimalRoundTrip(n / 10);
    }
  }

  /** The identity of piece `i` of a record: `${path}_${i}`. */
  function SegmentPath(path: string, i: nat): (r: string)
    ensures |r| > |path| + 1 && r[..|path| + 1] == path + "_"
  {
    path + "_" + Decimal(i)
  }

  /** Pieces of one record get pairwise distinct identities. */
  lemma SegmentPathsDistinct(path: string, i: nat, j: nat)
    ensures SegmentPath(path, i) == SegmentPath(path, j) ==> i == j
  {
    if SegmentPath(path, i) == SegmentPath(path, j) {
      var n := |path| + 1;
      assert Decimal(i) == SegmentPath(path, i)[n..];
      assert Decimal(j) == SegmentPath(path, j)[n..];
      DecimalRoundTrip(i);
      DecimalRoundTrip(j);
    }
  }

  /** The records `splitFiles` pushes for `file` when `splitString` gave `pieces`. */
  function Expand(file: TFile, pieces: seq<string>): (r: seq<TFile>)
    ensures |r| >= 1
    ensures |pieces| > 1 ==> |r| == |pieces|
  {
    if |pieces| > 1 then
      seq(|pieces|, i requires 0 <= i < |pieces| => TFile(SegmentPath(file.path, i), pieces[i], None, None, None))
    else [file]
  }

  /**
   * A record cut into several pieces is replaced by records with pairwise
   * distinct paths and no PDF metadata; a record cut into one piece is kept.
   */
  lemma ExpandRecords(file: TFile, pieces: seq<string>)
    ensures |pieces| <= 1 ==> Expand(file, pieces) == [file]
    ensures |pieces| > 1 ==> |Expand(file, pieces)| == |pieces|
    ensures |pieces| > 1 ==> forall i :: 0 <= i < |pieces| ==>
      && Expand(file, pieces)[i].content == pieces[i]
      && Expand(file, pieces)[i].path == SegmentPath(file.path, i)
      && Expand(file, pieces)[i].page == None && Expand(file, pieces)[i].filename == None
      && Expand(file, pieces)[i].saved == None
    ensures forall i, j :: 0 <= i < j < |Expand(file, pieces)| ==> Expand(file, pieces)[i].path != Expand(file, pieces)[j].path
  {
    var r := Expand(file, pieces);
    forall i, j | 0 <= i < j < |r|
      ensures r[i].path != r[j].path
    {
      SegmentPathsDistinct(file.path, i, j);
    }
  }

  function Contents(files: seq<TFile>): seq<string>
  {
    seq(|files|, i requires 0 <= i < |files| => files[i].content)
  }

  /**
   * The pushed records carry the pieces in order, so their contents
   * concatenate back to the record's content.
   */
  lemma ExpandLossless(file: TFile, pieces: seq<string>)
    requires Flatten(pieces) == file.content
    ensures Flatten(Contents(Expand(file, pieces))) == file.content
  {
    if |pieces| > 1 {
      assert Contents(Expand(file, pieces)) == pieces;
    } else {
      assert Contents(Expand(file, pieces)) == [file.content];
      FlattenSingle(file.content);
    }
  }

  /** The number of leading records `split` returns for. */
  function SplitCount(files: seq<TFile>, split: Splitter): (n: nat)
    ensures n <= |files|
    ensures forall j :: 0 <= j < n ==> split(files[j].content).Some?
    ensures n < |files| ==> split(files[n].content).None?
    decreases |files|
  {
    if files == [] || split(files[0].content).None? then 0
    else 1 + SplitCount(files[1..], split)
  }

  ghost predicate AllSplit(files: seq<TFile>, split: Splitter)
  {
    forall j :: 0 <= j < |files| ==> split(files[j].content).Some?
  }

  /** When every record before `i` splits, `SplitCount` stops at `i` exactly when record `i` does not. */
  lemma SplitCountAt(files: seq<TFile>, split: Splitter, i: nat)
    requires i < |files| && AllSplit(files[..i], split)
    ensures split(files[i].content).None? <==> SplitCount(files, split) == i
  {
    assert forall j :: 0 <= j < i ==> files[..i][j] == files[j];
  }

  /** When every record splits, `SplitCount` counts them all. */
  lemma SplitCountAll(files: seq<TFile>, split: Splitter)
    requires AllSplit(files, split)
    ensures SplitCount(files, split) == |files|
  {
  }

  /** Every record expanded in turn: what `splitFiles` returns when every split returns. */
  function ExpandAll(files: seq<TFile>, split: Splitter): (r: seq<TFile>)
    requires AllSplit(files, split)
    ensures |r| >= |files|
    decreases |files|
  {
    if files == [] then []
    else
      var last := files[|files| - 1];
      ExpandAll(files[..|files| - 1], split) + Expand(last, split(last.content).value)
  }

  lemma ExpandAllSnoc(files: seq<TFile>, file: TFile, split: Splitter)
    requires AllSplit(files, split)
    requires split(file.content).Some?
    ensures AllSplit(files + [file], split)
    ensures ExpandAll(files + [file], split) == ExpandAll(files, split) + Expand(file, split(file.content).value)
  {
    assert (files + [file])[..|files|] == files;
  }

  lemma ContentsAppend(a: seq<TFile>, b: seq<TFile>)
    ensures Contents(a + b) == Contents(a) + Contents(b)
  {
  }

  /** With a lossless splitter, the expansion of all records is lossless record by record. */
  lemma {:induction false} ExpandAllLossless(files: seq<TFile>, split: Splitter)
    requires AllSplit(files, split) && Lossless(split)
    ensures Flatten(Contents(ExpandAll(files, split))) == Flatten(Contents(files))
    decreases |files|
  {
    if files != [] {
      var init, last := files[..|files| - 1], files[|files| - 1];
      var pieces := split(last.content).value;
      assert AllSplit(init, split);
      var a, b := ExpandAll(init, split), Expand(last, pieces);
      assert ExpandAll(files, split) == a + b;
      assert Flatten(Contents(a)) == Flatten(Contents(init)) by {
        ExpandAllLossless(init, split);
      }
      assert Flatten(Contents(b)) == last.content by {
        ExpandLossless(last, pieces);
      }
      assert Flatten(Contents(a + b)) == Flatten(Contents(a)) + Flatten(Contents(b)) by {
        ContentsAppend(a, b);
        FlattenAppend(Contents(a), Contents(b));
      }
      assert Flatten(Contents(files)) == Flatten(Contents(init)) + last.content by {
        InitLast(files);
        ContentsAppend(init, [last]);
        assert Contents([last]) == [last.content];
        FlattenAppend(Contents(init), [last.content]);
        FlattenSingle(last.content);
      }
    }
  }

  /** With a lossless, bounded splitter, every record pushed for one record is under the budget. */
  lemma ExpandUnderBudget(file: TFile, split: Splitter, tokens: TokenCounter, maxToken: int, i: nat)
    requires Lossless(split) && Bounded(split, tokens, maxToken)
    requires split(file.content).Some?
    requires i < |Expand(file, split(file.content).value)|
    ensures tokens(Expand(file, split(file.content).value)[i].content) < maxToken
  {
    var pieces := split(file.content).value;
    if |pieces| > 1 {
      assert pieces[i] in pieces;
    } else {
      assert pieces == [pieces[0]];
      assert pieces[0] in pieces;
      FlattenSingle(pieces[0]);
    }
  }

  /** With a lossless, bounded splitter, every record `ExpandAll` emits is under the budget. */
  lemma {:induction false} ExpandAllUnderBudget(
    files: seq<TFile>, split: Splitter, tokens: TokenCounter, maxToken: int, k: nat)
    requires Lossless(split) && Bounded(split, tokens, maxToken)
    requires AllSplit(files, split)
    requires k < |ExpandAll(files, split)|
    ensures tokens(ExpandAll(files, split)[k].content) < maxToken
    decreases |files|
  {
    var init, last := files[..|files| - 1], files[|files| - 1];
    var a, b := ExpandAll(init, split), Expand(last, split(last.content).value);
    assert ExpandAll(files, split) == a + b;
    if k < |a| {
      assert ExpandAll(files, split)[k] == a[k];
      ExpandAllUnderBudget(init, split, tokens, maxToken, k);
    } else {
      assert ExpandAll(files, split)[k] == b[k - |a|];
      ExpandUnderBudget(last, split, tokens, maxToken, k - |a|);
    }
  }

  /**
   * The body of the `splitFiles` loop for one record: one record per piece
   * when there are several pieces, the record itself otherwise.
   */
  method PushPieces(result: seq<TFile>, file: TFile, pieces: seq<string>) returns (pushed: seq<TFile>)
    ensures pushed == result + Expand(file, pieces)
  {
    pushed := result;
    if |pieces| > 1 {
      for j := 0 to |pieces|
        invariant pushed == result + Expand(file, pieces)[..j]
      {
        pushed := pushed + [TFile(SegmentPath(file.path, j), pieces[j], None, None, None)];
      }
    } else {
      pushed := pushed + [file];
    }
  }

  /**
   * `splitFiles`, with `split` the `splitString` call on a content: each
   * record in turn is split; a record that splits into several pieces is
   * replaced by one record per piece, any other is kept unchanged;
   * `progressed` lists the records progress was reported for.
   */
  method SplitFiles(files: seq<TFile>, split: Splitter)
    returns (r: Result<seq<TFile>>, progressed: seq<TFile>)
    ensures files == [] ==> r == Err(NoFilesToSplit) && progressed == []
    ensures files != [] ==> progressed == files[..SplitCount(files, split)]
    ensures r.Ok? <==> files != [] && SplitCount(files, split) == |files|
    ensures r.Ok? ==> AllSplit(files, split) && r.value == ExpandAll(files, split)
    ensures r.Err? && files != [] ==> r.error == SplitDiverges
  {
    if |files| == 0 {
      return Err(NoFilesToSplit), [];
    }
    var result: seq<TFile> := [];
    progressed := [];
    for i := 0 to |files|
      invariant progressed == files[..i]
      invariant AllSplit(progressed, split)
      invariant result == ExpandAll(progressed, split)
    {
      var file := files[i];
      var pieces := split(file.content);
      if pieces.None? {
        SplitCountAt(files, split, i);
        return Err(SplitDiverges), progressed;
      }
      result := PushPieces(result, file, pieces.value);
      ExpandAllSnoc(progressed, file, split);
      progressed := progressed + [file];
    }
    assert files[..|files|] == files;
    SplitCountAll(files, split);
    r := Ok(result);
  }
}

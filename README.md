# vectorizer core, modelled in Dafny

This project models the two pieces of logic at the heart of the `vectorizer`
library: token-bounded recursive segmentation of a text, and the record
pipeline of the `Vectorizer` class.

**Segmentation** (`lib/splitString.ts`):
- `binarySplit` scans a text once. It scores every index and cuts the text at
  the first index whose score beats every earlier score and the initial 0.
- `splitString` keeps a text whole when its token count is below `maxToken`.
  Otherwise it cuts the text with `binarySplit` and recurses on both halves.
- `memoize` caches the results of a function.

**Record pipeline** (`lib/index.ts`):
- `batchify` cuts a list into consecutive chunks of at most `size` records.
- `splitFiles` replaces each record by its pieces, named `path_i`, or keeps
  it when it did not need cutting. It reports progress once per record.
- A `Vectorizer` holds the id of a remote memory.
  - The constructor checks `maxToken`.
  - `ensureMemoryInitialized` creates the memory when the id is falsy.
  - `getMemoryId` fails while there is no id.
- `vectorize` does three things in order:
  - it splits the records;
  - it batches the pieces by ten;
  - it sends every piece of every batch to `updateMemory`, batch after batch.

  It collects `{...file, saved: Boolean(updated)}` for each piece and stops
  at the first batch in which an update is rejected.

Module layout:

| file | module | models |
|---|---|---|
| `base.dfy` | `Base` | `Option`, the errors the `Vectorizer` throws, `Flatten` (spread-concatenation of lists) |
| `segmenter.dfy` | `Segmenter` | `newLineScore`, `binarySplit`, `splitString` |
| `memo.dfy` | `Memo` | `memoize` |
| `records.dfy` | `Records` | `TFile`, `splitFiles` |
| `batching.dfy` | `Batching` | `batchify` |
| `dispatch.dfy` | `Dispatch` | the batch loop of `vectorize` |
| `vectorizer.dfy` | `Vectorizing` | the `Vectorizer` class and `vectorize` |

## How the model treats the parts it cannot see

**Token counter.** `tokenCount` (tiktoken) is a parameter,
`tokens: string -> nat`. Every property holds for every counter.

**Position weight.** `binomialScore` is a parameter,
`w: (nat, nat) -> real`. Scores are exact reals.

**Recursion depth.** `splitString` need not terminate: a cut at index 0
gives back the same text. `SplitString` therefore takes a recursion bound
`fuel`. `Some(pieces)` means the recursion returned within `fuel` levels.
`None` means the recursion needs more than `fuel` levels; with `fuel` at
JavaScript's stack depth, that is where the original overflows its stack or
recurses forever. The model surfaces `None` as the error `SplitDiverges`.

**Splitter.** `splitFiles` is modelled over a `Splitter`, the call
`splitString(content, maxToken)` as a function of the content.
- `Records.Splitting(seg, maxToken)` is the instance built on `SplitString`.
- `Records.SplittingLossless` and `Records.SplittingBounded` carry the
  segmentation properties over to it.

**Remote calls.** `createMemory` and `updateMemory` are oracles. An
`Environment` holds:
- how `createMemory` settles;
- how each `updateMemory` call settles (`Updater`);
- the order in which the calls of one batch settle (`Scheduler`).

Within a batch, `batch.map` issues every call, in input order, before any of
them settles. The calls then settle in the scheduler's order. Each resolved
call appends its saved record and reports progress.

**Log.** What a call does to the outside world is an event log of `Event`
values:
- `CreateMemory`;
- `UpdateMemory(id, file)`;
- `Progress(file, total, step)`.

## Model

| member | source | states |
|---|---|---|
| Segmenter.NewLineScore | lib/splitString.ts:27-30 | 1.0 exactly when `i` is the last index or `s[i]` is not a newline; 50.0 exactly at a newline followed by a newline; 5.0 exactly at any other newline |
| Segmenter.LastNewLine | lib/splitString.ts:35-44 | the scan's `lastNewLine` on reaching `i`: a newline index below `i` with no newline between it and `i`, or -1 when there is none |
| Segmenter.Score | lib/splitString.ts:38-45 | the score of an index is the weight itself for ordinary characters, twice the weight at a space, and weight × newline score × boost at a newline |
| Segmenter.NewLineBoostIff | lib/splitString.ts:39-44 | the ×50 boost applies exactly at a newline that has no newline before it, or whose previous newline is not followed by a tab |
| Segmenter.Best | lib/splitString.ts:33-50 | the `(maxScoreI, maxScore)` pair after scanning the first `n` indices; its index is 0 or one of those indices |
| Segmenter.BestIsFirstMax | lib/splitString.ts:33-50 | after any prefix of the scan, `(maxScoreI, maxScore)` is the first index with the strictly largest positive score, or `(0, 0.0)` when no score is positive |
| Segmenter.FirstMaxUnique | lib/splitString.ts:46-49 | the first-maximum characterisation determines the index and the score (ties go to the earliest index) |
| Segmenter.SplitIndexIsFirstMax | lib/splitString.ts:32-52 | the cut index of `binarySplit` is the unique first maximum over the whole text |
| Segmenter.SplitIndex | lib/splitString.ts:32-52 | the cut index is 0 for the empty text and within `[0, len)` otherwise |
| Segmenter.BinarySplit | lib/splitString.ts:32-53 | the loop returns two halves whose concatenation is the input, cut at the first-maximum index |
| Segmenter.SplitWith | lib/splitString.ts:60-71 | the recursion of `splitString` for any cut: `[s]` whenever `tokens(s) < maxToken`, at least one segment whenever it returns |
| Segmenter.SplitString | lib/splitString.ts:60-71 | returns `[s]` whenever `tokens(s) < maxToken`, and at least one segment whenever it returns |
| Segmenter.SplitWithLossless | lib/splitString.ts:65-70 | for any cut within the text, the concatenated segments of a returning recursion are the input |
| Segmenter.SplitStringLossless | lib/splitString.ts:60-71 | whenever `splitString` returns, the concatenation of its segments is `s` |
| Segmenter.SplitWithUnderBudget | lib/splitString.ts:65-70 | for any cut, every segment of a returning recursion has fewer tokens than `maxToken` |
| Segmenter.SplitStringUnderBudget | lib/splitString.ts:60-71 | whenever `splitString` returns, every segment has fewer than `maxToken` tokens |
| Segmenter.SplitWithFuelMonotone | lib/splitString.ts:65-70 | more recursion depth never changes a result that was reached |
| Segmenter.SplitStringFuelMonotone | lib/splitString.ts:60-71 | a result reached within a bound is the result of the unbounded `splitString` |
| Segmenter.CutAtZeroDiverges | lib/splitString.ts:65-70 | an over-budget text cut at index 0 recurses forever: no bound is enough |
| Segmenter.SingleCharOverBudgetDiverges | lib/splitString.ts:60-71 | a one-code-unit text over budget makes `splitString` recurse forever |
| Memo.Memoized.constructor | lib/splitString.ts:4-5 | a fresh memoized function has an empty cache holding only results of `fn` |
| Memo.Memoized.Call | lib/splitString.ts:6-12 | every call returns `fn`'s value, caches exactly that value under its argument, and leaves a cache that already held the argument unchanged |
| Records.Decimal | lib/index.ts:72 | the rendering of `${i}` is a non-empty string of decimal digits |
| Records.DecimalRoundTrip | lib/index.ts:72 | the rendering of `${i}` reads back as `i` |
| Records.SegmentPath | lib/index.ts:72 | `${file.path}_${i}`: the record's path followed by an underscore, then a non-empty suffix |
| Records.SegmentPathsDistinct | lib/index.ts:71-72 | `${path}_${i}` and `${path}_${j}` differ whenever `i` and `j` differ |
| Records.Expand | lib/index.ts:70-76 | the records pushed for one record: at least one, and one per piece when there are several pieces |
| Records.ExpandRecords | lib/index.ts:70-76 | one or no piece pushes the record itself; k > 1 pieces push k records in order, piece `i` with path `${path}_${i}`, the piece as content, and no page, filename or `saved`; the paths are pairwise distinct |
| Records.ExpandLossless | lib/index.ts:70-76 | the pushed records' contents concatenate to the record's content |
| Records.SplittingLossless | lib/index.ts:68 | the splitter `Splitting(seg, maxToken)`, the call `splitString(content, maxToken)` as a function of the content, is lossless |
| Records.SplittingBounded | lib/index.ts:68 | the splitter built on `splitString` returns at least one piece, each under the budget |
| Records.ExpandAll | lib/index.ts:67-79 | every record expanded in turn, what `splitFiles` returns when every split returns: at least one output record per input record |
| Records.SplitCount | lib/index.ts:67-79 | the records before the count all split, and the one at the count (if any) does not |
| Records.SplitCountAt | lib/index.ts:67-79 | when every earlier record splits, the split stops at record `i` exactly when that record does not split |
| Records.ExpandAllLossless | lib/index.ts:65-81 | the contents of all output records concatenate to the contents of all input records |
| Records.ExpandUnderBudget | lib/index.ts:68-76 | every record pushed for one record has content under the budget |
| Records.ExpandAllUnderBudget | lib/index.ts:65-81 | every output record of `splitFiles` has content under the budget |
| Records.PushPieces | lib/index.ts:70-76 | the loop body pushes exactly the expansion of one record |
| Records.SplitFiles | lib/index.ts:56-82 | fails on an empty list; reports progress for the records split so far, in input order; on success returns the expansion of every record in order; otherwise fails with the diverging split |
| Batching.CeilDiv | lib/index.ts:47 | `Math.ceil(n / size)`: the least `q` with `q * size >= n` |
| Batching.CeilDivUnique | lib/index.ts:47 | any `q` with the least-multiple property is `CeilDiv(n, size)` |
| Batching.Batches | lib/index.ts:44-54 | the batches `batchify` splices off the front until nothing is left: none exactly for an empty input |
| Batching.BatchesCount | lib/index.ts:44-54 | `batchify` returns `ceil(n/size)` batches |
| Batching.BatchesFlatten | lib/index.ts:44-54 | the batches concatenate to the input |
| Batching.BatchesSizes | lib/index.ts:49-51 | every batch has between 1 and `size` records, and every batch but the last has exactly `size` |
| Batching.Batchify | lib/index.ts:44-54 | the splice loop on a copy of the input returns `ceil(n/size)` batches that concatenate to the input |
| Dispatch.Saved | lib/index.ts:271 | `{...file, saved: Boolean(updated)}` keeps path, content, page and filename and sets `saved` |
| Dispatch.InOrderLength | lib/index.ts:259-276 | the saved records in input order are, position by position, the saved records of the batch |
| Dispatch.Calls | lib/index.ts:259-269 | the `updateMemory` calls `batch.map` issues before any settles: one per record of the batch |
| Dispatch.Completions | lib/index.ts:259-276 | one progress event per appended record, for that record, with the given total |
| Dispatch.CompletionsAllResolved | lib/index.ts:259-276 | when no update of the batch rejects, the appended records are the saved records in settling order |
| Dispatch.SavedInPermutes | lib/index.ts:259-276 | reordering the positions permutes the saved records |
| Dispatch.CompletionsPermutation | lib/index.ts:259-276 | when every call settles once and none rejects, the appended records are a permutation of the batch's saved records, one per record |
| Dispatch.DispatchBatch | lib/index.ts:259-276 | one batch issues every call in input order, then appends and reports in settling order; it rejects exactly when one of its updates rejects |
| Dispatch.RunBatches | lib/index.ts:256-277 | the batch loop from batch `b` on: its result and events, stopping after the first rejecting batch; a failure is always the rejected update |
| Dispatch.RunBatchesStep | lib/index.ts:256-277 | a batch that resolves continues with the next; one that rejects ends the loop |
| Dispatch.SendBatches | lib/index.ts:254-279 | the loop over batches produces exactly the result and events of `RunBatches` |
| Dispatch.SettledEvents | lib/index.ts:271-274 | the settling events of a batch send nothing and report vectorize progress for the appended records |
| Dispatch.FirstRejected | lib/index.ts:256-277 | batches before it do not reject; the batch at it does |
| Dispatch.BatchEvents | lib/index.ts:259-276 | one batch sends exactly its records and reports vectorize progress, with the given total, for exactly the records it appended |
| Dispatch.RunBatchesFailsIff | lib/index.ts:256-279 | the loop fails exactly when some batch has a rejected update |
| Dispatch.RunBatchesCalls | lib/index.ts:256-277 | the records sent are those of every batch up to and including the first rejecting one: later batches are never started |
| Dispatch.RunBatchesProgress | lib/index.ts:247-279 | the loop reports no split progress, every vectorize progress carries the total, and on success progress was reported for exactly the returned records in order |
| Dispatch.BlocksAt | lib/index.ts:259-276 | block `k` is what batch `k` appended, in settling order |
| Dispatch.RunBatchesResult | lib/index.ts:254-279 | on success the result is the concatenation, batch after batch, of what each batch appended |
| Dispatch.StripInOrder | lib/index.ts:271 | a batch's saved records are the batch's records with `saved` set |
| Dispatch.SavedBatchesStrip | lib/index.ts:253-279 | the saved records of all batches are the input records with `saved` set |
| Dispatch.RunBatchesPermutation | lib/index.ts:254-279 | when every call settles once and none rejects, the result is a permutation of the saved records in input order |
| Dispatch.BlockOfBatch | lib/index.ts:259-276 | what a batch appends, when every call settles once and none rejects, is a permutation of its saved records, one per record |
| Dispatch.BlockPermutation | lib/index.ts:259-276 | when batch `k` settles every call once and none rejects, block `k` of the result is a permutation of batch `k`'s saved records, one per record |
| Dispatch.BlocksPermute | lib/index.ts:254-279 | when no batch rejects, every block of the result is a permutation of its own batch's saved records: order changes only within a batch |
| Dispatch.RunBatchesOnlyUpdates | lib/index.ts:256-277 | the loop creates no memory and sends every update to the given memory id |
| Vectorizing.NormalizeId | lib/index.ts:99 | `memoryId \|\| null`: a falsy id (`Falsy`, JavaScript truthiness: absent or `""`) becomes absent, any other is kept |
| Vectorizing.Initialize | lib/index.ts:103-114 | creates the memory exactly when the id is falsy (`Falsy`, the `!this.memoryId` test), then holds the returned id; a rejection propagates and keeps the old id; a truthy id is kept and nothing is called |
| Vectorizing.Vectorizer.constructor | lib/index.ts:89-101 | stores the options, `maxToken`, and the normalised id |
| Vectorizing.NewVectorizer | lib/index.ts:89-101 | construction fails exactly when `maxToken <= 0`, otherwise yields a fresh vectorizer with the normalised id |
| Vectorizing.Vectorizer.EnsureMemoryInitialized | lib/index.ts:103-114 | the method's new id, result and events are those of `Initialize` |
| Vectorizing.Vectorizer.GetMemoryId | lib/index.ts:282-288 | returns the id unchanged when there is one, and fails with "Memory ID is not set" exactly when there is none |
| Vectorizing.Pipeline | lib/index.ts:243-279 | what `vectorize` does once the memory exists: split, then the batch loop; its only failures are a diverging split and a rejected update |
| Vectorizing.VectorizeRun | lib/index.ts:229-280 | an empty input fails with nothing done; otherwise the new id is that of `ensureMemoryInitialized`; success leaves an id; every error is one the source throws |
| Vectorizing.Vectorizer.Vectorize | lib/index.ts:229-280 | the method's new id, result and events are those of `VectorizeRun` |
| Vectorizing.SplitAndSend | lib/index.ts:243-279 | the split, batchify and batch-loop steps of the method produce exactly the result and events of `Pipeline` |
| Vectorizing.SplitEventsShow | lib/index.ts:243-245 | split progress events report exactly the records given, each with the given total |
| Vectorizing.PipelineOnlyUpdates | lib/index.ts:251-279 | once the memory exists, splitting and the batch loop create no memory and update only that memory |
| Vectorizing.VectorizeCreatesMemory | lib/index.ts:237-241 | `createMemory` is called exactly when there are records and the id is falsy, and then first and only once |
| Vectorizing.InitializeQuiet | lib/index.ts:103-114 | `ensureMemoryInitialized` reports no progress and sends no update |
| Vectorizing.PipelineSplitProgress | lib/index.ts:243-251 | split progress is reported for the records split so far, each with the count of records given |
| Vectorizing.VectorizeSplitProgress | lib/index.ts:237-251 | once the memory exists: split progress reports the records split so far, in order, with the original record count; the call fails with a diverging split exactly when some record does not split |
| Vectorizing.VectorizeUpdates | lib/index.ts:251-279 | once the memory exists and every record splits: the records sent are the pieces of every batch up to and including the first rejecting one; success holds exactly when no update rejects, and then every piece was sent in order |
| Vectorizing.VectorizeUpdatesUnderBudget | lib/index.ts:251-272 | every record sent to `updateMemory` has fewer tokens than `maxToken` |
| Vectorizing.VectorizeResult | lib/index.ts:247-279 | on success the result is, batch after batch, what each batch appended; each block is a permutation of its own batch's saved pieces; the whole result is a permutation of the saved pieces, one per piece, which are the pieces with `saved` set |
| Vectorizing.VectorizeSucceeded | lib/index.ts:237-279 | a `vectorize` that resolves had records, initialised the memory, split every record, and returns the batch loop's result after the initialisation and split events |
| Vectorizing.VectorizeProgress | lib/index.ts:247-279 | when `vectorize` resolves, vectorize progress, with the post-split count, was reported for exactly the returned records, in order |
| Vectorizing.PipelineVectorizeProgress | lib/index.ts:247-279 | once the memory exists: no vectorize progress when some split does not return; otherwise every vectorize progress carries the count of pieces, whether or not an update is rejected |
| Vectorizing.VectorizeProgressTotals | lib/index.ts:237-279 | on every run of `vectorize`, resolved or rejected: no vectorize progress when some split does not return; otherwise every vectorize progress carries the post-split count |

## Left out

- `readDirRecursive`, `readFilesFromRepo`, `readPDFs`, `readAudios`, `readFiles`: filesystem, PDF and transcription I/O through foreign libraries.
- `tokenCount` is not modelled: tiktoken is foreign code. The model uses any counter `string -> nat`.
- The bodies of `binomialScore` and `stirling` are not modelled: they are floating-point formulas. The model uses any real-valued position weight. Scores are exact reals, not IEEE doubles, so rounding and NaN/Infinity are not modelled.
- The `memoize` wrappers around `stirling` and `binomialScore` are not composed with the weight. `Memo.Memoized.Call` shows that memoizing never changes a result, so the weight is used directly.
- `Memo.Memoized`: the cache is keyed on the argument value itself, not on `JSON.stringify(args)`. Two distinct arguments with the same JSON text would share an entry in the source; the model does not capture that.
- `Segmenter.SplitString`: no result at all is modelled for a text whose recursion never returns (JavaScript would overflow its stack). The recursion bound `fuel` stands for that; `None` is the bound running out.
- Real concurrency of `Promise.all` is not modelled. In the source, after a rejection the other calls of the batch still run and may append and report progress after `vectorize` has thrown. In the model a batch always settles completely before the loop decides, so events are in a single sequential order.
- `JSON.stringify(file)` as the update payload is not modelled: the event records the file itself. The `maxToken` and `clientOptions` arguments of `updateMemory` are not recorded.
- The `this.memoryId === null` check inside `batch.map` is not modelled. It cannot fire: the memory exists by then.
- `console` logging is not modelled.
- `ClientOptions` is carried by the `Vectorizer` but not forwarded to the oracles: their replies are given by the `Environment`.
- Texts are sequences of Unicode scalar values, not of UTF-16 code units. `s.length`, `s[i]`, the weight's length argument and `s.slice` count code units in the source, so on text with characters outside the Basic Multilingual Plane the model's lengths, scores and cut index differ from the source's, and a cut between the two halves of a surrogate pair is not modelled. `Segmenter.SingleCharOverBudgetDiverges` speaks of one-code-unit texts: a single non-BMP character has length 2 in the source and can be cut there.
- `maxToken` is an unbounded integer, not a JavaScript number: fractional and non-finite budgets are not modelled.
- The command-line tool (cmd/index.ts), the usage script sample.ts and src/index.ts are not part of this model.

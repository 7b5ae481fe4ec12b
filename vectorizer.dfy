/**
 * The `Vectorizer` of lib/index.ts: it holds the id of a remote memory,
 * creates the memory when it has none, and `vectorize` splits records to
 * the token budget, cuts them into batches of ten and sends every record of
 * every batch to `updateMemory`.
 *
 * `createMemory` and `updateMemory` are oracles: the reply of `createMemory`
 * and the reply of every `updateMemory` call, together with the order in
 * which the calls of a batch settle, are part of an `Environment`.
 */
module Vectorizing {
  import opened Base
  import opened Records
  import opened Batching
  import opened Dispatch

  /** `vectorize` batches records by ten. */
  const BatchSize: nat := 10

  /** The client options forwarded to the remote calls. */
  datatype ClientOptions = ClientOptions(token: string, endpoint: Option<string>)

  /** Everything outside the process that a `vectorize` call depends on. */
  datatype Environment = Environment(
    seg: Segmentation,       // token counter, position weight, recursion bound of `splitString`
    create: Reply<string>,   // how `createMemory` settles: the new id, or a rejection
    update: Updater,         // how each `updateMemory` call settles
    order: Scheduler)        // the order in which the calls of a batch settle

  /** The new memory id, what a call returns, and what it did to the outside world, in order. */
  datatype Outcome<+T> = Outcome(memoryId: Option<string>, result: Result<T>, log: seq<Event>)

  /** JavaScript truthiness of `memoryId`: `null` and `""` are falsy. */
  predicate Falsy(id: Option<string>)
  {
    id == None || id == Some("")
  }

  /** `memoryId || null`: a falsy id is stored as `null`. */
  function NormalizeId(memoryId: Option<string>): (r: Option<string>)
    ensures r == None <==> Falsy(memoryId)
    ensures r.Some? ==> r == memoryId
  {
    if Falsy(memoryId) then None else memoryId
  }

  /** What `ensureMemoryInitialized` does when `createMemory` settles as `create`. */
  function Initialize(memoryId: Option<string>, create: Reply<string>): (o: Outcome<()>)
    ensures o.log == [CreateMemory] <==> Falsy(memoryId)
    ensures o.log == [] <==> !Falsy(memoryId)
    ensures !Falsy(memoryId) ==> o.memoryId == memoryId && o.result.Ok?
    ensures o.result.Err? <==> Falsy(memoryId) && create.Rejected?
    ensures o.result.Err? ==> o.result.error == CreateMemoryRejected && o.memoryId == memoryId
    ensures Falsy(memoryId) && create.Resolved? ==> o.memoryId == Some(create.value)
    ensures o.result.Ok? ==> o.memoryId.Some?
  {
    if !Falsy(memoryId) then Outcome(memoryId, Ok(()), [])
    else if create.Rejected? then Outcome(memoryId, Err(CreateMemoryRejected), [CreateMemory])
    else Outcome(Some(create.value), Ok(()), [CreateMemory])
  }

  /** The split progress events `vectorize` reports for `files`, each with the count `total`. */
  function SplitEvents(files: seq<TFile>, total: nat): seq<Event>
  {
    seq(|files|, k requires 0 <= k < |files| => Progress(files[k], total, Split))
  }

  /** The batch loop of `vectorize` over the pieces `split`, on memory `id`. */
  ghost function BatchRun(id: string, split: seq<TFile>, env: Environment): (r: (Result<seq<TFile>>, seq<Event>))
    ensures r.0.Err? ==> r.0.error == UpdateMemoryRejected
  {
    RunBatches(id, Batches(split, BatchSize), 0, env.update, env.order, |split|)
  }

  /** What `vectorize` does once the memory `id` exists: split, then the batch loop. */
  ghost function Pipeline(id: string, maxToken: int, files: seq<TFile>, env: Environment)
    : (r: (Result<seq<TFile>>, seq<Event>))
    ensures r.0.Err? ==> r.0.error in {SplitDiverges, UpdateMemoryRejected}
  {
    var n := SplitCount(files, Splitting(env.seg, maxToken));
    var splitLog := SplitEvents(files[..n], |files|);
    if n < |files| then (Err(SplitDiverges), splitLog)
    else
      var run := BatchRun(id, ExpandAll(files, Splitting(env.seg, maxToken)), env);
      (run.0, splitLog + run.1)
  }

  /**
   * What `vectorize(files, progress)` does on a `Vectorizer` with id
   * `memoryId` and budget `maxToken`: the new id, the result and the log.
   */
  ghost function VectorizeRun(memoryId: Option<string>, maxToken: int, files: seq<TFile>, env: Environment)
    : (o: Outcome<seq<TFile>>)
    ensures files == [] ==> o == Outcome(memoryId, Err(NoFilesToVectorize), [])
    ensures files != [] ==> o.memoryId == Initialize(memoryId, env.create).memoryId
    ensures o.result.Ok? ==> o.memoryId.Some?
    ensures o.result.Err? ==>
      o.result.error in {NoFilesToVectorize, CreateMemoryRejected, SplitDiverges, UpdateMemoryRejected}
  {
    if files == [] then Outcome(memoryId, Err(NoFilesToVectorize), [])
    else
      var init := Initialize(memoryId, env.create);
      if init.result.Err? then Outcome(init.memoryId, Err(init.result.error), init.log)
      else
        var p := Pipeline(init.memoryId.value, maxToken, files, env);
        Outcome(init.memoryId, p.0, init.log + p.1)
  }

  class Vectorizer {
    var memoryId: Option<string>
    const clientOptions: ClientOptions
    const maxToken: int

    /** The constructor once its `maxToken <= 0` check has passed. */
    constructor (clientOptions: ClientOptions, maxToken: int, memoryId: Option<string>)
      requires maxToken > 0
      ensures this.clientOptions == clientOptions && this.maxToken == maxToken
      ensures this.memoryId == NormalizeId(memoryId)
    {
      this.clientOptions := clientOptions;
      this.memoryId := NormalizeId(memoryId);
      this.maxToken := maxToken;
    }

    /** `ensureMemoryInitialized`: creates the memory unless the id is truthy. */
    method EnsureMemoryInitialized(create: Reply<string>) returns (r: Result<()>, log: seq<Event>)
      modifies this
      ensures Outcome(memoryId, r, log) == Initialize(old(memoryId), create)
    {
      log := [];
      r := Ok(());
      if Falsy(memoryId) {
        log := [CreateMemory];
        if create.Rejected? {
          return Err(CreateMemoryRejected), log;
        }
        memoryId := Some(create.value);
      }
    }

    /** `getMemoryId`: the id, or an error when there is none. */
    function GetMemoryId(): (r: Result<string>)
      reads this
      ensures r.Ok? <==> memoryId.Some?
      ensures r.Ok? ==> r.value == memoryId.value
      ensures r.Err? ==> r.error == MemoryIdNotSet
    {
      if memoryId.None? then Err(MemoryIdNotSet) else Ok(memoryId.value)
    }

    /**
     * `vectorize`: creates the memory if needed, splits the records (split
     * progress counts the records given), batches the pieces by ten and
     * sends every batch to `updateMemory` (vectorize progress counts the
     * pieces).
     */
    method Vectorize(files: seq<TFile>, env: Environment) returns (r: Result<seq<TFile>>, log: seq<Event>)
      modifies this
      ensures Outcome(memoryId, r, log) == VectorizeRun(old(memoryId), maxToken, files, env)
    {
      if |files| == 0 {
        return Err(NoFilesToVectorize), [];
      }
      var init;
      init, log := EnsureMemoryInitialized(env.create);
      if init.Err? {
        return Err(init.error), log;
      }
      var r', log' := SplitAndSend(memoryId.value, maxToken, files, env);
      r, log := r', log + log';
    }
  }

  /**
   * The part of `vectorize` after the memory `id` exists: split the records,
   * batch the pieces and send them batch after batch.
   */
  method SplitAndSend(id: string, maxToken: int, files: seq<TFile>, env: Environment)
    returns (r: Result<seq<TFile>>, log: seq<Event>)
    requires files != []
    ensures (r, log) == Pipeline(id, maxToken, files, env)
  {
    var split, progressed := SplitFiles(files, Splitting(env.seg, maxToken));
    log := SplitEvents(progressed, |files|);
    if split.Err? {
      return Err(split.error), log;
    }
    var batches := Batchify(split.value, BatchSize);
    var events;
    r, events := SendBatches(id, batches, env.update, env.order, |split.value|);
    log := log + events;
  }

  /** `new Vectorizer(clientOptions, maxToken, memoryId)`, which throws when `maxToken <= 0`. */
  method NewVectorizer(clientOptions: ClientOptions, maxToken: int, memoryId: Option<string>)
    returns (r: Result<Vectorizer>)
    ensures r.Err? <==> maxToken <= 0
    ensures r.Err? ==> r.error == MaxTokenNotPositive
    ensures r.Ok? ==> fresh(r.value)
    ensures r.Ok? ==> r.value.maxToken == maxToken && r.value.clientOptions == clientOptions
    ensures r.Ok? ==> r.value.memoryId == NormalizeId(memoryId)
  {
    if maxToken <= 0 {
      return Err(MaxTokenNotPositive);
    }
    var v := new Vectorizer(clientOptions, maxToken, memoryId);
    r := Ok(v);
  }

  /** Split progress events report exactly the records given, each with the count `total`. */
  lemma {:induction false} SplitEventsShow(files: seq<TFile>, total: nat, id: string)
    ensures Progressed(SplitEvents(files, total), Split) == files
    ensures Progressed(SplitEvents(files, total), Vectorize) == []
    ensures UpdatedFiles(SplitEvents(files, total)) == []
    ensures TotalsAre(SplitEvents(files, total), Split, total)
    ensures OnlyUpdates(SplitEvents(files, total), id)
    decreases |files|
  {
    if files != [] {
      assert SplitEvents(files, total)[1..] == SplitEvents(files[1..], total);
      SplitEventsShow(files[1..], total, id);
    }
  }

  /** After the memory exists, `vectorize` creates none and updates only that memory. */
  lemma PipelineOnlyUpdates(id: string, maxToken: int, files: seq<TFile>, env: Environment)
    ensures OnlyUpdates(Pipeline(id, maxToken, files, env).1, id)
  {
    var n := SplitCount(files, Splitting(env.seg, maxToken));
    var splitLog := SplitEvents(files[..n], |files|);
    SplitEventsShow(files[..n], |files|, id);
    if n == |files| {
      var split := ExpandAll(files, Splitting(env.seg, maxToken));
      RunBatchesOnlyUpdates(id, Batches(split, BatchSize), 0, env.update, env.order, |split|);
      OnlyUpdatesAppend(splitLog, BatchRun(id, split, env).1, id);
    }
  }

  /**
   * `vectorize` creates a memory exactly when it is given records and its id
   * is falsy, and then before anything else and only once.
   */
  lemma VectorizeCreatesMemory(memoryId: Option<string>, maxToken: int, files: seq<TFile>, env: Environment)
    ensures var o := VectorizeRun(memoryId, maxToken, files, env);
      && (CreateMemory in o.log <==> files != [] && Falsy(memoryId))
      && (CreateMemory in o.log ==> o.log[0] == CreateMemory && CreateMemory !in o.log[1..])
  {
    var o := VectorizeRun(memoryId, maxToken, files, env);
    if files != [] {
      var init := Initialize(memoryId, env.create);
      if init.result.Ok? {
        var id := init.memoryId.value;
        var rest := Pipeline(id, maxToken, files, env).1;
        PipelineOnlyUpdates(id, maxToken, files, env);
        assert o.log == init.log + rest;
        assert CreateMemory !in rest;
        if Falsy(memoryId) {
          assert o.log[1..] == rest;
        }
      }
    }
  }

  /** The events of `ensureMemoryInitialized` report no progress and send no update. */
  lemma InitializeQuiet(memoryId: Option<string>, create: Reply<string>)
    ensures var log := Initialize(memoryId, create).log;
      Progressed(log, Split) == [] && Progressed(log, Vectorize) == [] && UpdatedFiles(log) == []
  {
    var log := Initialize(memoryId, create).log;
    if log != [] {
      assert log[1..] == [];
    }
  }

  /** The split stage reports progress for the records split so far, each with the count of records given. */
  lemma PipelineSplitProgress(id: string, maxToken: int, files: seq<TFile>, env: Environment)
    ensures var n := SplitCount(files, Splitting(env.seg, maxToken));
      var log := Pipeline(id, maxToken, files, env).1;
      Progressed(log, Split) == files[..n] && TotalsAre(log, Split, |files|)
  {
    var n := SplitCount(files, Splitting(env.seg, maxToken));
    var splitLog := SplitEvents(files[..n], |files|);
    SplitEventsShow(files[..n], |files|, id);
    if n == |files| {
      var split := ExpandAll(files, Splitting(env.seg, maxToken));
      var run := BatchRun(id, split, env);
      RunBatchesProgress(id, Batches(split, BatchSize), 0, env.update, env.order, |split|);
      NoProgressTotals(run.1, Split, |files|);
      ProgressedAppend(splitLog, run.1, Split);
      TotalsAppend(splitLog, run.1, Split, |files|);
    }
  }

  /**
   * Once the memory exists, `vectorize` reports no vectorize progress when a
   * split does not return, and otherwise reports every vectorize progress
   * with the count of pieces, whether or not an update is rejected.
   */
  lemma {:induction false} PipelineVectorizeProgress(id: string, maxToken: int, files: seq<TFile>, env: Environment)
    ensures var log := Pipeline(id, maxToken, files, env).1;
      var split := Splitting(env.seg, maxToken);
      && (!AllSplit(files, split) ==> Progressed(log, Vectorize) == [])
      && (AllSplit(files, split) ==> TotalsAre(log, Vectorize, |ExpandAll(files, split)|))
  {
    var split := Splitting(env.seg, maxToken);
    var n := SplitCount(files, split);
    var splitLog := SplitEvents(files[..n], |files|);
    SplitEventsShow(files[..n], |files|, id);
    if n == |files| {
      var pieces := ExpandAll(files, split);
      var run := BatchRun(id, pieces, env);
      RunBatchesProgress(id, Batches(pieces, BatchSize), 0, env.update, env.order, |pieces|);
      NoProgressTotals(splitLog, Vectorize, |pieces|);
      TotalsAppend(splitLog, run.1, Vectorize, |pieces|);
    }
  }

  /**
   * Vectorize progress on every run: none when some record does not split;
   * otherwise every vectorize progress event carries the count of pieces,
   * on a run that resolves and on one whose update is rejected alike.
   */
  lemma {:induction false} VectorizeProgressTotals(memoryId: Option<string>, maxToken: int, files: seq<TFile>, env: Environment)
    ensures var o := VectorizeRun(memoryId, maxToken, files, env);
      var split := Splitting(env.seg, maxToken);
      && (!AllSplit(files, split) ==> Progressed(o.log, Vectorize) == [])
      && (AllSplit(files, split) ==> TotalsAre(o.log, Vectorize, |ExpandAll(files, split)|))
  {
    var split := Splitting(env.seg, maxToken);
    if files != [] {
      var init := Initialize(memoryId, env.create);
      InitializeQuiet(memoryId, env.create);
      if AllSplit(files, split) {
        NoProgressTotals(init.log, Vectorize, |ExpandAll(files, split)|);
      }
      if init.result.Ok? {
        var p := Pipeline(init.memoryId.value, maxToken, files, env);
        PipelineVectorizeProgress(init.memoryId.value, maxToken, files, env);
        ProgressedAppend(init.log, p.1, Vectorize);
        if AllSplit(files, split) {
          TotalsAppend(init.log, p.1, Vectorize, |ExpandAll(files, split)|);
        }
      }
    }
  }

  /**
   * Split progress: once the memory exists, `vectorize` reports split
   * progress, with the count of records given, for exactly the records whose
   * `splitString` returned, and fails with `SplitDiverges` exactly when one
   * did not.
   */
  lemma VectorizeSplitProgress(memoryId: Option<string>, maxToken: int, files: seq<TFile>, env: Environment)
    requires files != [] && Initialize(memoryId, env.create).result.Ok?
    ensures var o := VectorizeRun(memoryId, maxToken, files, env);
      var n := SplitCount(files, Splitting(env.seg, maxToken));
      && Progressed(o.log, Split) == files[..n]
      && TotalsAre(o.log, Split, |files|)
      && (o.result == Err(SplitDiverges) <==> n < |files|)
  {
    var init := Initialize(memoryId, env.create);
    var id := init.memoryId.value;
    var p := Pipeline(id, maxToken, files, env);
    InitializeQuiet(memoryId, env.create);
    NoProgressTotals(init.log, Split, |files|);
    PipelineSplitProgress(id, maxToken, files, env);
    ProgressedAppend(init.log, p.1, Split);
    TotalsAppend(init.log, p.1, Split, |files|);
  }

  /**
   * Updates: once every record has been split, the records sent to
   * `updateMemory` are the pieces of every batch up to and including the
   * first one with a rejected update, and the call succeeds exactly when no
   * update is rejected, having then sent every piece.
   */
  lemma VectorizeUpdates(memoryId: Option<string>, maxToken: int, files: seq<TFile>, env: Environment)
    requires files != [] && Initialize(memoryId, env.create).result.Ok?
    requires AllSplit(files, Splitting(env.seg, maxToken))
    ensures var o := VectorizeRun(memoryId, maxToken, files, env);
      var split := ExpandAll(files, Splitting(env.seg, maxToken));
      var batches := Batches(split, BatchSize);
      && UpdatedFiles(o.log) == Flatten(batches[..Scheduled(batches, 0, env.update)])
      && (o.result.Ok? <==> FirstRejected(batches, 0, env.update) == |batches|)
      && (o.result.Ok? ==> UpdatedFiles(o.log) == split)
  {
    var init := Initialize(memoryId, env.create);
    var id := init.memoryId.value;
    var split := ExpandAll(files, Splitting(env.seg, maxToken));
    var batches := Batches(split, BatchSize);
    var n := SplitCount(files, Splitting(env.seg, maxToken));
    assert n == |files|;
    var splitLog := SplitEvents(files[..n], |files|);
    var run := BatchRun(id, split, env);
    assert Pipeline(id, maxToken, files, env) == (run.0, splitLog + run.1);
    InitializeQuiet(memoryId, env.create);
    SplitEventsShow(files[..n], |files|, id);
    RunBatchesCalls(id, batches, 0, env.update, env.order, |split|);
    RunBatchesFailsIff(id, batches, 0, env.update, env.order, |split|);
    UpdatedFilesAppend(splitLog, run.1);
    UpdatedFilesAppend(init.log, splitLog + run.1);
    if run.0.Ok? {
      assert batches[..|batches|] == batches;
      BatchesFlatten(split, BatchSize);
    }
  }

  /** Every record `vectorize` sends to `updateMemory` has fewer tokens than `maxToken`. */
  lemma VectorizeUpdatesUnderBudget(memoryId: Option<string>, maxToken: int, files: seq<TFile>, env: Environment, k: nat)
    requires k < |UpdatedFiles(VectorizeRun(memoryId, maxToken, files, env).log)|
    ensures env.seg.tokens(UpdatedFiles(VectorizeRun(memoryId, maxToken, files, env).log)[k].content) < maxToken
  {
    var o := VectorizeRun(memoryId, maxToken, files, env);
    assert files != [];
    var init := Initialize(memoryId, env.create);
    if init.result.Err? {
      InitializeQuiet(memoryId, env.create);
      assert false;
    }
    var id := init.memoryId.value;
    var n := SplitCount(files, Splitting(env.seg, maxToken));
    if n < |files| {
      InitializeQuiet(memoryId, env.create);
      SplitEventsShow(files[..n], |files|, id);
      UpdatedFilesAppend(init.log, SplitEvents(files[..n], |files|));
      assert false;
    }
    var split := ExpandAll(files, Splitting(env.seg, maxToken));
    var batches := Batches(split, BatchSize);
    VectorizeUpdates(memoryId, maxToken, files, env);
    var s := Scheduled(batches, 0, env.update);
    FlattenPrefix(batches, s);
    BatchesFlatten(split, BatchSize);
    assert UpdatedFiles(o.log)[k] == split[k];
    SplittingLossless(env.seg, maxToken);
    SplittingBounded(env.seg, maxToken);
    ExpandAllUnderBudget(files, Splitting(env.seg, maxToken), env.seg.tokens, maxToken, k);
  }

  /**
   * A `vectorize` that resolves got past the empty-input check and the
   * memory initialisation, split every record, and returns the batch loop's
   * result after the initialisation and split events.
   */
  lemma {:induction false} VectorizeSucceeded(memoryId: Option<string>, maxToken: int, files: seq<TFile>, env: Environment)
    requires VectorizeRun(memoryId, maxToken, files, env).result.Ok?
    ensures files != [] && Initialize(memoryId, env.create).result.Ok?
    ensures Initialize(memoryId, env.create).memoryId.Some?
    ensures AllSplit(files, Splitting(env.seg, maxToken))
    ensures var o := VectorizeRun(memoryId, maxToken, files, env);
      var init := Initialize(memoryId, env.create);
      var run := BatchRun(init.memoryId.value, ExpandAll(files, Splitting(env.seg, maxToken)), env);
      && o.result == run.0
      && o.log == init.log + (SplitEvents(files, |files|) + run.1)
  {
    var init := Initialize(memoryId, env.create);
    var n := SplitCount(files, Splitting(env.seg, maxToken));
    assert n == |files|;
    assert files[..n] == files;
  }

  /**
   * Result: when `vectorize` resolves, it returns, batch after batch, the
   * records each batch appended; each block is a permutation of its batch's
   * saved pieces, and the whole result is a permutation of the pieces saved
   * in input order, which are the pieces with only `saved` set.
   */
  lemma {:induction false} VectorizeResult(memoryId: Option<string>, maxToken: int, files: seq<TFile>, env: Environment)
    requires ValidScheduler(env.order)
    requires VectorizeRun(memoryId, maxToken, files, env).result.Ok?
    ensures var o := VectorizeRun(memoryId, maxToken, files, env);
      var split := ExpandAll(files, Splitting(env.seg, maxToken));
      var batches := Batches(split, BatchSize);
      && o.result.value == Flatten(Blocks(batches, 0, env.update, env.order, |split|))
      && BlocksPermuteBatches(batches, 0, env.update, env.order, |split|)
      && multiset(o.result.value) == multiset(SavedBatches(batches, 0, env.update))
      && Strip(SavedBatches(batches, 0, env.update)) == Strip(split)
      && |o.result.value| == |split|
  {
    VectorizeSucceeded(memoryId, maxToken, files, env);
    var id := Initialize(memoryId, env.create).memoryId.value;
    var split := ExpandAll(files, Splitting(env.seg, maxToken));
    var batches := Batches(split, BatchSize);
    var value := RunBatches(id, batches, 0, env.update, env.order, |split|).0.value;
    RunBatchesResult(id, batches, 0, env.update, env.order, |split|);
    RunBatchesFailsIff(id, batches, 0, env.update, env.order, |split|);
    RunBatchesPermutation(batches, 0, env.update, env.order, |split|);
    BlocksPermute(batches, 0, env.update, env.order, |split|);
    SavedBatchesStrip(batches, 0, env.update);
    BatchesFlatten(split, BatchSize);
    assert |value| == |multiset(value)| == |SavedBatches(batches, 0, env.update)|;
  }

  /**
   * Progress: when `vectorize` resolves, vectorize progress was reported,
   * with the count of pieces, for exactly the returned records in order.
   */
  lemma {:induction false} VectorizeProgress(memoryId: Option<string>, maxToken: int, files: seq<TFile>, env: Environment)
    requires VectorizeRun(memoryId, maxToken, files, env).result.Ok?
    ensures var o := VectorizeRun(memoryId, maxToken, files, env);
      var split := ExpandAll(files, Splitting(env.seg, maxToken));
      && Progressed(o.log, Vectorize) == o.result.value
      && TotalsAre(o.log, Vectorize, |split|)
  {
    VectorizeSucceeded(memoryId, maxToken, files, env);
    var init := Initialize(memoryId, env.create);
    var id := init.memoryId.value;
    var split := ExpandAll(files, Splitting(env.seg, maxToken));
    var batches := Batches(split, BatchSize);
    var splitLog := SplitEvents(files, |files|);
    var run := BatchRun(id, split, env);
    InitializeQuiet(memoryId, env.create);
    SplitEventsShow(files, |files|, id);
    RunBatchesProgress(id, batches, 0, env.update, env.order, |split|);
    NoProgressTotals(init.log, Vectorize, |split|);
    NoProgressTotals(splitLog, Vectorize, |split|);
    ProgressedAppend(splitLog, run.1, Vectorize);
    ProgressedAppend(init.log, splitLog + run.1, Vectorize);
    TotalsAppend(splitLog, run.1, Vectorize, |split|);
    TotalsAppend(init.log, splitLog + run.1, Vectorize, |split|);
  }
}

/**
 * The batch loop of `vectorize` (lib/index.ts): batches run one after the
 * other; within a batch every `updateMemory` call is issued, in input order,
 * before any of them settles (the synchronous part of `batch.map`), and the
 * calls then settle in an order the environment chooses. Each resolved call
 * appends `{...file, saved: Boolean(updated)}` to the result and reports
 * progress; a rejected call makes `Promise.all` reject, and no later batch
 * is started. In the model, the rejection is acted on once the batch has
 * settled.
 */
module Dispatch {
  import opened Base
  import opened Records

  /** How a promise settles. */
  datatype Reply<+T> = Resolved(value: T) | Rejected

  datatype Step = Split | Vectorize

  /** What the pipeline does to the outside world, in order. */
  datatype Event =
    | CreateMemory
    | UpdateMemory(memoryId: string, file: TFile)
    | Progress(file: TFile, total: nat, step: Step)

  /**
   * The `updateMemory` oracle: the reply to the call for position `j` of batch
   * `b`, given the record sent; a resolved reply carries `Boolean(updated)`.
   */
  type Updater = (nat, nat, TFile) -> Reply<bool>

  /** The positions `0 .. n-1` in order. */
  function Range(n: nat): (r: seq<nat>)
    ensures |r| == n
    ensures forall i :: 0 <= i < n ==> r[i] == i
  {
    if n == 0 then [] else Range(n - 1) + [n - 1]
  }

  /** `p` lists every position of an `n`-element batch exactly once. */
  ghost predicate IsOrdering(p: seq<nat>, n: nat)
  {
    multiset(p) == multiset(Range(n))
  }

  /** The order in which the calls of batch `b` (of `n` records) settle. */
  type Scheduler = (nat, nat) -> seq<nat>

  /** A scheduler lets every call of every batch settle exactly once. */
  ghost predicate ValidScheduler(order: Scheduler)
  {
    forall b: nat, n: nat :: IsOrdering(order(b, n), n)
  }

  /** The record after `saved` is set: `{...file, saved: Boolean(updated)}`. */
  function Saved(file: TFile, updated: bool): (r: TFile)
    ensures r.path == file.path && r.content == file.content
    ensures r.page == file.page && r.filename == file.filename
    ensures r.saved == Some(updated)
  {
    file.(saved := Some(updated))
  }

  /** The record at position `j` of batch `b` as appended when its update resolves. */
  function SavedAt(batch: seq<TFile>, b: nat, update: Updater, j: nat): TFile
    requires j < |batch|
  {
    var reply := update(b, j, batch[j]);
    Saved(batch[j], reply.Resolved? && reply.value)
  }

  /**
   * The saved records for the positions `p` of the batch, in that order
   * (a position outside the batch contributes nothing).
   */
  function SavedIn(batch: seq<TFile>, b: nat, update: Updater, p: seq<nat>): seq<TFile>
    decreases |p|
  {
    if p == [] then []
    else
      var j := p[|p| - 1];
      SavedIn(batch, b, update, p[..|p| - 1]) + (if j < |batch| then [SavedAt(batch, b, update, j)] else [])
  }

  /** The saved records of a batch in input order. */
  function InOrder(batch: seq<TFile>, b: nat, update: Updater): seq<TFile>
  {
    SavedIn(batch, b, update, Range(|batch|))
  }

  /** The first `n` positions in order give the first `n` saved records, position by position. */
  lemma {:induction false} InOrderLength(batch: seq<TFile>, b: nat, update: Updater, n: nat)
    requires n <= |batch|
    ensures |SavedIn(batch, b, update, Range(n))| == n
    ensures forall j :: 0 <= j < n ==> SavedIn(batch, b, update, Range(n))[j] == SavedAt(batch, b, update, j)
  {
    if n > 0 {
      var p := Range(n);
      assert p == Range(n - 1) + [n - 1];
      assert p[..n - 1] == Range(n - 1);
      var init := SavedIn(batch, b, update, Range(n - 1));
      assert SavedIn(batch, b, update, p) == init + [SavedAt(batch, b, update, n - 1)];
      InOrderLength(batch, b, update, n - 1);
      forall j | 0 <= j < n
        ensures SavedIn(batch, b, update, p)[j] == SavedAt(batch, b, update, j)
      {
        if j < n - 1 {
          assert SavedIn(batch, b, update, p)[j] == init[j];
        }
      }
    }
  }

  /** Some update of batch `b` rejects. */
  ghost predicate Rejects(batch: seq<TFile>, b: nat, update: Updater)
  {
    exists j :: 0 <= j < |batch| && update(b, j, batch[j]).Rejected?
  }

  /** The `updateMemory` calls `batch.map` issues, in input order. */
  function Calls(id: string, batch: seq<TFile>): (r: seq<Event>)
    ensures |r| == |batch|
  {
    seq(|batch|, j requires 0 <= j < |batch| => UpdateMemory(id, batch[j]))
  }

  /**
   * The settling of the calls of batch `b` in the order `order`: the records
   * appended to the result, and the progress events fired, one per resolved call.
   */
  function Completions(batch: seq<TFile>, b: nat, update: Updater, order: seq<nat>, total: nat)
    : (r: (seq<TFile>, seq<Event>))
    ensures |r.1| == |r.0| <= |order|
    ensures forall k :: 0 <= k < |r.0| ==> r.1[k] == Progress(r.0[k], total, Vectorize)
    decreases |order|
  {
    if order == [] then ([], [])
    else
      var prev := Completions(batch, b, update, order[..|order| - 1], total);
      var j := order[|order| - 1];
      if j < |batch| && update(b, j, batch[j]).Resolved? then
        var f := SavedAt(batch, b, update, j);
        (prev.0 + [f], prev.1 + [Progress(f, total, Vectorize)])
      else prev
  }

  /** When every call resolves, the appended records are the saved records in settling order. */
  lemma {:induction false} CompletionsAllResolved(
    batch: seq<TFile>, b: nat, update: Updater, order: seq<nat>, total: nat)
    requires !Rejects(batch, b, update)
    ensures Completions(batch, b, update, order, total).0 == SavedIn(batch, b, update, order)
    decreases |order|
  {
    if order != [] {
      var j := order[|order| - 1];
      if j < |batch| {
        assert update(b, j, batch[j]).Resolved?;
      }
      CompletionsAllResolved(batch, b, update, order[..|order| - 1], total);
    }
  }

  lemma {:induction false} SavedInAppend(batch: seq<TFile>, b: nat, update: Updater, p: seq<nat>, q: seq<nat>)
    ensures SavedIn(batch, b, update, p + q) == SavedIn(batch, b, update, p) + SavedIn(batch, b, update, q)
    decreases |q|
  {
    if q == [] {
      assert p + q == p;
    } else {
      assert (p + q)[..|p + q| - 1] == p + q[..|q| - 1];
      SavedInAppend(batch, b, update, p, q[..|q| - 1]);
    }
  }

  lemma MultisetRemove(q: seq<nat>, i: nat)
    requires i < |q|
    ensures multiset(q[..i] + q[i + 1..]) == multiset(q) - multiset{q[i]}
  {
    assert q == q[..i] + [q[i]] + q[i + 1..];
  }

  /** Taking position `i` out of `q` takes its saved record out of the saved records of `q`. */
  lemma SavedInRemove(batch: seq<TFile>, b: nat, update: Updater, q: seq<nat>, i: nat)
    requires i < |q|
    ensures multiset(SavedIn(batch, b, update, q))
         == multiset(SavedIn(batch, b, update, q[..i] + q[i + 1..])) + multiset(SavedIn(batch, b, update, [q[i]]))
  {
    var front, back := q[..i], q[i + 1..];
    assert q == front + [q[i]] + back;
    SavedInAppend(batch, b, update, front, [q[i]]);
    SavedInAppend(batch, b, update, front + [q[i]], back);
    SavedInAppend(batch, b, update, front, back);
  }

  /** Reordering the positions reorders the saved records, and nothing else. */
  lemma {:induction false} SavedInPermutes(batch: seq<TFile>, b: nat, update: Updater, p: seq<nat>, q: seq<nat>)
    requires multiset(p) == multiset(q)
    ensures multiset(SavedIn(batch, b, update, p)) == multiset(SavedIn(batch, b, update, q))
    decreases |p|
  {
    if p != [] {
      var p', x := p[..|p| - 1], p[|p| - 1];
      assert p == p' + [x];
      assert x in multiset(q);
      var i :| 0 <= i < |q| && q[i] == x;
      var q' := q[..i] + q[i + 1..];
      MultisetRemove(q, i);
      assert multiset(p') == multiset(q');
      SavedInRemove(batch, b, update, q, i);
      SavedInPermutes(batch, b, update, p', q');
      SavedInAppend(batch, b, update, p', [x]);
    }
  }

  /**
   * A batch whose calls all resolve appends each of its records exactly once,
   * saved: a permutation of the batch in input order.
   */
  lemma CompletionsPermutation(batch: seq<TFile>, b: nat, update: Updater, order: seq<nat>, total: nat)
    requires IsOrdering(order, |batch|)
    requires !Rejects(batch, b, update)
    ensures multiset(Completions(batch, b, update, order, total).0) == multiset(InOrder(batch, b, update))
    ensures |Completions(batch, b, update, order, total).0| == |batch|
  {
    CompletionsAllResolved(batch, b, update, order, total);
    SavedInPermutes(batch, b, update, order, Range(|batch|));
    InOrderLength(batch, b, update, |batch|);
    assert |InOrder(batch, b, update)| == |multiset(InOrder(batch, b, update))|;
  }

  /** One batch: issue every call, then let them settle in the scheduler's order. */
  method DispatchBatch(id: string, batch: seq<TFile>, b: nat, update: Updater, order: Scheduler, total: nat)
    returns (done: seq<TFile>, events: seq<Event>, rejected: bool)
    ensures done == Completions(batch, b, update, order(b, |batch|), total).0
    ensures events == Calls(id, batch) + Completions(batch, b, update, order(b, |batch|), total).1
    ensures rejected <==> Rejects(batch, b, update)
  {
    var replies: seq<Reply<bool>> := [];
    events := [];
    rejected := false;
    for j := 0 to |batch|
      invariant |replies| == j
      invariant forall k :: 0 <= k < j ==> replies[k] == update(b, k, batch[k])
      invariant events == Calls(id, batch[..j])
      invariant rejected <==> exists k :: 0 <= k < j && replies[k].Rejected?
    {
      var reply := update(b, j, batch[j]);
      events := events + [UpdateMemory(id, batch[j])];
      replies := replies + [reply];
      rejected := rejected || reply.Rejected?;
    }
    assert batch[..|batch|] == batch;
    var p := order(b, |batch|);
    done := [];
    var settled: seq<Event> := [];
    for k := 0 to |p|
      invariant (done, settled) == Completions(batch, b, update, p[..k], total)
    {
      var j := p[k];
      assert p[..k + 1][..k] == p[..k];
      if j < |batch| && replies[j].Resolved? {
        var f := Saved(batch[j], replies[j].value);
        done := done + [f];
        settled := settled + [Progress(f, total, Vectorize)];
      }
    }
    assert p[..|p|] == p;
    events := events + settled;
  }

  /**
   * The batches from number `b` on: the result (the appended records, or the
   * rejection) and the events, stopping after the first batch that rejects.
   */
  ghost function RunBatches(id: string, batches: seq<seq<TFile>>, b: nat, update: Updater, order: Scheduler, total: nat)
    : (r: (Result<seq<TFile>>, seq<Event>))
    ensures r.0.Err? ==> r.0.error == UpdateMemoryRejected
    decreases |batches|
  {
    if batches == [] then (Ok([]), [])
    else
      var batch := batches[0];
      var c := Completions(batch, b, update, order(b, |batch|), total);
      var events := Calls(id, batch) + c.1;
      if Rejects(batch, b, update) then (Err(UpdateMemoryRejected), events)
      else
        Join(c.0, events, RunBatches(id, batches[1..], b + 1, update, order, total))
  }

  /** Results and events gathered so far, followed by those of the remaining batches. */
  function Join(acc: seq<TFile>, events: seq<Event>, rest: (Result<seq<TFile>>, seq<Event>))
    : (Result<seq<TFile>>, seq<Event>)
  {
    (if rest.0.Ok? then Ok(acc + rest.0.value) else rest.0, events + rest.1)
  }

  lemma JoinEmpty(x: (Result<seq<TFile>>, seq<Event>))
    ensures Join([], [], x) == x
  {
    if x.0.Ok? {
      assert [] + x.0.value == x.0.value;
    }
    assert [] + x.1 == x.1;
  }

  lemma JoinAssoc(acc: seq<TFile>, events: seq<Event>, acc': seq<TFile>, events': seq<Event>,
                  x: (Result<seq<TFile>>, seq<Event>))
    ensures Join(acc, events, Join(acc', events', x)) == Join(acc + acc', events + events', x)
  {
    if x.0.Ok? {
      assert acc + (acc' + x.0.value) == (acc + acc') + x.0.value;
    }
    assert events + (events' + x.1) == (events + events') + x.1;
  }

  /** One step of the batch loop, from batch `i` on. */
  lemma RunBatchesStep(id: string, batches: seq<seq<TFile>>, i: nat, update: Updater, order: Scheduler, total: nat)
    requires i < |batches|
    ensures var batch := batches[i];
      var c := Completions(batch, i, update, order(i, |batch|), total);
      RunBatches(id, batches[i..], i, update, order, total)
        == if Rejects(batch, i, update) then (Err(UpdateMemoryRejected), Calls(id, batch) + c.1)
           else Join(c.0, Calls(id, batch) + c.1, RunBatches(id, batches[i + 1..], i + 1, update, order, total))
  {
    assert batches[i..][0] == batches[i] && batches[i..][1..] == batches[i + 1..];
  }

  /** The `for` loop over the batches of `vectorize`. */
  method SendBatches(id: string, batches: seq<seq<TFile>>, update: Updater, order: Scheduler, total: nat)
    returns (r: Result<seq<TFile>>, events: seq<Event>)
    ensures (r, events) == RunBatches(id, batches, 0, update, order, total)
  {
    var result: seq<TFile> := [];
    events := [];
    var i := 0;
    assert batches[0..] == batches;
    JoinEmpty(RunBatches(id, batches, 0, update, order, total));
    while i < |batches|
      invariant 0 <= i <= |batches|
      invariant Join(result, events, RunBatches(id, batches[i..], i, update, order, total))
             == RunBatches(id, batches, 0, update, order, total)
    {
      var done, settled, rejected := DispatchBatch(id, batches[i], i, update, order, total);
      RunBatchesStep(id, batches, i, update, order, total);
      if rejected {
        return Err(UpdateMemoryRejected), events + settled;
      }
      JoinAssoc(result, events, done, settled, RunBatches(id, batches[i + 1..], i + 1, update, order, total));
      events := events + settled;
      result := result + done;
      i := i + 1;
    }
    assert batches[i..] == [];
    assert result + [] == result && events + [] == events;
    r := Ok(result);
  }

  /** The files sent to `updateMemory`, in call order. */
  function UpdatedFiles(events: seq<Event>): seq<TFile>
  {
    if events == [] then []
    else
      var head := if events[0].UpdateMemory? then [events[0].file] else [];
      head + UpdatedFiles(events[1..])
  }

  /** The files progress was reported for with `step`, in order. */
  function Progressed(events: seq<Event>, step: Step): seq<TFile>
  {
    if events == [] then []
    else
      var head := if events[0].Progress? && events[0].step == step then [events[0].file] else [];
      head + Progressed(events[1..], step)
  }

  /** Every progress event for `step` reports `total`. */
  ghost predicate TotalsAre(events: seq<Event>, step: Step, total: nat)
  {
    forall k :: 0 <= k < |events| && events[k].Progress? && events[k].step == step ==> events[k].total == total
  }

  lemma {:induction false} UpdatedFilesAppend(a: seq<Event>, b: seq<Event>)
    ensures UpdatedFiles(a + b) == UpdatedFiles(a) + UpdatedFiles(b)
  {
    if a != [] {
      assert (a + b)[1..] == a[1..] + b;
      UpdatedFilesAppend(a[1..], b);
    } else {
      assert a + b == b;
    }
  }

  lemma {:induction false} ProgressedAppend(a: seq<Event>, b: seq<Event>, step: Step)
    ensures Progressed(a + b, step) == Progressed(a, step) + Progressed(b, step)
  {
    if a != [] {
      assert (a + b)[1..] == a[1..] + b;
      ProgressedAppend(a[1..], b, step);
    } else {
      assert a + b == b;
    }
  }

  lemma {:induction false} UpdatedFilesOfCalls(id: string, batch: seq<TFile>)
    ensures UpdatedFiles(Calls(id, batch)) == batch
    decreases |batch|
  {
    if batch != [] {
      assert Calls(id, batch)[1..] == Calls(id, batch[1..]);
      UpdatedFilesOfCalls(id, batch[1..]);
    }
  }

  lemma {:induction false} ProgressedOfCalls(id: string, batch: seq<TFile>, step: Step)
    ensures Progressed(Calls(id, batch), step) == []
    decreases |batch|
  {
    if batch != [] {
      assert Calls(id, batch)[1..] == Calls(id, batch[1..]);
      ProgressedOfCalls(id, batch[1..], step);
    }
  }

  /** The settling events of a batch are progress events for exactly the appended records. */
  lemma {:induction false} SettledEvents(events: seq<Event>, files: seq<TFile>, total: nat)
    requires |events| == |files|
    requires forall k :: 0 <= k < |files| ==> events[k] == Progress(files[k], total, Vectorize)
    ensures UpdatedFiles(events) == []
    ensures Progressed(events, Vectorize) == files
    ensures Progressed(events, Split) == []
    ensures TotalsAre(events, Vectorize, total)
    decreases |events|
  {
    if events != [] {
      SettledEvents(events[1..], files[1..], total);
    }
  }

  /** The number of leading batches none of whose updates rejects. */
  ghost function FirstRejected(batches: seq<seq<TFile>>, b: nat, update: Updater): (n: nat)
    ensures n <= |batches|
    ensures forall k :: 0 <= k < n ==> !Rejects(batches[k], b + k, update)
    ensures n < |batches| ==> Rejects(batches[n], b + n, update)
    decreases |batches|
  {
    if batches == [] || Rejects(batches[0], b, update) then 0
    else 1 + FirstRejected(batches[1..], b + 1, update)
  }

  /** The batches that get scheduled: all of them, or up to and including the first rejecting one. */
  ghost function Scheduled(batches: seq<seq<TFile>>, b: nat, update: Updater): nat
  {
    var n := FirstRejected(batches, b, update);
    if n < |batches| then n + 1 else n
  }

  /** What the events of one batch show: its calls, then one progress event per appended record. */
  lemma BatchEvents(id: string, batch: seq<TFile>, b: nat, update: Updater, order: Scheduler, total: nat)
    ensures var c := Completions(batch, b, update, order(b, |batch|), total);
      var events := Calls(id, batch) + c.1;
      && UpdatedFiles(events) == batch
      && Progressed(events, Split) == []
      && Progressed(events, Vectorize) == c.0
      && TotalsAre(events, Vectorize, total)
  {
    var c := Completions(batch, b, update, order(b, |batch|), total);
    SettledEvents(c.1, c.0, total);
    UpdatedFilesOfCalls(id, batch);
    UpdatedFilesAppend(Calls(id, batch), c.1);
    ProgressedOfCalls(id, batch, Split);
    ProgressedOfCalls(id, batch, Vectorize);
    ProgressedAppend(Calls(id, batch), c.1, Split);
    ProgressedAppend(Calls(id, batch), c.1, Vectorize);
    TotalsAppend(Calls(id, batch), c.1, Vectorize, total);
  }

  /** The loop fails exactly when some batch rejects. */
  lemma {:induction false} RunBatchesFailsIff(
    id: string, batches: seq<seq<TFile>>, b: nat, update: Updater, order: Scheduler, total: nat)
    ensures RunBatches(id, batches, b, update, order, total).0.Err? <==> FirstRejected(batches, b, update) < |batches|
    decreases |batches|
  {
    if batches != [] && !Rejects(batches[0], b, update) {
      RunBatchesFailsIff(id, batches[1..], b + 1, update, order, total);
    }
  }

  /**
   * The records sent to `updateMemory` are those of every batch up to and
   * including the first rejecting one, and of no later batch.
   */
  lemma {:induction false} RunBatchesCalls(
    id: string, batches: seq<seq<TFile>>, b: nat, update: Updater, order: Scheduler, total: nat)
    ensures UpdatedFiles(RunBatches(id, batches, b, update, order, total).1)
         == Flatten(batches[..Scheduled(batches, b, update)])
    decreases |batches|
  {
    if batches == [] {
      assert batches[..0] == [];
    } else {
      var batch := batches[0];
      var events := Calls(id, batch) + Completions(batch, b, update, order(b, |batch|), total).1;
      BatchEvents(id, batch, b, update, order, total);
      if Rejects(batch, b, update) {
        assert batches[..1] == [batch];
        FlattenSingle(batch);
      } else {
        var rest := RunBatches(id, batches[1..], b + 1, update, order, total);
        assert RunBatches(id, batches, b, update, order, total).1 == events + rest.1;
        RunBatchesCalls(id, batches[1..], b + 1, update, order, total);
        UpdatedFilesAppend(events, rest.1);
        var s := Scheduled(batches[1..], b + 1, update);
        assert Scheduled(batches, b, update) == s + 1;
        assert batches[..s + 1][0] == batch;
        assert batches[..s + 1][1..] == batches[1..][..s];
      }
    }
  }

  /**
   * Every progress event of the loop is a vectorize event reporting `total`;
   * when the loop succeeds they report exactly the result, in order.
   */
  lemma {:induction false} RunBatchesProgress(
    id: string, batches: seq<seq<TFile>>, b: nat, update: Updater, order: Scheduler, total: nat)
    ensures Progressed(RunBatches(id, batches, b, update, order, total).1, Split) == []
    ensures TotalsAre(RunBatches(id, batches, b, update, order, total).1, Vectorize, total)
    ensures RunBatches(id, batches, b, update, order, total).0.Ok? ==>
      Progressed(RunBatches(id, batches, b, update, order, total).1, Vectorize)
        == RunBatches(id, batches, b, update, order, total).0.value
    decreases |batches|
  {
    if batches != [] {
      var batch := batches[0];
      var c := Completions(batch, b, update, order(b, |batch|), total);
      var events := Calls(id, batch) + c.1;
      BatchEvents(id, batch, b, update, order, total);
      if !Rejects(batch, b, update) {
        var rest := RunBatches(id, batches[1..], b + 1, update, order, total);
        assert RunBatches(id, batches, b, update, order, total).1 == events + rest.1;
        RunBatchesProgress(id, batches[1..], b + 1, update, order, total);
        ProgressedAppend(events, rest.1, Split);
        ProgressedAppend(events, rest.1, Vectorize);
        TotalsAppend(events, rest.1, Vectorize, total);
      }
    }
  }

  /** The records each batch appends, batch by batch. */
  ghost function Blocks(batches: seq<seq<TFile>>, b: nat, update: Updater, order: Scheduler, total: nat)
    : (r: seq<seq<TFile>>)
    ensures |r| == |batches|
    decreases |batches|
  {
    if batches == [] then []
    else
      var block := Completions(batches[0], b, update, order(b, |batches[0]|), total).0;
      [block] + Blocks(batches[1..], b + 1, update, order, total)
  }

  /** Block `k` is what batch `k` appends. */
  lemma {:induction false} BlocksAt(batches: seq<seq<TFile>>, b: nat, update: Updater, order: Scheduler, total: nat, k: nat)
    requires k < |batches|
    ensures Blocks(batches, b, update, order, total)[k]
         == Completions(batches[k], b + k, update, order(b + k, |batches[k]|), total).0
    decreases k
  {
    if k > 0 {
      var rest := Blocks(batches[1..], b + 1, update, order, total);
      assert Blocks(batches, b, update, order, total)[k] == rest[k - 1];
      BlocksAt(batches[1..], b + 1, update, order, total, k - 1);
      assert batches[1..][k - 1] == batches[k];
    }
  }

  /** A successful loop returns the records of each batch, batch after batch. */
  lemma {:induction false} RunBatchesResult(
    id: string, batches: seq<seq<TFile>>, b: nat, update: Updater, order: Scheduler, total: nat)
    requires RunBatches(id, batches, b, update, order, total).0.Ok?
    ensures RunBatches(id, batches, b, update, order, total).0.value == Flatten(Blocks(batches, b, update, order, total))
    decreases |batches|
  {
    if batches != [] {
      var c := Completions(batches[0], b, update, order(b, |batches[0]|), total);
      var blocks := Blocks(batches, b, update, order, total);
      RunBatchesResult(id, batches[1..], b + 1, update, order, total);
      assert blocks[0] == c.0;
      assert blocks[1..] == Blocks(batches[1..], b + 1, update, order, total);
    }
  }

  lemma TotalsAppend(a: seq<Event>, c: seq<Event>, step: Step, total: nat)
    requires TotalsAre(a, step, total) && TotalsAre(c, step, total)
    ensures TotalsAre(a + c, step, total)
  {
    forall k | 0 <= k < |a + c| && (a + c)[k].Progress? && (a + c)[k].step == step
      ensures (a + c)[k].total == total
    {
      if k >= |a| {
        assert (a + c)[k] == c[k - |a|];
      }
    }
  }

  /** Events that report no progress for `step` report any total for it. */
  lemma {:induction false} NoProgressTotals(events: seq<Event>, step: Step, total: nat)
    requires Progressed(events, step) == []
    ensures TotalsAre(events, step, total)
    decreases |events|
  {
    if events != [] {
      NoProgressTotals(events[1..], step, total);
      assert forall k :: 1 <= k < |events| ==> events[k] == events[1..][k - 1];
    }
  }

  /** A record with its `saved` flag forgotten. */
  function Unsaved(file: TFile): (r: TFile)
    ensures r.path == file.path && r.content == file.content
    ensures r.page == file.page && r.filename == file.filename
    ensures r.saved == None
  {
    file.(saved := None)
  }

  /** The records with their `saved` flags forgotten. */
  function Strip(files: seq<TFile>): (r: seq<TFile>)
    ensures |r| == |files|
    ensures forall k :: 0 <= k < |files| ==> r[k] == Unsaved(files[k])
  {
    seq(|files|, k requires 0 <= k < |files| => Unsaved(files[k]))
  }

  /** The saved records of every batch from number `b` on, each batch in input order. */
  function SavedBatches(batches: seq<seq<TFile>>, b: nat, update: Updater): seq<TFile>
    decreases |batches|
  {
    if batches == [] then []
    else InOrder(batches[0], b, update) + SavedBatches(batches[1..], b + 1, update)
  }

  lemma StripAppend(a: seq<TFile>, c: seq<TFile>)
    ensures Strip(a + c) == Strip(a) + Strip(c)
  {
  }

  /** Saving the records of a batch in input order changes nothing but their `saved` flags. */
  lemma StripInOrder(batch: seq<TFile>, b: nat, update: Updater)
    ensures Strip(InOrder(batch, b, update)) == Strip(batch)
  {
    InOrderLength(batch, b, update, |batch|);
  }

  /** Saving changes nothing but the `saved` flag of each record, and keeps the order. */
  lemma {:induction false} SavedBatchesStrip(batches: seq<seq<TFile>>, b: nat, update: Updater)
    ensures Strip(SavedBatches(batches, b, update)) == Strip(Flatten(batches))
    decreases |batches|
  {
    if batches != [] {
      var batch := batches[0];
      SavedBatchesStrip(batches[1..], b + 1, update);
      StripInOrder(batch, b, update);
      StripAppend(InOrder(batch, b, update), SavedBatches(batches[1..], b + 1, update));
      StripAppend(batch, Flatten(batches[1..]));
    }
  }

  /**
   * When no batch rejects, the result of the loop is a permutation of the
   * saved records of all batches in input order.
   */
  lemma {:induction false} RunBatchesPermutation(
    batches: seq<seq<TFile>>, b: nat, update: Updater, order: Scheduler, total: nat)
    requires ValidScheduler(order)
    requires FirstRejected(batches, b, update) == |batches|
    ensures multiset(Flatten(Blocks(batches, b, update, order, total))) == multiset(SavedBatches(batches, b, update))
    decreases |batches|
  {
    if batches != [] {
      var head := Completions(batches[0], b, update, order(b, |batches[0]|), total).0;
      var tail := Blocks(batches[1..], b + 1, update, order, total);
      assert Flatten(Blocks(batches, b, update, order, total)) == head + Flatten(tail) by {
        var blocks := Blocks(batches, b, update, order, total);
        assert blocks[0] == head && blocks[1..] == tail;
      }
      assert multiset(head) == multiset(InOrder(batches[0], b, update)) by {
        assert IsOrdering(order(b, |batches[0]|), |batches[0]|);
        CompletionsPermutation(batches[0], b, update, order(b, |batches[0]|), total);
      }
      assert multiset(Flatten(tail)) == multiset(SavedBatches(batches[1..], b + 1, update)) by {
        assert FirstRejected(batches[1..], b + 1, update) == |batches[1..]|;
        RunBatchesPermutation(batches[1..], b + 1, update, order, total);
      }
      assert SavedBatches(batches, b, update)
          == InOrder(batches[0], b, update) + SavedBatches(batches[1..], b + 1, update);
    }
  }

  /** Every block is a permutation of its batch's saved records in input order, one per record. */
  ghost predicate BlocksPermuteBatches(
    batches: seq<seq<TFile>>, b: nat, update: Updater, order: Scheduler, total: nat)
  {
    forall k :: 0 <= k < |batches| ==>
      && multiset(Blocks(batches, b, update, order, total)[k]) == multiset(InOrder(batches[k], b + k, update))
      && |Blocks(batches, b, update, order, total)[k]| == |batches[k]|
  }

  /** When no batch rejects, the result changes order only within a batch. */
  lemma {:induction false} BlocksPermute(
    batches: seq<seq<TFile>>, b: nat, update: Updater, order: Scheduler, total: nat)
    requires ValidScheduler(order)
    requires FirstRejected(batches, b, update) == |batches|
    ensures BlocksPermuteBatches(batches, b, update, order, total)
  {
    forall k | 0 <= k < |batches|
      ensures multiset(Blocks(batches, b, update, order, total)[k]) == multiset(InOrder(batches[k], b + k, update))
      ensures |Blocks(batches, b, update, order, total)[k]| == |batches[k]|
    {
      BlockPermutation(batches, b, update, order, total, k);
    }
  }

  /**
   * When batch `k` lets every call settle once and none rejects, what it
   * appends is a permutation of its saved records in input order, one per record.
   */
  lemma {:induction false} BlockPermutation(
    batches: seq<seq<TFile>>, b: nat, update: Updater, order: Scheduler, total: nat, k: nat)
    requires k < |batches|
    requires IsOrdering(order(b + k, |batches[k]|), |batches[k]|)
    requires !Rejects(batches[k], b + k, update)
    ensures multiset(Blocks(batches, b, update, order, total)[k]) == multiset(InOrder(batches[k], b + k, update))
    ensures |Blocks(batches, b, update, order, total)[k]| == |batches[k]|
  {
    var batch := batches[k];
    BlocksAt(batches, b, update, order, total, k);
    BlockOfBatch(batch, b + k, update, order(b + k, |batch|), total, Blocks(batches, b, update, order, total)[k]);
  }

  /** `CompletionsPermutation` for the records a batch appended in the order `p`, named as `block`. */
  lemma {:induction false} BlockOfBatch(batch: seq<TFile>, b: nat, update: Updater, p: seq<nat>, total: nat, block: seq<TFile>)
    requires IsOrdering(p, |batch|)
    requires !Rejects(batch, b, update)
    requires block == Completions(batch, b, update, p, total).0
    ensures multiset(block) == multiset(InOrder(batch, b, update))
    ensures |block| == |batch|
  {
    CompletionsPermutation(batch, b, update, p, total);
  }

  /** Every `updateMemory` call in `events` goes to memory `id`, and none of them is a `createMemory`. */
  ghost predicate OnlyUpdates(events: seq<Event>, id: string)
  {
    forall k :: 0 <= k < |events| ==> !events[k].CreateMemory? && (events[k].UpdateMemory? ==> events[k].memoryId == id)
  }

  lemma OnlyUpdatesAppend(a: seq<Event>, c: seq<Event>, id: string)
    requires OnlyUpdates(a, id) && OnlyUpdates(c, id)
    ensures OnlyUpdates(a + c, id)
  {
    forall k | 0 <= k < |a + c|
      ensures !(a + c)[k].CreateMemory? && ((a + c)[k].UpdateMemory? ==> (a + c)[k].memoryId == id)
    {
      if k >= |a| {
        assert (a + c)[k] == c[k - |a|];
      }
    }
  }

  /** The batch loop never creates a memory and sends every update to the memory `id`. */
  lemma {:induction false} RunBatchesOnlyUpdates(
    id: string, batches: seq<seq<TFile>>, b: nat, update: Updater, order: Scheduler, total: nat)
    ensures OnlyUpdates(RunBatches(id, batches, b, update, order, total).1, id)
    decreases |batches|
  {
    if batches != [] {
      var batch := batches[0];
      var c := Completions(batch, b, update, order(b, |batch|), total);
      assert OnlyUpdates(Calls(id, batch), id);
      assert OnlyUpdates(c.1, id);
      OnlyUpdatesAppend(Calls(id, batch), c.1, id);
      if !Rejects(batch, b, update) {
        var rest := RunBatches(id, batches[1..], b + 1, update, order, total);
        RunBatchesOnlyUpdates(id, batches[1..], b + 1, update, order, total);
        OnlyUpdatesAppend(Calls(id, batch) + c.1, rest.1, id);
      }
    }
  }
}

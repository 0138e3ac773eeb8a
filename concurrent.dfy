/**
 * The concurrent driver of 12.py: one pipeline per (account, batch) pair,
 * and a fold of the pipelines' outcomes into one result list and a count of
 * successful batches.
 *
 * The pipelines are run in order, one after the other: `asyncio.gather`
 * returns its results in task order, so the fold sees the same sequence.
 * What a pipeline does is the parameter `run`.
 */
module Concurrent {
  import opened Values
  import opened Batches

  /** What `asyncio.gather(..., return_exceptions=True)` yields for a task:
      the exception it raised or the value it returned. */
  datatype TaskOutcome = Raised(message: string) | Returned(value: Json)

  /** One pipeline: the account, its batch and the 1-based batch number. */
  datatype Task<A> = Task(account: A, batch: seq<string>, number: nat)

  /** `isinstance(result, list) and result` */
  predicate Succeeded(o: TaskOutcome) {
    o.Returned? && o.value.List? && o.value.items != []
  }

  /** What an outcome adds to `all_results`. */
  function Contribution(o: TaskOutcome): (c: seq<Json>)
    ensures Succeeded(o) <==> c != []
    ensures Succeeded(o) ==> c == o.value.items
  {
    if Succeeded(o) then o.value.items else []
  }

  /** `all_results` after the fold over `outs`. */
  function AllResults(outs: seq<TaskOutcome>): seq<Json>
    decreases |outs|
  {
    if outs == [] then [] else AllResults(outs[..|outs| - 1]) + Contribution(outs[|outs| - 1])
  }

  /** `successful_batches` after the fold over `outs`. */
  function SuccessCount(outs: seq<TaskOutcome>): nat
    decreases |outs|
  {
    if outs == [] then 0
    else SuccessCount(outs[..|outs| - 1]) + (if Succeeded(outs[|outs| - 1]) then 1 else 0)
  }

  /** `process_all_batches_concurrent`: build one task per pair, run them,
      and fold their outcomes. */
  method ProcessAllBatchesConcurrent<A>(accounts: seq<A>, batches: seq<seq<string>>, run: Task<A> -> TaskOutcome)
    returns (allResults: seq<Json>, successful: nat, tasks: seq<Task<A>>, outcomes: seq<TaskOutcome>)
    ensures |tasks| == Min(|accounts|, |batches|)
    ensures forall i :: 0 <= i < |tasks| ==> tasks[i] == Task(accounts[i], batches[i], i + 1)
    ensures |outcomes| == |tasks| && forall i :: 0 <= i < |tasks| ==> outcomes[i] == run(tasks[i])
    ensures allResults == AllResults(outcomes)
    ensures successful == SuccessCount(outcomes)
  {
    var numToProcess := Min(|accounts|, |batches|);
    tasks := [];
    for i := 0 to numToProcess
      invariant |tasks| == i
      invariant forall k :: 0 <= k < i ==> tasks[k] == Task(accounts[k], batches[k], k + 1)
    {
      tasks := tasks + [Task(accounts[i], batches[i], i + 1)];
    }
    outcomes := seq(|tasks|, k requires 0 <= k < |tasks| => run(tasks[k]));
    allResults, successful := [], 0;
    for i := 0 to |outcomes|
      invariant allResults == AllResults(outcomes[..i])
      invariant successful == SuccessCount(outcomes[..i])
    {
      assert outcomes[..i + 1][..i] == outcomes[..i];
      var result := outcomes[i];
      if result.Raised? {
      } else if result.value.List? && result.value.items != [] {
        allResults := allResults + result.value.items;
        successful := successful + 1;
      }
    }
    assert outcomes[..|outcomes|] == outcomes;
  }

  /** `run_concurrent_scraping`: batches of 50 profile identifiers. */
  method RunConcurrentScraping<A>(accounts: seq<A>, profileIds: seq<string>, run: Task<A> -> TaskOutcome)
    returns (allResults: seq<Json>, tasks: seq<Task<A>>, outcomes: seq<TaskOutcome>)
    ensures |tasks| == Min(|accounts|, |Chunks(profileIds, 50)|)
    ensures forall i :: 0 <= i < |tasks| ==> tasks[i].batch == Chunks(profileIds, 50)[i] && tasks[i].account == accounts[i]
    ensures |outcomes| == |tasks| && forall i :: 0 <= i < |tasks| ==> outcomes[i] == run(tasks[i])
    ensures allResults == AllResults(outcomes)
  {
    var batches := Chunks(profileIds, 50);
    var successful;
    allResults, successful, tasks, outcomes := ProcessAllBatchesConcurrent(accounts, batches, run);
  }

  // ---------------------------------------------------------------------
  // Properties of the fold

  /** The results are the successful batches' lists, in batch order. */
  lemma {:induction false} AllResultsIsConcat(outs: seq<TaskOutcome>)
    ensures AllResults(outs) == Concat(seq(|outs|, i requires 0 <= i < |outs| => Contribution(outs[i])))
    decreases |outs|
  {
    if outs != [] {
      var init := outs[..|outs| - 1];
      AllResultsIsConcat(init);
      var cs := seq(|outs|, i requires 0 <= i < |outs| => Contribution(outs[i]));
      assert cs[..|cs| - 1] == seq(|init|, i requires 0 <= i < |init| => Contribution(init[i]));
    }
  }

  /** Folding two runs of outcomes one after the other. */
  lemma {:induction false} FoldAppend(a: seq<TaskOutcome>, b: seq<TaskOutcome>)
    ensures AllResults(a + b) == AllResults(a) + AllResults(b)
    ensures SuccessCount(a + b) == SuccessCount(a) + SuccessCount(b)
    decreases |b|
  {
    if b == [] {
      assert a + b == a;
    } else {
      assert (a + b)[..|a + b| - 1] == a + b[..|b| - 1];
      FoldAppend(a, b[..|b| - 1]);
    }
  }

  /** The output is as long as the successful lists together. */
  lemma ResultCount(outs: seq<TaskOutcome>)
    ensures |AllResults(outs)| == TotalLength(seq(|outs|, i requires 0 <= i < |outs| => Contribution(outs[i])))
  {
    AllResultsIsConcat(outs);
    ConcatLength(seq(|outs|, i requires 0 <= i < |outs| => Contribution(outs[i])));
  }

  /** At most every batch succeeds, and a batch counts as successful exactly
      when it adds results, so there are results iff some batch succeeded. */
  lemma {:induction false} SuccessBounds(outs: seq<TaskOutcome>)
    ensures SuccessCount(outs) <= |outs|
    ensures SuccessCount(outs) <= |AllResults(outs)|
    ensures SuccessCount(outs) == 0 <==> AllResults(outs) == []
    decreases |outs|
  {
    if outs != [] {
      SuccessBounds(outs[..|outs| - 1]);
    }
  }

  /** When every batch raised or came back empty, nothing is collected. */
  lemma {:induction false} NothingSucceeded(outs: seq<TaskOutcome>)
    requires forall i :: 0 <= i < |outs| ==> !Succeeded(outs[i])
    ensures AllResults(outs) == [] && SuccessCount(outs) == 0
    decreases |outs|
  {
    if outs != [] {
      NothingSucceeded(outs[..|outs| - 1]);
    }
  }
}

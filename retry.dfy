/** The attempt loop shared by `fetch_data` and `fetch_sorter_rank_data`: up
    to `max_attempts` requests; a decoded reply ends the loop with success, a
    JSON decoding error ends it with failure at once, and a request error is
    followed by a sleep and another attempt unless it was the last one, which
    ends with failure. The server is a sequence `outcomes` giving the outcome of
    each attempt in turn; the sleeps are counted instead of taken. */
module Retry {
  import opened Api

  /** The prefix of the `error` text of a JSON decoding failure. */
  const DecodeErrorPrefix := "JSON解析失败: "

  /** What the loop ends with: the record body (None when the loop body never
      ran and the function falls through), the requests made and the sleeps
      taken. */
  datatype FetchRun<D> = FetchRun(outcome: Option<Body<D>>, attempts: nat, sleeps: nat)

  /** The rest of the loop from attempt `k` (counting from 0) on. */
  function RunFrom<D>(outcomes: seq<Attempt<D>>, maxAttempts: int, k: nat): FetchRun<D>
    requires maxAttempts <= |outcomes|
    decreases maxAttempts - k
  {
    if k >= maxAttempts then FetchRun(None, k, k)
    else match outcomes[k]
      case Ok(d) => FetchRun(Some(Payload(d)), k + 1, k)
      case DecodeErr(e) => FetchRun(Some(Error(DecodeErrorPrefix + e)), k + 1, k)
      case ReqErr(e) =>
        if k < maxAttempts - 1 then RunFrom(outcomes, maxAttempts, k + 1)
        else FetchRun(Some(Error(e)), k + 1, k)
  }

  function Run<D>(outcomes: seq<Attempt<D>>, maxAttempts: int): FetchRun<D>
    requires maxAttempts <= |outcomes|
  {
    RunFrom(outcomes, maxAttempts, 0)
  }

  /** The method form of the loop, as both fetch functions write it; the
      record is stamped with `timestamp`. */
  method FetchWithRetry<Q, D>(request: Q, outcomes: seq<Attempt<D>>, maxAttempts: int, timestamp: string)
    returns (r: Option<Record<Q, D>>, attempts: nat, sleeps: nat)
    requires maxAttempts <= |outcomes|
    ensures var run := Run(outcomes, maxAttempts);
      attempts == run.attempts && sleeps == run.sleeps &&
      r == (if run.outcome.Some? then Some(Record(timestamp, request, run.outcome.value)) else None)
  {
    attempts, sleeps := 0, 0;
    var attempt := 0;
    while attempt < maxAttempts
      invariant attempts == attempt && sleeps == attempt
      invariant Run(outcomes, maxAttempts) == RunFrom(outcomes, maxAttempts, attempt)
      decreases maxAttempts - attempt
    {
      attempts := attempts + 1;
      match outcomes[attempt] {
        case Ok(data) =>
          r := Some(Record(timestamp, request, Payload(data)));
          return;
        case ReqErr(e) =>
          if attempt < maxAttempts - 1 {
            sleeps := sleeps + 1;
          } else {
            r := Some(Record(timestamp, request, Error(e)));
            return;
          }
        case DecodeErr(e) =>
          r := Some(Record(timestamp, request, Error(DecodeErrorPrefix + e)));
          return;
      }
      attempt := attempt + 1;
    }
    r := None;
  }

  // ---------------------------------------------------------------------------
  // Properties of the loop
  // ---------------------------------------------------------------------------

  /** Every outcome before position `k` is a request error. */
  ghost predicate OnlyRequestErrorsBefore<D>(outcomes: seq<Attempt<D>>, k: nat)
    requires k <= |outcomes|
  {
    forall j :: 0 <= j < k ==> outcomes[j].ReqErr?
  }

  lemma {:induction false} RunFromShape<D>(outcomes: seq<Attempt<D>>, maxAttempts: int, k: nat)
    requires maxAttempts <= |outcomes| && k < maxAttempts
    ensures var run := RunFrom(outcomes, maxAttempts, k);
      run.outcome.Some? && k + 1 <= run.attempts <= maxAttempts && run.sleeps + 1 == run.attempts
    decreases maxAttempts - k
  {
    if outcomes[k].ReqErr? && k < maxAttempts - 1 {
      RunFromShape(outcomes, maxAttempts, k + 1);
    }
  }

  /** With `max_attempts` <= 0 nothing is requested and nothing is returned;
      otherwise a record is returned after at least one and at most
      `max_attempts` requests, with a sleep between consecutive requests and
      none after the last. */
  lemma RunShape<D>(outcomes: seq<Attempt<D>>, maxAttempts: int)
    requires maxAttempts <= |outcomes|
    ensures maxAttempts <= 0 ==> Run(outcomes, maxAttempts) == FetchRun(None, 0, 0)
    ensures maxAttempts >= 1 ==> var run := Run(outcomes, maxAttempts);
      run.outcome.Some? && 1 <= run.attempts <= maxAttempts && run.sleeps == run.attempts - 1
  {
    if maxAttempts >= 1 {
      RunFromShape(outcomes, maxAttempts, 0);
    }
  }

  /** Request errors before the last attempt are skipped over. */
  lemma {:induction false} SkipRequestErrors<D>(outcomes: seq<Attempt<D>>, maxAttempts: int, i: nat, k: nat)
    requires maxAttempts <= |outcomes| && i <= k < maxAttempts
    requires forall j :: i <= j < k ==> outcomes[j].ReqErr?
    ensures RunFrom(outcomes, maxAttempts, i) == RunFrom(outcomes, maxAttempts, k)
    decreases k - i
  {
    if i < k {
      SkipRequestErrors(outcomes, maxAttempts, i + 1, k);
    }
  }

  /** The first attempt that is not a request error decides: a reply gives
      success with that reply, a decoding error gives failure, in both cases
      after `k + 1` requests and `k` sleeps. */
  lemma FirstDecisiveAttempt<D>(outcomes: seq<Attempt<D>>, maxAttempts: int, k: nat)
    requires maxAttempts <= |outcomes| && k < maxAttempts
    requires OnlyRequestErrorsBefore(outcomes, k) && !outcomes[k].ReqErr?
    ensures var run := Run(outcomes, maxAttempts);
      run.attempts == k + 1 && run.sleeps == k &&
      (outcomes[k].Ok? ==> run.outcome == Some(Payload(outcomes[k].data))) &&
      (outcomes[k].DecodeErr? ==> run.outcome == Some(Error(DecodeErrorPrefix + outcomes[k].message)))
  {
    SkipRequestErrors(outcomes, maxAttempts, 0, k);
  }

  /** When every attempt fails with a request error, the record carries the
      last attempt's error, after `max_attempts` requests and one sleep fewer. */
  lemma AllRequestErrors<D>(outcomes: seq<Attempt<D>>, maxAttempts: int)
    requires 1 <= maxAttempts <= |outcomes|
    requires OnlyRequestErrorsBefore(outcomes, maxAttempts)
    ensures Run(outcomes, maxAttempts) ==
      FetchRun(Some(Error(outcomes[maxAttempts - 1].message)), maxAttempts, maxAttempts - 1)
  {
    SkipRequestErrors(outcomes, maxAttempts, 0, maxAttempts - 1);
  }

  lemma {:induction false} SucceedsFromOnlyIf<D>(outcomes: seq<Attempt<D>>, maxAttempts: int, i: nat)
    requires maxAttempts <= |outcomes| && i <= maxAttempts
    requires var run := RunFrom(outcomes, maxAttempts, i); run.outcome.Some? && run.outcome.value.Payload?
    ensures exists k ::
              && i <= k < maxAttempts && outcomes[k].Ok?
              && (forall j :: i <= j < k ==> outcomes[j].ReqErr?)
              && RunFrom(outcomes, maxAttempts, i).outcome == Some(Payload(outcomes[k].data))
    decreases maxAttempts - i
  {
    if !outcomes[i].Ok? {
      SucceedsFromOnlyIf(outcomes, maxAttempts, i + 1);
      var k :| i + 1 <= k < maxAttempts && outcomes[k].Ok? &&
        (forall j :: i + 1 <= j < k ==> outcomes[j].ReqErr?) &&
        RunFrom(outcomes, maxAttempts, i + 1).outcome == Some(Payload(outcomes[k].data));
      assert forall j :: i <= j < k ==> outcomes[j].ReqErr?;
    }
  }

  /** The fetch succeeds exactly when, within the first `max_attempts`
      outcomes, a reply comes before any decoding error, and then the record
      holds that reply. */
  lemma SucceedsIff<D>(outcomes: seq<Attempt<D>>, maxAttempts: int)
    requires maxAttempts <= |outcomes|
    ensures (var run := Run(outcomes, maxAttempts); run.outcome.Some? && run.outcome.value.Payload?) <==>
      exists k :: 0 <= k < maxAttempts && outcomes[k].Ok? && OnlyRequestErrorsBefore(outcomes, k)
    ensures forall k :: 0 <= k < maxAttempts && outcomes[k].Ok? && OnlyRequestErrorsBefore(outcomes, k) ==>
      Run(outcomes, maxAttempts).outcome == Some(Payload(outcomes[k].data))
  {
    var run := Run(outcomes, maxAttempts);
    if run.outcome.Some? && run.outcome.value.Payload? {
      SucceedsFromOnlyIf(outcomes, maxAttempts, 0);
      var k :| 0 <= k < maxAttempts && outcomes[k].Ok? &&
        (forall j :: 0 <= j < k ==> outcomes[j].ReqErr?) &&
        run.outcome == Some(Payload(outcomes[k].data));
      assert OnlyRequestErrorsBefore(outcomes, k);
    }
    forall k | 0 <= k < maxAttempts && outcomes[k].Ok? && OnlyRequestErrorsBefore(outcomes, k)
      ensures Run(outcomes, maxAttempts).outcome == Some(Payload(outcomes[k].data))
    {
      FirstDecisiveAttempt(outcomes, maxAttempts, k);
    }
  }
}

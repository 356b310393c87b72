/**
 * The retry policy of `DownloadQueue.mark_failed`, stated on a value snapshot
 * of a queue item's mutable fields so that runs of several attempts can be
 * reasoned about with functions and lemmas.
 */
module RetryPolicy {
  import opened Common
  import opened Priorities

  /** The fields of a `QueueItem` that the queue changes while the item moves around. */
  datatype ItemState = ItemState(
    priority: Priority,
    retryCount: int,
    maxRetries: int,
    error: Option<string>,
    result: Option<Payload>)

  /** The state of an item just created by `add`. */
  function Fresh(priority: Priority, maxRetries: int): (s: ItemState)
  {
    ItemState(priority, 0, maxRetries, None, None)
  }

  /** Decided on the state after the failure: is the item put back into the pending queue? */
  predicate Requeues(s: ItemState)
  {
    s.retryCount < s.maxRetries
  }

  /** One `mark_failed(item, err)`: count the attempt, record the error, demote if retried. */
  function AfterFailure(s: ItemState, err: string): (t: ItemState)
    ensures t.retryCount == s.retryCount + 1
    ensures t.maxRetries == s.maxRetries && t.result == s.result
    ensures t.error == Some(err)
    ensures Requeues(t) <==> s.retryCount + 1 < s.maxRetries
    ensures Requeues(t) ==> t.priority == Demote(s.priority)
    ensures !Requeues(t) ==> t.priority == s.priority
  {
    var n := s.retryCount + 1;
    ItemState(if n < s.maxRetries then Demote(s.priority) else s.priority,
              n, s.maxRetries, Some(err), s.result)
  }

  /** One `mark_completed(item, r)`: only the result changes. */
  function AfterCompletion(s: ItemState, r: Payload): (t: ItemState)
    ensures t.result == Some(r)
    ensures t.priority == s.priority && t.retryCount == s.retryCount
    ensures t.maxRetries == s.maxRetries && t.error == s.error
  {
    s.(result := Some(r))
  }

  /** The state after failing once with each message of `errs`, in order. */
  function FailRun(s: ItemState, errs: seq<string>): (t: ItemState)
    decreases |errs|
  {
    if errs == [] then s else AfterFailure(FailRun(s, errs[..|errs| - 1]), errs[|errs| - 1])
  }

  /** How many attempts an always-failing fresh item gets: `max(max_retries, 1)`. */
  function Attempts(maxRetries: int): (n: nat)
    ensures n >= 1 && n >= maxRetries
    ensures maxRetries >= 1 ==> n == maxRetries
    ensures maxRetries < 1 ==> n == 1
  {
    if maxRetries > 1 then maxRetries else 1
  }

  /** Every failure counts exactly one attempt; the limit and the result are never touched. */
  lemma {:induction false} FailRunCounts(s: ItemState, errs: seq<string>)
    ensures FailRun(s, errs).retryCount == s.retryCount + |errs|
    ensures FailRun(s, errs).maxRetries == s.maxRetries
    ensures FailRun(s, errs).result == s.result
    ensures errs != [] ==> FailRun(s, errs).error == Some(errs[|errs| - 1])
    decreases |errs|
  {
    if errs != [] {
      FailRunCounts(s, errs[..|errs| - 1]);
    }
  }

  /** Across repeated failures the priority never rises: a longer run is at or below any prefix of it. */
  lemma {:induction false} FailRunPriorityNonIncreasing(s: ItemState, errs: seq<string>, j: nat)
    requires j <= |errs|
    ensures FailRun(s, errs).priority.Value() <= FailRun(s, errs[..j]).priority.Value()
    decreases |errs| - j
  {
    if j < |errs| {
      var init := errs[..|errs| - 1];
      assert init[..j] == errs[..j];
      FailRunPriorityNonIncreasing(s, init, j);
    } else {
      assert errs[..j] == errs;
    }
  }

  /** While every failure is retried, each one lowers the priority by one level, floored at LOW. */
  lemma {:induction false} FailRunPriorityWhileRetrying(s: ItemState, errs: seq<string>)
    requires s.retryCount + |errs| < s.maxRetries
    ensures FailRun(s, errs).priority == DemoteTimes(s.priority, |errs|)
    ensures FailRun(s, errs).priority.Value() == Max(s.priority.Value() - |errs|, 1)
    decreases |errs|
  {
    if errs != [] {
      var init := errs[..|errs| - 1];
      FailRunPriorityWhileRetrying(s, init);
      FailRunCounts(s, init);
    }
    DemoteTimesValue(s.priority, |errs|);
  }

  /**
   * An item that fails on every attempt is re-queued after attempts
   * 1 .. max(max_retries, 1) - 1 and recorded as failed on attempt
   * max(max_retries, 1), with that many attempts counted.
   */
  lemma AlwaysFailingExhausts(s: ItemState, errs: seq<string>, k: nat)
    requires s.retryCount == 0
    requires 1 <= k <= |errs|
    ensures Requeues(FailRun(s, errs[..k])) <==> k < Attempts(s.maxRetries)
    ensures FailRun(s, errs[..k]).retryCount == k
  {
    FailRunCounts(s, errs[..k]);
  }

  /** With `max_retries <= 1` (in particular 0) the first failure is final and leaves `retry_count == 1`. */
  lemma NoRetryFailsAtOnce(priority: Priority, maxRetries: int, err: string)
    requires maxRetries <= 1
    ensures !Requeues(AfterFailure(Fresh(priority, maxRetries), err))
    ensures AfterFailure(Fresh(priority, maxRetries), err).retryCount == 1
    ensures AfterFailure(Fresh(priority, maxRetries), err).priority == priority
  {
  }

  /**
   * A fresh item that fails `|errs|` times, each retried, and then succeeds ends
   * with the result, `retry_count == |errs|` and its priority `|errs|` levels lower (floored).
   */
  lemma SucceedsAfterRetries(priority: Priority, maxRetries: int, errs: seq<string>, r: Payload)
    requires |errs| < maxRetries
    ensures AfterCompletion(FailRun(Fresh(priority, maxRetries), errs), r).result == Some(r)
    ensures AfterCompletion(FailRun(Fresh(priority, maxRetries), errs), r).retryCount == |errs|
    ensures AfterCompletion(FailRun(Fresh(priority, maxRetries), errs), r).priority.Value()
            == Max(priority.Value() - |errs|, 1)
  {
    FailRunCounts(Fresh(priority, maxRetries), errs);
    FailRunPriorityWhileRetrying(Fresh(priority, maxRetries), errs);
  }
}

/**
 * Client code that uses only the contracts of the queue and the processor,
 * replaying job scenarios against what the code does.
 */
module Scenarios {
  import opened Common
  import opened Priorities
  import opened RetryPolicy
  import opened DownloadQueues
  import opened Processor

  /** The heap pops the smallest priority value: a LOW job is served before an URGENT one. */
  method LowServedBeforeUrgent()
  {
    var q := new DownloadQueue(2);
    var low := q.Add("a", LOW);
    var urgent := q.Add("b", URGENT);
    assert q.pending == multiset{Entry(1, low), Entry(4, urgent)};
    var item: QueueItem?;
    ghost var key: int;
    item, key := q.Get();
    assert Entry(1, low) in multiset{Entry(1, low), Entry(4, urgent)};
    assert item == low && key == 1;
    assert q.pending == multiset{Entry(4, urgent)};
  }

  /** With `max_retries = 0` a failing job is recorded as failed on its first attempt, with `retry_count == 1`. */
  method NoRetriesFailsOnFirstAttempt()
  {
    var p := new BatchProcessor(1);
    var job := p.queue.Add("u", NORMAL, None, 0);
    var item: QueueItem?;
    ghost var key: int;
    item, key := p.WorkerStep(Raised("TypeError"));
    assert Entry(key, item) in multiset{Entry(2, job)};
    assert item == job;
    assert job.retryCount == 1 && job.error == Some("TypeError");
    assert "u" in p.queue.failed && p.queue.failed["u"] == job;
    assert p.queue.pending == multiset{} && p.queue.permits == 1;
  }

  /** A job that fails once and then succeeds ends completed, one level lower, with `retry_count == 1`. */
  method FailOnceThenSucceed(info: Payload)
    requires "error" !in info
  {
    var p := new BatchProcessor(1);
    var job := p.queue.Add("u", HIGH);
    var item: QueueItem?;
    ghost var key: int;
    item, key := p.WorkerStep(Returned(map["error" := "HTTP Error 503"]));
    assert Entry(key, item) in multiset{Entry(3, job)};
    assert item == job && job.retryCount == 1 && job.priority == NORMAL;
    assert p.queue.pending == multiset{Entry(2, job)};
    item, key := p.WorkerStep(Returned(info));
    assert Entry(key, item) in multiset{Entry(2, job)};
    assert item == job;
    assert p.queue.completed["u"] == job && job.result == Some(info);
    assert job.retryCount == 1 && job.priority == NORMAL;
    assert "u" !in p.queue.active && p.queue.pending == multiset{};
  }

  /** A worker step touches only the job it popped: the other pending job keeps its whole state. */
  method StepLeavesOtherJobs()
  {
    var p := new BatchProcessor(1);
    var low := p.queue.Add("a", LOW);
    var urgent := p.queue.Add("b", URGENT);
    var item: QueueItem?;
    ghost var key: int;
    assert p.queue.pending == multiset{Entry(1, low), Entry(4, urgent)};
    assert p.queue.PendingItems() == {low, urgent} by {
      assert Entry(1, low) in p.queue.pending && Entry(4, urgent) in p.queue.pending;
    }
    item, key := p.WorkerStep(Raised("TypeError"));
    MinOfTwo(Entry(key, item), Entry(1, low), Entry(4, urgent));
    assert urgent != item;
    assert urgent.State() == Fresh(URGENT, 3);
  }

  /** A worker that receives no outcomes pops nothing, so a pending job keeps its fresh state. */
  method IdleWorkerLeavesJob()
  {
    var p := new BatchProcessor(1);
    var low := p.queue.Add("a", LOW);
    p.Start();
    assert p.queue.PendingItems() == {low} by { assert Entry(1, low) in p.queue.pending; }
    ghost var popped := p.Worker([]);
    assert low.State() == Fresh(LOW, 3);
  }

  /** In a heap of two entries with different keys, the smaller key is the only minimal entry. */
  lemma MinOfTwo(e: Entry, a: Entry, b: Entry)
    requires a.key < b.key
    requires IsMinEntry(e, multiset{a, b})
    ensures e == a
  {
    assert a in multiset{a, b};
  }
}

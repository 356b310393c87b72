/**
 * `BatchProcessor`: the start/stop lifecycle, the list of worker tasks, one
 * iteration of a worker's loop as an atomic step over the queue, and the two
 * halves of `process_urls` (submission and result assembly).
 */
module Processor {
  import opened Common
  import opened Priorities
  import opened RetryPolicy
  import opened DownloadQueues

  /** What one `downloader.download(url, **options)` call gives back: a dictionary, or an exception. */
  datatype Outcome = Returned(info: Payload) | Raised(message: string)

  /** The error a worker hands to `mark_failed` for this outcome, if any: `result["error"]` or `str(e)`. */
  function FailureOf(o: Outcome): (e: Option<string>)
    ensures o.Raised? ==> e == Some(o.message)
    ensures o.Returned? ==> (e.Some? <==> "error" in o.info)
    ensures o.Returned? && e.Some? ==> e.value == o.info["error"]
  {
    match o
    case Raised(m) => Some(m)
    case Returned(r) => if "error" in r then Some(r["error"]) else None
  }

  /** `num_workers or max_concurrent`, then `range(...)`: how many worker tasks `start` creates. */
  function WorkerCount(numWorkers: Option<int>, maxConcurrent: int): (n: nat)
    requires maxConcurrent >= 0
    ensures numWorkers == None || numWorkers == Some(0) ==> n == maxConcurrent
    ensures numWorkers.Some? && numWorkers.value > 0 ==> n == numWorkers.value
    ensures numWorkers.Some? && numWorkers.value < 0 ==> n == 0
  {
    var k := if numWorkers.None? || numWorkers.value == 0 then maxConcurrent else numWorkers.value;
    if k < 0 then 0 else k
  }

  /**
   * What recording `outcome` did to `item` and to the queue, given the item's
   * state `s0` and the heap and terminal maps before it: a success completes
   * the item; a failure applies the retry policy and either re-queues the
   * item with its new key or records it as failed.
   */
  ghost predicate Recorded(q: DownloadQueue, item: QueueItem, outcome: Outcome, s0: ItemState,
                           pending0: multiset<Entry>, completed0: map<string, QueueItem>,
                           failed0: map<string, QueueItem>)
    reads q`pending, q`completed, q`failed, item
  {
    match FailureOf(outcome)
    case None =>
      item.State() == AfterCompletion(s0, outcome.info) &&
      q.completed == completed0[item.url := item] && q.failed == failed0 && q.pending == pending0
    case Some(err) =>
      item.State() == AfterFailure(s0, err) && q.completed == completed0 &&
      if Requeues(item.State()) then
        q.failed == failed0 && q.pending == pending0 + multiset{Entry(item.priority.Value(), item)}
      else
        q.failed == failed0[item.url := item] && q.pending == pending0
  }

  /** The dictionary returned by `BatchProcessor.get_status`: the queue's plus two keys. */
  datatype ProcessorStatus = ProcessorStatus(queue: QueueStatus, running: bool, workers: nat)

  class BatchProcessor {
    const queue: DownloadQueue
    var running: bool
    /** The worker tasks; task `i` runs the worker named `worker-i`. */
    var workers: seq<nat>

    constructor (maxConcurrent: int := 3)
      requires maxConcurrent >= 0
      ensures fresh(queue) && queue.Valid()
      ensures queue.pending == multiset{} && queue.active == map[]
      ensures queue.completed == map[] && queue.failed == map[]
      ensures queue.maxConcurrent == maxConcurrent && queue.permits == maxConcurrent
      ensures !running && workers == []
    {
      queue := new DownloadQueue(maxConcurrent);
      running := false;
      workers := [];
    }

    /** `start`: a no-op when running; otherwise set the flag and create the worker tasks. */
    method Start(numWorkers: Option<int> := None)
      requires queue.Valid()
      modifies this
      ensures old(running) ==> running == old(running) && workers == old(workers)
      ensures !old(running) ==>
                running && workers == seq(WorkerCount(numWorkers, queue.maxConcurrent), i => i)
    {
      if running {
        return;
      }
      running := true;
      workers := seq(WorkerCount(numWorkers, queue.maxConcurrent), i => i);
    }

    /** `stop`: clear the flag; once the tasks have been awaited the list is empty. */
    method Stop()
      modifies this
      ensures !running && workers == []
    {
      running := false;
      if workers != [] {
        workers := [];
      }
    }

    /**
     * One iteration of `_worker`'s loop. An empty queue leaves it alone.
     * Otherwise the popped item is marked active under a slot, routed to
     * `mark_completed` or `mark_failed` by the outcome, and the slot is
     * released on every path.
     */
    method WorkerStep(outcome: Outcome) returns (item: QueueItem?, ghost key: int)
      requires queue.Valid()
      requires queue.pending != multiset{} ==> queue.permits > 0
      modifies queue, queue.PendingItems()
      ensures queue.Valid()
      ensures queue.permits == old(queue.permits)
      ensures item == null <==> old(queue.pending) == multiset{}
      ensures item == null ==>
                queue.pending == old(queue.pending) && queue.active == old(queue.active) &&
                queue.completed == old(queue.completed) && queue.failed == old(queue.failed)
      ensures item != null ==> IsMinEntry(Entry(key, item), old(queue.pending))
      ensures item != null ==> queue.active == old(queue.active) - {item.url}
      ensures item != null ==> item in old(queue.PendingItems())
      ensures forall x :: x in old(queue.PendingItems()) && x != item ==> unchanged(x)
      ensures queue.PendingItems() <= old(queue.PendingItems()) && |queue.pending| <= old(|queue.pending|)
      ensures old(queue.completed).Keys <= queue.completed.Keys && old(queue.failed).Keys <= queue.failed.Keys
      ensures item != null ==>
                Recorded(queue, item, outcome, old(item.State()),
                         old(queue.pending) - multiset{Entry(key, item)},
                         old(queue.completed), old(queue.failed))
    {
      ghost var before := queue.pending;
      item, key := queue.Get();
      if item == null {
        return;
      }
      RunItem(item, outcome);
      assert Entry(key, item) in before;
      assert queue.PendingItems() <= (set e | e in before :: e.item);
    }

    /**
     * The `try`/`finally` part of a worker iteration: acquire a slot, mark the
     * popped item active, record the outcome and release the slot.
     */
    method RunItem(item: QueueItem, outcome: Outcome)
      requires queue.Valid() && queue.permits > 0
      modifies queue`active, queue`pending, queue`completed, queue`failed, queue`permits, item
      ensures queue.Valid()
      ensures queue.permits == old(queue.permits)
      ensures queue.active == old(queue.active) - {item.url}
      ensures Recorded(queue, item, outcome, old(item.State()),
                       old(queue.pending), old(queue.completed), old(queue.failed))
    {
      queue.AcquireSlot();
      ghost var activeBefore := queue.active;
      queue.MarkActive(item);
      assert activeBefore[item.url := item] - {item.url} == activeBefore - {item.url};
      Record(item, outcome);
    }

    /**
     * After `mark_active`: route the outcome to `mark_completed` or
     * `mark_failed` and release the slot on every path (before `mark_failed`
     * when the download raised, as the `finally` does).
     */
    method Record(item: QueueItem, outcome: Outcome)
      requires queue.Valid()
      modifies queue`active, queue`pending, queue`completed, queue`failed, queue`permits, item
      ensures queue.Valid()
      ensures queue.permits == old(queue.permits) + 1
      ensures queue.active == old(queue.active) - {item.url}
      ensures Recorded(queue, item, outcome, old(item.State()),
                       old(queue.pending), old(queue.completed), old(queue.failed))
    {
      ghost var s0, p0, c0, f0 := item.State(), queue.pending, queue.completed, queue.failed;
      var failure := FailureOf(outcome);
      if outcome.Raised? {
        queue.ReleaseSlot();
      }
      if failure.Some? {
        queue.MarkFailed(item, failure.value);
      } else {
        queue.MarkCompleted(item, outcome.info);
      }
      assert Recorded(queue, item, outcome, s0, p0, c0, f0);
      if outcome.Returned? {
        queue.ReleaseSlot();
      }
    }

    /**
     * `_worker`: iterate while the processor runs, one step per outcome the
     * environment supplies. Slots are back where they were, nothing that
     * reached a terminal map leaves it, and the backlog never grows.
     */
    method Worker(outcomes: seq<Outcome>) returns (ghost popped: seq<QueueItem>)
      requires queue.Valid()
      requires queue.pending != multiset{} ==> queue.permits > 0
      modifies queue, queue.PendingItems()
      ensures queue.Valid()
      ensures forall x :: x in old(queue.PendingItems()) && x !in popped ==> unchanged(x)
      ensures |popped| <= |outcomes| && forall x :: x in popped ==> x in old(queue.PendingItems())
      ensures forall x :: x in old(queue.PendingItems()) ==>
                x.priority.Value() <= old(x.priority.Value()) && old(x.retryCount) <= x.retryCount
      ensures !running ==> popped == []
      ensures queue.permits == old(queue.permits)
      ensures |queue.pending| <= old(|queue.pending|)
      ensures old(queue.completed).Keys <= queue.completed.Keys
      ensures old(queue.failed).Keys <= queue.failed.Keys
      ensures !running ==> queue.pending == old(queue.pending) && queue.active == old(queue.active)
      ensures !running ==> queue.completed == old(queue.completed) && queue.failed == old(queue.failed)
    {
      popped := [];
      if !running {
        return;
      }
      var i := 0;
      while running && i < |outcomes|
        invariant 0 <= i <= |outcomes|
        invariant queue.Valid()
        invariant queue.permits == old(queue.permits)
        invariant queue.pending != multiset{} ==> queue.permits > 0
        invariant forall x :: x in old(queue.PendingItems()) && x !in popped ==> unchanged(x)
        invariant |popped| <= i && forall x :: x in popped ==> x in old(queue.PendingItems())
        invariant forall x :: x in old(queue.PendingItems()) ==>
                    x.priority.Value() <= old(x.priority.Value()) && old(x.retryCount) <= x.retryCount
        invariant queue.PendingItems() <= old(queue.PendingItems())
        invariant |queue.pending| <= old(|queue.pending|)
        invariant old(queue.completed).Keys <= queue.completed.Keys
        invariant old(queue.failed).Keys <= queue.failed.Keys
        decreases |outcomes| - i
      {
        var item := Iterate(outcomes[i]);
        if item != null {
          popped := popped + [item];
        }
        i := i + 1;
      }
    }

    /**
     * One pass of `_worker`'s loop seen from the loop itself: `WorkerStep`,
     * of which only the invariants of the loop are kept.
     */
    method Iterate(outcome: Outcome) returns (item: QueueItem?)
      requires queue.Valid()
      requires queue.pending != multiset{} ==> queue.permits > 0
      modifies queue, queue.PendingItems()
      ensures queue.Valid()
      ensures queue.permits == old(queue.permits)
      ensures item != null ==> item in old(queue.PendingItems())
      ensures forall x :: x in old(queue.PendingItems()) && x != item ==> unchanged(x)
      ensures item != null ==>
                item.priority.Value() <= old(item.priority.Value()) && old(item.retryCount) <= item.retryCount
      ensures queue.PendingItems() <= old(queue.PendingItems()) && |queue.pending| <= old(|queue.pending|)
      ensures old(queue.completed).Keys <= queue.completed.Keys && old(queue.failed).Keys <= queue.failed.Keys
    {
      ghost var key: int;
      item, key := WorkerStep(outcome);
    }

    /** `get_status`: the queue's status extended with the running flag and the worker count. */
    method GetStatus() returns (s: ProcessorStatus)
      ensures s.queue.queueSize == |queue.pending| && s.queue.active == |queue.active|
      ensures s.queue.completed == |queue.completed| && s.queue.failed == |queue.failed|
      ensures s.queue.maxConcurrent == queue.maxConcurrent
      ensures s.running == running && s.workers == |workers|
    {
      var q := queue.GetStatus();
      s := ProcessorStatus(q, running, |workers|);
    }

    /** `add_url`: start the processor if it is stopped, then add one item with the default retry limit. */
    method AddUrl(url: string, priority: Priority := NORMAL, options: Option<Options> := None)
      returns (item: QueueItem)
      requires queue.Valid()
      modifies this, queue`pending
      ensures queue.Valid() && fresh(item)
      ensures running
      ensures old(running) ==> workers == old(workers)
      ensures !old(running) ==> workers == seq(WorkerCount(None, queue.maxConcurrent), i => i)
      ensures item.url == url && item.priority == priority && item.State() == Fresh(priority, 3)
      ensures item.options == (if options.Some? then options.value else map[])
      ensures queue.pending == old(queue.pending) + multiset{Entry(priority.Value(), item)}
    {
      if !running {
        Start();
      }
      item := queue.Add(url, priority, options);
    }

    /**
     * The first half of `process_urls`: add every url in order (default retry
     * limit), then start the processor if it is stopped.
     */
    method SubmitUrls(urls: seq<string>, priority: Priority := NORMAL, options: Option<Options> := None)
      returns (items: seq<QueueItem>)
      requires queue.Valid()
      modifies this, queue`pending
      ensures queue.Valid()
      ensures |items| == |urls|
      ensures forall i :: 0 <= i < |items| ==> fresh(items[i])
      ensures forall i :: 0 <= i < |items| ==>
                items[i].url == urls[i] && items[i].State() == Fresh(priority, 3) &&
                items[i].options == (if options.Some? then options.value else map[])
      ensures queue.pending == old(queue.pending) + multiset(Entries(priority.Value(), items))
      ensures running
      ensures old(running) ==> workers == old(workers)
      ensures !old(running) ==> workers == seq(WorkerCount(None, queue.maxConcurrent), i => i)
    {
      items := EnqueueAll(urls, priority, options);
      if !running {
        Start();
      }
    }

    /** The submission loop of `process_urls`: one `add` per url, collecting the items in order. */
    method EnqueueAll(urls: seq<string>, priority: Priority, options: Option<Options>)
      returns (items: seq<QueueItem>)
      requires queue.Valid()
      modifies queue`pending
      ensures queue.Valid()
      ensures |items| == |urls|
      ensures forall i :: 0 <= i < |items| ==> fresh(items[i])
      ensures forall i :: 0 <= i < |items| ==>
                items[i].url == urls[i] && items[i].State() == Fresh(priority, 3) &&
                items[i].options == (if options.Some? then options.value else map[])
      ensures queue.pending == old(queue.pending) + multiset(Entries(priority.Value(), items))
    {
      items := [];
      ghost var pending0, added := queue.pending, [];
      var i := 0;
      while i < |urls|
        invariant 0 <= i <= |urls| && |items| == i && |added| == i
        invariant queue.Valid()
        invariant forall j :: 0 <= j < i ==>
                    fresh(items[j]) && items[j].url == urls[j] && items[j].State() == Fresh(priority, 3) &&
                    items[j].options == (if options.Some? then options.value else map[])
        invariant forall j :: 0 <= j < i ==> added[j] == Entry(priority.Value(), items[j])
        invariant queue.pending == pending0 + multiset(added)
      {
        var item := queue.Add(urls[i], priority, options);
        items := items + [item];
        assert multiset(added + [Entry(priority.Value(), item)])
               == multiset(added) + multiset{Entry(priority.Value(), item)};
        added := added + [Entry(priority.Value(), item)];
        i := i + 1;
      }
      assert added == Entries(priority.Value(), items);
    }

    /**
     * What `process_urls` reports for a settled url: the completed item's
     * result, or else `{"url": url, "error": <the failed item's error>}`.
     */
    function ResultFor(url: string): (r: Payload)
      reads queue, queue.completed.Values, queue.failed.Values
      requires queue.Valid() && queue.Settled(url)
      ensures url in queue.completed ==> Some(r) == queue.completed[url].result
      ensures url !in queue.completed ==>
                r.Keys == {"url", "error"} && r["url"] == url &&
                Some(r["error"]) == queue.failed[url].error
    {
      if url in queue.completed then queue.completed[url].result.value
      else map["url" := url, "error" := queue.failed[url].error.value]
    }

    /**
     * The second half of `process_urls`, once its polling has seen every url
     * settle: one result per item, in submission order.
     */
    method CollectResults(items: seq<QueueItem>) returns (results: seq<Payload>)
      requires queue.Valid()
      requires forall i :: 0 <= i < |items| ==> queue.Settled(items[i].url)
      ensures |results| == |items|
      ensures forall i :: 0 <= i < |items| ==> results[i] == ResultFor(items[i].url)
    {
      results := [];
      var i := 0;
      while i < |items|
        invariant 0 <= i <= |items| && |results| == i
        invariant forall j :: 0 <= j < i ==> results[j] == ResultFor(items[j].url)
      {
        var url := items[i].url;
        var completed := queue.GetCompleted();
        if url in completed {
          results := results + [completed[url].result.value];
        } else {
          var failed := queue.GetFailed();
          results := results + [map["url" := url, "error" := failed[url].error.value]];
        }
        i := i + 1;
      }
    }
  }
}

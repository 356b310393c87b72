# Batch download jobs: a Dafny model

This project models the batch download machinery of `yt_dlp_plus`: the
priority download queue with its retry policy (`batch/queue.py`), the batch
processor whose workers drain that queue under a slot semaphore
(`batch/processor.py`), and the progress tracker with its callback list
(`async_ops/progress.py`). It proves properties of the model.

Modules, one per component:

- `Common` (`common.dfy`): `Option`, and opaque `Payload`/`Options` dictionaries.
- `Priorities` (`priorities.dfy`): the `Priority` enum, its values, and the one-level demotion used on retry.
- `RetryPolicy` (`retry.dfy`): what `mark_failed` and `mark_completed` do to an item, as functions on a value snapshot (`ItemState`) of the item's mutable fields. It also holds lemmas about runs of failures.
- `DownloadQueues` (`queue.dfy`): `QueueItem` and `DownloadQueue` as classes whose methods update fields in place.
  - The heap is a multiset of `(key, item)` entries.
  - The active/completed/failed dictionaries are `map` fields.
  - The semaphore is a permit counter.
  - `Valid()` is the invariant every queue operation keeps.
- `Processor` (`processor.dfy`): `BatchProcessor` as a class.
  - Start/stop and the worker list.
  - One worker-loop iteration as an atomic step (`WorkerStep`), and the loop itself (`Worker`).
  - `process_urls`, split at its polling wait into `SubmitUrls` and `CollectResults`.
- `Progress` (`progress.dfy`): `DownloadProgress` as a datatype. `ProgressTracker` is a class with the progress map and the callback list. A ghost log of callback invocations observes what the callbacks are called with; it is not state of the tracker.
- `Scenarios` (`scenarios.dfy`): client methods that replay job scenarios using only the contracts above:
  - a LOW job is popped before an URGENT one;
  - `max_retries = 0` fails on the first attempt with `retry_count == 1`;
  - fail once then succeed;
  - a worker step leaves the job it did not pop untouched;
  - a worker that receives no outcomes leaves a pending job in its fresh state.

## How the model reads the code

- **Heap order.** The heap key is `priority.value`, not negated (`batch/queue.py:85`). `QueueItem.__lt__` also compares ascending values (`batch/queue.py:38`). So the entry popped is one with the **smallest** value: LOW (1) is served before URGENT (4). The comments at `batch/queue.py:35` and `batch/queue.py:84` say that higher priorities come first. The model follows the code: `Get` returns some entry of minimal key (`IsMinEntry`).
- **Tie order.** When two entries have equal keys, heap order is unspecified (`__lt__` is false both ways and `heapq` is not stable). The code therefore does not serve equal priorities in arrival order, and the model makes no such promise.
- **Attempt count.** `retry_count` is incremented before it is compared with `max_retries` (`batch/queue.py:115-119`). An always-failing item is therefore attempted `max(max_retries, 1)` times, and ends with `retry_count` equal to that number. The docstring at `batch/queue.py:73` calls `max_retries` the "maximum number of retries", which reads as `max_retries + 1` attempts in all; with `max_retries = 0` the code still makes one attempt and ends with `retry_count == 1`. The model follows the code (`AlwaysFailingExhausts`, `NoRetryFailsAtOnce`).
- **Retry bound.** `BatchProcessor.add_url` and `process_urls` never pass `max_retries`, so their items always get the default of 3.
- **Active map.** `mark_active` overwrites `_active[url]` every time; `mark_completed` and `mark_failed` delete `url` whatever item it holds. Two jobs for the same url therefore share one active entry. The model keeps this (`WorkerStep` ensures `active == old(active) - {url}`).
- **Download outcome.** `Outcome` is either `Returned(dictionary)` or `Raised(message)`. A dictionary with an `"error"` key, or an exception, goes to `mark_failed`. Anything else goes to `mark_completed`. In the repository, `AsyncDownloader.download` (`async_ops/async_downloader.py:45`) subscripts a coroutine before awaiting it. That always raises, so in practice every download takes the `Raised` path. The model leaves the outcome open.
- **Slot release order.** The slot is released after `mark_completed`/`mark_failed` on a returned outcome. On an exception it is released by the `finally` block, before the `except` handler calls `mark_failed`. `Record` follows that order.

## Model

| member | source | states |
|---|---|---|
| `Priorities.Priority.Value` | yt_dlp_plus/batch/queue.py:10-16 | each level's value lies in 1..4 (LOW = 1 … URGENT = 4) |
| `Priorities.FromValue` | yt_dlp_plus/batch/queue.py:121 | `Priority(v)` yields the level whose value is `v` |
| `Priorities.Demote` | yt_dlp_plus/batch/queue.py:121 | demotion never raises a level; it fixes exactly LOW, and lowers every other level by exactly one |
| `Priorities.DemoteTimesValue` | yt_dlp_plus/batch/queue.py:119-122 | `k` demotions give value `max(v - k, 1)` |
| `RetryPolicy.AfterFailure` | yt_dlp_plus/batch/queue.py:111-124 | one failure adds exactly 1 to `retry_count` and records the error. The item is re-queued iff the new count is below `max_retries`, and then (and only then) its priority is demoted |
| `RetryPolicy.AfterCompletion` | yt_dlp_plus/batch/queue.py:102-109 | completion stores the result and leaves priority, retry count, limit and error as they were |
| `RetryPolicy.Attempts` | yt_dlp_plus/batch/queue.py:115-124 | the attempt budget is exactly `max(max_retries, 1)`: `max_retries` when that is at least 1, and 1 otherwise |
| `RetryPolicy.FailRunCounts` | yt_dlp_plus/batch/queue.py:114-115 | after `n` failures the count has grown by exactly `n` and the last error is kept; limit and result are untouched |
| `RetryPolicy.FailRunPriorityNonIncreasing` | yt_dlp_plus/batch/queue.py:119-122 | over repeated failures priority never rises: a longer run ends at or below every prefix of it |
| `RetryPolicy.FailRunPriorityWhileRetrying` | yt_dlp_plus/batch/queue.py:119-122 | while every failure is retried, `n` failures lower the priority to `max(p - n, 1)` |
| `RetryPolicy.AlwaysFailingExhausts` | yt_dlp_plus/batch/queue.py:115-124 | for a fresh item, the k-th failure re-queues iff `k < max(max_retries, 1)`, and then `retry_count == k`. So it lands in failed after exactly `max(max_retries, 1)` attempts |
| `RetryPolicy.NoRetryFailsAtOnce` | yt_dlp_plus/batch/queue.py:115-124 | with `max_retries <= 1` the first failure is final, with `retry_count == 1` and the priority unchanged |
| `RetryPolicy.SucceedsAfterRetries` | yt_dlp_plus/batch/queue.py:102-124 | `n` retried failures followed by a success give the result, `retry_count == n` and priority `max(p - n, 1)` |
| `DownloadQueues.QueueItem.constructor` | yt_dlp_plus/batch/queue.py:19-32 | a new item has the given url, priority, options and limit, `retry_count == 0`, and no error or result |
| `DownloadQueues.MinEntryExists` | yt_dlp_plus/batch/queue.py:85-94 | every non-empty heap has an entry whose key is minimal, so `get` always has something to pop |
| `DownloadQueues.DownloadQueue.constructor` | yt_dlp_plus/batch/queue.py:44-57 | the queue starts empty, with `max_concurrent` permits, and satisfies the invariant |
| `DownloadQueues.DownloadQueue.Add` | yt_dlp_plus/batch/queue.py:59-86 | returns a fresh item with the given fields, `retry_count == 0` and options from `options or {}`. The heap gains exactly the entry `(priority.value, item)`; the maps are untouched |
| `DownloadQueues.DownloadQueue.Get` | yt_dlp_plus/batch/queue.py:88-94 | an empty heap gives `None` and nothing changes. Otherwise it removes exactly one entry whose key is minimal among pending keys, and returns that entry's item |
| `DownloadQueues.DownloadQueue.MarkActive` | yt_dlp_plus/batch/queue.py:96-100 | `active[url]` becomes the item; heap, completed and failed are unchanged |
| `DownloadQueues.DownloadQueue.MarkCompleted` | yt_dlp_plus/batch/queue.py:102-109 | the item gets the result, url leaves active, and `completed[url]` is the item. Heap and failed are unchanged |
| `DownloadQueues.DownloadQueue.MarkFailed` | yt_dlp_plus/batch/queue.py:111-124 | the item's state follows `AfterFailure` and url leaves active. Then exactly one of two things happens: the item is re-queued with its new key (failed unchanged), or it is stored in failed (heap unchanged) |
| `DownloadQueues.DownloadQueue.GetStatus` | yt_dlp_plus/batch/queue.py:126-135 | `queue_size` is the pending count; active/completed/failed are the map sizes; `max_concurrent` is the constructor argument |
| `DownloadQueues.DownloadQueue.GetActive` | yt_dlp_plus/batch/queue.py:137-140 | returns a copy of the active map and changes nothing |
| `DownloadQueues.DownloadQueue.GetCompleted` | yt_dlp_plus/batch/queue.py:142-145 | returns a copy of the completed map and changes nothing |
| `DownloadQueues.DownloadQueue.GetFailed` | yt_dlp_plus/batch/queue.py:147-150 | returns a copy of the failed map and changes nothing |
| `DownloadQueues.DownloadQueue.AcquireSlot` | yt_dlp_plus/batch/queue.py:152-154 | proceeds only with a free permit, and takes exactly one |
| `DownloadQueues.DownloadQueue.ReleaseSlot` | yt_dlp_plus/batch/queue.py:156-158 | gives back exactly one permit |
| `Processor.FailureOf` | yt_dlp_plus/batch/processor.py:128-137 | an exception, or a result holding `"error"`, yields that message for `mark_failed`; any other result yields none |
| `Processor.WorkerCount` | yt_dlp_plus/batch/processor.py:93-99 | `None` or 0 workers means `max_concurrent`; a positive count is used as given; a negative count creates no tasks |
| `Processor.BatchProcessor.constructor` | yt_dlp_plus/batch/processor.py:13-32 | a stopped processor with no workers, over a fresh empty queue |
| `Processor.BatchProcessor.Start` | yt_dlp_plus/batch/processor.py:82-99 | when already running nothing changes; otherwise it sets running and creates `WorkerCount` workers |
| `Processor.BatchProcessor.Stop` | yt_dlp_plus/batch/processor.py:101-106 | running is false and the worker list is empty |
| `Processor.BatchProcessor.WorkerStep` | yt_dlp_plus/batch/processor.py:108-140 | an empty heap leaves the whole queue, permits included, unchanged. Otherwise a minimal-key entry is popped (so its item was pending) and its url leaves active. The outcome is then recorded as a completion or a failure (`Recorded`). The permit count afterwards equals the count before, and every other pending item keeps its whole state. The heap never grows, holds no new item, and no url leaves completed or failed |
| `Processor.BatchProcessor.RunItem` | yt_dlp_plus/batch/processor.py:119-137 | acquire, mark active, record, release: permits end where they began, and url is no longer active |
| `Processor.BatchProcessor.Record` | yt_dlp_plus/batch/processor.py:128-137 | a result without `"error"` goes to `mark_completed`; a result with one, or an exception, goes to `mark_failed`. Exactly one permit is released either way |
| `Processor.BatchProcessor.Worker` | yt_dlp_plus/batch/processor.py:108-140 | while running, iterations keep the invariant and the permit count. They never remove a url from completed or failed, and never grow the heap. `popped` lists the items taken, at most one per outcome, each of them pending at the start. Every other pending item keeps its whole state, and no pending item ever gains priority or loses retries. A stopped processor pops nothing and changes neither the queue nor any item. An empty heap needs no free permit |
| `Processor.BatchProcessor.Iterate` | yt_dlp_plus/batch/processor.py:110-140 | one pass of the loop as the loop sees it: the popped item was pending, and only it changes. Its priority never rises and its retry count never falls. The loop's invariants are kept |
| `Processor.BatchProcessor.GetStatus` | yt_dlp_plus/batch/processor.py:142-149 | the queue's status plus `running` and the number of worker tasks |
| `Processor.BatchProcessor.AddUrl` | yt_dlp_plus/batch/processor.py:151-173 | starts the processor if it was stopped (with the default worker count). Then it adds exactly one fresh item (retry limit 3) to the heap |
| `Processor.BatchProcessor.SubmitUrls` | yt_dlp_plus/batch/processor.py:34-61 | one fresh item per url, in input order; the heap gains exactly their entries; afterwards the processor runs |
| `Processor.BatchProcessor.EnqueueAll` | yt_dlp_plus/batch/processor.py:52-57 | the submission loop adds one item per url, in order, and the heap gains exactly their entries |
| `Processor.BatchProcessor.ResultFor` | yt_dlp_plus/batch/processor.py:66-77 | completed is checked first: the completed item's result. Otherwise the two-key dictionary `{"url": url, "error": <failed item's error>}` |
| `Processor.BatchProcessor.CollectResults` | yt_dlp_plus/batch/processor.py:64-80 | once every url is settled: exactly one result per item, in input order, each equal to `ResultFor(url)` |
| `Progress.DownloadProgress.ProgressPercent` | yt_dlp_plus/async_ops/progress.py:23-28 | a percentage exists iff `total_bytes` is present and positive (so a total of 0 gives `None`). It is non-negative when the downloaded count is |
| `Progress.FirstIndex` | yt_dlp_plus/async_ops/progress.py:96-99 | the position of the first occurrence: it holds the callback and nothing before it does |
| `Progress.RemoveFirst` | yt_dlp_plus/async_ops/progress.py:96-99 | an absent callback leaves the list unchanged. Otherwise exactly one occurrence is removed (length drops by one; the multiset loses one copy) |
| `Progress.RemoveFirstKeepsOthers` | yt_dlp_plus/async_ops/progress.py:96-99 | removal keeps everything before the first occurrence, and everything after it, in order |
| `Progress.AddThenRemove` | yt_dlp_plus/async_ops/progress.py:92-99 | adding an unregistered callback and then removing it restores the list |
| `Progress.Deliveries` | yt_dlp_plus/async_ops/progress.py:83-90 | the invocations of one update: every callback exactly once, in registration order, each with the new record |
| `Progress.ProgressTracker.constructor` | yt_dlp_plus/async_ops/progress.py:52-55 | no records, no callbacks, no invocations |
| `Progress.ProgressTracker.GetProgress` | yt_dlp_plus/async_ops/progress.py:101-104 | the stored record for a url, and `None` for a url never updated |
| `Progress.ProgressTracker.GetAllProgress` | yt_dlp_plus/async_ops/progress.py:106-109 | a copy equal to the stored map, and it changes nothing |
| `Progress.ProgressTracker.Update` | yt_dlp_plus/async_ops/progress.py:57-90 | afterwards `get_progress(url)` is exactly the new record (last write wins) and every other url's record is unchanged. The invocation log grows by exactly `Deliveries`, so a raising callback neither stops later ones nor undoes the record |
| `Progress.ProgressTracker.AddCallback` | yt_dlp_plus/async_ops/progress.py:92-94 | appends the callback at the end of the list |
| `Progress.ProgressTracker.RemoveCallback` | yt_dlp_plus/async_ops/progress.py:96-99 | the list becomes `RemoveFirst` of the old list |

## Left out

- Timestamps (`created_at`, `started_at`, `completed_at`, the progress `timestamp`, `isoformat`) are not modelled: they depend on the clock and no behaviour depends on them.
- Floating point: `speed` is stored as an opaque number, and `progress_percent` is computed exactly rather than with float rounding.
- `DownloadProgress.to_dict` is not modelled. It builds a heterogeneous dictionary holding floats and a timestamp, and no other operation relies on it.
- Concurrency is not modelled: asyncio scheduling, the lock, interleaved workers, `wait_for`'s 0.1 s timeout and the `asyncio.sleep` calls. Each queue operation and each worker iteration is one atomic step.
- `AcquireSlot`: waiting on the semaphore is modelled as a precondition that a permit is free, not as blocking.
- A negative `max_concurrent` raises `ValueError` in the semaphore constructor; the constructors require a non-negative value instead.
- `Processor.BatchProcessor.Worker`: the real loop runs until `stop` flips the flag from another task. The model runs one iteration per supplied outcome while the flag is set. Its contract states the invariants the loop keeps and the items it may touch; what each iteration does to its item is stated by `WorkerStep`, and is not composed across iterations into a final state.
- `process_urls` polls every 0.5 s until each url is completed or failed. `CollectResults` models the state once that wait has ended: every url is settled, and results are read from that single state. A later overwrite of the same url is not observed between polls.
- `stop` awaits the worker tasks with `gather`. The model only sets the flag and empties the list; it does not model the waiting.
- The download itself (`AsyncDownloader`, `YoutubeDL`, executor threads) is an open parameter (`Outcome`). The processor's `ydl_opts` and `progress_callback` are therefore not modelled.
- Callbacks are abstract identifiers. Whether each raises is a parameter of `Update`, and sync and async callbacks are not told apart. A callback that mutates the tracker while it is being notified is not modelled.
- The `print` of errors in the worker loop and in `update` is not modelled (output only).
- Heap entries whose stored key no longer matches the item's priority are possible only if `mark_failed` is called on an item that is still pending. For such entries, the item `__lt__` comparison between equal keys is not modelled: `Get` may return any entry of minimal key.
- `Processor.BatchProcessor.SubmitUrls` and `Processor.BatchProcessor.EnqueueAll` state one fresh item per url, but not that the items are pairwise distinct objects (each is fresh).

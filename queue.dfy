/**
 * `DownloadQueue` and `QueueItem`: a heap of pending `(priority.value, item)`
 * entries, the url-keyed active / completed / failed maps and the slot
 * semaphore, all updated in place.
 */
module DownloadQueues {
  import opened Common
  import opened Priorities
  import opened RetryPolicy

  /** One download job. Its mutable fields change while the same object sits in the heap or a map. */
  class QueueItem {
    const url: string
    var priority: Priority
    const options: Options
    const maxRetries: int
    var retryCount: int
    var error: Option<string>
    var result: Option<Payload>

    constructor (url: string, priority: Priority, options: Options, maxRetries: int)
      ensures this.url == url && this.priority == priority
      ensures this.options == options && this.maxRetries == maxRetries
      ensures State() == Fresh(priority, maxRetries)
    {
      this.url := url;
      this.priority := priority;
      this.options := options;
      this.maxRetries := maxRetries;
      retryCount := 0;
      error := None;
      result := None;
    }

    /** The item's mutable fields as a value. */
    function State(): (s: ItemState)
      reads this
    {
      ItemState(priority, retryCount, maxRetries, error, result)
    }
  }

  /** A heap entry: the key captured when the entry was put, and the item. */
  datatype Entry = Entry(key: int, item: QueueItem)

  /** `e` is pending and no pending entry has a smaller key: what the min-heap may pop. */
  predicate IsMinEntry(e: Entry, m: multiset<Entry>)
  {
    e in m && forall f :: f in m ==> e.key <= f.key
  }

  /** Every non-empty heap has an entry of minimal key. */
  lemma {:induction false} MinEntryExists(m: multiset<Entry>)
    requires m != multiset{}
    ensures exists e :: IsMinEntry(e, m)
    decreases |m|
  {
    var x :| x in m;
    var rest := m - multiset{x};
    if rest == multiset{} {
      assert m == multiset{x};
      assert IsMinEntry(x, m);
    } else {
      MinEntryExists(rest);
      var y :| IsMinEntry(y, rest);
      if x.key <= y.key {
        assert IsMinEntry(x, m);
      } else {
        assert IsMinEntry(y, m);
      }
    }
  }

  /** The entries `(key, item)` that adding `items` in order puts on the heap. */
  function Entries(key: int, items: seq<QueueItem>): (s: seq<Entry>)
    ensures |s| == |items|
    ensures forall i :: 0 <= i < |items| ==> s[i] == Entry(key, items[i])
  {
    seq(|items|, i requires 0 <= i < |items| => Entry(key, items[i]))
  }

  /** The dictionary returned by `get_status`. */
  datatype QueueStatus = QueueStatus(
    queueSize: nat,
    active: nat,
    completed: nat,
    failed: nat,
    maxConcurrent: int)

  class DownloadQueue {
    /** The `asyncio.PriorityQueue` of `(key, item)` pairs, as a multiset (heap order is not observable). */
    var pending: multiset<Entry>
    var active: map<string, QueueItem>
    var completed: map<string, QueueItem>
    var failed: map<string, QueueItem>
    const maxConcurrent: int
    /** The semaphore's counter: how many more slots can be acquired without waiting. */
    var permits: int

    /**
     * What the queue's own operations keep true: each map is keyed by its items'
     * urls, keys are priority values, completed items carry a result, and failed
     * items carry an error and have used up their retries.
     */
    ghost predicate Valid()
      reads this, completed.Values, failed.Values
    {
      maxConcurrent >= 0 && permits >= 0 &&
      (forall e :: e in pending ==> 1 <= e.key <= 4) &&
      (forall u :: u in active ==> active[u].url == u) &&
      (forall u :: u in completed ==> completed[u].url == u && completed[u].result.Some?) &&
      (forall u :: u in failed ==> failed[u].url == u && failed[u].error.Some? &&
                                   failed[u].retryCount >= failed[u].maxRetries)
    }

    constructor (maxConcurrent: int := 3)
      requires maxConcurrent >= 0
      ensures Valid()
      ensures pending == multiset{} && active == map[] && completed == map[] && failed == map[]
      ensures this.maxConcurrent == maxConcurrent && permits == maxConcurrent
    {
      pending := multiset{};
      active := map[];
      completed := map[];
      failed := map[];
      this.maxConcurrent := maxConcurrent;
      permits := maxConcurrent;
    }

    /** The items that have at least one pending entry. */
    function PendingItems(): (items: set<QueueItem>)
      reads this
    {
      set e | e in pending :: e.item
    }

    /** Some item with this url has reached a terminal map. */
    predicate Settled(url: string)
      reads this
    {
      url in completed || url in failed
    }

    /** `add`: create a fresh item and push it with key `priority.value`; the maps are untouched. */
    method Add(url: string, priority: Priority := NORMAL, options: Option<Options> := None,
               maxRetries: int := 3) returns (item: QueueItem)
      requires Valid()
      modifies this`pending
      ensures Valid() && fresh(item)
      ensures item.url == url && item.priority == priority && item.maxRetries == maxRetries
      ensures item.options == (if options.Some? then options.value else map[])
      ensures item.State() == Fresh(priority, maxRetries)
      ensures pending == old(pending) + multiset{Entry(priority.Value(), item)}
    {
      item := new QueueItem(url, priority, if options.Some? then options.value else map[], maxRetries);
      pending := pending + multiset{Entry(priority.Value(), item)};
    }

    /**
     * `get`: on a non-empty heap pop an entry of minimal key (the smallest
     * priority value); on an empty one time out with `None` and change nothing.
     */
    method Get() returns (item: QueueItem?, ghost key: int)
      requires Valid()
      modifies this`pending
      ensures Valid()
      ensures item == null <==> old(pending) == multiset{}
      ensures item == null ==> pending == old(pending)
      ensures item != null ==> IsMinEntry(Entry(key, item), old(pending))
      ensures item != null ==> pending == old(pending) - multiset{Entry(key, item)}
      ensures item != null ==> item in old(PendingItems())
    {
      if pending == multiset{} {
        item, key := null, 0;
        return;
      }
      MinEntryExists(pending);
      var e :| IsMinEntry(e, pending);
      pending := pending - multiset{e};
      item, key := e.item, e.key;
    }

    /** `mark_active`: record the item under its url in the active map. */
    method MarkActive(item: QueueItem)
      requires Valid()
      modifies this`active
      ensures Valid()
      ensures active == old(active)[item.url := item]
    {
      active := active[item.url := item];
    }

    /** `mark_completed`: store the result, drop the url from active, record the item as completed. */
    method MarkCompleted(item: QueueItem, result: Payload)
      requires Valid()
      modifies this`active, this`completed, item`result
      ensures Valid()
      ensures item.State() == AfterCompletion(old(item.State()), result)
      ensures active == old(active) - {item.url}
      ensures completed == old(completed)[item.url := item]
    {
      item.result := Some(result);
      active := active - {item.url};
      completed := completed[item.url := item];
    }

    /**
     * `mark_failed`: count the attempt, record the error and drop the url from
     * active; then either re-queue the item one level lower or record it as failed.
     */
    method MarkFailed(item: QueueItem, error: string)
      requires Valid()
      modifies this`active, this`pending, this`failed, item`error, item`retryCount, item`priority
      ensures Valid()
      ensures item.State() == AfterFailure(old(item.State()), error)
      ensures active == old(active) - {item.url}
      ensures Requeues(item.State()) ==>
                pending == old(pending) + multiset{Entry(item.priority.Value(), item)} &&
                failed == old(failed)
      ensures !Requeues(item.State()) ==>
                failed == old(failed)[item.url := item] && pending == old(pending)
    {
      // A failed item has used up its retries, so failing it again cannot re-queue it.
      assert item in failed.Values ==> item.retryCount >= item.maxRetries;
      item.error := Some(error);
      item.retryCount := item.retryCount + 1;
      active := active - {item.url};
      if item.retryCount < item.maxRetries {
        item.priority := Demote(item.priority);
        pending := pending + multiset{Entry(item.priority.Value(), item)};
      } else {
        failed := failed[item.url := item];
      }
    }

    /** `get_status`: the heap size, the three map sizes and the configured bound. */
    method GetStatus() returns (s: QueueStatus)
      ensures s.queueSize == |pending|
      ensures s.active == |active| && s.completed == |completed| && s.failed == |failed|
      ensures s.maxConcurrent == maxConcurrent
    {
      s := QueueStatus(|pending|, |active|, |completed|, |failed|, maxConcurrent);
    }

    /** `get_active`: a copy of the active map. */
    method GetActive() returns (m: map<string, QueueItem>)
      ensures m == active
    {
      m := active;
    }

    /** `get_completed`: a copy of the completed map. */
    method GetCompleted() returns (m: map<string, QueueItem>)
      ensures m == completed
    {
      m := completed;
    }

    /** `get_failed`: a copy of the failed map. */
    method GetFailed() returns (m: map<string, QueueItem>)
      ensures m == failed
    {
      m := failed;
    }

    /** `acquire_slot`: take a permit; waiting for one is modelled by requiring one to be free. */
    method AcquireSlot()
      requires Valid() && permits > 0
      modifies this`permits
      ensures Valid()
      ensures permits == old(permits) - 1
    {
      permits := permits - 1;
    }

    /** `release_slot`: return a permit (an unbounded semaphore: no upper check). */
    method ReleaseSlot()
      requires Valid()
      modifies this`permits
      ensures Valid()
      ensures permits == old(permits) + 1
    {
      permits := permits + 1;
    }
  }
}

/**
 * `DownloadProgress` records and the `ProgressTracker`: a url-keyed store
 * where the last update wins, and an ordered list of callbacks that every
 * update notifies.
 */
module Progress {
  import opened Common

  /** Python truthiness of an `Optional[int]`: present and non-zero. */
  predicate Truthy(n: Option<int>)
  {
    n.Some? && n.value != 0
  }

  /** One progress record. `speed` is kept as a stored number only. */
  datatype DownloadProgress = DownloadProgress(
    url: string,
    status: string,
    downloadedBytes: int,
    totalBytes: Option<int>,
    speed: Option<real>,
    eta: Option<int>,
    filename: Option<string>,
    error: Option<string>)
  {
    /**
     * `progress_percent`: a percentage only when a positive total is known;
     * an absent or zero total gives `None`.
     */
    function ProgressPercent(): (r: Option<real>)
      ensures r.Some? <==> totalBytes.Some? && totalBytes.value > 0
      ensures totalBytes == Some(0) ==> r == None
      ensures r.Some? && 0 <= downloadedBytes ==> r.value >= 0.0
    {
      if Truthy(totalBytes) && totalBytes.value > 0 then
        Some((downloadedBytes as real / totalBytes.value as real) * 100.0)
      else
        None
    }
  }

  /** A registered callback, identified abstractly. */
  type CallbackId = nat

  /** One invocation of a callback with a record, and whether that callback raised. */
  datatype Notification = Notification(callback: CallbackId, record: DownloadProgress, raised: bool)

  /** Where `list.index(x)` finds `x`: the position of its first occurrence. */
  function FirstIndex(s: seq<CallbackId>, x: CallbackId): (i: nat)
    requires x in s
    ensures i < |s| && s[i] == x && x !in s[..i]
  {
    if s[0] == x then 0 else 1 + FirstIndex(s[1..], x)
  }

  /** `list.remove(x)` guarded by `x in list`: drop the first occurrence, if any. */
  function RemoveFirst(s: seq<CallbackId>, x: CallbackId): (r: seq<CallbackId>)
    ensures x !in s ==> r == s
    ensures x in s ==> |r| == |s| - 1
    ensures multiset(r) == multiset(s) - multiset{x}
  {
    if x in s then
      var i := FirstIndex(s, x);
      assert s == s[..i] + [s[i]] + s[i + 1..];
      s[..i] + s[i + 1..]
    else
      s
  }

  /** The invocations an update makes: every callback once, in registration order. */
  function Deliveries(callbacks: seq<CallbackId>, record: DownloadProgress, raising: set<CallbackId>)
    : (d: seq<Notification>)
    ensures |d| == |callbacks|
    ensures forall i :: 0 <= i < |d| ==>
              d[i] == Notification(callbacks[i], record, callbacks[i] in raising)
  {
    if callbacks == [] then []
    else Deliveries(callbacks[..|callbacks| - 1], record, raising) +
         [Notification(callbacks[|callbacks| - 1], record, callbacks[|callbacks| - 1] in raising)]
  }

  class ProgressTracker {
    var progress: map<string, DownloadProgress>
    var callbacks: seq<CallbackId>
    /** Every callback invocation so far, in order; this is how the callbacks' effect is observed. */
    ghost var log: seq<Notification>

    constructor ()
      ensures progress == map[] && callbacks == [] && log == []
    {
      progress := map[];
      callbacks := [];
      log := [];
    }

    /** `get_progress`: the stored record for the url, `None` if it was never updated. */
    function GetProgress(url: string): (r: Option<DownloadProgress>)
      reads this
      ensures url !in progress ==> r == None
      ensures url in progress ==> r == Some(progress[url])
    {
      if url in progress then Some(progress[url]) else None
    }

    /** `get_all_progress`: a copy of the whole store. */
    method GetAllProgress() returns (all: map<string, DownloadProgress>)
      ensures all == progress
      ensures forall u :: u in all ==> GetProgress(u) == Some(all[u])
    {
      all := progress;
    }

    /**
     * `update`: replace the url's record with one carrying exactly these fields,
     * then call every callback in order. A callback in `raising` raises; the
     * error is swallowed, so the later callbacks still run and the record stays.
     */
    method Update(url: string, status: string, downloadedBytes: int := 0,
                  totalBytes: Option<int> := None, speed: Option<real> := None,
                  eta: Option<int> := None, filename: Option<string> := None,
                  error: Option<string> := None, raising: set<CallbackId> := {})
      modifies this`progress, this`log
      ensures GetProgress(url) ==
                Some(DownloadProgress(url, status, downloadedBytes, totalBytes, speed, eta, filename, error))
      ensures forall u :: u != url ==> GetProgress(u) == old(GetProgress(u))
      ensures progress.Keys == old(progress.Keys) + {url}
      ensures log == old(log) + Deliveries(callbacks, progress[url], raising)
    {
      var record := DownloadProgress(url, status, downloadedBytes, totalBytes, speed, eta, filename, error);
      progress := progress[url := record];
      var i := 0;
      while i < |callbacks|
        invariant 0 <= i <= |callbacks|
        invariant log == old(log) + Deliveries(callbacks[..i], record, raising)
        invariant progress == old(progress)[url := record]
      {
        assert callbacks[..i + 1] == callbacks[..i] + [callbacks[i]];
        log := log + [Notification(callbacks[i], record, callbacks[i] in raising)];
        i := i + 1;
      }
      assert callbacks[..i] == callbacks;
    }

    /** `add_callback`: register at the end of the list. */
    method AddCallback(callback: CallbackId)
      modifies this`callbacks
      ensures callbacks == old(callbacks) + [callback]
    {
      callbacks := callbacks + [callback];
    }

    /** `remove_callback`: drop the first registration of the callback; a no-op if it is absent. */
    method RemoveCallback(callback: CallbackId)
      modifies this`callbacks
      ensures callbacks == RemoveFirst(old(callbacks), callback)
    {
      if callback in callbacks {
        callbacks := RemoveFirst(callbacks, callback);
      }
    }
  }

  /** Adding a callback that was not registered and then removing it restores the list. */
  lemma AddThenRemove(callbacks: seq<CallbackId>, x: CallbackId)
    requires x !in callbacks
    ensures RemoveFirst(callbacks + [x], x) == callbacks
  {
    var s := callbacks + [x];
    assert s[..|callbacks|] == callbacks;
  }

  /** Removal keeps the order of everything else: before the first occurrence, and after it. */
  lemma RemoveFirstKeepsOthers(s: seq<CallbackId>, x: CallbackId)
    requires x in s
    ensures RemoveFirst(s, x)[..FirstIndex(s, x)] == s[..FirstIndex(s, x)]
    ensures RemoveFirst(s, x)[FirstIndex(s, x)..] == s[FirstIndex(s, x) + 1..]
  {
  }
}

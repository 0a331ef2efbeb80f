/**
 * `DownloadManager` as an object: its own `queue`, `order`,
 * `display_order`, `downloaded_index` and id supply, plus the progress
 * tap, saved store and history store it owns. Every method is proved to
 * leave the state the matching function of modules `Queue`, `Process`,
 * `Worker`, `Urls` and `Saving` computes, so the properties proved there
 * hold of the object.
 */
module Manager {
  import opened Common
  import opened Assoc
  import opened Values
  import opened Artists
  import opened Stores
  import opened Queue
  import opened Process
  import Worker
  import Urls
  import Saving
  import Progress

  class DownloadManager {
    var queue: seq<(JobId, QueueItem)>
    var order: seq<JobId>
    var displayOrder: seq<JobId>
    var downloadedIndex: set<EntryKey>
    /** The fresh-id supply standing for `uuid.uuid4()`. */
    var nextId: JobId
    /** How many executor runs have happened, the index into the executor oracle. */
    var runs: nat
    const tap: Progress.ProgressTap
    const savedStore: SavedStore
    const historyStore: DownloadHistoryStore

    /** The whole state, as the specification functions see it. */
    function State(): World
      reads this, tap, savedStore, historyStore
    {
      World(queue, order, displayOrder, downloadedIndex, nextId, runs,
            tap.State(), savedStore.items, historyStore.entries)
    }

    /** A manager over the saved list and history already on disk. */
    constructor(saved: seq<Dict>, history: seq<Dict>)
      ensures State() == Initial(saved, history)
      ensures fresh(tap) && fresh(savedStore) && fresh(historyStore)
    {
      tap := new Progress.ProgressTap();
      savedStore := new SavedStore(saved);
      historyStore := new DownloadHistoryStore(history);
      downloadedIndex := KeySet(history);
      queue := [];
      order := [];
      displayOrder := [];
      nextId := 0;
      runs := 0;
    }

    // -------------------------------------------------------------------
    // The queue

    /** `snapshot()`: prunes `display_order` to queued jobs and returns their items. */
    method Snapshot() returns (items: seq<QueueItem>)
      modifies this
      ensures (State(), items) == Queue.Snapshot(old(State()))
    {
      var valid := ValidIds(queue, displayOrder);
      displayOrder := valid;
      items := ItemsFor(queue, valid);
    }

    /** One pass of `enqueue`'s loop: the duplicate check, then a new job unless the release is queued. */
    method EnqueueOne(entry: Value) returns (err: Option<PyError>)
      modifies this
      ensures err.None? ==> Queue.EnqueueEntry(old(State()), entry) == Ok(State())
      ensures err.Some? ==> Queue.EnqueueEntry(old(State()), entry) == Raised(err.value) && State() == old(State())
    {
      ghost var w0 := State();
      var found := FindExisting(queue, entry);
      if found.Raised? {
        return Some(found.error);
      }
      if found.value.Some? {
        var existing := found.value.value;
        EnqueueEntryExisting(w0, entry, existing);
        displayOrder := Shown(displayOrder, existing);
      } else {
        var item := NewItem(entry, nextId);
        if item.Raised? {
          return Some(item.error);
        }
        EnqueueEntryAdded(w0, entry, item.value);
        AddJob(item.value);
      }
      err := None;
    }

    /** A new job under the next id: stored in `queue`, appended to `order` and `display_order`. */
    method AddJob(item: QueueItem)
      modifies this
      ensures State() == Added(old(State()), item)
    {
      var jid := nextId;
      queue := Set(queue, jid, item);
      order := order + [jid];
      displayOrder := Shown(displayOrder, jid);
      nextId := jid + 1;
    }

    /** `enqueue(entries)`: one entry at a time, stopping at the first that raises. */
    method Enqueue(entries: seq<Value>) returns (r: Result<seq<QueueItem>>)
      modifies this
      ensures (State(), r) == Queue.Enqueue(old(State()), entries)
    {
      var i := 0;
      while i < |entries|
        invariant 0 <= i <= |entries|
        invariant EnqueueAll(old(State()), entries) == EnqueueAll(State(), entries[i..])
      {
        assert entries[i..][1..] == entries[i + 1..];
        var err := EnqueueOne(entries[i]);
        if err.Some? {
          r := Raised(err.value);
          return;
        }
        i := i + 1;
      }
      var items := Snapshot();
      r := Ok(items);
    }

    /** `enqueue_urls(urls)`, given the host `urlparse` finds in each URL; it never raises. */
    method EnqueueUrls(urls: seq<string>, hostOf: string -> string) returns (r: Result<seq<QueueItem>>)
      modifies this
      ensures (State(), r) == Queue.Enqueue(old(State()), Urls.UrlEntries(urls, hostOf))
      ensures r.Ok?
    {
      var entries: seq<Value> := [];
      var i := 0;
      while i < |urls|
        invariant 0 <= i <= |urls|
        invariant entries == Urls.UrlEntries(urls[..i], hostOf)
      {
        entries := entries + [Urls.UrlEntry(urls[i], hostOf(urls[i]))];
        i := i + 1;
      }
      assert urls[..i] == urls;
      Urls.UrlEnqueueNeverRaises(State(), urls, hostOf);
      r := Enqueue(entries);
    }

    /** `retry(job_id, force_no_db=...)`. */
    method Retry(jid: JobId, forceNoDb: bool)
      modifies this
      ensures State() == Queue.Retry(old(State()), jid, forceNoDb)
    {
      if !HasKey(queue, jid) {
        return;
      }
      var item := Get(queue, jid).value;
      item := item.(status := Queued, error := None, downloaded := VBool(false));
      if forceNoDb {
        item := item.(forceNoDb := true);
      }
      queue := Set(queue, jid, item);
      order := order + [jid];
    }

    /** `force_redownload(job_id)`. */
    method ForceRedownload(jid: JobId)
      modifies this
      ensures State() == Queue.ForceRedownload(old(State()), jid)
    {
      Retry(jid, true);
    }

    /** `abort(job_id)`. */
    method Abort(jid: JobId)
      modifies this, tap
      ensures State() == Queue.Abort(old(State()), jid)
    {
      if !HasKey(queue, jid) {
        return;
      }
      if jid in order {
        order := RemoveFirst(order, jid);
      }
      if jid in displayOrder {
        displayOrder := RemoveFirst(displayOrder, jid);
      }
      queue := Remove(queue, jid);
      tap.latestProgress := tap.latestProgress - {jid};
      tap.jobTotals := tap.jobTotals - {jid};
    }

    /** `_drop_completed(job_id)`. */
    method DropCompleted(jid: JobId)
      modifies this, tap
      ensures State() == Queue.DropCompleted(old(State()), jid)
    {
      queue := Remove(queue, jid);
      if jid in displayOrder {
        displayOrder := RemoveFirst(displayOrder, jid);
      }
      tap.latestProgress := tap.latestProgress - {jid};
    }

    /** `_record_download(item)`. */
    method RecordDownload(item: QueueItem)
      modifies this, historyStore
      ensures State() == Queue.RecordDownload(old(State()), item)
    {
      var key := ItemKey(item);
      if key in downloadedIndex {
        return;
      }
      downloadedIndex := downloadedIndex + {key};
      historyStore.Add([HistoryEntry(item)]);
    }

    // -------------------------------------------------------------------
    // Running jobs

    /** The part of `_process_item` after a run that returned. */
    method Conclude(item: QueueItem) returns (done: QueueItem)
      modifies this, tap, savedStore, historyStore
      ensures Processed(State(), done) == Process.Conclude(old(State()), item)
    {
      var summary := tap.SummarizeJob(item.jobId);
      if summary.allDownloaded {
        done := item.(status := Completed, downloaded := VBool(true), forceNoDb := false);
        queue := Set(queue, done.jobId, done);
        RecordDownload(done);
      } else {
        done := item.(status := Partial, downloaded := VBool(false), error := Some(PartialMessage(summary)));
        queue := Set(queue, done.jobId, done);
      }
      savedStore.Remove(SavedMatch(done));
      tap.FinishJob(done.jobId);
      if summary.allDownloaded {
        DropCompleted(done.jobId);
      }
    }

    /** `_process_item(item)`: up to five runs of the executor, the n-th run overall being `run(n)`. */
    method ProcessItem(item: QueueItem, run: Executor) returns (done: QueueItem)
      modifies this, tap, savedStore, historyStore
      ensures Processed(State(), done) == Process.ProcessItem(old(State()), item, run)
    {
      var cur := item.(status := InProgress, error := None);
      queue := Set(queue, cur.jobId, cur);
      tap.StartJob(cur.jobId);
      done := Attempts(cur, run);
    }

    /** `_process_item`'s loop: at most five runs, then the `failed` ending. */
    method Attempts(item: QueueItem, run: Executor) returns (done: QueueItem)
      modifies this, tap, savedStore, historyStore
      ensures Processed(State(), done) == Attempt(old(State()), item, run, 0)
    {
      var cur, finished := RunAttempts(item, run, Attempt(State(), item, run, 0));
      if finished {
        return cur;
      }
      AttemptPastLast(State(), cur, run);
      done := GiveUp(cur);
    }

    /** The five passes of `_process_item`'s loop, stopping at the first run that returned. */
    method RunAttempts(item: QueueItem, run: Executor, ghost goal: Processed) returns (cur: QueueItem, finished: bool)
      requires goal == Attempt(State(), item, run, 0)
      modifies this, tap, savedStore, historyStore
      ensures finished ==> Processed(State(), cur) == goal
      ensures !finished ==> goal == Attempt(State(), cur, run, MaxAttempts)
    {
      cur := item;
      for a := 0 to MaxAttempts
        invariant goal == Attempt(State(), cur, run, a)
      {
        var next;
        next, finished := AttemptOnce(cur, a, run, goal);
        if finished {
          return next, true;
        }
        cur := next;
      }
      finished := false;
    }

    /** One pass of `_process_item`'s loop: run, then conclude the job or record the error and go on. */
    method AttemptOnce(cur: QueueItem, a: nat, run: Executor, ghost goal: Processed) returns (next: QueueItem, finished: bool)
      requires a < MaxAttempts && goal == Attempt(State(), cur, run, a)
      modifies this, tap, savedStore, historyStore
      ensures finished ==> Processed(State(), next) == goal
      ensures !finished ==> goal == Attempt(State(), next, run, a + 1)
    {
      ghost var w0 := State();
      var item1, outcome := RunOnce(cur, a, run);
      if outcome.Returns? {
        AttemptReturns(w0, cur, run, a);
        next := Conclude(item1);
        finished := true;
      } else {
        AttemptThrows(w0, cur, run, a);
        next := RecordRetry(item1, outcome.message);
        finished := false;
      }
    }

    /** One pass of `_process_item`'s loop up to the run's end: count the attempt, run, apply the hook calls. */
    method RunOnce(cur: QueueItem, a: nat, run: Executor) returns (item1: QueueItem, outcome: RunOutcome)
      modifies this, tap
      ensures item1 == cur.(attempts := a + 1) && outcome == run(old(runs))
      ensures State() == AfterRun(old(State()), item1, outcome)
    {
      item1 := cur.(attempts := a + 1);
      outcome := run(runs);
      queue := Set(queue, item1.jobId, item1);
      runs := runs + 1;
      tap.ApplyAll(item1.jobId, outcome.events);
    }

    /** A run that raised: the job is stored as `retrying`, with the run's message as its error. */
    method RecordRetry(item1: QueueItem, message: string) returns (cur: QueueItem)
      modifies this
      ensures cur == Retried(item1, message) && cur.status == Retrying && cur.error == Some(message)
      ensures State() == SetItem(old(State()), cur)
    {
      cur := Retried(item1, message);
      queue := Set(queue, cur.jobId, cur);
    }

    /** The `failed` ending of `_process_item`, after five runs that raised. */
    method GiveUp(cur: QueueItem) returns (done: QueueItem)
      modifies this, tap
      ensures Processed(State(), done) == Process.GiveUp(old(State()), cur)
    {
      done := cur.(status := JobFailed);
      queue := Set(queue, done.jobId, done);
      tap.FinishJob(done.jobId);
    }

    /** `_worker()`, with a head that has left the queue popped (see `Worker.WorkerTurn`). */
    method RunWorker(run: Executor)
      modifies this, tap, savedStore, historyStore
      ensures State() == Worker.Drain(old(State()), run)
    {
      while |order| > 0
        invariant Worker.Drain(old(State()), run) == Worker.Drain(State(), run)
        decreases |order|
      {
        var found := Get(queue, order[0]);
        if found.Some? && !(found.value.status == Completed || found.value.status == Aborted) {
          var _ := ProcessItem(found.value, run);
        }
        order := order[1..];
      }
    }

    // -------------------------------------------------------------------
    // The saved list

    /** `save_for_later(job_id, payload)`; the exception it raises, if any. */
    method SaveForLater(jid: Option<JobId>, payload: Dict) returns (error: Option<PyError>)
      modifies savedStore
      ensures match Saving.SaveForLater(old(State()), jid, payload)
              case Ok(w) => error == None && State() == w
              case Raised(e) => error == Some(e) && State() == old(State())
    {
      if payload != [] {
        var artist := StringifyArtist(Lookup(payload, "artist"));
        if artist.Raised? {
          return Some(artist.error);
        }
        savedStore.Add([Set(payload, "artist", artist.value)]);
      } else if jid.Some? && HasKey(queue, jid.value) {
        savedStore.Add([HistoryEntry(Get(queue, jid.value).value)]);
      }
      error := None;
    }

    /** `download_saved(entries)`; the exception `enqueue` raised, if any. */
    method DownloadSaved(entries: seq<Value>) returns (error: Option<PyError>)
      modifies this, savedStore
      ensures Saving.DownloadSaved(old(State()), entries) == Enqueued(State(), error)
    {
      var saved := savedStore.List();
      var es := if entries != [] then entries else Saving.AsEntries(saved);
      var r := Enqueue(es);
      if r.Raised? {
        return Some(r.error);
      }
      savedStore.Remove(Saving.RequestedMatch(es));
      error := None;
    }

    /** `remove_saved(payload)`. */
    method RemoveSaved(payload: Dict)
      modifies savedStore
      ensures State() == Saving.RemoveSaved(old(State()), payload)
    {
      savedStore.Remove(Saving.SameRelease(payload));
    }
  }

  /** `[jid for jid in ids if jid in queue]`, the first half of `snapshot`. */
  method ValidIds(queue: seq<(JobId, QueueItem)>, ids: seq<JobId>) returns (valid: seq<JobId>)
    ensures valid == InQueue(queue, ids)
  {
    valid := [];
    var i := 0;
    while i < |ids|
      invariant 0 <= i <= |ids|
      invariant InQueue(queue, ids) == valid + InQueue(queue, ids[i..])
    {
      assert ids[i..][1..] == ids[i + 1..];
      if HasKey(queue, ids[i]) {
        valid := valid + [ids[i]];
      }
      i := i + 1;
    }
  }

  /** `[queue[jid] for jid in ids]` for ids that are all queued. */
  method ItemsFor(queue: seq<(JobId, QueueItem)>, ids: seq<JobId>) returns (items: seq<QueueItem>)
    requires forall j :: j in ids ==> HasKey(queue, j)
    ensures items == ItemsOf(queue, ids)
  {
    items := [];
    var k := 0;
    while k < |ids|
      invariant 0 <= k <= |ids|
      invariant ItemsOf(queue, ids) == items + ItemsOf(queue, ids[k..])
    {
      assert ids[k..][1..] == ids[k + 1..];
      items := items + [Get(queue, ids[k]).value];
      k := k + 1;
    }
  }
}

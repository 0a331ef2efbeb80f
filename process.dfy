/**
 * Running queued jobs: `_process_item` (up to five executor runs ending in
 * `completed`, `partial` or `failed`) and one turn of `_worker`'s loop.
 * The executor `_run_streamrip` is an oracle: the n-th run since the
 * manager started either returns or raises, after making some hook calls
 * that update the job's track states.
 */
module Process {
  import opened Common
  import opened Assoc
  import opened Values
  import opened Stores
  import opened Queue
  import Progress

  /** One `_run_streamrip` call as the manager sees it: the hook calls it made, and how it ended. */
  datatype RunOutcome =
    | Returns(events: seq<Progress.TapEvent>)
    | Throws(message: string, events: seq<Progress.TapEvent>)

  /** The outcome of every run, indexed by `World.runs`. */
  type Executor = nat -> RunOutcome

  /** `range(5)` in `_process_item`. */
  const MaxAttempts: nat := 5

  /** The hooks only report counts in the shapes they use. */
  ghost predicate WellBehaved(run: Executor) {
    forall n :: WellFormedRun(run(n))
  }

  predicate WellFormedRun(o: RunOutcome) {
    forall i :: 0 <= i < |o.events| ==> Progress.WellFormed(o.events[i])
  }

  /** The manager's state after a mutation of the item object it holds in `queue`. */
  function SetItem(w: World, item: QueueItem): World {
    w.(queue := Set(w.queue, item.jobId, item))
  }

  /** The `error` of a job that ended `partial`. */
  function PartialMessage(s: Progress.Summary): string {
    "Tracks failed: " + NatToDecimal(s.failed) + "; skipped: " + NatToDecimal(s.skipped)
  }

  /** The saved entries `_process_item` removes: same `id` and `source` as the item. */
  function SavedMatch(item: QueueItem): Dict -> bool {
    saved => Lookup(saved, "id") == item.itemId && Lookup(saved, "source") == item.source
  }

  /** What `_process_item` leaves: the manager's state and the item object it worked on. */
  datatype Processed = Processed(world: World, item: QueueItem)

  /** The rest of an attempt whose run returned: judge the summary, record, clean up. */
  function Conclude(w: World, item: QueueItem): (r: Processed)
    ensures r.world.order == w.order && r.world.runs == w.runs && r.world.nextId == w.nextId
    ensures r.item.status == Completed || r.item.status == Partial
    ensures r.item.attempts == item.attempts
  {
    var summary := Progress.Summarize(Progress.TracksOf(w.tap, item.jobId));
    var item' :=
      if summary.allDownloaded then item.(status := Completed, downloaded := VBool(true), forceNoDb := false)
      else item.(status := Partial, downloaded := VBool(false), error := Some(PartialMessage(summary)));
    var w1 := SetItem(w, item');
    var w2 := if summary.allDownloaded then RecordDownload(w1, item') else w1;
    var w3 := w2.(saved := Filter(w2.saved, SavedMatch(item')), tap := Progress.Finished(w2.tap, item.jobId));
    Processed(if summary.allDownloaded then DropCompleted(w3, item.jobId) else w3, item')
  }

  /** The state after one run of the item: the attempt is counted and the run's hook calls applied. */
  function AfterRun(w: World, item: QueueItem, outcome: RunOutcome): World {
    SetItem(w, item).(runs := w.runs + 1, tap := Progress.ApplyEvents(w.tap, item.jobId, outcome.events))
  }

  /** The item after a run raised `message`. */
  function Retried(item: QueueItem, message: string): QueueItem {
    item.(error := Some(message), status := Retrying)
  }

  /** The `failed` ending after the loop. */
  function GiveUp(w: World, item: QueueItem): Processed {
    var item' := item.(status := JobFailed);
    Processed(SetItem(w, item').(tap := Progress.Finished(w.tap, item.jobId)), item')
  }

  /** Runs `from`, `from + 1`, ..., `from + count - 1` all raise. */
  predicate AllThrow(run: Executor, from: nat, count: nat)
    decreases count
  {
    count == 0 || (run(from).Throws? && AllThrow(run, from + 1, count - 1))
  }

  /** How many runs the attempts loop from attempt `a + 1` on uses, starting at run `from`. */
  function RunsUsed(run: Executor, from: nat, a: nat): (u: nat)
    ensures a < MaxAttempts ==> 1 <= u <= MaxAttempts - a
    ensures a >= MaxAttempts ==> u == 0
    decreases MaxAttempts - a
  {
    if a >= MaxAttempts then 0
    else if run(from).Returns? then 1
    else 1 + RunsUsed(run, from + 1, a + 1)
  }

  /**
   * Attempts `a + 1` to five of `_process_item`'s loop, then the `failed`
   * ending. The loop ends `completed`, `partial` or `failed`; it fails
   * exactly when every remaining run raises, keeping the last run's
   * message; and each attempt uses one run, as many as `RunsUsed` counts.
   */
  function Attempt(w: World, item: QueueItem, run: Executor, a: nat): (r: Processed)
    ensures r.world.order == w.order && r.world.nextId == w.nextId
    ensures r.item.status == Completed || r.item.status == Partial || r.item.status == JobFailed
    ensures a <= MaxAttempts ==> (r.item.status == JobFailed <==> AllThrow(run, w.runs, MaxAttempts - a))
    ensures r.world.runs == w.runs + RunsUsed(run, w.runs, a)
    ensures a < MaxAttempts ==> r.item.attempts == a + RunsUsed(run, w.runs, a)
    ensures a >= MaxAttempts ==> r.item == item.(status := JobFailed)
    ensures a < MaxAttempts && r.item.status == JobFailed ==>
              run(r.world.runs - 1).Throws? && r.item.error == Some(run(r.world.runs - 1).message)
    decreases MaxAttempts - a
  {
    if a >= MaxAttempts then GiveUp(w, item)
    else
      var item1 := item.(attempts := a + 1);
      var outcome := run(w.runs);
      var w1 := AfterRun(w, item1, outcome);
      match outcome
      case Returns(_) => Conclude(w1, item1)
      case Throws(message, _) =>
        var item2 := Retried(item1, message);
        Attempt(SetItem(w1, item2), item2, run, a + 1)
  }

  /** `_process_item(item)`. */
  function ProcessItem(w: World, item: QueueItem, run: Executor): (r: Processed)
    ensures r.world.order == w.order && r.world.nextId == w.nextId
    ensures r.item.status == Completed || r.item.status == Partial || r.item.status == JobFailed
    ensures r.item.status == JobFailed <==> AllThrow(run, w.runs, MaxAttempts)
    ensures 1 <= r.item.attempts <= MaxAttempts && r.item.attempts == RunsUsed(run, w.runs, 0)
    ensures r.world.runs == w.runs + r.item.attempts
  {
    var item' := item.(status := InProgress, error := None);
    Attempt(SetItem(w, item').(tap := Progress.Started(w.tap, item.jobId)), item', run, 0)
  }

  // ---------------------------------------------------------------------
  // The invariant across a run

  /** The item being processed is the one the queue holds, and the manager's invariant holds. */
  predicate Running(w: World, item: QueueItem) {
    Inv(w) && Get(w.queue, item.jobId) == Some(item)
  }

  /** Mutating the held item, without touching its identity, keeps it the queued one. */
  lemma SetItemRunning(w: World, item: QueueItem, item': QueueItem)
    requires Running(w, item)
    requires item'.jobId == item.jobId && ItemKey(item') == ItemKey(item)
    ensures Running(SetItem(w, item'), item')
    ensures SetItem(w, item').displayOrder == w.displayOrder
    ensures forall k :: k != item.jobId ==> Get(SetItem(w, item').queue, k) == Get(w.queue, k)
  {
    assert w.queue[IndexOf(w.queue, item.jobId)] in w.queue;
    ReplaceItemInv(w, item.jobId, item');
    GetSetSame(w.queue, item.jobId, item');
    forall k | k != item.jobId ensures Get(SetItem(w, item').queue, k) == Get(w.queue, k) {
      GetSetOther(w.queue, item.jobId, item', k);
    }
  }

  lemma StartedClamped(s: Progress.TapState, job: JobId)
    requires Progress.TapClamped(s)
    ensures Progress.TapClamped(Progress.Started(s, job))
  {
    var s' := Progress.Started(s, job);
    assert s'.jobTotals[job] == [];
  }

  lemma FinishedClamped(s: Progress.TapState, job: JobId)
    requires Progress.TapClamped(s)
    ensures Progress.TapClamped(Progress.Finished(s, job))
  {
  }

  /** A run's hook calls, applied to the running job, keep the running state. */
  lemma RunRunning(w: World, item: QueueItem, item1: QueueItem, outcome: RunOutcome)
    requires Running(w, item) && WellFormedRun(outcome)
    requires item1.jobId == item.jobId && ItemKey(item1) == ItemKey(item)
    ensures Running(SetItem(w, item1).(runs := w.runs + 1,
                                      tap := Progress.ApplyEvents(w.tap, item.jobId, outcome.events)), item1)
  {
    SetItemRunning(w, item, item1);
    Progress.ApplyEventsKeepsClamped(w.tap, item.jobId, outcome.events);
  }

  /** The end of a returned run keeps the invariant; a completed job has left the queue, a partial one is still there. */
  lemma ConcludeInv(w: World, item: QueueItem)
    requires Running(w, item)
    ensures var r := Conclude(w, item);
            && Inv(r.world)
            && r.item.jobId == item.jobId && ItemKey(r.item) == ItemKey(item)
            && r.item.attempts == item.attempts
            && (r.item.status == Completed ==> !HasKey(r.world.queue, item.jobId) && item.jobId !in r.world.displayOrder)
            && (r.item.status != Completed ==> Get(r.world.queue, item.jobId) == Some(r.item))
            && (forall k :: k != item.jobId ==> Get(r.world.queue, k) == Get(w.queue, k))
  {
    var summary := Progress.Summarize(Progress.TracksOf(w.tap, item.jobId));
    var item' :=
      if summary.allDownloaded then item.(status := Completed, downloaded := VBool(true), forceNoDb := false)
      else item.(status := Partial, downloaded := VBool(false), error := Some(PartialMessage(summary)));
    SetItemRunning(w, item, item');
    var w1 := SetItem(w, item');
    var w2 := if summary.allDownloaded then RecordDownload(w1, item') else w1;
    RecordDownloadEffect(w1, item');
    FinishedClamped(w2.tap, item.jobId);
    var w3 := w2.(saved := Filter(w2.saved, SavedMatch(item')), tap := Progress.Finished(w2.tap, item.jobId));
    assert Inv(w3);
    if summary.allDownloaded {
      DropCompletedEffect(w3, item.jobId);
      var w4 := DropCompleted(w3, item.jobId);
      assert item.jobId !in w4.displayOrder by {
        if item.jobId in w4.displayOrder {
          var i :| 0 <= i < |w4.displayOrder| && w4.displayOrder[i] == item.jobId;
          HasKeyAt(w4.queue, i);
        }
      }
    }
  }

  /** How a returned run is judged: `completed` exactly when every track was downloaded. */
  lemma ConcludeOutcome(w: World, item: QueueItem)
    ensures var r := Conclude(w, item);
            var s := Progress.Summarize(Progress.TracksOf(w.tap, item.jobId));
            && (r.item.status == Completed <==> s.allDownloaded)
            && (r.item.status == Completed ==>
                  r.item.downloaded == VBool(true) && !r.item.forceNoDb && ItemKey(item) in r.world.downloadedIndex)
            && (r.item.status != Completed ==>
                  && r.item.status == Partial && r.item.downloaded == VBool(false)
                  && r.item.error == Some(PartialMessage(s))
                  && item.jobId in r.world.tap.latestProgress
                  && r.world.tap.latestProgress[item.jobId].summary == s)
            && item.jobId !in r.world.tap.jobTotals
            && (forall x :: x in r.world.saved ==> !SavedMatch(item)(x))
            && (forall x :: x in w.saved && !SavedMatch(item)(x) ==> x in r.world.saved)
  {
    var s := Progress.Summarize(Progress.TracksOf(w.tap, item.jobId));
    var item' :=
      if s.allDownloaded then item.(status := Completed, downloaded := VBool(true), forceNoDb := false)
      else item.(status := Partial, downloaded := VBool(false), error := Some(PartialMessage(s)));
    assert SavedMatch(item') == SavedMatch(item);
    var w1 := SetItem(w, item');
    if !s.allDownloaded {
      Progress.FinishJobSummary(w1.tap, item.jobId);
    }
  }

  /** The attempts loop from attempt `a + 1` on keeps the invariant; a completed job has left the queue. */
  lemma {:induction false} AttemptInv(w: World, item: QueueItem, run: Executor, a: nat)
    requires Running(w, item) && WellBehaved(run)
    ensures var r := Attempt(w, item, run, a);
            && Inv(r.world)
            && r.item.jobId == item.jobId && ItemKey(r.item) == ItemKey(item)
            && (r.item.status == Completed ==> !HasKey(r.world.queue, item.jobId))
            && (r.item.status != Completed ==> Get(r.world.queue, item.jobId) == Some(r.item))
            && (forall k :: k != item.jobId ==> Get(r.world.queue, k) == Get(w.queue, k))
            && item.jobId !in r.world.tap.jobTotals
    decreases MaxAttempts - a
  {
    var jid := item.jobId;
    var r := Attempt(w, item, run, a);
    if a >= MaxAttempts {
      SetItemRunning(w, item, item.(status := JobFailed));
      FinishedClamped(w.tap, jid);
    } else {
      var item1 := item.(attempts := a + 1);
      var outcome := run(w.runs);
      var w1 := AfterRun(w, item1, outcome);
      RunRunning(w, item, item1, outcome);
      SetItemRunning(w, item, item1);
      if outcome.Returns? {
        assert r == Conclude(w1, item1);
        ConcludeInv(w1, item1);
      } else {
        var item2 := Retried(item1, outcome.message);
        assert r == Attempt(SetItem(w1, item2), item2, run, a + 1);
        SetItemRunning(w1, item1, item2);
        AttemptInv(SetItem(w1, item2), item2, run, a + 1);
      }
    }
  }

  /** An attempt whose run raised goes on to the next attempt with the error recorded. */
  lemma AttemptThrows(w: World, item: QueueItem, run: Executor, a: nat)
    requires a < MaxAttempts && run(w.runs).Throws?
    ensures var item2 := Retried(item.(attempts := a + 1), run(w.runs).message);
            && Attempt(w, item, run, a) == Attempt(SetItem(AfterRun(w, item.(attempts := a + 1), run(w.runs)), item2), item2, run, a + 1)
            && item2.attempts == a + 1 && item2.error == Some(run(w.runs).message)
            && SetItem(AfterRun(w, item.(attempts := a + 1), run(w.runs)), item2).runs == w.runs + 1
  {
  }

  /** Past the fifth attempt the job fails. */
  lemma AttemptPastLast(w: World, item: QueueItem, run: Executor)
    ensures Attempt(w, item, run, MaxAttempts) == GiveUp(w, item)
  {
  }

  /** An attempt whose run returned concludes the job. */
  lemma AttemptReturns(w: World, item: QueueItem, run: Executor, a: nat)
    requires a < MaxAttempts && run(w.runs).Returns?
    ensures Attempt(w, item, run, a) == Conclude(AfterRun(w, item.(attempts := a + 1), run(w.runs)), item.(attempts := a + 1))
    ensures AfterRun(w, item.(attempts := a + 1), run(w.runs)).runs == w.runs + 1
  {
  }

  /** When every remaining run raises, the loop uses all remaining attempts. */
  lemma {:induction false} RunsUsedAllThrow(run: Executor, from: nat, a: nat)
    requires a <= MaxAttempts && AllThrow(run, from, MaxAttempts - a)
    ensures RunsUsed(run, from, a) == MaxAttempts - a
    decreases MaxAttempts - a
  {
    if a < MaxAttempts {
      RunsUsedAllThrow(run, from + 1, a + 1);
    }
  }

  /** Unless every remaining run raises, the loop stops at the first run that returns. */
  lemma {:induction false} RunsUsedStops(run: Executor, from: nat, a: nat)
    requires a < MaxAttempts && !AllThrow(run, from, MaxAttempts - a)
    ensures var u := RunsUsed(run, from, a);
            && 1 <= u <= MaxAttempts - a
            && AllThrow(run, from, u - 1)
            && run(from + u - 1).Returns?
    decreases MaxAttempts - a
  {
    if !run(from).Returns? {
      RunsUsedStops(run, from + 1, a + 1);
    }
  }

  /** What a job that ran to a returned run ends with, read off the final item and state. */
  predicate Concluded(r: Processed) {
    var jid := r.item.jobId;
    && (r.item.status == Completed || r.item.status == Partial)
    && (r.item.status == Completed ==>
          && r.item.downloaded == VBool(true) && !r.item.forceNoDb
          && ItemKey(r.item) in r.world.downloadedIndex
          && jid !in r.world.tap.latestProgress)
    && (r.item.status == Partial ==>
          && r.item.downloaded == VBool(false)
          && jid in r.world.tap.latestProgress
          && !r.world.tap.latestProgress[jid].summary.allDownloaded
          && r.item.error == Some(PartialMessage(r.world.tap.latestProgress[jid].summary)))
    && (forall x :: x in r.world.saved ==> !SavedMatch(r.item)(x))
  }

  lemma ConcludeConcluded(w: World, item: QueueItem)
    ensures Concluded(Conclude(w, item))
    ensures Conclude(w, item).item.itemId == item.itemId && Conclude(w, item).item.source == item.source
  {
    ConcludeOutcome(w, item);
    var r := Conclude(w, item);
    assert SavedMatch(r.item) == SavedMatch(item);
  }

  /** The loop ends through a returned run (and `Concluded` holds) or fails, leaving the saved list alone. */
  lemma {:induction false} AttemptEnding(w: World, item: QueueItem, run: Executor, a: nat)
    ensures var r := Attempt(w, item, run, a);
            && r.item.itemId == item.itemId && r.item.source == item.source
            && (r.item.status != JobFailed ==> Concluded(r))
            && (r.item.status == JobFailed ==> r.world.saved == w.saved && item.jobId in r.world.tap.latestProgress)
    decreases MaxAttempts - a
  {
    if a < MaxAttempts {
      var item1 := item.(attempts := a + 1);
      if run(w.runs).Returns? {
        AttemptReturns(w, item, run, a);
        ConcludeConcluded(AfterRun(w, item1, run(w.runs)), item1);
      } else {
        AttemptThrows(w, item, run, a);
        var item2 := Retried(item1, run(w.runs).message);
        AttemptEnding(SetItem(AfterRun(w, item1, run(w.runs)), item2), item2, run, a + 1);
      }
    }
  }

  // ---------------------------------------------------------------------
  // `_process_item` as a whole

  /**
   * `_process_item` keeps the manager's invariant and touches no other
   * job; a completed job has left the queue and `display_order`, any other
   * ending leaves the final item in the queue.
   */
  lemma ProcessItemInv(w: World, item: QueueItem, run: Executor)
    requires Inv(w) && Get(w.queue, item.jobId) == Some(item) && WellBehaved(run)
    ensures var r := ProcessItem(w, item, run);
            && Inv(r.world)
            && r.item.jobId == item.jobId && ItemKey(r.item) == ItemKey(item)
            && (r.item.status == Completed ==> !HasKey(r.world.queue, item.jobId) && item.jobId !in r.world.displayOrder)
            && (r.item.status != Completed ==> Get(r.world.queue, item.jobId) == Some(r.item))
            && (forall k :: k != item.jobId ==> Get(r.world.queue, k) == Get(w.queue, k))
            && item.jobId !in r.world.tap.jobTotals
  {
    var item' := item.(status := InProgress, error := None);
    SetItemRunning(w, item, item');
    StartedClamped(w.tap, item.jobId);
    var w1 := SetItem(w, item').(tap := Progress.Started(w.tap, item.jobId));
    AttemptInv(w1, item', run, 0);
  }

  /** A failed job used five attempts, one run each, keeps the last run's message, and stays saved. */
  lemma ProcessItemFailed(w: World, item: QueueItem, run: Executor)
    requires ProcessItem(w, item, run).item.status == JobFailed
    ensures var r := ProcessItem(w, item, run);
            && r.item.attempts == MaxAttempts && r.world.runs == w.runs + MaxAttempts
            && r.item.error == Some(run(w.runs + MaxAttempts - 1).message)
            && r.world.saved == w.saved
  {
    var item' := item.(status := InProgress, error := None);
    var w1 := SetItem(w, item').(tap := Progress.Started(w.tap, item.jobId));
    RunsUsedAllThrow(run, w.runs, 0);
    AttemptEnding(w1, item', run, 0);
  }

  /**
   * Such an ending is `completed` (downloaded, `force_no_db` cleared,
   * release recorded) or `partial` (with the failed/skipped counts as its
   * error), with the matching saved entries gone.
   */
  lemma ProcessItemConcluded(w: World, item: QueueItem, run: Executor)
    requires ProcessItem(w, item, run).item.status != JobFailed
    ensures Concluded(ProcessItem(w, item, run))
  {
    var item' := item.(status := InProgress, error := None);
    AttemptEnding(SetItem(w, item').(tap := Progress.Started(w.tap, item.jobId)), item', run, 0);
  }
}

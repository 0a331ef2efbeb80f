/**
 * One turn of `_worker`'s loop: look at the head of `order`, skip a job
 * that is already `completed` or `aborted`, otherwise process it, then pop
 * the head. The loop as written reads `self.queue[job_id]` for the head;
 * when the head names a job that has left the queue this raises
 * `KeyError`, which ends the worker task.
 */
module Worker {
  import opened Common
  import opened Assoc
  import opened Values
  import opened Queue
  import opened Process
  import opened Artists
  import Progress

  datatype Turn =
    | Idle                    // `order` is empty: the worker returns
    | Popped(world: World)    // the head was skipped or processed, then popped
    | Crashed(missing: JobId) // `self.queue[job_id]` raised `KeyError`

  /** The turn for a head that is still queued. */
  function QueuedTurn(w: World, item: QueueItem, run: Executor): (t: Turn)
    requires |w.order| > 0
    ensures t.Popped? && t.world.order == w.order[1..] && t.world.nextId == w.nextId
    ensures item.status == Completed || item.status == Aborted ==> t.world == w.(order := w.order[1..])
    ensures !(item.status == Completed || item.status == Aborted) ==> t.world.runs > w.runs
  {
    if item.status == Completed || item.status == Aborted then Popped(w.(order := w.order[1..]))
    else
      var r := ProcessItem(w, item, run).world;
      Popped(r.(order := r.order[1..]))
  }

  /** `_worker`'s loop body as written. */
  function TurnAsWritten(w: World, run: Executor): (t: Turn)
    ensures t.Idle? <==> |w.order| == 0
    ensures t.Crashed? ==> |w.order| > 0 && t.missing == w.order[0] && !HasKey(w.queue, t.missing)
    ensures t.Popped? ==> |w.order| > 0 && t.world.order == w.order[1..] && t.world.nextId == w.nextId
  {
    if |w.order| == 0 then Idle
    else match Get(w.queue, w.order[0])
      case None => Crashed(w.order[0])
      case Some(item) => QueuedTurn(w, item, run)
  }

  /** The loop body with a head that has left the queue popped instead of looked up. */
  function WorkerTurn(w: World, run: Executor): (t: Turn)
    ensures !t.Crashed?
    ensures t.Idle? <==> |w.order| == 0
    ensures t.Popped? ==> |w.order| > 0 && t.world.order == w.order[1..] && t.world.nextId == w.nextId
  {
    if |w.order| == 0 then Idle
    else match Get(w.queue, w.order[0])
      case None => Popped(w.(order := w.order[1..]))
      case Some(item) => QueuedTurn(w, item, run)
  }

  // ---------------------------------------------------------------------
  // The loop as written

  /** The written loop body dies exactly when the head of `order` is no longer queued. */
  lemma TurnCrashesIff(w: World, run: Executor)
    ensures TurnAsWritten(w, run).Crashed? <==> |w.order| > 0 && !HasKey(w.queue, w.order[0])
    ensures TurnAsWritten(w, run).Crashed? ==> TurnAsWritten(w, run).missing == w.order[0]
    ensures !TurnAsWritten(w, run).Crashed? ==> WorkerTurn(w, run) == TurnAsWritten(w, run)
  {
  }

  /**
   * A job queued twice in `order` (one `retry` of a job still waiting is
   * enough) that completes on its first turn leaves its id at the head
   * with no job behind it, so the next turn crashes.
   */
  lemma CompletedTwiceCrashes(w: World, run: Executor)
    requires Inv(w) && WellBehaved(run)
    requires |w.order| >= 2 && w.order[1] == w.order[0]
    requires HasKey(w.queue, w.order[0])
    requires var item := Get(w.queue, w.order[0]).value;
             item.status != Completed && item.status != Aborted &&
             ProcessItem(w, item, run).item.status == Completed
    ensures TurnAsWritten(w, run).Popped?
    ensures TurnAsWritten(TurnAsWritten(w, run).world, run) == Crashed(w.order[0])
  {
    var jid := w.order[0];
    var item := Get(w.queue, jid).value;
    ProcessItemInv(w, item, run);
  }

  /**
   * `abort` removes only the first copy of the id from `order`, so aborting
   * a job that was queued twice leaves its id at the head with no job behind
   * it: the next turn crashes.
   */
  lemma AbortAfterRetryCrashes(w: World, jid: JobId, run: Executor)
    requires Inv(w) && w.order == [jid, jid] && HasKey(w.queue, jid)
    ensures TurnAsWritten(Abort(w, jid), run) == Crashed(jid)
  {
    AbortEffect(w, jid);
    assert RemoveFirst(w.order, jid) == [jid];
  }

  /** `retry` on a job that is queued but not yet run puts its id in `order` a second time. */
  lemma RetryQueuesTwice(w: World, jid: JobId, force: bool)
    requires Inv(w) && w.order == [jid] && HasKey(w.queue, jid)
    ensures Retry(w, jid, force).order == [jid, jid]
    ensures Get(Retry(w, jid, force).queue, jid).Some?
    ensures Get(Retry(w, jid, force).queue, jid).value.status == Queued
  {
    RetryEffect(w, jid, force);
  }

  /**
   * Once the head is missing, the manager stays stuck: `enqueue` and
   * `retry`, the two calls that start a worker, only append to `order` and
   * never bring the missing job back, so every later worker dies on the
   * same id.
   */
  lemma CrashPersists(w: World, entries: seq<Value>, jid: JobId, force: bool, run: Executor)
    requires Inv(w) && TurnAsWritten(w, run).Crashed?
    ensures TurnAsWritten(EnqueueAll(w, entries).world, run) == TurnAsWritten(w, run)
    ensures TurnAsWritten(Retry(w, jid, force), run) == TurnAsWritten(w, run)
  {
    StuckAfterEnqueue(w, entries);
    RetryEffect(w, jid, force);
  }

  /** A head that has left the queue stays the head, and stays absent, through `enqueue`. */
  lemma {:induction false} StuckAfterEnqueue(w: World, entries: seq<Value>)
    requires Inv(w) && |w.order| > 0 && !HasKey(w.queue, w.order[0])
    ensures var w' := EnqueueAll(w, entries).world;
            Inv(w') && |w'.order| > 0 && w'.order[0] == w.order[0] && !HasKey(w'.queue, w.order[0])
    decreases |entries|
  {
    if |entries| > 0 && EnqueueEntry(w, entries[0]).Ok? {
      var w' := EnqueueEntry(w, entries[0]).value;
      assert EnqueueAll(w, entries) == EnqueueAll(w', entries[1..]);
      EnqueueEntryInv(w, entries[0]);
      EnqueueEntryKeeps(w, entries[0]);
      StuckKept(w, w');
      StuckAfterEnqueue(w', entries[1..]);
    }
  }

  /** A state that keeps `order` as a prefix and re-adds no missing old id keeps a missing head. */
  lemma StuckKept(w: World, w': World)
    requires Inv(w) && |w.order| > 0 && !HasKey(w.queue, w.order[0])
    requires |w'.order| >= |w.order| && w'.order[..|w.order|] == w.order
    requires forall k :: k < w.nextId && !HasKey(w.queue, k) ==> !HasKey(w'.queue, k)
    ensures |w'.order| > 0 && w'.order[0] == w.order[0] && !HasKey(w'.queue, w.order[0])
  {
    var head := w.order[0];
    assert head in w.order;
    assert head < w.nextId;
    assert w'.order[0] == w'.order[..|w.order|][0];
    assert !HasKey(w'.queue, head);
  }

  /** An `enqueue` step keeps `order` as a prefix and adds no id below the supply. */
  lemma EnqueueEntryKeeps(w: World, entry: Value)
    requires Inv(w) && EnqueueEntry(w, entry).Ok?
    ensures |EnqueueEntry(w, entry).value.order| >= |w.order|
    ensures EnqueueEntry(w, entry).value.order[..|w.order|] == w.order
    ensures forall k :: k < w.nextId && !HasKey(w.queue, k) ==> !HasKey(EnqueueEntry(w, entry).value.queue, k)
  {
    FindExistingSpec(w.queue, entry);
    if FindExisting(w.queue, entry).value.None? {
      NewKeyAppends(w);
      var item := NewItem(entry, w.nextId).value;
      var q := w.queue + [(w.nextId, item)];
      forall k | k < w.nextId && !HasKey(w.queue, k) ensures !HasKey(q, k) {
        forall i | 0 <= i < |q| ensures q[i].0 != k {
          if i < |w.queue| {
            assert q[i] == w.queue[i];
          }
        }
      }
    }
  }

  /** A concrete run: enqueue one album, retry it before the worker runs, let its only track download. */
  function Album(): Value {
    VDict([("source", VStr("qobuz")), ("media_type", VStr("album")), ("id", VStr("1"))])
  }

  function OneTrackDownloads(): Executor {
    n => Returns([Progress.Mark(VStr("t1"), Progress.Downloaded, [], "t1", None, None, None)])
  }

  /** The concrete sequence that kills the worker: enqueue, retry, a completed run, then `KeyError`. */
  lemma CrashWitness()
    ensures var w1 := EnqueueAll(Initial([], []), [Album()]).world;
            var w2 := Retry(w1, 0, false);
            && w2.order == [0, 0]
            && TurnAsWritten(w2, OneTrackDownloads()).Popped?
            && TurnAsWritten(TurnAsWritten(w2, OneTrackDownloads()).world, OneTrackDownloads()) == Crashed(0)
  {
    var w1 := EnqueueAll(Initial([], []), [Album()]).world;
    AlbumQueued();
    RetryQueuesTwice(w1, 0, false);
    RetryEffect(w1, 0, false);
    var w2 := Retry(w1, 0, false);
    var run := OneTrackDownloads();
    OneTrackWellBehaved();
    OneTrackCompletes(w2, Get(w2.queue, 0).value, run);
    CompletedTwiceCrashes(w2, run);
  }

  /** Enqueueing the album on a fresh manager queues it as job 0. */
  lemma AlbumQueued()
    ensures var w1 := EnqueueAll(Initial([], []), [Album()]).world;
            Inv(w1) && w1.order == [0] && HasKey(w1.queue, 0)
  {
    AlbumEntryQueued();
    SingleEntry(Initial([], []), Album());
  }

  lemma SingleEntry(w: World, e: Value)
    requires EnqueueEntry(w, e).Ok?
    ensures EnqueueAll(w, [e]) == Enqueued(EnqueueEntry(w, e).value, None)
  {
    assert [e][1..] == [];
  }

  lemma AlbumEntryQueued()
    ensures var r := EnqueueEntry(Initial([], []), Album());
            r.Ok? && Inv(r.value) && r.value.order == [0] && HasKey(r.value.queue, 0)
  {
    InitialInv([], []);
    AlbumFields();
    FirstEntryQueued(Initial([], []), Album());
  }

  /** The first entry enqueued on an empty manager becomes job 0. */
  lemma FirstEntryQueued(w: World, e: Value)
    requires Inv(w) && w.queue == [] && w.order == [] && w.nextId == 0
    requires Identified(e) && HasKey(e.fields, "media_type")
    requires StringifyArtist(Lookup(e.fields, "artist")).Ok?
    ensures var r := EnqueueEntry(w, e);
            r.Ok? && Inv(r.value) && r.value.order == [0] && HasKey(r.value.queue, 0)
  {
    EnqueueNew(w, e);
    EnqueueEntryInv(w, e);
    var q := EnqueueEntry(w, e).value.queue;
    assert q[0].0 == 0;
    HasKeyAt(q, 0);
  }

  lemma AlbumFields()
    ensures Identified(Album()) && HasKey(Album().fields, "media_type")
    ensures StringifyArtist(Lookup(Album().fields, "artist")).Ok?
  {
    var d := Album().fields;
    HasKeyAt(d, 0);
    HasKeyAt(d, 1);
    HasKeyAt(d, 2);
    assert !HasKey(d, "artist");
  }

  lemma OneTrackWellBehaved()
    ensures WellBehaved(OneTrackDownloads())
  {
    forall n: nat ensures WellFormedRun(OneTrackDownloads()(n)) {
      var o := OneTrackDownloads()(n);
      assert o.events == [Progress.Mark(VStr("t1"), Progress.Downloaded, [], "t1", None, None, None)];
    }
  }

  /** With that executor the first run downloads the job's only track, so the job completes. */
  lemma OneTrackCompletes(w: World, item: QueueItem, run: Executor)
    requires run == OneTrackDownloads()
    ensures ProcessItem(w, item, run).item.status == Completed
  {
    var item' := item.(status := InProgress, error := None);
    var w1 := SetItem(w, item').(tap := Progress.Started(w.tap, item.jobId));
    var item1 := item'.(attempts := 1);
    AttemptReturns(w1, item', run, 0);
    var w2 := AfterRun(w1, item1, run(w1.runs));
    var tracks := Progress.TracksOf(w2.tap, item.jobId);
    assert tracks == [(Some("t1"), Progress.TrackState(0, 1, VStr("t1"), Progress.Downloaded, None))];
    assert Progress.Summarize(tracks).allDownloaded;
  }

  // ---------------------------------------------------------------------
  // The loop as intended

  /**
   * The corrected turn never crashes, keeps the manager's invariant, and
   * pops exactly the head of `order`; it is idle exactly when `order` is
   * empty.
   */
  lemma WorkerTurnEffect(w: World, run: Executor)
    requires Inv(w) && WellBehaved(run)
    ensures !WorkerTurn(w, run).Crashed?
    ensures WorkerTurn(w, run).Idle? <==> |w.order| == 0
    ensures WorkerTurn(w, run).Popped? ==>
              Inv(WorkerTurn(w, run).world) && WorkerTurn(w, run).world.order == w.order[1..]
  {
    if |w.order| > 0 {
      var jid := w.order[0];
      var w' := w.(order := w.order[1..]);
      assert Inv(w') by {
        assert forall j :: j in w.order[1..] ==> j in w.order;
      }
      match Get(w.queue, jid)
      case None =>
      case Some(item) =>
        if !(item.status == Completed || item.status == Aborted) {
          ProcessItemInv(w, item, run);
          var r := ProcessItem(w, item, run).world;
          assert forall j :: j in r.order[1..] ==> j in r.order;
        }
    }
  }

  /** The worker's loop to the end: turns until `order` is empty. */
  function Drain(w: World, run: Executor): (r: World)
    ensures r.order == [] && r.nextId == w.nextId
    decreases |w.order|
  {
    if |w.order| == 0 then w
    else match Get(w.queue, w.order[0])
      case None => Drain(w.(order := w.order[1..]), run)
      case Some(item) => Drain(QueuedTurn(w, item, run).world, run)
  }

  /** The corrected worker runs until `order` is empty and keeps the invariant. */
  lemma {:induction false} DrainEmpties(w: World, run: Executor)
    requires Inv(w) && WellBehaved(run)
    ensures Inv(Drain(w, run)) && Drain(w, run).order == []
    decreases |w.order|
  {
    if |w.order| > 0 {
      WorkerTurnEffect(w, run);
      DrainEmpties(WorkerTurn(w, run).world, run);
    }
  }
}

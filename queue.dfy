/**
 * The download queue of `DownloadManager` as a value: the `queue` dict of
 * items, the `order` still to run, the `display_order`, the
 * `downloaded_index`, and the tap, saved list and history the operations
 * touch. Every operation of the manager is a function on this state; the
 * class in module `Manager` is proved to follow these functions.
 */
module Queue {
  import opened Common
  import opened Assoc
  import opened Values
  import opened Artists
  import opened Stores
  import Progress

  type JobId = Progress.JobId

  datatype JobStatus = Queued | InProgress | Retrying | Completed | Partial | JobFailed | Aborted

  /** `QueueItem`; `url` is never set by `enqueue`, so it stays `None` in this model. */
  datatype QueueItem = QueueItem(
    jobId: JobId,
    source: Value,
    mediaType: Value,
    itemId: Value,
    title: Value,
    artist: Value,
    url: Value,
    status: JobStatus,
    attempts: nat,
    error: Option<string>,
    downloaded: Value,
    forceNoDb: bool)

  /** The manager's whole state. `runs` counts executor runs and indexes the executor oracle. */
  datatype World = World(
    queue: seq<(JobId, QueueItem)>,
    order: seq<JobId>,
    displayOrder: seq<JobId>,
    downloadedIndex: set<EntryKey>,
    nextId: JobId,
    runs: nat,
    tap: Progress.TapState,
    saved: seq<Dict>,
    history: seq<Dict>)

  /** A fresh manager over the saved list and history found on disk. */
  function Initial(saved: seq<Dict>, history: seq<Dict>): World {
    World([], [], [], KeySet(history), 0, 0, Progress.TapState(map[], map[]), saved, history)
  }

  /** `(item.source, str(item.item_id))`. */
  function ItemKey(item: QueueItem): EntryKey {
    (item.source, Str(item.itemId))
  }

  /** `entry[k]` on a decoded JSON value. */
  function Subscript(entry: Value, k: string): (r: Result<Value>)
    ensures r.Ok? <==> entry.VDict? && HasKey(entry.fields, k)
    ensures r.Ok? ==> r.value == Lookup(entry.fields, k)
    ensures r.Raised? && entry.VDict? ==> r.error == KeyError(k)
  {
    match entry
    case VDict(d) => if HasKey(d, k) then Ok(Lookup(d, k)) else Raised(KeyError(k))
    case _ => Raised(TypeError)
  }

  // ---------------------------------------------------------------------
  // enqueue

  /**
   * The generator of `enqueue` looking for a queued job with the entry's
   * `(source, str(id))`, in queue order; evaluating `entry["source"]` and
   * `entry["id"]` may raise on the way.
   */
  function FindExisting(queue: seq<(JobId, QueueItem)>, entry: Value): Result<Option<JobId>>
    decreases |queue|
  {
    if |queue| == 0 then Ok(None)
    else match Subscript(entry, "source")
      case Raised(e) => Raised(e)
      case Ok(source) =>
        if queue[0].1.source != source then FindExisting(queue[1..], entry)
        else match Subscript(entry, "id")
          case Raised(e) => Raised(e)
          case Ok(id) =>
            if Str(queue[0].1.itemId) == Str(id) then Ok(Some(queue[0].0))
            else FindExisting(queue[1..], entry)
  }

  /** The `QueueItem(...)` built for a new entry, arguments evaluated left to right. */
  function NewItem(entry: Value, jid: JobId): Result<QueueItem> {
    match Subscript(entry, "source")
    case Raised(e) => Raised(e)
    case Ok(source) =>
      match Subscript(entry, "media_type")
      case Raised(e) => Raised(e)
      case Ok(mediaType) =>
        match Subscript(entry, "id")
        case Raised(e) => Raised(e)
        case Ok(id) =>
          var d := entry.fields;
          match StringifyArtist(Lookup(d, "artist"))
          case Raised(e) => Raised(e)
          case Ok(artist) =>
            Ok(QueueItem(
              jid, source, mediaType, id,
              Or(Or(Lookup(d, "title"), Lookup(d, "name")), id),
              artist, VNone, Queued, 0, None,
              GetOr(d, "downloaded", VBool(false)),
              Truthy(Or(Lookup(d, "force_no_db"), Lookup(d, "no_db")))))
  }

  /** `display_order.append(jid)` unless `jid` is already shown. */
  function Shown(shown: seq<JobId>, jid: JobId): (r: seq<JobId>)
    ensures jid in r && shown <= r
    ensures jid in shown ==> r == shown
  {
    if jid in shown then shown else shown + [jid]
  }

  /** A new job stored under the next id and appended to `order` and `display_order`. */
  function Added(w: World, item: QueueItem): World {
    w.(queue := Set(w.queue, w.nextId, item),
       order := w.order + [w.nextId],
       displayOrder := Shown(w.displayOrder, w.nextId),
       nextId := w.nextId + 1)
  }

  /** One iteration of `enqueue`'s loop. */
  function EnqueueEntry(w: World, entry: Value): Result<World> {
    match FindExisting(w.queue, entry)
    case Raised(e) => Raised(e)
    case Ok(Some(existing)) => Ok(w.(displayOrder := Shown(w.displayOrder, existing)))
    case Ok(None) =>
      match NewItem(entry, w.nextId)
      case Raised(e) => Raised(e)
      case Ok(item) => Ok(Added(w, item))
  }

  /** An entry for a queued release only puts that job back into `display_order`. */
  lemma EnqueueEntryExisting(w: World, entry: Value, existing: JobId)
    requires FindExisting(w.queue, entry) == Ok(Some(existing))
    ensures EnqueueEntry(w, entry) == Ok(w.(displayOrder := Shown(w.displayOrder, existing)))
  {
  }

  /** An entry for a new release adds a job under the next id. */
  lemma EnqueueEntryAdded(w: World, entry: Value, item: QueueItem)
    requires FindExisting(w.queue, entry) == Ok(None) && NewItem(entry, w.nextId) == Ok(item)
    ensures EnqueueEntry(w, entry) == Ok(Added(w, item))
  {
  }

  /** The state after `enqueue(entries)`, and the exception that ended it early, if any. */
  datatype Enqueued = Enqueued(world: World, error: Option<PyError>)

  function EnqueueAll(w: World, entries: seq<Value>): Enqueued
    decreases |entries|
  {
    if |entries| == 0 then Enqueued(w, None)
    else match EnqueueEntry(w, entries[0])
      case Raised(e) => Enqueued(w, Some(e))
      case Ok(w') => EnqueueAll(w', entries[1..])
  }

  // ---------------------------------------------------------------------
  // snapshot, retry, abort, _drop_completed, _record_download

  function InQueue(queue: seq<(JobId, QueueItem)>, ids: seq<JobId>): (r: seq<JobId>)
    ensures forall j :: j in r <==> j in ids && HasKey(queue, j)
  {
    if |ids| == 0 then []
    else (if HasKey(queue, ids[0]) then [ids[0]] else []) + InQueue(queue, ids[1..])
  }

  function ItemsOf(queue: seq<(JobId, QueueItem)>, ids: seq<JobId>): (items: seq<QueueItem>)
    requires forall j :: j in ids ==> HasKey(queue, j)
    ensures |items| == |ids|
    ensures forall i :: 0 <= i < |ids| ==> Get(queue, ids[i]) == Some(items[i])
  {
    if |ids| == 0 then [] else [Get(queue, ids[0]).value] + ItemsOf(queue, ids[1..])
  }

  /** `snapshot`: `display_order` pruned to queued jobs, and those jobs' items. */
  function Snapshot(w: World): (World, seq<QueueItem>) {
    var valid := InQueue(w.queue, w.displayOrder);
    (w.(displayOrder := valid), ItemsOf(w.queue, valid))
  }

  /** `retry(job_id, force_no_db=...)`. */
  function Retry(w: World, jid: JobId, forceNoDb: bool): World {
    match Get(w.queue, jid)
    case None => w
    case Some(item) =>
      var item' := item.(status := Queued, error := None, downloaded := VBool(false),
                         forceNoDb := if forceNoDb then true else item.forceNoDb);
      w.(queue := Set(w.queue, jid, item'), order := w.order + [jid])
  }

  /** `force_redownload`. */
  function ForceRedownload(w: World, jid: JobId): World {
    Retry(w, jid, true)
  }

  /** `abort`: the job leaves the queue, `order`, `display_order` and both progress maps. */
  function Abort(w: World, jid: JobId): World {
    if !HasKey(w.queue, jid) then w
    else
      w.(queue := Remove(w.queue, jid),
         order := if jid in w.order then RemoveFirst(w.order, jid) else w.order,
         displayOrder := if jid in w.displayOrder then RemoveFirst(w.displayOrder, jid) else w.displayOrder,
         tap := Progress.TapState(w.tap.jobTotals - {jid}, w.tap.latestProgress - {jid}))
  }

  /** `_drop_completed`. */
  function DropCompleted(w: World, jid: JobId): World {
    w.(queue := Remove(w.queue, jid),
       displayOrder := if jid in w.displayOrder then RemoveFirst(w.displayOrder, jid) else w.displayOrder,
       tap := w.tap.(latestProgress := w.tap.latestProgress - {jid}))
  }

  /** The dict `_record_download` hands to the history store. */
  function HistoryEntry(item: QueueItem): Dict {
    [("id", item.itemId), ("source", item.source), ("media_type", item.mediaType),
     ("title", item.title), ("artist", item.artist), ("url", item.url)]
  }

  /** `_record_download`. */
  function RecordDownload(w: World, item: QueueItem): World {
    var key := ItemKey(item);
    if key in w.downloadedIndex then w
    else w.(downloadedIndex := w.downloadedIndex + {key},
            history := HistoryAdded(w.history, [HistoryEntry(item)]))
  }

  // ---------------------------------------------------------------------
  // Invariant

  /** No two queued jobs are for the same release. */
  predicate NoDuplicateReleases(queue: seq<(JobId, QueueItem)>) {
    forall p, q :: p in queue && q in queue && p.0 != q.0 ==> ItemKey(p.1) != ItemKey(q.1)
  }

  /**
   * What every operation keeps: `queue` is a real dict whose keys, in
   * insertion order, are `display_order`; items know their own job id; ids
   * come from the supply; one job per release; `downloaded_index` is the
   * key set of the history; every track's progress is clamped.
   */
  predicate Inv(w: World) {
    && QueueInv(w.queue, w.displayOrder, w.nextId)
    && (forall j :: j in w.order ==> j < w.nextId)
    && w.downloadedIndex == KeySet(w.history)
    && DistinctKeys(w.history)
    && Progress.TapClamped(w.tap)
  }

  lemma InitialInv(saved: seq<Dict>, history: seq<Dict>)
    requires DistinctKeys(history)
    ensures Inv(Initial(saved, history))
  {
  }

  /** A queued entry's key is in `display_order`. */
  lemma MemberDisplayed(w: World, p: (JobId, QueueItem))
    requires Inv(w) && p in w.queue
    ensures p.0 in w.displayOrder && HasKey(w.queue, p.0)
  {
    var i :| 0 <= i < |w.queue| && w.queue[i] == p;
    assert Keys(w.queue)[i] == p.0;
    HasKeyAt(w.queue, i);
  }

  /** `display_order` never holds a job id twice. */
  lemma DisplayOrderDistinct(w: World)
    requires Inv(w)
    ensures forall i, j :: 0 <= i < j < |w.displayOrder| ==> w.displayOrder[i] != w.displayOrder[j]
  {
  }

  // ---------------------------------------------------------------------
  // enqueue: deduplication, new jobs, errors

  /** The queued item is for the entry's release. */
  predicate Matches(item: QueueItem, entry: Value) {
    && entry.VDict? && HasKey(entry.fields, "source") && HasKey(entry.fields, "id")
    && item.source == Lookup(entry.fields, "source")
    && Str(item.itemId) == Str(Lookup(entry.fields, "id"))
  }

  /** The entry carries what `enqueue` reads with `entry[...]` before it can find a duplicate. */
  predicate Identified(entry: Value) {
    entry.VDict? && HasKey(entry.fields, "source") && HasKey(entry.fields, "id")
  }

  lemma {:induction false} FindExistingSpec(queue: seq<(JobId, QueueItem)>, entry: Value)
    ensures var r := FindExisting(queue, entry);
            && (r.Ok? && r.value.Some? ==> exists p :: p in queue && p.0 == r.value.value && Matches(p.1, entry))
            && (r == Ok(None) ==> forall p :: p in queue ==> !Matches(p.1, entry))
            && (r.Raised? ==> |queue| > 0 && !Identified(entry))
            && (Identified(entry) ==> r.Ok?)
    decreases |queue|
  {
    if |queue| > 0 {
      FindExistingSpec(queue[1..], entry);
      assert forall p :: p in queue <==> p == queue[0] || p in queue[1..];
    }
  }

  /** An entry for a release that is already queued changes nothing. */
  lemma EnqueueDuplicate(w: World, entry: Value, p: (JobId, QueueItem))
    requires Inv(w) && p in w.queue && Matches(p.1, entry)
    ensures EnqueueEntry(w, entry) == Ok(w)
  {
    FindExistingSpec(w.queue, entry);
    var r := FindExisting(w.queue, entry);
    var q :| q in w.queue && q.0 == r.value.value && Matches(q.1, entry);
    MemberDisplayed(w, q);
  }

  /** A new release becomes a queued job at the end of the queue, `order` and `display_order`. */
  lemma EnqueueNew(w: World, entry: Value)
    requires Inv(w) && Identified(entry)
    requires forall p :: p in w.queue ==> !Matches(p.1, entry)
    requires HasKey(entry.fields, "media_type")
    requires StringifyArtist(Lookup(entry.fields, "artist")).Ok?
    ensures var r := EnqueueEntry(w, entry);
            var d := entry.fields;
            && r.Ok? && |r.value.queue| == |w.queue| + 1
            && r.value.queue[..|w.queue|] == w.queue
            && r.value.queue[|w.queue|].0 == w.nextId
            && r.value.order == w.order + [w.nextId]
            && r.value.displayOrder == w.displayOrder + [w.nextId]
            && var item := r.value.queue[|w.queue|].1;
               && item.status == Queued && item.attempts == 0 && item.error == None
               && item.source == Lookup(d, "source") && item.itemId == Lookup(d, "id")
               && item.title == Or(Or(Lookup(d, "title"), Lookup(d, "name")), Lookup(d, "id"))
               && item.forceNoDb == (Truthy(Lookup(d, "force_no_db")) || Truthy(Lookup(d, "no_db")))
               && item.jobId == w.nextId && item.mediaType == Lookup(d, "media_type")
               && item.artist == StringifyArtist(Lookup(d, "artist")).value
               && item.downloaded == GetOr(d, "downloaded", VBool(false)) && item.url == VNone
  {
    FindExistingSpec(w.queue, entry);
    NewKeyAppends(w);
  }

  /** The next id is not yet a key, so assigning it appends. */
  lemma NewKeyAppends(w: World)
    requires Inv(w)
    ensures !HasKey(w.queue, w.nextId) && w.nextId !in w.displayOrder
    ensures forall item :: Set(w.queue, w.nextId, item) == w.queue + [(w.nextId, item)]
  {
    forall i | 0 <= i < |w.queue| ensures w.queue[i].0 != w.nextId {
      assert w.queue[i] in w.queue;
    }
  }

  /** `enqueue` raises on an entry exactly when it cannot read the entry's release, or it is new and lacks a media type or has an unprintable artist. */
  lemma EnqueueRaisesIff(w: World, entry: Value)
    ensures EnqueueEntry(w, entry).Raised? <==>
      !(Identified(entry) &&
        ((exists p :: p in w.queue && Matches(p.1, entry)) ||
         (HasKey(entry.fields, "media_type") && StringifyArtist(Lookup(entry.fields, "artist")).Ok?)))
  {
    FindExistingSpec(w.queue, entry);
  }

  lemma EnqueueEntryInv(w: World, entry: Value)
    requires Inv(w) && EnqueueEntry(w, entry).Ok?
    ensures Inv(EnqueueEntry(w, entry).value)
    ensures forall p :: p in w.queue ==> p in EnqueueEntry(w, entry).value.queue
  {
    FindExistingSpec(w.queue, entry);
    var r := FindExisting(w.queue, entry);
    if r.value.Some? {
      var q :| q in w.queue && q.0 == r.value.value && Matches(q.1, entry);
      MemberDisplayed(w, q);
    } else {
      NewKeyAppends(w);
      var item := NewItem(entry, w.nextId).value;
      forall p | p in w.queue ensures ItemKey(p.1) != ItemKey(item) {
        assert !Matches(p.1, entry);
      }
      AppendJobInv(w, item);
    }
  }

  /** Appending a job for a release not yet queued, under the next id, keeps the invariant. */
  lemma AppendJobInv(w: World, item: QueueItem)
    requires Inv(w) && item.jobId == w.nextId
    requires forall p :: p in w.queue ==> ItemKey(p.1) != ItemKey(item)
    ensures Inv(w.(queue := w.queue + [(w.nextId, item)], order := w.order + [w.nextId],
                   displayOrder := w.displayOrder + [w.nextId], nextId := w.nextId + 1))
  {
    NewKeyAppends(w);
    AppendQueueInv(w.queue, w.displayOrder, w.nextId, item);
  }

  /** The queue half of `AppendJobInv`. */
  lemma AppendQueueInv(queue: seq<(JobId, QueueItem)>, displayOrder: seq<JobId>, nextId: JobId, item: QueueItem)
    requires QueueInv(queue, displayOrder, nextId) && item.jobId == nextId && !HasKey(queue, nextId)
    requires forall p :: p in queue ==> ItemKey(p.1) != ItemKey(item)
    ensures QueueInv(queue + [(nextId, item)], displayOrder + [nextId], nextId + 1)
  {
    var q' := queue + [(nextId, item)];
    KeysAppend(queue, (nextId, item));
    AppendUnique(queue, (nextId, item));
    AppendNoDuplicates(queue, (nextId, item));
    forall p | p in q' ensures p.1.jobId == p.0 && p.0 < nextId + 1 {
      AppendMember(queue, (nextId, item), p);
    }
  }

  lemma AppendMember<K, V>(d: seq<(K, V)>, x: (K, V), p: (K, V))
    ensures p in d + [x] <==> p in d || p == x
  {
  }

  lemma AppendUnique<K, V>(d: seq<(K, V)>, x: (K, V))
    requires UniqueKeys(d) && !HasKey(d, x.0)
    ensures UniqueKeys(d + [x])
  {
    var d' := d + [x];
    forall i, j | 0 <= i < j < |d'| ensures d'[i].0 != d'[j].0 {
      if j == |d| {
        HasKeyAt(d, i);
      }
    }
  }

  lemma AppendNoDuplicates(queue: seq<(JobId, QueueItem)>, x: (JobId, QueueItem))
    requires NoDuplicateReleases(queue)
    requires forall p :: p in queue ==> ItemKey(p.1) != ItemKey(x.1)
    ensures NoDuplicateReleases(queue + [x])
  {
    forall p, q | p in queue + [x] && q in queue + [x] && p.0 != q.0
      ensures ItemKey(p.1) != ItemKey(q.1)
    {
      AppendMember(queue, x, p);
      AppendMember(queue, x, q);
    }
  }

  lemma KeysAppend<K, V>(d: seq<(K, V)>, x: (K, V))
    ensures Keys(d + [x]) == Keys(d) + [x.0]
  {
  }

  /** `enqueue(entries)` keeps the invariant and every job already queued. */
  lemma {:induction false} EnqueueAllInv(w: World, entries: seq<Value>)
    requires Inv(w)
    ensures Inv(EnqueueAll(w, entries).world)
    ensures forall p :: p in w.queue ==> p in EnqueueAll(w, entries).world.queue
    decreases |entries|
  {
    if |entries| > 0 && EnqueueEntry(w, entries[0]).Ok? {
      EnqueueEntryInv(w, entries[0]);
      EnqueueAllInv(EnqueueEntry(w, entries[0]).value, entries[1..]);
    }
  }

  /** Some queued job is for the entry's release. */
  predicate HasJobFor(queue: seq<(JobId, QueueItem)>, entry: Value) {
    exists p :: p in queue && Matches(p.1, entry)
  }

  /** After an `enqueue` that did not raise, every entry's release has a queued job. */
  lemma {:induction false} EnqueueAllQueues(w: World, entries: seq<Value>)
    requires Inv(w)
    ensures var r := EnqueueAll(w, entries);
            r.error == None ==> forall i :: 0 <= i < |entries| ==> HasJobFor(r.world.queue, entries[i])
    decreases |entries|
  {
    if |entries| == 0 {
    } else if EnqueueEntry(w, entries[0]).Raised? {
      assert EnqueueAll(w, entries).error.Some?;
    } else {
      var w' := EnqueueEntry(w, entries[0]).value;
      var r' := EnqueueAll(w', entries[1..]);
      assert EnqueueAll(w, entries) == r';
      EnqueueEntryInv(w, entries[0]);
      EnqueueAllInv(w', entries[1..]);
      EnqueueAllQueues(w', entries[1..]);
      var p := EnqueueEntryQueues(w, entries[0]);
      assert p in r'.world.queue;
      HasJobsCons(r'.world.queue, entries, r'.error == None);
    }
  }

  lemma HasJobsCons(queue: seq<(JobId, QueueItem)>, entries: seq<Value>, ok: bool)
    requires |entries| > 0 && HasJobFor(queue, entries[0])
    requires ok ==> forall i :: 0 <= i < |entries| - 1 ==> HasJobFor(queue, entries[1..][i])
    ensures ok ==> forall i :: 0 <= i < |entries| ==> HasJobFor(queue, entries[i])
  {
    if ok {
      forall i | 1 <= i < |entries| ensures HasJobFor(queue, entries[i]) {
        assert entries[i] == entries[1..][i - 1];
      }
    }
  }

  /** One entry that did not raise has a queued job afterwards: the one it matched, or the new one. */
  lemma EnqueueEntryQueues(w: World, e: Value) returns (p: (JobId, QueueItem))
    requires Inv(w) && EnqueueEntry(w, e).Ok?
    ensures p in EnqueueEntry(w, e).value.queue && Matches(p.1, e)
  {
    EnqueueRaisesIff(w, e);
    EnqueueEntryInv(w, e);
    FindExistingSpec(w.queue, e);
    if FindExisting(w.queue, e).value.Some? {
      p :| p in w.queue && Matches(p.1, e);
    } else {
      EnqueueNew(w, e);
      p := EnqueueEntry(w, e).value.queue[|w.queue|];
    }
  }

  /** `enqueue` as called: the loop, then the `snapshot()` it returns when it did not raise. */
  function Enqueue(w: World, entries: seq<Value>): (World, Result<seq<QueueItem>>) {
    var r := EnqueueAll(w, entries);
    match r.error
    case Some(e) => (r.world, Raised(e))
    case None => var s := Snapshot(r.world); (s.0, Ok(s.1))
  }

  /** The closing `snapshot()` changes nothing and returns every queued item. */
  lemma EnqueueReturnsQueue(w: World, entries: seq<Value>)
    requires Inv(w)
    ensures Enqueue(w, entries).0 == EnqueueAll(w, entries).world
    ensures Enqueue(w, entries).1.Raised? <==> EnqueueAll(w, entries).error.Some?
    ensures var q := EnqueueAll(w, entries).world.queue;
            Enqueue(w, entries).1.Ok? ==>
              |Enqueue(w, entries).1.value| == |q| &&
              forall i :: 0 <= i < |q| ==> Enqueue(w, entries).1.value[i] == q[i].1
  {
    EnqueueAllInv(w, entries);
    SnapshotExact(EnqueueAll(w, entries).world);
  }

  // ---------------------------------------------------------------------
  // snapshot

  lemma {:induction false} InQueueAll(queue: seq<(JobId, QueueItem)>, ids: seq<JobId>)
    requires forall j :: j in ids ==> HasKey(queue, j)
    ensures InQueue(queue, ids) == ids
  {
    if |ids| > 0 {
      InQueueAll(queue, ids[1..]);
    }
  }

  /** `snapshot` changes nothing and lists every queued item, in queue order. */
  lemma SnapshotExact(w: World)
    requires Inv(w)
    ensures Snapshot(w).0 == w
    ensures |Snapshot(w).1| == |w.queue|
    ensures forall i :: 0 <= i < |w.queue| ==> Snapshot(w).1[i] == w.queue[i].1
  {
    forall j | j in w.displayOrder ensures HasKey(w.queue, j) {
      var i :| 0 <= i < |w.displayOrder| && w.displayOrder[i] == j;
      HasKeyAt(w.queue, i);
    }
    InQueueAll(w.queue, w.displayOrder);
    forall i | 0 <= i < |w.queue| ensures Snapshot(w).1[i] == w.queue[i].1 {
      GetMember(w.queue, w.queue[i]);
    }
  }

  // ---------------------------------------------------------------------
  // retry, abort, _drop_completed, _record_download

  /** Replacing a job's item by one for the same job and release keeps the invariant. */
  lemma ReplaceItemInv(w: World, jid: JobId, item: QueueItem)
    requires Inv(w) && Get(w.queue, jid).Some?
    requires item.jobId == jid && ItemKey(item) == ItemKey(Get(w.queue, jid).value)
    ensures Inv(w.(queue := Set(w.queue, jid, item)))
    ensures Keys(Set(w.queue, jid, item)) == Keys(w.queue)
  {
    var old_ := Get(w.queue, jid).value;
    var oldEntry := w.queue[IndexOf(w.queue, jid)];
    assert oldEntry in w.queue;
    SetKeys(w.queue, jid, item);
    SetUnique(w.queue, jid, item);
    SetMembers(w.queue, jid, item);
    var q' := Set(w.queue, jid, item);
    forall p, q | p in q' && q in q' && p.0 != q.0 ensures ItemKey(p.1) != ItemKey(q.1) {
      if p.0 == jid {
        assert ItemKey(p.1) == ItemKey(oldEntry.1);
      } else if q.0 == jid {
        assert ItemKey(q.1) == ItemKey(oldEntry.1);
      }
    }
  }

  /** Appending a queued job's id to `order` keeps the invariant. */
  lemma QueuedOrderInv(w: World, jid: JobId)
    requires Inv(w) && HasKey(w.queue, jid)
    ensures Inv(w.(order := w.order + [jid]))
  {
    assert w.queue[IndexOf(w.queue, jid)] in w.queue;
    assert forall j :: j in w.order + [jid] ==> j in w.order || j == jid;
  }

  /**
   * `retry`: an unknown job changes nothing; a known one is queued again
   * with no error, not downloaded, `force_no_db` set when forced and never
   * cleared, and its id appended to `order`.
   */
  lemma RetryEffect(w: World, jid: JobId, force: bool)
    requires Inv(w)
    ensures Inv(Retry(w, jid, force))
    ensures !HasKey(w.queue, jid) ==> Retry(w, jid, force) == w
    ensures HasKey(w.queue, jid) ==>
      var item := Get(w.queue, jid).value;
      var w' := Retry(w, jid, force);
      && Get(w'.queue, jid) == Some(item.(status := Queued, error := None, downloaded := VBool(false),
                                          forceNoDb := force || item.forceNoDb))
      && w'.order == w.order + [jid]
      && w'.displayOrder == w.displayOrder
      && (forall k :: k != jid ==> Get(w'.queue, k) == Get(w.queue, k))
  {
    if HasKey(w.queue, jid) {
      var item := Get(w.queue, jid).value;
      var item' := item.(status := Queued, error := None, downloaded := VBool(false),
                         forceNoDb := if force then true else item.forceNoDb);
      assert w.queue[IndexOf(w.queue, jid)] in w.queue;
      ReplaceItemInv(w, jid, item');
      var w1 := w.(queue := Set(w.queue, jid, item'));
      HasKeyAt(w1.queue, IndexOf(w1.queue, jid)) by { GetSetSame(w.queue, jid, item'); }
      QueuedOrderInv(w1, jid);
      assert Retry(w, jid, force) == w1.(order := w1.order + [jid]);
      GetSetSame(w.queue, jid, item');
      forall k | k != jid ensures Get(Set(w.queue, jid, item'), k) == Get(w.queue, k) {
        GetSetOther(w.queue, jid, item', k);
      }
    }
  }

  /** Popping a queued job: the keys lose it, the other entries stay. */
  lemma RemoveQueueFacts(queue: seq<(JobId, QueueItem)>, jid: JobId)
    requires UniqueKeys(queue) && HasKey(queue, jid)
    ensures UniqueKeys(Remove(queue, jid))
    ensures Keys(Remove(queue, jid)) == RemoveFirst(Keys(queue), jid)
    ensures forall p :: p in Remove(queue, jid) ==> p in queue
    ensures forall k :: Get(Remove(queue, jid), k) == if k == jid then None else Get(queue, k)
  {
    RemoveUnique(queue, jid);
    RemoveKeys(queue, jid);
    assert Keys(queue)[IndexOf(queue, jid)] == jid;
    forall p | p in Remove(queue, jid) ensures p in queue {
      RemovedFrom(queue, jid, p);
    }
    forall k ensures Get(Remove(queue, jid), k) == if k == jid then None else Get(queue, k) {
      GetRemove(queue, jid, k);
    }
  }

  /** The queue half of the invariant. */
  predicate QueueInv(queue: seq<(JobId, QueueItem)>, displayOrder: seq<JobId>, nextId: JobId) {
    && UniqueKeys(queue)
    && Keys(queue) == displayOrder
    && (forall p :: p in queue ==> p.1.jobId == p.0 && p.0 < nextId)
    && NoDuplicateReleases(queue)
  }

  /** A real dict whose entries all come from a well-formed queue is itself well formed. */
  lemma SubQueueInv(queue: seq<(JobId, QueueItem)>, displayOrder: seq<JobId>, nextId: JobId,
                    sub: seq<(JobId, QueueItem)>)
    requires QueueInv(queue, displayOrder, nextId)
    requires UniqueKeys(sub) && forall p :: p in sub ==> p in queue
    ensures QueueInv(sub, Keys(sub), nextId)
  {
  }

  /** The queue half of the invariant survives popping a job. */
  lemma RemoveQueueInv(queue: seq<(JobId, QueueItem)>, displayOrder: seq<JobId>, nextId: JobId, jid: JobId)
    requires QueueInv(queue, displayOrder, nextId) && HasKey(queue, jid)
    ensures QueueInv(Remove(queue, jid), RemoveFirst(displayOrder, jid), nextId)
    ensures !HasKey(Remove(queue, jid), jid)
    ensures forall k :: k != jid ==> Get(Remove(queue, jid), k) == Get(queue, k)
  {
    RemoveQueueFacts(queue, jid);
    SubQueueInv(queue, displayOrder, nextId, Remove(queue, jid));
    assert Get(Remove(queue, jid), jid) == None;
  }

  /** Popping a job, with `order` and the tap replaced by ones that are still in bounds, keeps the invariant. */
  lemma RemoveJobInv(w: World, jid: JobId, order: seq<JobId>, tap: Progress.TapState)
    requires Inv(w) && HasKey(w.queue, jid)
    requires forall j :: j in order ==> j < w.nextId
    requires Progress.TapClamped(tap)
    ensures var w' := w.(queue := Remove(w.queue, jid), order := order,
                         displayOrder := RemoveFirst(w.displayOrder, jid), tap := tap);
            Inv(w') && !HasKey(w'.queue, jid) &&
            forall k :: k != jid ==> Get(w'.queue, k) == Get(w.queue, k)
  {
    RemoveQueueInv(w.queue, w.displayOrder, w.nextId, jid);
  }

  /**
   * `abort`: an unknown job changes nothing; a known one leaves the queue,
   * `display_order`, its first place in `order`, and both progress maps,
   * and every other job is untouched.
   */
  lemma AbortEffect(w: World, jid: JobId)
    requires Inv(w)
    ensures Inv(Abort(w, jid))
    ensures !HasKey(w.queue, jid) ==> Abort(w, jid) == w
    ensures HasKey(w.queue, jid) ==>
      var w' := Abort(w, jid);
      && !HasKey(w'.queue, jid) && jid !in w'.displayOrder
      && jid !in w'.tap.jobTotals && jid !in w'.tap.latestProgress
      && w'.order == (if jid in w.order then RemoveFirst(w.order, jid) else w.order)
      && (forall k :: k != jid ==> Get(w'.queue, k) == Get(w.queue, k))
  {
    if HasKey(w.queue, jid) {
      var order: seq<JobId> := if jid in w.order then RemoveFirst<JobId>(w.order, jid) else w.order;
      forall j | j in order ensures j < w.nextId {
        if jid in w.order {
          RemoveFirstMembers<JobId>(w.order, jid, j);
        }
      }
      var tap := Progress.TapState(w.tap.jobTotals - {jid}, w.tap.latestProgress - {jid});
      assert jid in w.displayOrder by {
        assert Keys(w.queue)[IndexOf(w.queue, jid)] == jid;
      }
      RemoveJobInv(w, jid, order, tap);
      var w' := Abort(w, jid);
      assert jid !in w'.displayOrder by {
        assert w'.displayOrder == Keys(w'.queue);
        if jid in w'.displayOrder {
          var i :| 0 <= i < |w'.displayOrder| && w'.displayOrder[i] == jid;
          HasKeyAt(w'.queue, i);
        }
      }
    }
  }

  /** `_drop_completed` removes the job from the queue and `display_order` and nothing else. */
  lemma DropCompletedEffect(w: World, jid: JobId)
    requires Inv(w)
    ensures Inv(DropCompleted(w, jid))
    ensures !HasKey(DropCompleted(w, jid).queue, jid)
    ensures DropCompleted(w, jid).order == w.order
    ensures forall k :: k != jid ==> Get(DropCompleted(w, jid).queue, k) == Get(w.queue, k)
  {
    var tap := w.tap.(latestProgress := w.tap.latestProgress - {jid});
    if HasKey(w.queue, jid) {
      assert jid in w.displayOrder by {
        assert Keys(w.queue)[IndexOf(w.queue, jid)] == jid;
      }
      RemoveJobInv(w, jid, w.order, tap);
    } else {
      RemoveAbsent(w.queue, jid);
      assert jid !in w.displayOrder by {
        if jid in w.displayOrder {
          var i :| 0 <= i < |w.displayOrder| && w.displayOrder[i] == jid;
          HasKeyAt(w.queue, i);
        }
      }
    }
  }

  lemma HistoryEntryKey(item: QueueItem)
    ensures KeyOf(HistoryEntry(item)) == ItemKey(item)
  {
    var d := HistoryEntry(item);
    IndexOfIs(d, "id", 0);
    IndexOfIs(d, "source", 1);
  }

  /**
   * `_record_download`: the release ends up in `downloaded_index` and in
   * the history, a second call changes nothing, and the index stays the
   * history's key set.
   */
  lemma RecordDownloadEffect(w: World, item: QueueItem)
    requires Inv(w)
    ensures Inv(RecordDownload(w, item))
    ensures ItemKey(item) in RecordDownload(w, item).downloadedIndex
    ensures RecordDownload(RecordDownload(w, item), item) == RecordDownload(w, item)
    ensures ItemKey(item) !in w.downloadedIndex ==>
      RecordDownload(w, item).history == w.history + [Stored(HistoryEntry(item))]
    ensures RecordDownload(w, item).queue == w.queue && RecordDownload(w, item).order == w.order
  {
    HistoryEntryKey(item);
    if ItemKey(item) !in w.downloadedIndex {
      HistoryAddKeys(w.history, [HistoryEntry(item)]);
      HistoryAddOne(w.history, HistoryEntry(item));
      KeySetCons([HistoryEntry(item)]);
    }
  }
}

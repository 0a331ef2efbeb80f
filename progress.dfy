/**
 * The bookkeeping half of `ProgressTap`: per-job track states fed by the
 * track-status hook (`_mark_track_status`) and by the byte-progress
 * callbacks (`_update_totals`), the job summary, and the progress event
 * built after every update. Timing fields (start times, rates, ETAs) are
 * not part of this model.
 */
module Progress {
  import opened Common
  import opened Assoc
  import opened Values

  /** Job ids come from a fresh-id supply. */
  type JobId = nat

  datatype TrackStatus = Resolving | Ready | Downloading | Downloaded | Skipped | Failed

  /** A track id after `_normalize_track_id`: `None` stays `None`, anything else is `str()`-ed. */
  type TrackKey = Option<string>

  /** The fields of one track's state dict that the events report. */
  datatype TrackState = TrackState(
    received: int,
    total: int,
    title: Value,
    status: TrackStatus,
    message: Option<string>)

  /** `job_totals[job]["tracks"]`, in insertion order. */
  type Tracks = seq<(TrackKey, TrackState)>

  datatype Summary = Summary(
    counts: map<TrackStatus, nat>,
    totalTracks: nat,
    downloaded: nat,
    failed: nat,
    skipped: nat,
    allDownloaded: bool)

  /** The `progress` part of an event: the track that was just updated. */
  datatype Current = Current(
    trackId: TrackKey,
    desc: string,
    received: int,
    total: int,
    status: TrackStatus,
    message: Option<string>)

  datatype Overall = Overall(received: int, total: int)

  /** One entry of `latest_progress`. */
  datatype ProgressEvent = ProgressEvent(
    jobId: JobId,
    current: Option<Current>,
    overall: Option<Overall>,
    summary: Summary,
    tracks: seq<(string, TrackState)>,
    track: Option<Dict>)

  datatype TapState = TapState(
    jobTotals: map<JobId, Tracks>,
    latestProgress: map<JobId, ProgressEvent>)

  /**
   * What the patched streamrip hooks report while a job runs: a status
   * change of one track, or a chunk (or the end) of a byte transfer.
   * `initialCtx`/`currentCtx` are the track context when the progress
   * handle was created and when the callback fires; `{}` stands for `None`.
   */
  datatype TapEvent =
    | Mark(trackId: Value, status: TrackStatus, ctx: Dict, desc: string,
           message: Option<string>, received: Option<int>, total: Option<int>)
    | Update(initialCtx: Dict, currentCtx: Dict, size: int, desc: string, increment: int)
    | Done(initialCtx: Dict, currentCtx: Dict, size: int, desc: string)

  function Max(a: int, b: int): int { if a < b then b else a }
  function Min(a: int, b: int): int { if a < b then a else b }

  /** `_normalize_track_id`. */
  function NormalizeId(v: Value): (k: TrackKey)
    ensures k.None? <==> v.VNone?
  {
    if v.VNone? then None else Some(Str(v))
  }

  function KeyValue(k: TrackKey): Value {
    match k
    case None => VNone
    case Some(s) => VStr(s)
  }

  /** `str(tid)` as the event's `tracks` dict spells a key. */
  function KeyText(k: TrackKey): string {
    match k
    case None => "None"
    case Some(s) => s
  }

  /** The context copy whose `track_id` is normalised. */
  function NormalizeCtx(ctx: Dict): Dict {
    Set(ctx, "track_id", KeyValue(NormalizeId(Lookup(ctx, "track_id"))))
  }

  /** `_effective_total`: a track counts for at least one unit. */
  function EffectiveTotal(ts: TrackState): (t: int)
    ensures t >= 1 && t >= ts.total
  {
    if ts.total > 0 then ts.total else 1
  }

  function ReceivedSum(tracks: Tracks): int {
    if |tracks| == 0 then 0 else tracks[0].1.received + ReceivedSum(tracks[1..])
  }

  function EffectiveSum(tracks: Tracks): int {
    if |tracks| == 0 then 0 else EffectiveTotal(tracks[0].1) + EffectiveSum(tracks[1..])
  }

  /** Number of tracks whose status is `s`. */
  function Count(tracks: Tracks, s: TrackStatus): (n: nat)
    ensures n <= |tracks|
  {
    if |tracks| == 0 then 0
    else (if tracks[0].1.status == s then 1 else 0) + Count(tracks[1..], s)
  }

  function StatusesOf(tracks: Tracks): set<TrackStatus> {
    set i | 0 <= i < |tracks| :: tracks[i].1.status
  }

  /** `summarize_job` over a job's tracks. */
  function Summarize(tracks: Tracks): Summary {
    var downloaded := Count(tracks, Downloaded);
    Summary(
      map s | s in StatusesOf(tracks) :: Count(tracks, s),
      |tracks|,
      downloaded,
      Count(tracks, Failed),
      Count(tracks, Skipped),
      |tracks| > 0 && downloaded == |tracks|)
  }

  function TracksOf(s: TapState, job: JobId): Tracks {
    if job in s.jobTotals then s.jobTotals[job] else []
  }

  /** The event's `tracks` dict: `{str(tid): view for tid, ts in tracks.items()}`. */
  function TrackViews(tracks: Tracks): seq<(string, TrackState)>
    decreases |tracks|
  {
    if |tracks| == 0 then []
    else
      var last := tracks[|tracks| - 1];
      Set(TrackViews(tracks[..|tracks| - 1]), KeyText(last.0), last.1)
  }

  /** `_build_progress_event` once the updated track is stored in `tracks`. */
  function BuildEvent(job: JobId, key: TrackKey, ts: TrackState, ctx: Dict, desc: string,
                      totalOverride: Option<int>, tracks: Tracks): ProgressEvent
  {
    var effective := EffectiveSum(tracks);
    var fallback :=
      if totalOverride.Some? && totalOverride.value != 0 then totalOverride.value
      else if ts.total != 0 then ts.total
      else 1;
    ProgressEvent(
      job,
      Some(Current(key, desc, ts.received, ts.total, ts.status, ts.message)),
      Some(Overall(ReceivedSum(tracks), if effective != 0 then effective else fallback)),
      Summarize(tracks),
      TrackViews(tracks),
      if ctx != [] then Some(ctx) else None)
  }

  /** `start_job`: fresh, empty tracks and no stale event. */
  function Started(s: TapState, job: JobId): TapState {
    TapState(s.jobTotals[job := []], s.latestProgress - {job})
  }

  /** `finish_job`: the final summary goes into the latest event and the tracks are dropped. */
  function Finished(s: TapState, job: JobId): TapState {
    var summary := Summarize(TracksOf(s, job));
    var event :=
      if job in s.latestProgress then s.latestProgress[job].(summary := summary)
      else ProgressEvent(job, None, None, summary, [], None);
    TapState(s.jobTotals - {job}, s.latestProgress[job := event])
  }

  /** The state `_mark_track_status` leaves for one track. */
  function MarkedState(old_: Option<TrackState>, status: TrackStatus, ctx: Dict, desc: string,
                       message: Option<string>, received: Option<int>, total: Option<int>): TrackState
  {
    var base := match old_
      case Some(ts) => ts
      case None => TrackState(0, if total.Some? then Max(total.value, 1) else 1, VStr(desc), status, None);
    TrackState(
      if received.Some? then received.value else base.received,
      if total.Some? then Max(total.value, 1) else base.total,
      if ctx != [] then Lookup(ctx, "title") else VStr(desc),
      status,
      message)
  }

  /** The key `_patched_get_progress` files a transfer under. */
  function TransferKey(initialCtx: Dict, desc: string): TrackKey {
    if initialCtx != [] then NormalizeId(Lookup(initialCtx, "track_id")) else Some(desc)
  }

  /** The state `_update_totals(increment)` leaves for one track. */
  function TransferredState(old_: Option<TrackState>, ctx: Dict, size: int, desc: string, increment: int): TrackState {
    var base := match old_
      case Some(ts) => ts
      case None => TrackState(0, Max(size, 1), VStr(desc), Downloading, None);
    base.(
      total := size,
      received := Min(base.received + increment, size),
      title := if ctx != [] then Or(Lookup(ctx, "title"), VStr(desc)) else base.title)
  }

  /** The increment `done()` passes: whatever is still missing. */
  function DoneIncrement(old_: Option<TrackState>, size: int): int {
    size - (match old_ case Some(ts) => ts.received case None => 0)
  }

  /** One hook call's effect on the tap, for the job that is running. */
  function ApplyEvent(s: TapState, job: JobId, e: TapEvent): TapState {
    var tracks := TracksOf(s, job);
    match e
    case Mark(trackId, status, ctx, desc, message, received, total) =>
      if trackId.VNone? then s
      else
        var key := NormalizeId(trackId);
        var ts := MarkedState(Get(tracks, key), status, ctx, desc, message, received, total);
        var tracks' := Set(tracks, key, ts);
        var ctx' := if ctx != [] then NormalizeCtx(ctx) else [];
        TapState(s.jobTotals[job := tracks'],
                 s.latestProgress[job := BuildEvent(job, key, ts, ctx', desc, None, tracks')])
    case Update(initialCtx, currentCtx, size, desc, increment) =>
      TransferEvent(s, job, initialCtx, currentCtx, size, desc, increment)
    case Done(initialCtx, currentCtx, size, desc) =>
      var key := TransferKey(initialCtx, desc);
      TransferEvent(s, job, initialCtx, currentCtx, size, desc, DoneIncrement(Get(tracks, key), size))
  }

  function TransferEvent(s: TapState, job: JobId, initialCtx: Dict, currentCtx: Dict,
                         size: int, desc: string, increment: int): TapState
  {
    var tracks := TracksOf(s, job);
    var key := TransferKey(initialCtx, desc);
    var ctx := if currentCtx != [] then currentCtx else initialCtx;
    var ctx' := if ctx != [] then NormalizeCtx(ctx) else [];
    var ts := TransferredState(Get(tracks, key), ctx, size, desc, increment);
    var tracks' := Set(tracks, key, ts);
    TapState(s.jobTotals[job := tracks'],
             s.latestProgress[job := BuildEvent(job, key, ts, ctx', desc, Some(size), tracks')])
  }

  /** Every hook call of a run, in order. */
  function ApplyEvents(s: TapState, job: JobId, events: seq<TapEvent>): TapState
    decreases |events|
  {
    if |events| == 0 then s else ApplyEvents(ApplyEvent(s, job, events[0]), job, events[1..])
  }

  // ---------------------------------------------------------------------
  // Invariants and properties

  /** No track has received more than its total. */
  predicate Clamped(tracks: Tracks) {
    forall i :: 0 <= i < |tracks| ==> tracks[i].1.received <= tracks[i].1.total
  }

  predicate TapClamped(s: TapState) {
    forall j :: j in s.jobTotals ==> Clamped(s.jobTotals[j]) && UniqueKeys(s.jobTotals[j])
  }

  /** The shapes the hooks use: no counts at all, or a received count within the total. */
  predicate WellFormed(e: TapEvent) {
    e.Mark? ==>
      (e.received.None? && e.total.None?) ||
      (e.received.Some? && e.total.Some? && e.received.value <= e.total.value)
  }

  /** Every track adds at least one unit to the overall total. */
  lemma {:induction false} EffectiveSumAtLeastCount(tracks: Tracks)
    ensures EffectiveSum(tracks) >= |tracks|
  {
    if |tracks| > 0 {
      EffectiveSumAtLeastCount(tracks[1..]);
    }
  }

  /** With every track clamped, the overall received count stays within the overall total. */
  lemma {:induction false} ReceivedWithinTotal(tracks: Tracks)
    requires Clamped(tracks)
    ensures ReceivedSum(tracks) <= EffectiveSum(tracks)
  {
    if |tracks| > 0 {
      assert Clamped(tracks[1..]) by {
        forall i | 0 <= i < |tracks| - 1 ensures tracks[1..][i].1.received <= tracks[1..][i].1.total {
          assert tracks[1..][i] == tracks[i + 1];
        }
      }
      ReceivedWithinTotal(tracks[1..]);
    }
  }

  /** The per-status counts add up to the number of tracks. */
  lemma {:induction false} CountsPartition(tracks: Tracks)
    ensures Count(tracks, Resolving) + Count(tracks, Ready) + Count(tracks, Downloading)
          + Count(tracks, Downloaded) + Count(tracks, Skipped) + Count(tracks, Failed) == |tracks|
  {
    if |tracks| > 0 {
      CountsPartition(tracks[1..]);
    }
  }

  /** A count reaches the number of tracks exactly when every track has that status. */
  lemma {:induction false} CountAll(tracks: Tracks, s: TrackStatus)
    ensures Count(tracks, s) == |tracks| <==> forall i :: 0 <= i < |tracks| ==> tracks[i].1.status == s
  {
    if |tracks| > 0 {
      CountAll(tracks[1..], s);
      assert forall i :: 1 <= i < |tracks| ==> tracks[i] == tracks[1..][i - 1];
    }
  }

  /** `all_downloaded` holds iff there are tracks and every one of them is downloaded. */
  lemma AllDownloadedIff(tracks: Tracks)
    ensures Summarize(tracks).allDownloaded <==>
      |tracks| > 0 && forall i :: 0 <= i < |tracks| ==> tracks[i].1.status == Downloaded
    ensures Summarize(tracks).totalTracks == |tracks|
    ensures Summarize(tracks).downloaded + Summarize(tracks).failed + Summarize(tracks).skipped <= |tracks|
  {
    CountAll(tracks, Downloaded);
    CountsPartition(tracks);
  }

  /** A skipped track alone is enough to keep a job from counting as all downloaded. */
  lemma SkippedBlocksCompletion(tracks: Tracks, i: int)
    requires 0 <= i < |tracks| && tracks[i].1.status == Skipped
    ensures !Summarize(tracks).allDownloaded
  {
    AllDownloadedIff(tracks);
  }

  lemma SetClamped(tracks: Tracks, k: TrackKey, ts: TrackState)
    requires Clamped(tracks) && ts.received <= ts.total
    ensures Clamped(Set(tracks, k, ts))
  {
  }

  /** Marking and transferring keep every track clamped and the keys unique. */
  lemma ApplyEventKeepsClamped(s: TapState, job: JobId, e: TapEvent)
    requires TapClamped(s) && WellFormed(e)
    ensures TapClamped(ApplyEvent(s, job, e))
  {
    var tracks := TracksOf(s, job);
    assert Clamped(tracks) && UniqueKeys(tracks);
    match e
    case Mark(trackId, status, ctx, desc, message, received, total) =>
      if !trackId.VNone? {
        var key := NormalizeId(trackId);
        var ts := MarkedState(Get(tracks, key), status, ctx, desc, message, received, total);
        if Get(tracks, key).Some? {
          var i := IndexOf(tracks, key);
          assert Get(tracks, key).value.received <= Get(tracks, key).value.total by {
            assert tracks[i].1.received <= tracks[i].1.total;
          }
        }
        assert ts.received <= ts.total;
        SetClamped(tracks, key, ts);
        SetUnique(tracks, key, ts);
      }
    case Update(initialCtx, currentCtx, size, desc, increment) =>
      TransferKeepsClamped(s, job, initialCtx, currentCtx, size, desc, increment);
    case Done(initialCtx, currentCtx, size, desc) =>
      var inc := DoneIncrement(Get(tracks, TransferKey(initialCtx, desc)), size);
      TransferKeepsClamped(s, job, initialCtx, currentCtx, size, desc, inc);
  }

  lemma TransferKeepsClamped(s: TapState, job: JobId, initialCtx: Dict, currentCtx: Dict,
                             size: int, desc: string, increment: int)
    requires TapClamped(s)
    ensures TapClamped(TransferEvent(s, job, initialCtx, currentCtx, size, desc, increment))
  {
    var tracks := TracksOf(s, job);
    var key := TransferKey(initialCtx, desc);
    var ctx := if currentCtx != [] then currentCtx else initialCtx;
    var ts := TransferredState(Get(tracks, key), ctx, size, desc, increment);
    SetClamped(tracks, key, ts);
    SetUnique(tracks, key, ts);
  }

  lemma {:induction false} ApplyEventsKeepsClamped(s: TapState, job: JobId, events: seq<TapEvent>)
    requires TapClamped(s)
    requires forall i :: 0 <= i < |events| ==> WellFormed(events[i])
    ensures TapClamped(ApplyEvents(s, job, events))
    decreases |events|
  {
    if |events| > 0 {
      ApplyEventKeepsClamped(s, job, events[0]);
      ApplyEventsKeepsClamped(ApplyEvent(s, job, events[0]), job, events[1..]);
    }
  }

  /** `done()` leaves the track with everything received. */
  lemma DoneCompletesTrack(s: TapState, job: JobId, initialCtx: Dict, currentCtx: Dict, size: int, desc: string)
    ensures var s' := ApplyEvent(s, job, Done(initialCtx, currentCtx, size, desc));
            var k := TransferKey(initialCtx, desc);
            Get(TracksOf(s', job), k).Some? &&
            Get(TracksOf(s', job), k).value.received == size &&
            Get(TracksOf(s', job), k).value.total == size
  {
    var tracks := TracksOf(s, job);
    var k := TransferKey(initialCtx, desc);
    var ctx := if currentCtx != [] then currentCtx else initialCtx;
    var ts := TransferredState(Get(tracks, k), ctx, size, desc, DoneIncrement(Get(tracks, k), size));
    GetSetSame(tracks, k, ts);
  }

  /** Re-marking a known track replaces its state: the job's track count does not grow. */
  lemma MarkCountsOnce(s: TapState, job: JobId, e: TapEvent)
    requires e.Mark? && !e.trackId.VNone?
    ensures var after := TracksOf(ApplyEvent(s, job, e), job);
            |after| == if HasKey(TracksOf(s, job), NormalizeId(e.trackId)) then |TracksOf(s, job)|
                       else |TracksOf(s, job)| + 1
    ensures var after := TracksOf(ApplyEvent(s, job, e), job);
            Get(after, NormalizeId(e.trackId)).Some? && Get(after, NormalizeId(e.trackId)).value.status == e.status
  {
    var tracks := TracksOf(s, job);
    var key := NormalizeId(e.trackId);
    var ts := MarkedState(Get(tracks, key), e.status, e.ctx, e.desc, e.message, e.received, e.total);
    GetSetSame(tracks, key, ts);
  }

  /** Every event reports an overall total of at least one unit per track, and, when clamped, no more received than that. */
  lemma EventOverallBounds(s: TapState, job: JobId, e: TapEvent)
    requires TapClamped(s) && WellFormed(e)
    requires e.Mark? ==> !e.trackId.VNone?
    ensures var s' := ApplyEvent(s, job, e);
            job in s'.latestProgress && s'.latestProgress[job].overall.Some? &&
            s'.latestProgress[job].overall.value.total >= |TracksOf(s', job)| >= 1 &&
            s'.latestProgress[job].overall.value.received <= s'.latestProgress[job].overall.value.total
  {
    var s' := ApplyEvent(s, job, e);
    var tracks' := TracksOf(s', job);
    ApplyEventKeepsClamped(s, job, e);
    EventStoresTrack(s, job, e);
    EffectiveSumAtLeastCount(tracks');
    ReceivedWithinTotal(tracks');
  }

  /** The event stored for the job reports the job's stored tracks. */
  lemma EventStoresTrack(s: TapState, job: JobId, e: TapEvent)
    requires e.Mark? ==> !e.trackId.VNone?
    ensures var s' := ApplyEvent(s, job, e);
            job in s'.jobTotals && |s'.jobTotals[job]| >= 1 && job in s'.latestProgress &&
            s'.latestProgress[job].overall ==
              Some(Overall(ReceivedSum(s'.jobTotals[job]), EffectiveSum(s'.jobTotals[job]))) &&
            s'.latestProgress[job].summary == Summarize(s'.jobTotals[job])
  {
    var tracks := TracksOf(s, job);
    match e
    case Mark(trackId, status, ctx, desc, message, received, total) =>
      var key := NormalizeId(trackId);
      var ts := MarkedState(Get(tracks, key), status, ctx, desc, message, received, total);
      GetSetSame(tracks, key, ts);
      EffectiveSumAtLeastCount(Set(tracks, key, ts));
    case Update(initialCtx, currentCtx, size, desc, increment) =>
      TransferStoresTrack(s, job, initialCtx, currentCtx, size, desc, increment);
    case Done(initialCtx, currentCtx, size, desc) =>
      var inc := DoneIncrement(Get(tracks, TransferKey(initialCtx, desc)), size);
      TransferStoresTrack(s, job, initialCtx, currentCtx, size, desc, inc);
  }

  lemma TransferStoresTrack(s: TapState, job: JobId, initialCtx: Dict, currentCtx: Dict,
                            size: int, desc: string, increment: int)
    ensures var s' := TransferEvent(s, job, initialCtx, currentCtx, size, desc, increment);
            job in s'.jobTotals && |s'.jobTotals[job]| >= 1 && job in s'.latestProgress &&
            s'.latestProgress[job].overall ==
              Some(Overall(ReceivedSum(s'.jobTotals[job]), EffectiveSum(s'.jobTotals[job]))) &&
            s'.latestProgress[job].summary == Summarize(s'.jobTotals[job])
  {
    var tracks := TracksOf(s, job);
    var key := TransferKey(initialCtx, desc);
    var ctx := if currentCtx != [] then currentCtx else initialCtx;
    var ts := TransferredState(Get(tracks, key), ctx, size, desc, increment);
    GetSetSame(tracks, key, ts);
    EffectiveSumAtLeastCount(Set(tracks, key, ts));
  }

  /** `finish_job` drops the job's tracks and records their summary in the latest event. */
  lemma FinishJobSummary(s: TapState, job: JobId)
    ensures job !in Finished(s, job).jobTotals
    ensures job in Finished(s, job).latestProgress
    ensures Finished(s, job).latestProgress[job].summary == Summarize(TracksOf(s, job))
    ensures forall j :: j != job ==> TracksOf(Finished(s, job), j) == TracksOf(s, j)
  {
  }

  /**
   * The class holding the two dictionaries the hooks update in place.
   */
  class ProgressTap {
    var jobTotals: map<JobId, Tracks>
    var latestProgress: map<JobId, ProgressEvent>

    function State(): TapState
      reads this
    {
      TapState(jobTotals, latestProgress)
    }

    constructor()
      ensures State() == TapState(map[], map[])
    {
      jobTotals := map[];
      latestProgress := map[];
    }

    method StartJob(job: JobId)
      modifies this
      ensures State() == Started(old(State()), job)
    {
      jobTotals := jobTotals[job := []];
      latestProgress := latestProgress - {job};
    }

    method FinishJob(job: JobId)
      modifies this
      ensures State() == Finished(old(State()), job)
    {
      var summary := SummarizeJob(job);
      if job in latestProgress {
        latestProgress := latestProgress[job := latestProgress[job].(summary := summary)];
      } else {
        latestProgress := latestProgress[job := ProgressEvent(job, None, None, summary, [], None)];
      }
      jobTotals := jobTotals - {job};
    }

    /** `summarize_job`. */
    function SummarizeJob(job: JobId): (r: Summary)
      reads this
      ensures r == Summarize(TracksOf(State(), job))
    {
      Summarize(if job in jobTotals then jobTotals[job] else [])
    }

    /** `_mark_track_status` for the running job. */
    method MarkTrackStatus(job: JobId, trackId: Value, status: TrackStatus, ctx: Dict, desc: string,
                           message: Option<string>, received: Option<int>, total: Option<int>)
      modifies this
      ensures State() == ApplyEvent(old(State()), job, Mark(trackId, status, ctx, desc, message, received, total))
    {
      if trackId.VNone? {
        return;
      }
      var key := NormalizeId(trackId);
      var tracks := if job in jobTotals then jobTotals[job] else [];
      var ts := MarkedState(Get(tracks, key), status, ctx, desc, message, received, total);
      tracks := Set(tracks, key, ts);
      var ctx' := if ctx != [] then NormalizeCtx(ctx) else [];
      jobTotals := jobTotals[job := tracks];
      latestProgress := latestProgress[job := BuildEvent(job, key, ts, ctx', desc, None, tracks)];
    }

    /** `_update_totals(increment)` of a progress handle created for `size` bytes. */
    method UpdateTotals(job: JobId, initialCtx: Dict, currentCtx: Dict, size: int, desc: string, increment: int)
      modifies this
      ensures State() == TransferEvent(old(State()), job, initialCtx, currentCtx, size, desc, increment)
    {
      var key := TransferKey(initialCtx, desc);
      var ctx := if currentCtx != [] then currentCtx else initialCtx;
      var ctx' := if ctx != [] then NormalizeCtx(ctx) else [];
      var tracks := if job in jobTotals then jobTotals[job] else [];
      var ts := TransferredState(Get(tracks, key), ctx, size, desc, increment);
      tracks := Set(tracks, key, ts);
      jobTotals := jobTotals[job := tracks];
      latestProgress := latestProgress[job := BuildEvent(job, key, ts, ctx', desc, Some(size), tracks)];
    }

    /** The handle's `done()`: transfer whatever has not been received yet. */
    method TransferDone(job: JobId, initialCtx: Dict, currentCtx: Dict, size: int, desc: string)
      modifies this
      ensures State() == ApplyEvent(old(State()), job, Done(initialCtx, currentCtx, size, desc))
    {
      var tracks := if job in jobTotals then jobTotals[job] else [];
      var received := match Get(tracks, TransferKey(initialCtx, desc)) case Some(ts) => ts.received case None => 0;
      UpdateTotals(job, initialCtx, currentCtx, size, desc, size - received);
    }

    /** Dispatch one hook call. */
    method Apply(job: JobId, e: TapEvent)
      modifies this
      ensures State() == ApplyEvent(old(State()), job, e)
    {
      match e
      case Mark(trackId, status, ctx, desc, message, received, total) =>
        MarkTrackStatus(job, trackId, status, ctx, desc, message, received, total);
      case Update(initialCtx, currentCtx, size, desc, increment) =>
        UpdateTotals(job, initialCtx, currentCtx, size, desc, increment);
      case Done(initialCtx, currentCtx, size, desc) =>
        TransferDone(job, initialCtx, currentCtx, size, desc);
    }

    /** Every hook call of one run, in order. */
    method ApplyAll(job: JobId, events: seq<TapEvent>)
      modifies this
      ensures State() == ApplyEvents(old(State()), job, events)
    {
      var i := 0;
      while i < |events|
        invariant 0 <= i <= |events|
        invariant ApplyEvents(old(State()), job, events) == ApplyEvents(State(), job, events[i..])
      {
        assert events[i..][1..] == events[i + 1..];
        Apply(job, events[i]);
        i := i + 1;
      }
    }

    /** `snapshot`: a copy of the latest events. */
    method Snapshot() returns (r: map<JobId, ProgressEvent>)
      ensures r == latestProgress
    {
      r := latestProgress;
    }
  }
}

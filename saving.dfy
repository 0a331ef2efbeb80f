/**
 * The saved-for-later list as the manager uses it: `save_for_later` adds a
 * payload or a queued job, `download_saved` enqueues entries (by default
 * the whole list) and drops them from it, `remove_saved` drops one release.
 */
module Saving {
  import opened Common
  import opened Assoc
  import opened Values
  import opened Artists
  import opened Stores
  import opened Queue

  /**
   * `save_for_later(job_id, payload)`. A `payload` that is `None` or `{}`
   * is `[]`; a `job_id` is a uuid string, so it is truthy exactly when given.
   */
  function SaveForLater(w: World, jid: Option<JobId>, payload: Dict): Result<World> {
    if payload != [] then
      match StringifyArtist(Lookup(payload, "artist"))
      case Raised(e) => Raised(e)
      case Ok(artist) => Ok(w.(saved := w.saved + [Set(payload, "artist", artist)]))
    else if jid.Some? && HasKey(w.queue, jid.value) then
      Ok(w.(saved := w.saved + [HistoryEntry(Get(w.queue, jid.value).value)]))
    else Ok(w)
  }

  /**
   * `save_for_later` touches only the saved list, and appends at most one
   * entry without looking for an equal one: a non-empty payload with its
   * artist turned into a string (it raises exactly when that conversion
   * does), else the record of a queued job, else nothing.
   */
  lemma SaveForLaterEffect(w: World, jid: Option<JobId>, payload: Dict)
    ensures var r := SaveForLater(w, jid, payload);
            && (r.Raised? <==> payload != [] && StringifyArtist(Lookup(payload, "artist")).Raised?)
            && (r.Ok? ==> r.value.(saved := w.saved) == w && r.value.saved[..|w.saved|] == w.saved)
            && (r.Ok? && payload != [] ==>
                  var e := r.value.saved[|w.saved|];
                  && |r.value.saved| == |w.saved| + 1
                  && Lookup(e, "artist") == StringifyArtist(Lookup(payload, "artist")).value
                  && (forall k :: k != "artist" ==> Lookup(e, k) == Lookup(payload, k)))
            && (payload == [] && jid.Some? && HasKey(w.queue, jid.value) ==>
                  && |r.value.saved| == |w.saved| + 1
                  && KeyOf(r.value.saved[|w.saved|]) == ItemKey(Get(w.queue, jid.value).value))
            && (payload == [] && !(jid.Some? && HasKey(w.queue, jid.value)) ==> r == Ok(w))
  {
    var r := SaveForLater(w, jid, payload);
    if payload != [] && r.Ok? {
      var artist := StringifyArtist(Lookup(payload, "artist")).value;
      GetSetSame(payload, "artist", artist);
      forall k | k != "artist" ensures Lookup(Set(payload, "artist", artist), k) == Lookup(payload, k) {
        GetSetOther(payload, "artist", artist, k);
      }
    } else if payload == [] && jid.Some? && HasKey(w.queue, jid.value) {
      HistoryEntryKey(Get(w.queue, jid.value).value);
    }
  }

  /** The saved list as the entries `enqueue` takes. */
  function AsEntries(items: seq<Dict>): (vs: seq<Value>)
    ensures |vs| == |items| && forall i :: 0 <= i < |items| ==> vs[i] == VDict(items[i])
  {
    seq(|items|, i requires 0 <= i < |items| => VDict(items[i]))
  }

  /** `entries or self.saved_store.list()`; `None` and `[]` are both `[]`. */
  function Requested(w: World, entries: seq<Value>): seq<Value> {
    if entries != [] then entries else AsEntries(w.saved)
  }

  /**
   * `entry.get(k)`. The filter runs only after `enqueue` accepted every
   * entry, and then every entry is a dict (`DownloadSavedEffect`), so the
   * `None` branch is never taken.
   */
  function EntryGet(entry: Value, k: string): Value {
    if entry.VDict? then Lookup(entry.fields, k) else VNone
  }

  /** The saved entries `download_saved` removes: same `id` and `source` as some requested entry. */
  function RequestedMatch(entries: seq<Value>): Dict -> bool {
    saved => exists i :: 0 <= i < |entries| &&
               Lookup(saved, "id") == EntryGet(entries[i], "id") &&
               Lookup(saved, "source") == EntryGet(entries[i], "source")
  }

  /** `download_saved(entries)`: the state afterwards and the exception `enqueue` raised, if any. */
  function DownloadSaved(w: World, entries: seq<Value>): Enqueued {
    var es := Requested(w, entries);
    var (w1, r) := Enqueue(w, es);
    match r
    case Raised(e) => Enqueued(w1, Some(e))
    case Ok(_) => Enqueued(w1.(saved := Filter(w1.saved, RequestedMatch(es))), None)
  }

  /** An accepted entry is a dict: `enqueue` subscripts it before it can skip or add it. */
  lemma MatchedIsDict(queue: seq<(JobId, QueueItem)>, entry: Value)
    requires HasJobFor(queue, entry)
    ensures entry.VDict?
  {
    var p :| p in queue && Matches(p.1, entry);
  }

  /**
   * `download_saved` raises exactly when `enqueue` does. Otherwise every
   * requested release has a queued job, every requested entry was a dict,
   * and the saved list loses exactly the entries with the `id` and
   * `source` of a requested one; the invariant holds throughout.
   */
  lemma DownloadSavedEffect(w: World, entries: seq<Value>)
    requires Inv(w)
    ensures var es := Requested(w, entries);
            var r := DownloadSaved(w, entries);
            && r.error == EnqueueAll(w, es).error
            && Inv(r.world)
            && (r.error == None ==>
                  && (forall i :: 0 <= i < |es| ==> HasJobFor(r.world.queue, es[i]) && es[i].VDict?)
                  && (forall x :: x in r.world.saved <==> x in w.saved && !RequestedMatch(es)(x)))
  {
    var es := Requested(w, entries);
    EnqueueReturnsQueue(w, es);
    EnqueueAllInv(w, es);
    EnqueueAllQueues(w, es);
    var fin := EnqueueAll(w, es).world;
    forall i | 0 <= i < |es| && EnqueueAll(w, es).error == None ensures es[i].VDict? {
      MatchedIsDict(fin.queue, es[i]);
    }
    EnqueueKeepsSaved(w, es);
  }

  /** `enqueue` leaves the saved list alone. */
  lemma {:induction false} EnqueueKeepsSaved(w: World, entries: seq<Value>)
    ensures EnqueueAll(w, entries).world.saved == w.saved
    decreases |entries|
  {
    if |entries| > 0 && EnqueueEntry(w, entries[0]).Ok? {
      EnqueueKeepsSaved(EnqueueEntry(w, entries[0]).value, entries[1..]);
    }
  }

  /** `download_saved()` with no entries that does not raise empties the saved list. */
  lemma DownloadAllSaved(w: World)
    requires DownloadSaved(w, []).error == None
    ensures DownloadSaved(w, []).world.saved == []
  {
    var es := AsEntries(w.saved);
    assert Requested(w, []) == es;
    EnqueueKeepsSaved(w, es);
    assert Enqueue(w, es).0.saved == w.saved;
    forall i | 0 <= i < |w.saved| ensures RequestedMatch(es)(w.saved[i]) {
      assert es[i] == VDict(w.saved[i]);
    }
    FilterAllMatch(w.saved, RequestedMatch(es));
  }

  /** The saved entries `remove_saved` drops: same `id` and `source` as the payload. */
  function SameRelease(payload: Dict): Dict -> bool {
    saved => Lookup(saved, "id") == Lookup(payload, "id") && Lookup(saved, "source") == Lookup(payload, "source")
  }

  /** `remove_saved(payload)`. */
  function RemoveSaved(w: World, payload: Dict): World {
    w.(saved := Filter(w.saved, SameRelease(payload)))
  }

  /**
   * `remove_saved` touches only the saved list: it keeps exactly the
   * entries for another release, and a second call changes nothing.
   */
  lemma RemoveSavedEffect(w: World, payload: Dict)
    ensures var r := RemoveSaved(w, payload);
            && r.(saved := w.saved) == w
            && (forall x :: x in r.saved <==>
                  x in w.saved && !(Lookup(x, "id") == Lookup(payload, "id") && Lookup(x, "source") == Lookup(payload, "source")))
            && RemoveSaved(r, payload) == r
  {
    FilterIdempotent(w.saved, SameRelease(payload));
  }
}

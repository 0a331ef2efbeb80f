# streamripweb download core, modelled in Dafny

This project models the in-memory core of streamripweb, a small web front end
for the streamrip downloader. The model covers:

- The download queue of `DownloadManager`:
  - `enqueue` deduplicates on `(source, str(id))`;
  - `enqueue_urls` tags URLs `lastfm` or `url`;
  - `snapshot`, `retry`, `force_redownload`, `abort`, `_drop_completed` and `_record_download`;
  - the `_worker` loop and `_process_item`, with up to five attempts.
- The `ProgressTap` bookkeeping:
  - per-track states, clamped received counts and effective totals;
  - `summarize_job`, `start_job` and `finish_job`.
- The two persisted lists, `SavedStore` and `DownloadHistoryStore`, and the manager operations built on them (`save_for_later`, `download_saved`, `remove_saved`).
- The pure helpers of `app/main.py`:
  - port normalisation, year extraction and search-page item extraction;
  - SSE framing, the app-settings merge and request validation;
  - the version-cache staleness test.
- The section/key update filter and the field-skipping export of the streamrip configuration manager.

Modules, one file each:

| file | module | models |
|---|---|---|
| common.dfy | Common | `Option`, `Result` and the Python exceptions the code raises |
| assoc.dfy | Assoc | insertion-ordered Python dicts as sequences of pairs |
| values.dfy | Values | decoded JSON values, truthiness, `str()`, `int()` |
| artist.dfy | Artists | both copies of `_stringify_artist` |
| progress.dfy | Progress | `ProgressTap` as a class, over pure track-state functions |
| stores.dfy | Stores | `SavedStore`, `DownloadHistoryStore` as classes |
| queue.dfy | Queue | the manager's state (`World`) and its pure transitions, with the invariant `Inv` |
| process.dfy | Process | `_process_item` over an executor oracle |
| worker.dfy | Worker | one turn of `_worker`, as written and as corrected |
| urls.dfy | Urls | `_is_lastfm_url` and the entries `enqueue_urls` builds |
| saving.dfy | Saving | `save_for_later`, `download_saved`, `remove_saved` |
| manager.dfy | Manager | `DownloadManager` as a class; every method is proved equal to its pure transition |
| webapp.dfy | WebApp | the helpers of `app/main.py` |
| settings.dfy | Settings | `load_app_settings` / `save_app_settings` |
| config.dfy | Config | `StreamripConfigManager.update` and `_dataclass_to_dict` |

How the model represents things:

- **Job ids.** They come from a counter (`nextId`), which stands in for `uuid4()`.
- **Streamrip runs.** Each run of `_run_streamrip` is drawn from an oracle `Executor = nat -> RunOutcome`, indexed by how many runs have happened.
  - A run raises with a message or returns.
  - Either way it carries the progress-hook calls it made.
- **Files.** The JSON files are in-memory sequences or decoded values handed in as parameters.
- **Hostnames.** `urlparse`'s host extraction is a parameter `hostOf`.
- **JSON encoding.** `format_sse` takes `json.dumps` as a parameter `dumps`.

Behaviour of the code that the model keeps, though a reader might expect otherwise:

- `all_downloaded` counts only `downloaded` tracks, so one skipped track makes a job `partial`.
- `abort` deletes the job instead of keeping it visible as `aborted`.
- `SavedStore.add` does not deduplicate.
- A single `_worker` task drains `order`.
- `enqueue` never sets `QueueItem.url`. URL entries still carry their URL as `id`.

## Model

| member | source | states |
|---|---|---|
| Artists.StringifyVariantsAgree | app/main.py:292-307 | the `app/main.py` copy of `_stringify_artist`, which drops `None` parts first, agrees with the `app/download_manager.py` copy on every input |
| Artists.ArtistOfNames | app/download_manager.py:23-33 | a list of names becomes the non-empty names joined by ", " |
| Values.ParseIntOfDecimal | app/main.py:406-413 | `int(str(i)) == i` for every integer, so `_normalize_port` gives back a positive port stored as its decimal text |
| Values.ParseIntIgnoresLeadingSpace | app/main.py:406-413 | a leading whitespace character, the ASCII separators U+001C to U+001F included, does not change the integer `int()` reads, and so not the port `_normalize_port` keeps |
| Values.DecimalInjective | app/download_manager.py:870 | distinct integer ids have distinct `str()` forms |
| Progress.EffectiveSumAtLeastCount | app/download_manager.py:505-507 | every track adds at least one unit to the overall total, so it is at least the track count |
| Progress.ReceivedWithinTotal | app/download_manager.py:542-545 | with every track clamped, the overall received sum is within the overall effective total |
| Progress.CountsPartition | app/download_manager.py:509-524 | the per-status counts add up to the number of tracks |
| Progress.AllDownloadedIff | app/download_manager.py:521-523 | `all_downloaded` holds iff there are tracks and every track is `downloaded`; `total_tracks` is the track count |
| Progress.SkippedBlocksCompletion | app/download_manager.py:521-523 | one skipped track keeps a job from counting as all downloaded |
| Progress.ApplyEventKeepsClamped | app/download_manager.py:466-468 | marking a track or transferring bytes keeps every track's `received` within its `total` |
| Progress.ApplyEventsKeepsClamped | app/download_manager.py:446-500 | a whole run of hook calls keeps every track clamped |
| Progress.DoneCompletesTrack | app/download_manager.py:496-498 | `done()` leaves the track with everything received |
| Progress.MarkCountsOnce | app/download_manager.py:594-647 | re-marking a known track replaces its state and the job's track count does not grow |
| Progress.EventOverallBounds | app/download_manager.py:526-593 | each stored event reports an overall total of at least one unit per track and no more received than that |
| Progress.EventStoresTrack | app/download_manager.py:594-647 | the event stored for the job reports the job's stored tracks |
| Progress.FinishJobSummary | app/download_manager.py:414-430 | `finish_job` drops the job's tracks, records their summary in the latest event and leaves other jobs alone |
| Progress.ProgressTap.StartJob | app/download_manager.py:405-413 | the tap's new state is `Started`: fresh tracks for the job and no stale event |
| Progress.ProgressTap.FinishJob | app/download_manager.py:414-430 | the tap's new state is `Finished` of the old one |
| Progress.ProgressTap.SummarizeJob | app/download_manager.py:509-524 | returns `Summarize` of the job's stored tracks and changes nothing |
| Progress.ProgressTap.MarkTrackStatus | app/download_manager.py:594-647 | the new state is one `Mark` event applied to the old state |
| Progress.ProgressTap.UpdateTotals | app/download_manager.py:446-491 | the new state is one clamped transfer applied to the old state |
| Progress.ProgressTap.Apply | app/download_manager.py:492-500 | one hook call (the handle's `update(x)` or `done()`, or a `_mark_track_status` call of the patched callbacks) leaves the tap state `Progress.ApplyEvent` of the old one |
| Progress.ProgressTap.TransferDone | app/download_manager.py:496-498 | the handle's `done()` transfers the total minus what the track has received, as `Progress.ApplyEvent` of a `Done` call |
| Progress.ProgressTap.Snapshot | app/download_manager.py:502-503 | returns the latest event of every job and changes nothing |
| Progress.ProgressTap.ApplyAll | app/download_manager.py:446-500 | applying a run's hook calls in a loop equals `ApplyEvents` over the old state |
| Stores.SavedStore.Add | app/download_manager.py:725-728 | appends every item, duplicates included |
| Stores.SavedStore.List | app/download_manager.py:718-720 | returns the saved items as stored, in order |
| Stores.SavedStore.Remove | app/download_manager.py:730-733 | keeps exactly the items the predicate rejects, in order |
| Stores.FilterIdempotent | app/download_manager.py:730-733 | removing by the same predicate twice is removing once |
| Stores.HistoryAddKeys | app/download_manager.py:756-776 | afterwards the history knows exactly the old keys plus the batch's keys, no release is recorded twice, and old records stay in front |
| Stores.HistoryAddIdempotent | app/download_manager.py:756-776 | adding the same batch twice records it once |
| Stores.HistoryAddOne | app/download_manager.py:760-773 | an entry with a new key is appended as its stored record, whose id is a string |
| Stores.DownloadHistoryStore.List | app/download_manager.py:749-751 | returns the history records as stored, in order |
| Stores.DownloadHistoryStore.Add | app/download_manager.py:756-776 | the store's new list is `HistoryAdded` of the old list and the batch |
| Queue.InitialInv | app/download_manager.py:780-799 | a fresh manager over a history without repeated releases satisfies the invariant |
| Queue.DisplayOrderDistinct | app/download_manager.py:898-899 | `display_order` never holds a job id twice |
| Queue.FindExistingSpec | app/download_manager.py:865-873 | the duplicate search returns a queued job for the entry's release, or none when no queued job matches; it raises only on an entry lacking `source` or `id` |
| Queue.EnqueueDuplicate | app/download_manager.py:874-884 | an entry for a release already queued creates no job and changes nothing |
| Queue.EnqueueNew | app/download_manager.py:885-899 | a new release becomes a job with the next id, appended to the queue, `order` and `display_order`; status `queued`, attempts 0, no error; title is title, else name, else id; `force_no_db` is `force_no_db or no_db`; the job id is the next id, `media_type` is the entry's, `artist` is `_stringify_artist` of the entry's artist, `downloaded` is the entry's else False, and `url` is None |
| Queue.EnqueueRaisesIff | app/download_manager.py:864-895 | an entry raises exactly when it lacks `source`/`id`, or is new and lacks `media_type` or has an artist `_stringify_artist` cannot handle |
| Queue.EnqueueAllInv | app/download_manager.py:862-913 | `enqueue` keeps the invariant and every job already queued |
| Queue.EnqueueAllQueues | app/download_manager.py:862-913 | after an `enqueue` that did not raise, every entry's release has a queued job |
| Queue.EnqueueReturnsQueue | app/download_manager.py:913 | `enqueue`'s closing `snapshot()` changes nothing and returns every queued item in order |
| Queue.SnapshotExact | app/download_manager.py:801-804 | under the invariant, `snapshot` keeps `display_order` and returns every queued item, in queue order |
| Queue.RetryEffect | app/download_manager.py:1114-1132 | an unknown job changes nothing; a known one is `queued`, error cleared, not downloaded, `force_no_db` set when forced and never cleared, id appended to `order` |
| Queue.AbortEffect | app/download_manager.py:1137-1149 | an unknown job changes nothing; a known one leaves the queue, `display_order`, its first place in `order` and both progress maps; other jobs are untouched |
| Queue.DropCompletedEffect | app/download_manager.py:1018-1023 | the job leaves the queue and `display_order`; `order` and the other jobs are untouched |
| Queue.RecordDownloadEffect | app/download_manager.py:828-844 | the release ends up in `downloaded_index`, a second call changes nothing, and the index stays the history's key set |
| Process.ConcludeOutcome | app/download_manager.py:955-967 | a returned run ends `completed` exactly when every track was downloaded, else `partial` with "Tracks failed: f; skipped: s" |
| Process.ProcessItemInv | app/download_manager.py:934-1016 | `_process_item` keeps the invariant and touches no other job; a completed job has left the queue and `display_order`; any other ending leaves the final item queued |
| Process.ProcessItem | app/download_manager.py:934-1016 | the job ends `completed`, `partial` or `failed` and fails exactly when all five runs raise; it uses between one and five attempts, one run each, as many as `RunsUsed` counts |
| Process.Attempt | app/download_manager.py:950-1016 | from attempt `a + 1` on: fails iff every remaining run raises, then with the last run's message; past the fifth attempt the job fails with the item as it was; runs used equal attempts made |
| Process.ProcessItemFailed | app/download_manager.py:991-1012 | a failed job used five attempts, one run each, keeps the last run's message, and its saved entries stay |
| Process.ProcessItemConcluded | app/download_manager.py:956-989 | a `completed` job is downloaded, has `force_no_db` cleared and is recorded; a `partial` one carries its counts; matching saved entries are gone |
| Process.RunsUsedAllThrow | app/download_manager.py:950-1010 | when every remaining run raises, the loop uses all remaining attempts |
| Process.RunsUsedStops | app/download_manager.py:950-1010 | unless every remaining run raises, the attempts loop stops at the first run that returns |
| Worker.QueuedTurn | app/download_manager.py:922-932 | a completed or aborted head is only popped, with everything else as it was; any other head is processed, consuming at least one executor run; either way exactly the head leaves `order` and no id is handed out |
| Worker.TurnAsWritten | app/download_manager.py:915-932 | the written loop body is idle exactly on an empty `order`; it crashes only on a head that is not queued, naming that id; otherwise it pops exactly the head |
| Worker.WorkerTurn | app/download_manager.py:915-932 | the corrected loop body never crashes, is idle exactly on an empty `order`, and otherwise pops exactly the head |
| Worker.Drain | app/download_manager.py:915-932 | the corrected worker loop ends with `order` empty and hands out no id |
| Worker.TurnCrashesIff | app/download_manager.py:915-921 | the written loop body dies exactly when the head of `order` is no longer queued, and otherwise agrees with the corrected turn |
| Worker.CompletedTwiceCrashes | app/download_manager.py:915-932 | a job whose id is twice at the head of `order` and that completes leaves the next turn to crash on its id |
| Worker.AbortAfterRetryCrashes | app/download_manager.py:1143-1144 | aborting a job queued twice leaves its id at the head of `order`, and the next turn crashes |
| Worker.CrashWitness | app/download_manager.py:862-932 | enqueue one album, retry it, let its one track download: the second turn raises `KeyError` |
| Worker.CrashPersists | app/download_manager.py:911-921 | once the head is missing, every later `enqueue` or `retry` (the two calls that start a worker, 911-912 and 1131-1132) leaves it missing at the head, so every new worker dies on the same id |
| Worker.WorkerTurnEffect | app/download_manager.py:915-932 | the corrected turn never crashes, keeps the invariant and pops exactly the head of `order` |
| Worker.DrainEmpties | app/download_manager.py:915-919 | the corrected worker runs until `order` is empty and keeps the invariant |
| Urls.LastfmHostIgnoresCase | app/download_manager.py:36-39 | the last.fm host test ignores letter case and accepts only `last.fm` and `www.last.fm` |
| Urls.NormalizedUrlSpec | app/download_manager.py:1066-1071 | only a last.fm URL spelling `://last.fm` is rewritten, at its first occurrence, to `://www.last.fm`; everything around it stays |
| Urls.NormalizedDropsBareHost | app/download_manager.py:1067-1071 | the rewritten URL no longer spells `://last.fm` at that place |
| Urls.UrlEntryFields | app/download_manager.py:1072-1082 | a URL entry carries source and media type `lastfm` or `url`, the normalised URL as id, and no artist |
| Urls.UrlEnqueueNeverRaises | app/download_manager.py:1063-1083 | `enqueue_urls` never raises |
| Saving.SaveForLaterEffect | app/download_manager.py:1085-1108 | touches only the saved list and appends at most one entry without dedup: a non-empty payload with its artist stringified, else the record of a queued job, else nothing |
| Saving.DownloadSavedEffect | app/download_manager.py:1159-1169 | raises exactly when `enqueue` does; otherwise every requested release is queued and the saved list loses exactly the entries matching a requested `id` and `source` |
| Saving.DownloadAllSaved | app/download_manager.py:1160-1169 | `download_saved()` with no entries that does not raise empties the saved list |
| Saving.RemoveSavedEffect | app/download_manager.py:1174-1180 | keeps exactly the saved entries of another release and is idempotent |
| Manager.DownloadManager.constructor | app/download_manager.py:780-799 | a new manager is the initial state over the saved list and history |
| Manager.DownloadManager.Snapshot | app/download_manager.py:801-804 | the new state and returned items are `Queue.Snapshot` of the old state |
| Manager.DownloadManager.EnqueueOne | app/download_manager.py:864-899 | one loop pass leaves the state `Queue.EnqueueEntry` of the old one, or raises what it raises and changes nothing |
| Manager.DownloadManager.AddJob | app/download_manager.py:896-899 | a new job is stored under the next id and appended to `order`, and to `display_order` unless already shown: the state becomes `Queue.Added` of the old one |
| Manager.DownloadManager.Enqueue | app/download_manager.py:862-913 | the loop's new state and returned items are `Queue.Enqueue` of the old state |
| Manager.DownloadManager.EnqueueUrls | app/download_manager.py:1063-1083 | equals `enqueue` of the URL entries, and never raises |
| Manager.DownloadManager.Retry | app/download_manager.py:1114-1135 | the new state is `Queue.Retry` of the old one |
| Manager.DownloadManager.ForceRedownload | app/download_manager.py:1155-1157 | the new state is a forced retry |
| Manager.DownloadManager.Abort | app/download_manager.py:1137-1149 | the new state is `Queue.Abort` of the old one |
| Manager.DownloadManager.DropCompleted | app/download_manager.py:1018-1023 | the new state is `Queue.DropCompleted` of the old one |
| Manager.DownloadManager.RecordDownload | app/download_manager.py:828-844 | the new state is `Queue.RecordDownload` of the old one |
| Manager.DownloadManager.ProcessItem | app/download_manager.py:934-1016 | the attempts loop's final state and item are `Process.ProcessItem` of the old state |
| Manager.DownloadManager.Attempts | app/download_manager.py:950-1016 | the attempts loop followed by the `failed` ending leaves the state and item `Process.Attempt` of the old state from the first attempt |
| Manager.DownloadManager.RunAttempts | app/download_manager.py:950-1010 | the five loop passes either conclude the job as `Process.Attempt` says, or exhaust the attempts with the state `Process.Attempt` expects past the fifth |
| Manager.DownloadManager.AttemptOnce | app/download_manager.py:951-1010 | one pass either concludes the job with the state `Process.Attempt` gives at this attempt, or leaves the state `Process.Attempt` continues from at the next one |
| Manager.DownloadManager.RunOnce | app/download_manager.py:951-954 | the pass counts its attempt in the stored item, consumes one executor run and applies that run's hook calls to the tap: `Process.AfterRun` of the old state |
| Manager.DownloadManager.Conclude | app/download_manager.py:955-989 | a run that returned ends the job as `Process.Conclude` of the old state: completed and recorded, or partial with its counts, saved entries removed, progress finished, a completed job dropped |
| Manager.DownloadManager.RecordRetry | app/download_manager.py:991-993 | a run that raised leaves the job stored as `retrying` with the run's message as its error, and changes nothing else |
| Manager.DownloadManager.GiveUp | app/download_manager.py:1011-1012 | after the last attempt the job is stored as `failed` and its progress finished: `Process.GiveUp` of the old state |
| Manager.DownloadManager.RunWorker | app/download_manager.py:915-932 | the corrected worker loop's final state is `Worker.Drain` of the old state |
| Manager.DownloadManager.SaveForLater | app/download_manager.py:1085-1108 | the new saved list, or the exception, is `Saving.SaveForLater` of the old state |
| Manager.DownloadManager.DownloadSaved | app/download_manager.py:1159-1172 | the new state and exception are `Saving.DownloadSaved` of the old state |
| Manager.DownloadManager.RemoveSaved | app/download_manager.py:1174-1180 | the new state is `Saving.RemoveSaved` of the old one |
| Manager.ValidIds | app/download_manager.py:802 | the loop keeps exactly the ids that are queued, in order |
| Manager.ItemsFor | app/download_manager.py:804 | the loop returns the queued item of every id, in order |
| WebApp.NormalizePortSpec | app/main.py:406-413 | the port is `int(value)` when positive, else 8500; normalising is idempotent and a positive port written in decimal normalises to itself |
| WebApp.ConfiguredPortSpec | app/main.py:416-418 | a missing `port` gives 8500, a stored one is normalised, and a stored positive port is returned |
| WebApp.ExtractYearScalars | app/main.py:310-316 | an integer year reads back as the same integer; a string year is its first four characters; `None` and lists have no year |
| WebApp.FirstYearSpec | app/main.py:317-320 | a dict has a year iff one of the keys holds a truthy value, and the year comes from the first such key, at most four characters |
| WebApp.ExtractYearOfDict | app/main.py:317-321 | `year` is preferred over `release_year`, which is preferred over `releaseYear` |
| WebApp.ExtractItemsSpec | app/main.py:264-273 | each known source reads its own key (qobuz: `<media_type>s.items`) and returns a list stored there; a missing key or unknown source gives `[]`; a qobuz section that is not a dict raises |
| WebApp.SseRoundTrip | app/main.py:382-387 | an SSE reader gets the event's name and data back from the frame iff neither has a line break; the name defaults to `message` and string data is sent as it is |
| WebApp.SearchRequestSpec | app/main.py:185-194 | 400 iff one of source/media_type/query is missing; `limit` defaults to 25 and is read with `int()` |
| WebApp.StartDownloadSpec | app/main.py:250-253 | 400 iff `items` is present and not a list; a missing `items` is `[]` |
| WebApp.RefreshAgreesWithStaleness | app/main.py:421-498 | an unforced refresh is skipped iff `get_version_data` would not ask for one; a forced refresh is never skipped; an empty cache is stale |
| WebApp.RefreshedCacheLasts | app/main.py:421-515 | a freshly written cache is used as it is for exactly one day |
| Settings.LoadAppSettingsSpec | app/main.py:519-532 | defaults when no file; raises when the file is not an object; otherwise saved keys override defaults and the port is the saved one normalised |
| Settings.SaveAppSettingsSpec | app/main.py:535-538 | payload keys override the loaded settings; the port is the payload's normalised, else the loaded one; the result has every default key and a positive port |
| Settings.LoadAfterSave | app/main.py:519-543 | loading what `save_app_settings` wrote gives back the same settings |
| Config.ExportRecord | app/config_manager.py:30-44 | a record's export has exactly its fields other than `toml` and `_modified`, each exported, nested records as dicts and list elements one by one |
| Config.ExportPlain | app/config_manager.py:31-32 | anything that is not a record is returned as it is |
| Config.SkippedSections | app/config_manager.py:61-65 | a section the config lacks, or one that is not a record, changes nothing |
| Config.ApplyKeysSpec | app/config_manager.py:66-70 | within a section, exactly the existing keys take the payload's value, no field is added, and the file is modified iff some key applied |
| Config.ApplySectionSpec | app/config_manager.py:60-70 | one section's update keeps the set of sections and every other section's value |
| Config.ApplyUpdatesFrame | app/config_manager.py:59-70 | `update` adds no section, leaves every section it does not name as it was, and never clears the modified mark |
| Config.ExportAfterUpdate | app/config_manager.py:52-71 | a key `update` set shows its new value in the export `update` returns |
| Config.ConfigManager.UpdateSection | app/config_manager.py:66-70 | the loop over one section's keys leaves the section `Config.ApplyKeys` of the old one, so exactly the existing keys take the payload value and the file is marked modified iff some key applied; no other section changes |
| Config.ConfigManager.Update | app/config_manager.py:52-71 | the nested loops leave the state `ApplyUpdates` of the old one and return its export |

## Left out

- `EventBroker` and every `publish`/`subscribe` call: these are asyncio fan-out.
- The lock and the interleaving of the worker with request handlers: concurrency is not modelled. Each operation is one atomic step, and `order.pop(0)` runs after the item was processed, as in the code.
- The start of a worker task by `enqueue` and `retry`, the two calls that start a worker: this is modelled as a separate `RunWorker` call that drains `order`.
- The streamrip monkey-patching, `_download_with_tracking` and `_run_streamrip`: these are foreign library calls. A run is an oracle outcome, and only its effect on track states is kept.
- ETA and rate arithmetic, `time.monotonic()`, and the float backoff between attempts.
- Float arguments: `_extract_year` on a float, `int()` of a float port or limit, and float `checked_at` times (seconds are integers here).
- Values.Value: there is no float case. A float `id` or `downloaded` in an entry, and the `"1.0"` that `str()` gives it in the duplicate key, are not modelled.
- Values.Value: equality is structural. Python's `==` makes `True == 1` and compares dicts regardless of key order; the model does not. This affects the duplicate check (app/download_manager.py:869) and the saved-list matches (975, 1165, 1178) only for such mixed values. For the string sources and string or integer ids the application sends, the two equalities agree.
- Values.Repr: quotes inside strings are not escaped, and the quote style does not switch. Python gives `["it's"]` for `str(["it's"])`; the model gives `['it's']`. This reaches `_extract_year`'s `str(value[key])[:4]` and the `str(id)` keys only for lists and dicts holding such strings.
- JSON file reads and writes: files are in-memory lists or decoded values passed in.
  - Whether streamrip's `Config` writes the updated file on leaving its `with` block is not part of this model.
  - `update` returns the export of the updated in-memory config.
- `json.dumps` is a parameter of `format_sse`.
- `urlparse` is a parameter giving each URL's host.
- `str.lower()`, `str.strip()` and `int()` are modelled for ASCII only. Every ASCII whitespace character Python recognises is stripped, but not Unicode spaces such as U+00A0 or Unicode digits.
- `summarize_item`, the search provider calls, the version probes against GitHub and `importlib`, logging setup, and start.py.
- `StreamripConfigManager.load`/`__init__`: the config is the manager's in-memory state.
  - `hasattr` is modelled as "is a field": methods and dunder attributes of a section are not modelled.
- Config.Raw: a record inside a list nested in another list is left unconverted by the code. The model renders it with all its fields and does not stand for the object identity.
- Worker.Drain: the corrected loop is modelled. The loop as written is captured only turn by turn (`TurnAsWritten`), because it dies on the first missing head.
- WebApp.SearchRequest: the 400 detail text (a Python `set` repr, whose order is unspecified) is not modelled; only the refusal is.
- `_item_to_dict`: items are returned as `QueueItem` records, not dicts.
- `saved_items`, `downloaded_ids`, `has_downloaded`, `history_snapshot`, `queue_state`: these are read-only accessors over the state and are not modelled.

## Findings

| source | as written | input that shows it | evidently intended | confidence | as-written member | corrected member |
|---|---|---|---|---|---|---|
| app/download_manager.py:915-932 | `_worker` reads `self.queue[order[0]]`. `retry` appends an id already in `order`, and a completed job is dropped from `queue`. The second copy of the id then raises `KeyError`: the worker dies without popping it, and every later worker dies on the same id. `abort` of a twice-queued job (`order.remove` drops one copy) ends the same way. | enqueue one album and, while it is being processed (its id still heads `order`, popped only afterwards), `retry` it; let its only track download | a head that is no longer queued is skipped and popped | not executed | Worker.TurnAsWritten (Worker.CrashWitness, Worker.CompletedTwiceCrashes, Worker.AbortAfterRetryCrashes, Worker.CrashPersists) | Worker.WorkerTurn (Worker.WorkerTurnEffect, Worker.DrainEmpties, Manager.DownloadManager.RunWorker) |

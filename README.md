# Dacon K League live-analysis backend, modelled in Dafny

This project models the core of the K League tactical-alert backend.

- **Session manager.** A client creates an analysis session from a request and starts it. The manager builds the ingest source the request names: an event-log replay of one game, a video file, an RTSP stream or a webcam. It opens the source and runs a background task. For an event log, the task replays the events through a 45-second sliding window. Once per second of play it evaluates three tactical detectors: build-up bias, transition risk and final-third pressure. An alert is raised when a detector fires and its pattern is out of its 8-second cooldown. A fallback alert is raised once 30 seconds of play have passed without any alert. Each alert carries evidence (a rendered clip and an overlay image). Capture sources raise one stand-in alert after three seconds. Every status change is logged as a status event.
- **Supporting services.**
  - the event-log ingest source: load, sort, pace and hand out frames;
  - the ingest factory;
  - the Track2 data checks and game listing;
  - the evidence builder;
  - the will-have-shot predictor;
  - the upload store;
  - the request and response schemas.
- **Two scripts.**
  - the StatsBomb pressure-feature extractor;
  - the frontend lockfile check.

Modules, one file each:

| file | module | models |
|---|---|---|
| `schemas.dfy` | `Schemas` | session enums, records, request validation, `EventRecord` |
| `config.dfy` | `Config` | `Settings` and its defaults |
| `uploads.dfy` | `Uploads` | `UploadStore` (class) and its JSON index |
| `track2.dfy` | `Track2` | file and column checks, `list_game_ids`, `ensure_game_id_exists` |
| `events.dfy` | `EventIngest` | `EventIngestSource` (class), `_try_float`, `_try_int`, `_load_events` |
| `factory.dfy` | `IngestFactory` | `IngestFactory.build` |
| `evidence.dfy` | `EvidenceBuilder` | `build_evidence`, clip and overlay rendering as lists of drawn marks |
| `patterns.dfy` | `SessionLogic` | the three detectors, cooldown, demo metrics, `_try_create_alert`, `_evaluate_event_alerts` |
| `manager.dfy` | `Sessions` | `SessionManager` (class), session state, the two runner coroutines as explicit task states |
| `predictor.dfy` | `ShotPredictor` | `WillHaveShotPredictor` (class) and the module-level singleton |
| `pressure.dfy` | `Pressure` | `extract_pressure_features` |
| `lockfile.dfy` | `LockfileSync` | `diffDeps` and the exit status of the lockfile check |

Helper modules model Python and JavaScript built-ins the core relies on:

- `wrappers.dfy`: `Option`, `Result`, `Outcome`;
- `pyvalue.dfy`: truthiness and `or`;
- `text.dfy`: `lower`, `strip`, string order, `str(int)`;
- `pynum.dfy`: `int()` and `float()` on text;
- `seqs.dfy`: filters and maps;
- `sorting.dfy`: the stable `sorted` used by the sorts;
- `csv.dfy`: `csv.DictReader` rows and the file system as a map.

### How state and effects are represented

- **Classes for the objects the source mutates in place.** `SessionManager`, `UploadStore`, `EventIngestSource` and `WillHaveShotPredictor` are classes. Each state-changing method states its whole new state against a pure function of the old one, and a `Valid()` invariant is kept.
- **Each session's state is a value.** `Sessions.SessionState` holds the session record, the request, the alerts, the status log, the runner task and the source.
- **The asyncio runner is an explicit state machine.** `Sessions.Task` is `Pending`, `Streaming(window, lastEval)` or `Sleeping`. One loop iteration of `_run_event_realtime` is `SessionManager.Step`. The end of `_run_offline_realtime`'s sleep is `SessionManager.Wake`. A task that is cancelled after it has begun runs its `finally` block; one still pending never runs.
- **A deferred status push goes last.** When evidence fails, `asyncio.create_task(self._push_status(...))` is scheduled. Its push is logged after the evaluation's own pushes.
- **Effects become parameters.**
  - Randomness (`uuid4`), the clock (`utcnow`), the environment and the file system are parameters.
  - `asyncio.sleep` durations are returned values.
  - Evidence rendering produces the list of marks drawn on each frame instead of pixels.

## Model

| member | source | states |
|---|---|---|
| Schemas.StatusOf | backend/app/schemas/session.py:19-24 | `SessionStatus(value)` finds exactly the member whose value is the text |
| Schemas.SeverityOf | backend/app/schemas/session.py:27-30 | `Severity(value)` finds exactly the member whose value is the text |
| Schemas.SourceTypeOf | backend/app/schemas/session.py:8-11 | `SessionSourceType(value)` finds exactly the member whose value is the text |
| Schemas.ModeOf | backend/app/schemas/session.py:14-16 | `SessionMode(value)` finds exactly the member whose value is the text |
| Schemas.StatusesComplete | backend/app/schemas/session.py:19-24 | five statuses with distinct values, each read back from its value |
| Schemas.SeveritiesComplete | backend/app/schemas/session.py:27-30 | three severities with distinct values, each read back from its value |
| Schemas.Violations | backend/app/schemas/session.py:57-65 | a field is reported exactly when its given value breaks `ge`/`le`, and `source_type` exactly when omitted |
| Schemas.ValidateCreateRequest | backend/app/schemas/session.py:57-65 | fails exactly with the violations; a valid body satisfies every bound, takes each omitted field's default and keeps each given one: source type, mode, fps, buffer, path, RTSP URL, device, upload id, dataset path, game id and playback speed |
| Schemas.DefaultsAreValid | backend/app/schemas/session.py:57-65 | a body with only `source_type` validates to all the declared defaults |
| PyValue.Or | backend/app/services/ingest/factory.py:16 | `a or b` is `a` when truthy, else `b`, and is truthy iff either is |
| Csv.Get | backend/app/services/ingest/events.py:51 | `row.get(col)` is `None` exactly when the row has no cell for the column (for short rows see Left out) |
| Uploads.AdmittedFrom | backend/app/services/uploads/store.py:51-67 | only entries with every required key are admitted, each as the item of its id |
| Uploads.Admitted | backend/app/services/uploads/store.py:51-67 | a missing or unreadable index admits nothing; otherwise the complete entries, keyed by id |
| Uploads.Saved | backend/app/services/uploads/store.py:69-73 | the saved index has one complete entry per item, with the item's fields |
| Uploads.SaveLoadRoundTrip | backend/app/services/uploads/store.py:51-73 | loading a saved index gives back exactly the saved items |
| Uploads.UploadStore.constructor | backend/app/services/uploads/store.py:23-27 | a new store holds exactly the items admitted from its index |
| Uploads.UploadStore.Add | backend/app/services/uploads/store.py:29-31 | the item is filed under its id, every other id is unchanged, and the index is rewritten from the items |
| Uploads.UploadStore.Get | backend/app/services/uploads/store.py:33-34 | the stored item exactly when the id is known |
| Uploads.UploadStore.ResolvePath | backend/app/services/uploads/store.py:42-46 | the stored path exactly when the id is known |
| Uploads.UploadStore.ResolveDownloadUrl | backend/app/services/uploads/store.py:36-40 | `{api_prefix}/uploads/{file_id}` exactly when the id is known |
| Track2.RequiredColumnsExact | backend/app/services/data/track2.py:9-20 | the ten required event columns, without repeats |
| Track2.EnsureFile | backend/app/services/data/track2.py:23-25 | fails with the `FileNotFoundError` message naming the label and the path exactly when the path is absent |
| Track2.Missing | backend/app/services/data/track2.py:28-34 | `required - headers`: a column is missing iff it is required and not a header |
| Track2.SortedMissingSpec | backend/app/services/data/track2.py:32-34 | the sorted list names every missing column once, in string order |
| Track2.SortedMissingSetOnly | backend/app/services/data/track2.py:32-34 | the message depends only on the set of required columns |
| Track2.EnsureColumns | backend/app/services/data/track2.py:28-34 | fails on a missing file, else exactly when a required column is missing, naming the sorted missing columns |
| Track2.ValidateTrack2Data | backend/app/services/data/track2.py:37-45 | events file, then match file, then the event columns, first failure wins; success iff all pass, returning both paths |
| Track2.EnsureTrack2Ready | backend/app/services/data/track2.py:48-52 | every validation failure becomes HTTP 500 with its message |
| Track2.EnsureGameIdExists | backend/app/services/data/track2.py:101-112 | 500 when not ready, 404 for an id no row has, success otherwise |
| Track2.FirstSeenSpec | backend/app/services/data/track2.py:64-70 | the collected ids are distinct, non-empty, present in the log and in first-appearance order |
| Track2.FirstSeenPrefix | backend/app/services/data/track2.py:64-70 | reading fewer rows gives a prefix of the full list |
| Track2.Cap | backend/app/services/data/track2.py:68-70 | a falsy limit does not cap; a truthy one caps at `max(limit, 1)` ids |
| Track2.ListedIdsSpec | backend/app/services/data/track2.py:64-70 | listed ids are distinct, present, in first-seen order, a prefix of all ids, and within the cap |
| Track2.MetaOfLastWins | backend/app/services/data/track2.py:72-84 | a game's metadata comes from the last match row naming it |
| Track2.MetaOfKeys | backend/app/services/data/track2.py:72-98 | a game that no match row names has no metadata entry |
| Track2.CollectGameIds | backend/app/services/data/track2.py:64-70 | the first loop returns exactly the listed ids |
| Track2.CollectMeta | backend/app/services/data/track2.py:72-84 | the second loop returns exactly the metadata map |
| Track2.ListGameIds | backend/app/services/data/track2.py:55-98 | fails iff the events file is absent; otherwise one entry per listed id, in order, with its match metadata or empty fields (none when the match file is absent) |
| Track2.Entries | backend/app/services/data/track2.py:86-98 | one entry per id, in order, each the id with its metadata |
| EventIngest.TryFloat | backend/app/services/ingest/events.py:76-82 | `None` for a missing or empty cell or text `float()` rejects, else the parsed value |
| EventIngest.TryInt | backend/app/services/ingest/events.py:85-91 | `None` for a missing or empty cell or text `int()` rejects, else the parsed value |
| EventIngest.TryParseIntText | backend/app/services/ingest/events.py:76-91 | the text of an integer reads back through both parsers |
| EventIngest.EventLeTotalPreorder | backend/app/services/ingest/events.py:71 | the sort key `(time_seconds, action_id or 0)` is a total preorder |
| EventIngest.TimeOf | backend/app/services/ingest/events.py:61 | a missing `time_seconds` reads 0.0; finite text gives its value; text `float()` rejects gives `None`, and so does non-finite text (see Left out) |
| EventIngest.ParseRow | backend/app/services/ingest/events.py:54-70 | a row builds a record exactly when its time parses; the record's fields are the parsed cells |
| EventIngest.Pick | backend/app/services/ingest/events.py:46-70 | only rows of the session's game that build contribute a record |
| EventIngest.SelectedSpec | backend/app/services/ingest/events.py:45-70 | a record is selected iff some row of the game builds it |
| EventIngest.LoadedEventsSpec | backend/app/services/ingest/events.py:45-72 | loaded events are sorted by the key, are the game's records, and keep file order among ties |
| EventIngest.Pause | backend/app/services/ingest/events.py:33-36 | 0 for the first frame or when time does not advance; otherwise the gap divided by the speed, capped at 0.2 |
| EventIngest.EventIngestSource.constructor | backend/app/services/ingest/events.py:12-18 | a new source holds its path and game, the speed when positive else 1.0, no events, cursor 0 |
| EventIngest.EventIngestSource.Open | backend/app/services/ingest/events.py:20-23 | a missing file fails and changes nothing; otherwise the loaded events, rewound |
| EventIngest.EventIngestSource.ReadFrame | backend/app/services/ingest/events.py:25-38 | `None` at the end; otherwise the next event, the cursor advanced, and the paced pause |
| EventIngest.EventIngestSource.Close | backend/app/services/ingest/events.py:40-43 | the events are dropped, so every later read returns `None` |
| IngestFactory.EventLogPath | backend/app/services/ingest/factory.py:14-22 | `dataset_path`, else `path`, else the upload of `file_id`, else the configured events file |
| IngestFactory.FilePath | backend/app/services/ingest/factory.py:29-31 | `path`, else the upload of `file_id` |
| IngestFactory.Build | backend/app/services/ingest/factory.py:12-42 | event logs: 500 when not ready, `ValueError` without a game id, 404 for an unknown game, else the replay source; file without a path fails; rtsp without a url fails; webcam always builds |
| IngestFactory.EventLogBuilds | backend/app/services/ingest/factory.py:14-27 | an event-log request for a game the log holds builds a replay source once the data is ready |
| EvidenceBuilder.ArtifactUrl | backend/app/services/evidence/builder.py:47-48 | an evidence link is the API prefix, then `/evidence/`, the session id, `/` and the file name (`clip_{alert_id}.mp4` for the clip, `overlay_{alert_id}.png` for the overlay) |
| EvidenceBuilder.UrlsDiffer | backend/app/services/evidence/builder.py:47-48 | an alert's clip and overlay links always differ |
| EvidenceBuilder.ToPx | backend/app/services/evidence/builder.py:135-140 | `None` when a coordinate is missing, else each coordinate times 8 pixels per metre, truncated toward zero as `int()` does |
| EvidenceBuilder.FrameExact | backend/app/services/evidence/builder.py:10-14 | the frame is 840 by 544 pixels, the pitch at 8 pixels per metre |
| EvidenceBuilder.ToPxOnPitch | backend/app/services/evidence/builder.py:135-140 | a point on the pitch lands within [0, 840] × [0, 544], the far edges one past the last pixel |
| EvidenceBuilder.ToPxMonotone | backend/app/services/evidence/builder.py:135-140 | further up the pitch is never further left in the frame |
| EvidenceBuilder.ColorFor | backend/app/services/evidence/builder.py:142-152 | by lower-cased type first (shot, pass, carry), then the lost-ball colour for turnovers and unsuccessful results, else the default colour |
| EvidenceBuilder.DrawEvent | backend/app/services/evidence/builder.py:123-133 | an arrow when both ends are known, else a dot at the known end, else nothing |
| EvidenceBuilder.Marks | backend/app/services/evidence/builder.py:123-133 | one drawing per event, in order |
| EvidenceBuilder.TimeLeTotalPreorder | backend/app/services/evidence/builder.py:43 | the `time_seconds` sort key is a total preorder |
| EvidenceBuilder.FrameCount | backend/app/services/evidence/builder.py:51-57 | at least one frame, `int(max(0.1, span) * fps)` |
| EvidenceBuilder.FrameCountOfWindow | backend/app/services/evidence/builder.py:40-41 | an alert's clip has at most 100 frames, exactly 100 once five seconds have passed |
| EvidenceBuilder.ShownMember | backend/app/services/evidence/builder.py:58-64 | a frame draws exactly the events from the clip start up to its time |
| EvidenceBuilder.ClipAccumulates | backend/app/services/evidence/builder.py:58-64 | whatever one frame draws, every later frame draws too |
| EvidenceBuilder.ShownSorted | backend/app/services/evidence/builder.py:43-64 | time-sorted input stays in time order on every frame |
| EvidenceBuilder.RenderClip | backend/app/services/evidence/builder.py:51-67 | one mark list per frame; frame `k` draws the events seen by `start + k/fps` |
| EvidenceBuilder.FrameMarks | backend/app/services/evidence/builder.py:58-64 | the marks of the events shown at one frame time |
| EvidenceBuilder.RenderOverlay | backend/app/services/evidence/builder.py:69-100 | the marks of the events within five seconds, then the captions |
| EvidenceBuilder.OverlayMarks | backend/app/services/evidence/builder.py:79-82 | the marks of the events within five seconds of the centre, in order |
| EvidenceBuilder.Captions | backend/app/services/evidence/builder.py:84-98 | pattern at y 30, severity at y 65, then one line per metric from y 100 in steps of 30; any two lines at least 30 pixels apart |
| EvidenceBuilder.BuildEvidence | backend/app/services/evidence/builder.py:24-49 | both URLs; a clip of the frame count with each frame's marks; the overlay of the sorted events near the centre; the pattern caption at y 30, the severity at 65 and metric `i` at 100 + 30i |
| SessionLogic.ChannelsPartition | backend/app/services/sessions/manager.py:297-301 | left, central and right channels split the events with a known `start_y` |
| SessionLogic.RightRatioBounds | backend/app/services/sessions/manager.py:302 | the right-channel ratio lies in [0, 1], and is 0 with no known `start_y` |
| SessionLogic.DetectBuildUpBias | backend/app/services/sessions/manager.py:287-313 | a verdict iff at least 8 passes or carries with both x known and `abs(mean_dx)` > 5 or right ratio > 0.5; high iff `abs(mean_dx)` > 8 or ratio > 0.6, else medium; the three metrics |
| SessionLogic.LatestIndex | backend/app/services/sessions/manager.py:326 | the first position with the greatest time |
| SessionLogic.Latest | backend/app/services/sessions/manager.py:326 | `max(..., key=time_seconds)`: one of the events, and no event is later |
| SessionLogic.DetectTransitionRisk | backend/app/services/sessions/manager.py:315-340 | a verdict iff there is a turnover and a shot or an action ending beyond x = 88 within 8 seconds after the latest one; high iff 2 or more such follow-ups; the two metrics |
| SessionLogic.TransitionAnchor | backend/app/services/sessions/manager.py:318-332 | the detector measures from the latest turnover, and follow-ups are strictly after it |
| SessionLogic.DetectFinalThirdPressure | backend/app/services/sessions/manager.py:342-348 | a verdict iff at least 5 actions end beyond x = 70; high iff at least 10, else medium; the entry count as metric |
| SessionLogic.PressureMonotone | backend/app/services/sessions/manager.py:342-348 | more events never weaken the pressure verdict |
| SessionLogic.EventsForEvidence | backend/app/services/sessions/manager.py:350-351 | an event is in the slice exactly when it is in the window and within five seconds of the time; the slice is its own near-centre selection |
| SessionLogic.EventsForEvidenceInOrder | backend/app/services/sessions/manager.py:350-351 | the slice keeps the window's order: the slice of two concatenated parts is the concatenation of their slices |
| SessionLogic.DemoMetrics | backend/app/services/sessions/manager.py:359-369 | window size, mean forward run, final-third entries and shots, in that order |
| SessionLogic.DemoAgreesWithPressure | backend/app/services/sessions/manager.py:342-369 | the demo metrics report the same final-third count the detector uses |
| SessionLogic.EvidenceMetrics | backend/app/services/sessions/manager.py:395 | one evidence metric per distinct metric name |
| SessionLogic.EvidenceMetricsValues | backend/app/services/sessions/manager.py:395 | with distinct names, each metric is filed under its name with its value |
| SessionLogic.TryCreateAlert | backend/app/services/sessions/manager.py:371-423 | fails with `evidence_generation_failed: ...` iff evidence fails; otherwise the alert spans `[max(0, ts-5), ts]` with the pattern's texts, one clip and one overlay link and the metrics |
| SessionLogic.AlertSpan | backend/app/services/sessions/manager.py:411-412 | for non-negative times, an alert's span starts at or after 0, ends at `ts`, and lasts at most 5 seconds |
| SessionLogic.Consider | backend/app/services/sessions/manager.py:215-267 | a branch files an alert and stamps its pattern exactly when it has a verdict, is out of cooldown and evidence succeeds; the final-third branch pushes its line even when evidence fails |
| SessionLogic.Fallback | backend/app/services/sessions/manager.py:269-285 | a medium build-up alert exactly when no branch alerted, `ts >= 30`, the session has no alert and the window is non-empty, and evidence succeeds |
| SessionLogic.ConsiderGrows | backend/app/services/sessions/manager.py:215-267 | a branch appends at most one alert, stamped with the evaluation time |
| SessionLogic.ConsiderKeepsCooldown | backend/app/services/sessions/manager.py:215-267 | a branch keeps every pattern's alerts at least 8 seconds apart (`_should_emit`, lines 353-357) |
| SessionLogic.FallbackGrows | backend/app/services/sessions/manager.py:269-285 | the fallback appends at most one alert, and only to an empty list when no branch alerted |
| SessionLogic.FallbackKeepsCooldown | backend/app/services/sessions/manager.py:269-285 | the fallback keeps the cooldown invariant |
| SessionLogic.ChainKeepsCooldown | backend/app/services/sessions/manager.py:213-285 | the three branches and the fallback together keep the cooldown invariant |
| SessionLogic.ChainGrows | backend/app/services/sessions/manager.py:213-285 | the pass appends at most three alerts, all stamped with its time |
| SessionLogic.EvaluateKeepsCooldown | backend/app/services/sessions/manager.py:213-285 | an evaluation appends at most three alerts, stamped with its time, and keeps the cooldown |
| SessionLogic.FallbackOnlyWhenQuiet | backend/app/services/sessions/manager.py:269-285 | when no detector fires, the evaluation is exactly the fallback |
| Sessions.Push | backend/app/services/sessions/manager.py:203-211 | sets the status and appends exactly one status event; nothing else changes |
| Sessions.PushRunning | backend/app/services/sessions/manager.py:203-211 | one RUNNING event per detail, in order, after the existing log |
| Sessions.PushKeepsHistory | backend/app/services/sessions/manager.py:203-211 | an allowed push keeps the status log a valid history |
| Sessions.PushRunningKeepsHistory | backend/app/services/sessions/manager.py:203-211 | RUNNING pushes from RUNNING or STOPPED keep the log a valid history |
| Sessions.UploadOrId | backend/app/services/sessions/manager.py:184 | `resolve_path(file_id) or file_id` |
| Sessions.SourceUri | backend/app/services/sessions/manager.py:176-194 | the URI per source type: rtsp URL, `webcam://<device>`, the file or upload path, or empty |
| Sessions.SourceUriNamesSourcePath | backend/app/services/sessions/manager.py:176-194 | the URI names the file the built source reads, except an event log whose only reference is an unknown upload id |
| Sessions.DownloadUrl | backend/app/services/sessions/manager.py:196-201 | a download route exactly for file sessions with a known upload id |
| Sessions.NewState | backend/app/services/sessions/manager.py:46-65 | a valid CREATED session with one "Session created" event, no alerts, task or source |
| Sessions.OpenError | backend/app/services/ingest/events.py:45-46 | only an event log whose file is missing fails to open |
| Sessions.Failed | backend/app/services/sessions/manager.py:71-79 | CONNECTING then LOST with the message; task, source and alerts unchanged |
| Sessions.LostValid | backend/app/services/sessions/manager.py:71-79 | a failed start leaves a valid session |
| Sessions.Launched | backend/app/services/sessions/manager.py:71-85 | CONNECTING then RUNNING, with the source attached and the right runner created |
| Sessions.LaunchedValid | backend/app/services/sessions/manager.py:71-85 | a successful start leaves a valid session |
| Sessions.OfflineAlertAsWritten | backend/app/services/sessions/manager.py:121 | the capture runner's call fails for every session |
| Sessions.WokenAsWritten | backend/app/services/sessions/manager.py:115-139 | as written, the wake-up reaches only the `finally` block: no new alert, no task, no source, STOPPED with "Stream completed" |
| Sessions.OfflineAsWrittenNeverAlerts | backend/app/services/sessions/manager.py:115-139 | as written, a woken capture session keeps its alerts and logs only "Stream completed"; the corrected `Woken` adds one alert whenever the evidence builds, so the two differ |
| Sessions.OfflineAlert | backend/app/services/sessions/manager.py:115-127 | the corrected stand-in: a medium build-up alert at `ts` 5.0, spanning [0, 5], with `flow_x_bias` 0.2, exactly when evidence succeeds |
| Sessions.Slide | backend/app/services/sessions/manager.py:160-161 | the new window holds exactly the old window and the event, restricted to the last 45 seconds |
| Sessions.Advance | backend/app/services/sessions/manager.py:157-166 | slide the window; once a second has passed since the last evaluation, stamp the time, take the evaluation's alerts and pattern stamps and file it as `Evaluated` does; otherwise alerts, stamps, session and log are unchanged |
| Sessions.Evaluated | backend/app/services/sessions/manager.py:163-165 | an evaluation filed into a streaming session: its alerts and pattern stamps, the log kept as a prefix and extended by its pushes and then its deferred evidence-failure pushes, each a RUNNING line in order |
| Sessions.AdvanceValid | backend/app/services/sessions/manager.py:157-166 | a loop step keeps the session valid, the cooldown included |
| Sessions.RetaskValid | backend/app/services/sessions/manager.py:157-166 | moving a streaming task along its loop keeps the session valid |
| Sessions.EvaluatedValid | backend/app/services/sessions/manager.py:163-166 | filing an evaluation that keeps the cooldown, with its RUNNING pushes, keeps the session valid |
| Sessions.StopDetail | backend/app/services/sessions/manager.py:97 | `reason or "Stopped"` |
| Sessions.Finished | backend/app/services/sessions/manager.py:169-174 | no task or source; "Stream completed" is logged unless the session is already STOPPED |
| Sessions.PushValid | backend/app/services/sessions/manager.py:203-211 | an allowed push keeps the session valid |
| Sessions.FinishedValid | backend/app/services/sessions/manager.py:169-174 | the `finally` block keeps every valid session valid |
| Sessions.Halted | backend/app/services/sessions/manager.py:88-98 | the old log kept; a running or sleeping task's `finally` first adds STOPPED "Stream completed" unless already STOPPED; then STOPPED with `reason or "Stopped"` (so stopping a stopped session adds exactly one event); no task or source; alerts, pattern stamps, request and the rest of the session unchanged |
| Sessions.HaltedValid | backend/app/services/sessions/manager.py:88-98 | stopping keeps a session valid from every status |
| Sessions.Woken | backend/app/services/sessions/manager.py:115-139 | the corrected runner of the Findings row (the `_try_create_alert` call plus an `if alert:` guard), after the sleep: with evidence, the stand-in alert, then "Fallback alert generated" (RUNNING) and "Stream completed" (STOPPED); without, "Stream completed" unless already STOPPED, then the deferred RUNNING error line; no task or source; pattern stamps, request and the rest of the session unchanged; compared with `WokenAsWritten` by `OfflineAsWrittenNeverAlerts` |
| Sessions.WokenValid | backend/app/services/sessions/manager.py:115-139 | the capture runner's wake-up keeps its session valid |
| Sessions.ReplaceConsistent | backend/app/services/sessions/manager.py:41-44 | filing one valid session state keeps the registry consistent |
| Sessions.InsertConsistent | backend/app/services/sessions/manager.py:62-63 | filing a new session without a source keeps the registry consistent |
| Sessions.PutConsistent | backend/app/services/sessions/manager.py:41-44 | filing a state with its own or a fresh replay object keeps the registry consistent |
| Sessions.NewSourceUnshared | backend/app/services/sessions/manager.py:74-76 | a replay object the registry never held belongs to no session |
| Sessions.OpenSource | backend/app/services/sessions/manager.py:74-75 | a fresh replay object, loaded and rewound unless its file is missing |
| Sessions.SessionManager.constructor | backend/app/services/sessions/manager.py:41-44 | no sessions |
| Sessions.SessionManager.ListSessions | backend/app/services/sessions/manager.py:100-101 | the sessions in creation order |
| Sessions.SessionManager.GetSession | backend/app/services/sessions/manager.py:103-104 | the session exactly when the id is known |
| Sessions.SessionManager.GetAlerts | backend/app/services/sessions/manager.py:106-107 | the alerts exactly when the id is known |
| Sessions.SessionManager.StatusEvents | backend/app/services/sessions/manager.py:109-113 | the status log exactly when the id is known |
| Sessions.SessionManager.Create | backend/app/services/sessions/manager.py:46-65 | the new session is filed under the new id, appended to the order, and returned |
| Sessions.SessionManager.Start | backend/app/services/sessions/manager.py:67-86 | unknown: nothing; RUNNING or LOST: unchanged; else LOST on a build or open error, else RUNNING with a fresh source |
| Sessions.SessionManager.Launch | backend/app/services/sessions/manager.py:73-86 | opens the built source, then LOST with the error or RUNNING with the source attached |
| Sessions.SessionManager.Attach | backend/app/services/sessions/manager.py:76-85 | the session becomes `Launched` with the source; other sessions unchanged |
| Sessions.SessionManager.Abort | backend/app/services/sessions/manager.py:77-79 | the session becomes `Failed` with the message; other sessions unchanged |
| Sessions.SessionManager.Stop | backend/app/services/sessions/manager.py:88-98 | unknown: nothing; else the session is `Halted` and its replay object is closed |
| Sessions.SessionManager.CloseSource | backend/app/services/sessions/manager.py:94-96 | the session's replay object drops its events |
| Sessions.SessionManager.Begin | backend/app/services/sessions/manager.py:141-150 | a pending task enters its runner: the event loop with an empty window and `last_eval_ts` 0, or the capture runner's sleep (lines 115-120) |
| Sessions.SessionManager.Step | backend/app/services/sessions/manager.py:141-174 | at the end of the log the `finally` block; otherwise the next event is read and the session `Advance`s |
| Sessions.SessionManager.Read | backend/app/services/sessions/manager.py:154-157 | the next event of the replay object, or `None` at its end |
| Sessions.SessionManager.Retire | backend/app/services/sessions/manager.py:169-174 | closes the source and the session becomes `Finished` |
| Sessions.SessionManager.Feed | backend/app/services/sessions/manager.py:157-166 | the session becomes `Advance` of the event |
| Sessions.SessionManager.Wake | backend/app/services/sessions/manager.py:115-139 | the session becomes the corrected `Woken` of the Findings row |
| ShotPredictor.ModelPath | backend/app/services/alerts/will_have_shot.py:34-37 | the environment override, else the default artifact path |
| ShotPredictor.SelectThreshold | backend/app/services/alerts/will_have_shot.py:47-49 | the precision threshold, else the F1 threshold, else 0.5 |
| ShotPredictor.FeatureVector | backend/app/services/alerts/will_have_shot.py:70-75 | one entry per column, in column order; missing, NaN and infinite values read 0.0 |
| ShotPredictor.VectorIgnoresOtherKeys | backend/app/services/alerts/will_have_shot.py:70-75 | the vector depends only on the features named by columns |
| ShotPredictor.WillHaveShotPredictor.constructor | backend/app/services/alerts/will_have_shot.py:21-27 | loaded from the artifact when the load succeeds, else the inactive defaults |
| ShotPredictor.WillHaveShotPredictor.LoadModel | backend/app/services/alerts/will_have_shot.py:29-53 | a missing file changes nothing; an unreadable file or one without a model deactivates; else every field from the artifact |
| ShotPredictor.WillHaveShotPredictor.PredictProba | backend/app/services/alerts/will_have_shot.py:55-86 | `None` when inactive or without a model; otherwise the model on the feature vector, or, with a scaler, `None` when the transform raises and else the model on the scaled vector |
| ShotPredictor.WillHaveShotPredictor.ShouldAlert | backend/app/services/alerts/will_have_shot.py:88-100 | never for `None`, otherwise iff the probability reaches the threshold |
| ShotPredictor.InactiveNeverAlerts | backend/app/services/alerts/will_have_shot.py:65-66 | an inactive predictor never alerts |
| ShotPredictor.AlertMonotone | backend/app/services/alerts/will_have_shot.py:88-100 | a higher probability than one that alerts also alerts |
| ShotPredictor.PredictorSingleton.Get | backend/app/services/alerts/will_have_shot.py:104-112 | the first call builds and keeps a fresh predictor; every later call returns that same object |
| Pressure.KeyLeOrder | scripts/integrate_statsbomb_pressure.py:64-73 | the sort key is a total preorder |
| Pressure.RunLen | scripts/integrate_statsbomb_pressure.py:107-123 | a run's length is between 1 and its end position plus one |
| Pressure.LongestRun | scripts/integrate_statsbomb_pressure.py:107-123 | the longest run over a prefix is between 1 and the prefix length |
| Pressure.PressureIntensity | scripts/integrate_statsbomb_pressure.py:107-123 | the grouping loop returns exactly the intensity function |
| Pressure.ExtractPressureFeatures | scripts/integrate_statsbomb_pressure.py:49-125 | returns exactly the feature record of the events |
| Pressure.EmptyGivesZeros | scripts/integrate_statsbomb_pressure.py:51-61 | no events give all six features 0.0 |
| Pressure.FilterCountOrderFree | scripts/integrate_statsbomb_pressure.py:64-84 | counting is independent of the sort |
| Pressure.CountsBounded | scripts/integrate_statsbomb_pressure.py:76-84 | the counts are those of the unsorted events; each flag count is at most the pressure count, which is at most the event count and at most their sum |
| Pressure.RateInUnitInterval | scripts/integrate_statsbomb_pressure.py:84 | the rate is the pressure count over the event count, in [0, 1] |
| Pressure.RecentBounded | scripts/integrate_statsbomb_pressure.py:87-104 | the recent count is at most the pressure count and at least the minute-less pressure events |
| Pressure.RunCoversChain | scripts/integrate_statsbomb_pressure.py:107-123 | every chained stretch ending at a position fits in that position's run |
| Pressure.RunIsChain | scripts/integrate_statsbomb_pressure.py:107-123 | a position's run is a chained stretch |
| Pressure.LongestCovers | scripts/integrate_statsbomb_pressure.py:107-123 | every run over a prefix is at most the longest run |
| Pressure.LongestAttained | scripts/integrate_statsbomb_pressure.py:107-123 | some position's run attains the longest run |
| Pressure.IntensityIsLongestRun | scripts/integrate_statsbomb_pressure.py:107-123 | intensity is never 1; every stretch of pressure events at most 5 seconds apart is at most the intensity, and a positive intensity is attained by one |
| LockfileSync.PrototypeNameMasked | scripts/check_lockfile_sync.js:31 | as written, an unlisted dependency named `constructor` is not reported; the corrected check reports it |
| LockfileSync.DiffDeps | scripts/check_lockfile_sync.js:28-39 | the loop returns exactly the names the lock map does not list, in key order |
| LockfileSync.MissingMembers | scripts/check_lockfile_sync.js:28-39 | a name is reported iff it is a dependency and the lock map is absent or lacks it |
| LockfileSync.MissingExtremes | scripts/check_lockfile_sync.js:30-31 | no dependency map reports nothing; no lock map reports every key |
| LockfileSync.MissingInKeyOrder | scripts/check_lockfile_sync.js:30-34 | reported names keep the dependency map's key order |
| LockfileSync.CheckLockfileSync | scripts/check_lockfile_sync.js:10-49 | exit 0 iff both files load, the root entry exists and nothing is missing; an unreadable file and a missing root entry give their own errors; otherwise a failure lists exactly the missing dependencies and the missing devDependencies |

## Left out

- **Concurrency.** asyncio tasks, `create_task`, cancellation and `asyncio.sleep` are modelled as explicit task states advanced by `SessionManager.Begin`, `Step` and `Wake`. Cancellation is modelled only at these points, and interleavings are not modelled. The split of `start_session` and the runner's loop into `Launch`, `Attach`, `Abort`, `Read`, `Feed`, `Retire` and `CloseSource` is a decomposition of the same code, not extra behaviour.
- **Clock, identifiers and sleeping.**
  - `uuid4()` and `datetime.utcnow()` are parameters.
  - One `now` stamps every status event of a call.
  - `time.sleep` in `read_frame` is returned as the pause.
- **Pixels and image files.** OpenCV drawing and `VideoWriter`/`imwrite` in builder.py are modelled as the list of marks and captions drawn per frame. Pixel values, the pitch lines of `_draw_pitch` and file output are not modelled, and neither is the `makedirs` call.
- **Video writer.** A `VideoWriter` that fails to open makes `_render_clip` write nothing; the model always renders the frames.
- **Capture devices.** OpenCV capture sources (file, rtsp, webcam) are a `SourceSpec` value that always opens: `cv2.VideoCapture` does not raise. Their frames are not modelled: the capture runner never reads them.
- **Ingest base class.** The `IngestSource` base class (backend/app/services/ingest/base.py) is replaced by the `SourceSpec` datatype and the `EventIngestSource` class.
- **Files.** File, CSV and JSON I/O are values.
  - A CSV file is its header and rows; the file system is a map from path to file.
  - The upload index is an `IndexFile` value.
  - pandas is not used by the core; `csv.DictReader` rows are maps.
- **Short and long CSV rows.** `csv.DictReader` gives a short row a `None` value for each missing header column, and files a long row's extra cells under the `None` key. Here a row is a map from column to text, not tied to the header, so a short row simply lacks the column. This changes two outcomes:
  - A short row without a `time_seconds` cell reads as time 0.0 (`EventIngest.TimeOf`). In Python, `float(None)` raises `TypeError`, which escapes `_load_events`, so `start_session` files the session LOST with "Failed to open source: …".
  - A short row without a `type_name` cell reads as the empty name. In Python, `None.lower()` raises in the detectors.
- SessionLogic.EvidenceMetrics: evidence metrics are a `map`, which loses the insertion order of the dict built at manager.py:395, the order in which the API serialises them. The detectors' metric lists keep that order.
- **Floats.**
  - Floats are modelled as `real`: no rounding, overflow or NaN arithmetic.
  - `_try_float` returns `None` for `nan`/`inf` text, where Python returns a non-finite float.
- EventIngest.TimeOf: a `time_seconds` text of "nan" or "inf" reads as `None`, where `float()` succeeds. Event times are `real` in the whole model, and the window, sorting and detector comparisons have no NaN or infinity to act on.
- EventIngest.ParseRow: for the same reason, a row whose `time_seconds` is "nan" or "inf" is skipped, where events.py keeps it as an `EventRecord` with a non-finite time.
- **Text.** `str.lower()` and `strip()` are modelled on ASCII only.
- **Upload store details.**
  - The index's entries are taken as parsed; `int(payload["size_bytes"])` raising on a non-numeric size is not modelled.
  - `get_upload_store`'s module-level instance is the `UploadStore` object the manager and the factory are given.
  - `list_items` only returns the map; it is the `items` field.
- **The shot model.** joblib, scikit-learn and numpy are opaque. The model and the scaler are functions returning `None` when they raise. The artifact is the `Stored` value at the path.
- ShotPredictor.WillHaveShotPredictor.LoadModel: the log messages are printed, not modelled. A threshold or a column list stored as `None` is not modelled either: thresholds and columns are numbers and lists here. With a `None` threshold, the success message's `:.4f` raises inside the `try`, which leaves the predictor inactive with its fields already set.
- Pressure.ExtractPressureFeatures: a StatsBomb `timestamp` is taken pre-parsed as two numbers, so the `ValueError` a malformed timestamp raises is not modelled. `is True` is modelled by boolean flags, so a truthy non-boolean value is not distinguished.
- **StatsBomb loading.** The loading of StatsBomb files and the rest of integrate_statsbomb_pressure.py are not part of this model; only `extract_pressure_features` is.
- LockfileSync.CheckLockfileSync: the console messages and `process.exit` are modelled as the returned outcome. `Object.keys` lists integer-like keys first; the model takes the key list as given.
- **Out of scope.** The HTTP routes, the WebSocket endpoint, the frontend and the training and dataset scripts are not part of this model.

### Where the model follows the code rather than the documented behaviour

- **Build-up channel.** `_detect_build_up_bias` tests only the right channel (`right_ratio > 0.6` for high, `> 0.5` for medium). The documented "outer thirds" would also count the left one. The model follows the code.
- **Status transitions.** The code lets `start_session` restart a STOPPED session, lets `stop_session` stop a LOST or CREATED session, and logs RUNNING pushes after STOPPED when an evidence failure's deferred push lands late. `Sessions.Allowed` lists exactly the transitions the code makes.
- **Import errors taken at their intent.**
  - manager.py imports `upload_store`, which store.py does not define; the model uses the store returned by `get_upload_store()`.
  - manager.py uses `Tuple` in the return annotations of its three detectors (lines 287, 315 and 342) but imports only `Dict`, `List` and `Optional`. Without `from __future__ import annotations` these annotations are evaluated when the class body runs, so the module raises `NameError` on import. The model takes the annotations as intended.
- **Missing request fields.** `SessionCreateRequest` lacks the `event_log` source type and the fields `dataset_path`, `game_id`, `playback_speed` and `download_url`, which the manager and the factory read. The model adds them as optional fields. `playback_speed` defaults to 5.0, the replay source's default.

## Findings

| source | as written | input that shows it | evidently intended | confidence | as-written member | corrected member |
|---|---|---|---|---|---|---|
| backend/app/services/sessions/manager.py:121 | `_run_offline_realtime` calls `self._create_alert(...)`, which `SessionManager` does not define; the `AttributeError` ends the task and only its `finally` block runs, so no stand-in alert is ever filed and the session just stops with "Stream completed" | any file, rtsp or webcam session that is started and sleeps three seconds | build the alert with `_try_create_alert` and, as the event runner does, file it and push "Fallback alert generated" only under an `if alert:` guard | high (not executed) | Sessions.OfflineAsWrittenNeverAlerts | Sessions.OfflineAlert |
| scripts/check_lockfile_sync.js:31 | `name in lockMap` also sees names inherited from `Object.prototype` | package.json depends on `constructor`, which the lock's root entry lacks: nothing is reported and the check passes | an own-key test | high (not executed) | LockfileSync.PrototypeNameMasked | LockfileSync.DiffDeps |

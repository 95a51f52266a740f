/**
 * The session manager (backend/app/services/sessions/manager.py): sessions are created
 * from a validated request, started (building and opening their ingest source and
 * scheduling a runner task), stopped, and queried; the runner tasks replay event logs
 * through the alert logic or, for capture sources, raise one stand-in alert.
 *
 * The asyncio tasks are explicit states of a session (`Task`): a task that has been
 * created but has not run yet is `Pending`; the event runner's loop is `Streaming`,
 * advanced one frame per `Step`; the capture runner asleep in `asyncio.sleep(3)` is
 * `Sleeping`, woken by `Wake`. Identifiers (`uuid4`) and clock readings (`utcnow`) are
 * parameters; one `now` stamps every status event of a call.
 */
module Sessions {
  import opened Wrappers
  import opened Schemas
  import Config
  import Csv
  import Text
  import Seqs
  import PyValue
  import Uploads
  import IngestFactory
  import EventIngest
  import SessionLogic

  /** Which of the two runner coroutines a session's task runs. */
  datatype Runner = EventRunner | OfflineRunner

  /** A session's `task`: none (or one that is done), created, or suspended inside its runner. */
  datatype Task =
    | NoTask
    | Pending(runner: Runner)
    | Streaming(window: seq<EventRecord>, lastEvalTs: real)
    | Sleeping

  predicate Live(t: Task) {
    !t.NoTask?
  }

  /** A session's `ingest_source`: the event-log replay object, or a capture source. */
  datatype Ingest = EventSource(source: EventIngest.EventIngestSource) | CaptureSource(spec: IngestFactory.SourceSpec)

  /** `SessionState`: the session record, its request, alerts, status log, task and source. */
  datatype SessionState = SessionState(
    session: Session,
    payload: SessionCreateRequest,
    alerts: seq<Alert>,
    statusEvents: seq<SessionStatusEvent>,
    task: Task,
    ingest: Option<Ingest>,
    lastPatternTs: map<string, real>)

  /** `_push_status`: set the status and log it. */
  function Push(st: SessionState, status: SessionStatus, detail: string, now: real): (r: SessionState)
    ensures r.session == st.session.(status := status)
    ensures r.statusEvents == st.statusEvents + [SessionStatusEvent(st.session.id, status, now, Some(detail))]
    ensures r.alerts == st.alerts && r.task == st.task && r.ingest == st.ingest && r.payload == st.payload
    ensures r.lastPatternTs == st.lastPatternTs
  {
    st.(session := st.session.(status := status),
        statusEvents := st.statusEvents + [SessionStatusEvent(st.session.id, status, now, Some(detail))])
  }

  /** One RUNNING push per detail, in order. */
  function PushRunning(st: SessionState, details: seq<string>, now: real): (r: SessionState)
    ensures |r.statusEvents| == |st.statusEvents| + |details|
    ensures r.statusEvents[..|st.statusEvents|] == st.statusEvents
    ensures forall i :: 0 <= i < |details| ==>
      r.statusEvents[|st.statusEvents| + i] == SessionStatusEvent(st.session.id, Running, now, Some(details[i]))
    ensures details != [] ==> r.session == st.session.(status := Running)
    ensures details == [] ==> r == st
    ensures r.alerts == st.alerts && r.task == st.task && r.ingest == st.ingest && r.payload == st.payload
    ensures r.lastPatternTs == st.lastPatternTs && r.session.id == st.session.id
  {
    if details == [] then st
    else
      var before := PushRunning(st, details[..|details| - 1], now);
      assert forall i :: 0 <= i < |details| - 1 ==> details[..|details| - 1][i] == details[i];
      Push(before, Running, details[|details| - 1], now)
  }

  // ---------------------------------------------------------------- status protocol

  /** The status changes the manager can make, one push at a time. */
  predicate Allowed(from: SessionStatus, to: SessionStatus) {
    match from
    case Created => to == Connecting || to == Stopped
    case Connecting => to == Running || to == Lost
    case Running => to == Running || to == Stopped
    case Lost => to == Stopped
    case Stopped => to == Connecting || to == Stopped || to == Running
  }

  /** A session's status log: opened by its creation, every step allowed, ending in `status`. */
  predicate History(id: string, log: seq<SessionStatusEvent>, status: SessionStatus) {
    && log != []
    && log[0].status == Created && log[0].detail == Some("Session created")
    && log[|log| - 1].status == status
    && (forall i :: 0 <= i < |log| ==> log[i].sessionId == id)
    && (forall i :: 0 < i < |log| ==> Allowed(log[i - 1].status, log[i].status))
  }

  lemma PushKeepsHistory(st: SessionState, status: SessionStatus, detail: string, now: real)
    requires History(st.session.id, st.statusEvents, st.session.status)
    requires Allowed(st.session.status, status)
    ensures var r := Push(st, status, detail, now);
      History(r.session.id, r.statusEvents, r.session.status)
  {
  }

  lemma {:induction false} PushRunningKeepsHistory(st: SessionState, details: seq<string>, now: real)
    requires History(st.session.id, st.statusEvents, st.session.status)
    requires details != [] ==> st.session.status in {Running, Stopped}
    ensures var r := PushRunning(st, details, now);
      History(r.session.id, r.statusEvents, r.session.status)
  {
    if details != [] {
      var init := details[..|details| - 1];
      PushRunningKeepsHistory(st, init, now);
      var before := PushRunning(st, init, now);
      assert init != [] ==> before.session.status == Running;
      PushKeepsHistory(before, Running, details[|details| - 1], now);
    }
  }

  /** The ingest source a live task runs on agrees with the session's source type and task. */
  predicate Wired(st: SessionState) {
    && (Live(st.task) <==> st.ingest.Some?)
    && (Live(st.task) ==> st.session.status == Running)
    && (st.ingest.Some? ==> (st.ingest.value.EventSource? <==> st.payload.sourceType == EventLog))
    && (st.task.Pending? ==> (st.task.runner == EventRunner <==> st.payload.sourceType == EventLog))
    && (st.task.Streaming? ==> st.payload.sourceType == EventLog)
    && (st.task.Sleeping? ==> st.payload.sourceType != EventLog)
  }

  /** Everything the manager keeps true of one session between calls. */
  predicate StateValid(id: string, st: SessionState) {
    && st.session.id == id
    && st.session.sourceType == st.payload.sourceType
    && st.session.status != Connecting
    && History(id, st.statusEvents, st.session.status)
    && Wired(st)
    && (st.payload.sourceType == EventLog ==> SessionLogic.CooldownKept(st.alerts, st.lastPatternTs))
  }

  /** The event-log replay object of a session, if it has one. */
  function SourceOf(st: SessionState): Option<EventIngest.EventIngestSource> {
    if st.ingest.Some? && st.ingest.value.EventSource? then Some(st.ingest.value.source) else None
  }

  // ---------------------------------------------------------------- what a new session records

  /** `resolve_path(file_id) or file_id`. */
  function UploadOrId(fileId: string, store: Uploads.UploadStore): (r: string)
    reads store
    ensures PyValue.Truthy(store.ResolvePath(fileId)) ==> r == store.ResolvePath(fileId).value
    ensures !PyValue.Truthy(store.ResolvePath(fileId)) ==> r == fileId
  {
    var resolved := store.ResolvePath(fileId);
    if PyValue.Truthy(resolved) then resolved.value else fileId
  }

  /** `_resolve_source_uri`: where the session says its data comes from. */
  function SourceUri(p: SessionCreateRequest, settings: Config.Settings, store: Uploads.UploadStore): (r: string)
    reads store
    ensures p.sourceType == Rtsp ==> r == (if PyValue.Truthy(p.rtspUrl) then p.rtspUrl.value else "")
    ensures p.sourceType == Webcam ==>
      r == "webcam://" + (if p.deviceId.None? then "None" else Text.IntToText(p.deviceId.value))
    ensures p.sourceType == File && !PyValue.Truthy(p.path) && !PyValue.Truthy(p.fileId) ==> r == ""
  {
    match p.sourceType
    case EventLog =>
      if PyValue.Truthy(p.datasetPath) then p.datasetPath.value
      else if PyValue.Truthy(p.path) then p.path.value
      else if PyValue.Truthy(p.fileId) then UploadOrId(p.fileId.value, store)
      else settings.eventsDataPath
    case File =>
      if PyValue.Truthy(p.path) then p.path.value
      else if PyValue.Truthy(p.fileId) then UploadOrId(p.fileId.value, store)
      else ""
    case Rtsp => if PyValue.Truthy(p.rtspUrl) then p.rtspUrl.value else ""
    case Webcam => "webcam://" + (if p.deviceId.None? then "None" else Text.IntToText(p.deviceId.value))
  }

  /**
   * The source URI names the file the built source reads, except for an event-log
   * request whose only reference is an unknown upload id: the URI shows the id while
   * the source replays the configured events file.
   */
  lemma SourceUriNamesSourcePath(p: SessionCreateRequest, settings: Config.Settings, store: Uploads.UploadStore)
    ensures p.sourceType == File && PyValue.Truthy(IngestFactory.FilePath(p, store)) ==>
      SourceUri(p, settings, store) == IngestFactory.FilePath(p, store).value
    ensures p.sourceType == EventLog && settings.eventsDataPath != "" ==>
      if !PyValue.Truthy(p.datasetPath) && !PyValue.Truthy(p.path) && PyValue.Truthy(p.fileId)
         && !PyValue.Truthy(store.ResolvePath(p.fileId.value))
      then SourceUri(p, settings, store) == p.fileId.value
           && IngestFactory.EventLogPath(p, settings, store) == Some(settings.eventsDataPath)
      else SourceUri(p, settings, store) == IngestFactory.EventLogPath(p, settings, store).value
  {
  }

  /** `_resolve_download_url`: the download route of a file session's upload. */
  function DownloadUrl(p: SessionCreateRequest, store: Uploads.UploadStore): (r: Option<string>)
    reads store
    requires store.Valid()
    ensures r.Some? <==> p.sourceType == File && PyValue.Truthy(p.fileId) && p.fileId.value in store.items
    ensures r.Some? ==> r.value == store.settings.apiPrefix + "/uploads/" + p.fileId.value
  {
    if p.sourceType != File || !PyValue.Truthy(p.fileId) then None
    else store.ResolveDownloadUrl(p.fileId.value)
  }

  /** The state `create_session` files under a new id. */
  function NewState(id: string, p: SessionCreateRequest, settings: Config.Settings, store: Uploads.UploadStore,
                    now: real): (st: SessionState)
    reads store
    requires store.Valid()
    ensures StateValid(id, st)
    ensures st.session.status == Created && st.session.createdAt == now
    ensures st.alerts == [] && st.task == NoTask && st.ingest.None? && st.lastPatternTs == map[]
    ensures st.statusEvents == [SessionStatusEvent(id, Created, now, Some("Session created"))]
  {
    var session := Session(id, now, Created, p.sourceType, p.mode, p.fps, SourceUri(p, settings, store),
                           p.bufferMs, DownloadUrl(p, store), p.gameId);
    SessionState(session, p, [], [SessionStatusEvent(id, Created, now, Some("Session created"))], NoTask, None, map[])
  }

  // ---------------------------------------------------------------- starting

  /** `Failed to open source: {exc}`. */
  function OpenFailed(message: string): string {
    "Failed to open source: " + message
  }

  /** What `ingest_source.open()` raises: only an event log whose file is missing fails to open. */
  function OpenError(spec: IngestFactory.SourceSpec, fs: Csv.FileSystem): (r: Option<string>)
    ensures r.Some? <==> spec.EventLogSpec? && spec.path !in fs
    ensures r.Some? ==> r.value == Csv.NoSuchFile(spec.path)
  {
    if spec.EventLogSpec? && spec.path !in fs then Some(Csv.NoSuchFile(spec.path)) else None
  }

  /** The task a started session runs: the event replay for event logs, the stand-in otherwise. */
  function RunnerFor(t: SourceType): Runner {
    if t == EventLog then EventRunner else OfflineRunner
  }

  /**
   * What `start_session` leaves once `spec` is built: CONNECTING, then LOST with the
   * error if the source does not open, else RUNNING with the source attached (an event
   * log loaded and rewound) and the runner task created.
   */
  ghost predicate Started(before: SessionState, after: SessionState, spec: IngestFactory.SourceSpec,
                          fs: Csv.FileSystem, now: real)
    reads if SourceOf(after).Some? then {SourceOf(after).value} else {}
  {
    var connecting := Push(before, Connecting, "Connecting to source", now);
    if OpenError(spec, fs).Some? then
      after == Failed(before, OpenFailed(OpenError(spec, fs).value), now)
    else
      && after.ingest.Some?
      && after == Launched(before, after.ingest.value, now)
      && (spec.EventLogSpec? ==>
            && after.ingest.value.EventSource?
            && after.ingest.value.source.csvPath == spec.path
            && after.ingest.value.source.gameId == spec.gameId
            && after.ingest.value.source.events == EventIngest.LoadedEvents(fs[spec.path].rows, spec.gameId)
            && after.ingest.value.source.cursor == 0)
      && (!spec.EventLogSpec? ==> after.ingest == Some(CaptureSource(spec)))
  }

  /** What `start_session` leaves when the source cannot be built or opened: CONNECTING, then LOST with the error. */
  function Failed(st: SessionState, message: string, now: real): (r: SessionState)
    ensures r.session.status == Lost && r.task == st.task && r.ingest == st.ingest && r.alerts == st.alerts
    ensures r.statusEvents == st.statusEvents + [SessionStatusEvent(st.session.id, Connecting, now, Some("Connecting to source")),
                                                 SessionStatusEvent(st.session.id, Lost, now, Some(message))]
  {
    Push(Push(st, Connecting, "Connecting to source", now), Lost, message, now)
  }

  /** A session that fails to connect is valid again once LOST. */
  lemma LostValid(id: string, st: SessionState, message: string, now: real)
    requires StateValid(id, st) && st.session.status !in {Running, Lost}
    ensures StateValid(id, Failed(st, message, now))
  {
    var connecting := Push(st, Connecting, "Connecting to source", now);
    PushKeepsHistory(st, Connecting, "Connecting to source", now);
    PushKeepsHistory(connecting, Lost, message, now);
  }

  /** What `start_session` leaves when the source opens: CONNECTING, then RUNNING with the source and a created task. */
  function Launched(st: SessionState, ingest: Ingest, now: real): (r: SessionState)
    ensures r.session.status == Running && r.ingest == Some(ingest) && r.task == Pending(RunnerFor(st.payload.sourceType))
    ensures r.alerts == st.alerts && r.payload == st.payload
    ensures r.statusEvents == st.statusEvents + [SessionStatusEvent(st.session.id, Connecting, now, Some("Connecting to source")),
                                                 SessionStatusEvent(st.session.id, Running, now, Some("Pipeline started"))]
  {
    Push(Push(st, Connecting, "Connecting to source", now), Running, "Pipeline started", now)
      .(ingest := Some(ingest), task := Pending(RunnerFor(st.payload.sourceType)))
  }

  /** A session that connects is valid once RUNNING with its source and a created runner task. */
  lemma LaunchedValid(id: string, st: SessionState, ingest: Ingest, now: real)
    requires StateValid(id, st) && st.session.status !in {Running, Lost}
    requires ingest.EventSource? <==> st.payload.sourceType == EventLog
    ensures StateValid(id, Launched(st, ingest, now))
  {
    var connecting := Push(st, Connecting, "Connecting to source", now);
    PushKeepsHistory(st, Connecting, "Connecting to source", now);
    PushKeepsHistory(connecting, Running, "Pipeline started", now);
  }

  // ---------------------------------------------------------------- the capture runner

  /** `_run_offline_realtime` as written: it calls `self._create_alert`, which the class does not define. */
  function OfflineAlertAsWritten(sessionId: string): (r: Result<Alert, string>)
    ensures r.Failure?
  {
    Failure("'SessionManager' object has no attribute '_create_alert'")
  }

  /**
   * `_run_offline_realtime` as written, after its sleep: the lookup of `_create_alert`
   * raises `AttributeError` before any alert is built or pushed, `except CancelledError`
   * lets it pass, and only the `finally` block runs.
   */
  function WokenAsWritten(st: SessionState, now: real): (r: SessionState)
    ensures r.task == NoTask && r.ingest.None? && r.alerts == st.alerts
    ensures r.session.status == Stopped
    ensures st.session.status != Stopped ==>
      r.statusEvents == st.statusEvents + [SessionStatusEvent(st.session.id, Stopped, now, Some("Stream completed"))]
  {
    Finished(st, now)
  }

  /**
   * As written, a woken capture runner files no alert and logs no RUNNING line: its
   * session only gets "Stream completed". The corrected runner files the stand-in alert
   * whenever the evidence builds, so the two then leave different sessions.
   */
  lemma OfflineAsWrittenNeverAlerts(apiPrefix: string, id: string, st: SessionState, attempt: SessionLogic.Attempt, now: real)
    requires StateValid(id, st) && st.task.Sleeping?
    ensures OfflineAlertAsWritten(id).Failure?
    ensures WokenAsWritten(st, now).alerts == st.alerts
    ensures WokenAsWritten(st, now).statusEvents
      == st.statusEvents + [SessionStatusEvent(id, Stopped, now, Some("Stream completed"))]
    ensures attempt.failure.None? ==>
      && |Woken(apiPrefix, id, st, attempt, now).alerts| == |st.alerts| + 1
      && Woken(apiPrefix, id, st, attempt, now) != WokenAsWritten(st, now)
  {
    assert st.session.status == Running;
    if attempt.failure.None? {
      assert OfflineAlert(apiPrefix, id, attempt).Success?;
      assert |Woken(apiPrefix, id, st, attempt, now).alerts| != |WokenAsWritten(st, now).alerts|;
    }
  }

  /** The stand-in metrics `{"flow_x_bias": 0.2}`. */
  const OfflineMetrics := [Metric("flow_x_bias", 0.2)]

  /** `_run_offline_realtime` with the alert built by `_try_create_alert` and filed only under `if alert:`, as the event runner does. */
  function OfflineAlert(apiPrefix: string, sessionId: string, a: SessionLogic.Attempt): (r: Result<Alert, string>)
    ensures r.Success? <==> a.failure.None?
    ensures r.Success? ==>
      && r.value.tsEnd == 5.0 && r.value.tsStart == 0.0
      && r.value.patternType == "build_up_bias" && r.value.severity == Medium
      && r.value.evidence.metrics == map["flow_x_bias" := EvidenceMetric("flow_x_bias", 0.2, None)]
  {
    SessionLogic.EvidenceMetricsValues(OfflineMetrics, 0);
    SessionLogic.TryCreateAlert(apiPrefix, sessionId, 5.0, SessionLogic.BuildUpBias, Medium, OfflineMetrics, a)
  }

  /** The event runner's window after an event at `ts`: the last 45 seconds of play. */
  function Slide(window: seq<EventRecord>, e: EventRecord, ts: real): (w: seq<EventRecord>)
    ensures forall x :: x in w <==> (x in window || x == e) && ts - x.timeSeconds <= SessionLogic.WindowSeconds
  {
    var keep := (x: EventRecord) => ts - x.timeSeconds <= SessionLogic.WindowSeconds;
    forall x ensures x in Seqs.Filter(window + [e], keep) <==> x in window + [e] && keep(x) {
      Seqs.FilterMember(window + [e], keep, x);
    }
    Seqs.Filter(window + [e], keep)
  }

  /**
   * One event of the event runner's loop: slide the window to the event's time and, once
   * a second of play has passed since the last evaluation, evaluate it and log the
   * pushes it asks for (the deferred evidence-failure pushes last).
   */
  function Advance(settings: Config.Settings, id: string, st: SessionState, e: EventRecord,
                   attempts: SessionLogic.Attempts, now: real): (r: SessionState)
    requires st.task.Streaming?
    ensures r.task.Streaming? && r.task.window == Slide(st.task.window, e, e.timeSeconds)
    ensures r.task.lastEvalTs == if e.timeSeconds - st.task.lastEvalTs >= SessionLogic.EvalInterval
                                 then e.timeSeconds else st.task.lastEvalTs
    ensures r.ingest == st.ingest && r.payload == st.payload && r.session.id == st.session.id
    ensures e.timeSeconds - st.task.lastEvalTs < SessionLogic.EvalInterval ==>
      r.alerts == st.alerts && r.lastPatternTs == st.lastPatternTs && r.statusEvents == st.statusEvents
      && r.session == st.session
    ensures e.timeSeconds - st.task.lastEvalTs >= SessionLogic.EvalInterval ==>
      var l := SessionLogic.Evaluate(settings.apiPrefix, id, settings.demoMode, st.alerts, st.lastPatternTs,
                                     Slide(st.task.window, e, e.timeSeconds), e.timeSeconds, attempts);
      && r == Evaluated(st, l, Slide(st.task.window, e, e.timeSeconds), e.timeSeconds, now)
      && r.alerts == l.alerts && r.lastPatternTs == l.lastPatternTs
  {
    var window := Slide(st.task.window, e, e.timeSeconds);
    if e.timeSeconds - st.task.lastEvalTs >= SessionLogic.EvalInterval then
      var l := SessionLogic.Evaluate(settings.apiPrefix, id, settings.demoMode, st.alerts, st.lastPatternTs,
                                     window, e.timeSeconds, attempts);
      Evaluated(st, l, window, e.timeSeconds, now)
    else
      st.(task := Streaming(window, st.task.lastEvalTs))
  }

  /** An evaluation at `ts` filed into a streaming session: its alerts and stamps, then its pushes and deferred pushes. */
  function Evaluated(st: SessionState, l: SessionLogic.Ledger, window: seq<EventRecord>, ts: real, now: real): (r: SessionState)
    ensures r.task == Streaming(window, ts) && r.ingest == st.ingest && r.payload == st.payload && r.session.id == st.session.id
    ensures r.alerts == l.alerts && r.lastPatternTs == l.lastPatternTs
    ensures var details := l.pushes + l.deferred;
      && |r.statusEvents| == |st.statusEvents| + |details|
      && r.statusEvents[..|st.statusEvents|] == st.statusEvents
      && (forall i :: 0 <= i < |details| ==>
            r.statusEvents[|st.statusEvents| + i] == SessionStatusEvent(st.session.id, Running, now, Some(details[i])))
  {
    PushRunning(st.(alerts := l.alerts, lastPatternTs := l.lastPatternTs, task := Streaming(window, ts)),
                l.pushes + l.deferred, now)
  }

  /** A step of the loop keeps a streaming session valid, its cooldown included. */
  lemma AdvanceValid(settings: Config.Settings, id: string, st: SessionState, e: EventRecord,
                     attempts: SessionLogic.Attempts, now: real)
    requires StateValid(id, st) && st.task.Streaming?
    ensures StateValid(id, Advance(settings, id, st, e, attempts, now))
  {
    var window := Slide(st.task.window, e, e.timeSeconds);
    if e.timeSeconds - st.task.lastEvalTs >= SessionLogic.EvalInterval {
      var l := SessionLogic.Evaluate(settings.apiPrefix, id, settings.demoMode, st.alerts, st.lastPatternTs,
                                     window, e.timeSeconds, attempts);
      SessionLogic.EvaluateKeepsCooldown(settings.apiPrefix, id, settings.demoMode, st.alerts, st.lastPatternTs,
                                         window, e.timeSeconds, attempts);
      EvaluatedValid(id, st, l.alerts, l.lastPatternTs, window, e.timeSeconds, l.pushes + l.deferred, now);
      assert Advance(settings, id, st, e, attempts, now) == Evaluated(st, l, window, e.timeSeconds, now);
    } else {
      RetaskValid(id, st, Streaming(window, st.task.lastEvalTs));
      assert Advance(settings, id, st, e, attempts, now) == st.(task := Streaming(window, st.task.lastEvalTs));
    }
  }

  /** Moving a streaming session's task to another point of its loop keeps it valid. */
  lemma RetaskValid(id: string, st: SessionState, next: Task)
    requires StateValid(id, st) && st.task.Streaming? && next.Streaming?
    ensures StateValid(id, st.(task := next))
  {
  }

  /** A streaming session that files alerts keeping the cooldown, and logs RUNNING pushes, stays valid. */
  lemma EvaluatedValid(id: string, st: SessionState, alerts: seq<Alert>, lastPatternTs: map<string, real>,
                       window: seq<EventRecord>, ts: real, details: seq<string>, now: real)
    requires StateValid(id, st) && st.task.Streaming?
    requires SessionLogic.CooldownKept(alerts, lastPatternTs)
    ensures StateValid(id, PushRunning(st.(alerts := alerts, lastPatternTs := lastPatternTs, task := Streaming(window, ts)),
                                       details, now))
  {
    var evaluated := st.(alerts := alerts, lastPatternTs := lastPatternTs, task := Streaming(window, ts));
    PushRunningKeepsHistory(evaluated, details, now);
  }

  /** `reason or "Stopped"`. */
  function StopDetail(reason: Option<string>): (r: string)
    ensures PyValue.Truthy(reason) ==> r == reason.value
    ensures !PyValue.Truthy(reason) ==> r == "Stopped"
  {
    if PyValue.Truthy(reason) then reason.value else "Stopped"
  }

  /**
   * The runner's `finally` block: close the source, forget it, report completion if the
   * session is not already stopped, drop the task.
   */
  function Finished(st: SessionState, now: real): (r: SessionState)
    ensures r.task == NoTask && r.ingest.None? && r.alerts == st.alerts && r.lastPatternTs == st.lastPatternTs
    ensures r.session == st.session.(status := Stopped) && r.payload == st.payload
    ensures st.session.status == Stopped ==> r.statusEvents == st.statusEvents
    ensures st.session.status != Stopped ==>
      r.statusEvents == st.statusEvents + [SessionStatusEvent(st.session.id, Stopped, now, Some("Stream completed"))]
  {
    (if st.session.status != Stopped then Push(st, Stopped, "Stream completed", now) else st)
      .(task := NoTask, ingest := None)
  }

  /** A push the protocol allows keeps a session valid, provided a live task keeps it RUNNING. */
  lemma PushValid(id: string, st: SessionState, status: SessionStatus, detail: string, now: real)
    requires StateValid(id, st) && Allowed(st.session.status, status) && status != Connecting
    requires Live(st.task) ==> status == Running
    ensures StateValid(id, Push(st, status, detail, now))
  {
    PushKeepsHistory(st, status, detail, now);
  }

  /** The `finally` block leaves every valid session valid, without a task or a source. */
  lemma FinishedValid(id: string, st: SessionState, now: real)
    requires StateValid(id, st)
    ensures StateValid(id, Finished(st, now)) && SourceOf(Finished(st, now)).None?
  {
    if st.session.status != Stopped {
      PushKeepsHistory(st, Stopped, "Stream completed", now);
    }
  }

  /**
   * What `stop_session` leaves: a task that already runs finishes through its `finally`
   * block (one still pending never runs), then STOPPED with the reason, with neither task
   * nor source.
   */
  function Halted(st: SessionState, reason: Option<string>, now: real): (r: SessionState)
    ensures r.session.status == Stopped && r.task == NoTask && r.ingest.None?
    ensures r.alerts == st.alerts && r.session.id == st.session.id
    ensures |r.statusEvents| > 0
    ensures r.statusEvents[|r.statusEvents| - 1] == SessionStatusEvent(st.session.id, Stopped, now, Some(StopDetail(reason)))
    ensures r.statusEvents == st.statusEvents
      + (if (st.task.Streaming? || st.task.Sleeping?) && st.session.status != Stopped
         then [SessionStatusEvent(st.session.id, Stopped, now, Some("Stream completed"))] else [])
      + [SessionStatusEvent(st.session.id, Stopped, now, Some(StopDetail(reason)))]
    ensures r.lastPatternTs == st.lastPatternTs && r.payload == st.payload
    ensures r.session == st.session.(status := Stopped)
  {
    var cancelled := if st.task.Streaming? || st.task.Sleeping? then Finished(st, now) else st;
    Push(cancelled.(task := NoTask, ingest := None), Stopped, StopDetail(reason), now)
  }

  /** Stopping keeps a session valid, whatever its status. */
  lemma HaltedValid(id: string, st: SessionState, reason: Option<string>, now: real)
    requires StateValid(id, st)
    ensures StateValid(id, Halted(st, reason, now))
  {
    var cancelled := st;
    if st.task.Streaming? || st.task.Sleeping? {
      FinishedValid(id, st, now);
      cancelled := Finished(st, now);
    }
    PushValid(id, cancelled.(task := NoTask, ingest := None), Stopped, StopDetail(reason), now);
  }

  /**
   * What `_run_offline_realtime` leaves after its sleep: the stand-in alert and its RUNNING
   * line, then the `finally` block; an evidence failure's deferred RUNNING line lands last.
   */
  function Woken(apiPrefix: string, id: string, st: SessionState, attempt: SessionLogic.Attempt, now: real): (r: SessionState)
    ensures r.task == NoTask && r.ingest.None?
    ensures r.lastPatternTs == st.lastPatternTs && r.payload == st.payload
    ensures r.session == st.session.(status := r.session.status)
    ensures var made := OfflineAlert(apiPrefix, id, attempt);
      && r.alerts == st.alerts + (if made.Success? then [made.value] else [])
      && r.session.status == (if made.Success? then Stopped else Running)
    ensures var made := OfflineAlert(apiPrefix, id, attempt);
      made.Success? ==>
        r.statusEvents == st.statusEvents + [SessionStatusEvent(st.session.id, Running, now, Some("Fallback alert generated")),
                                             SessionStatusEvent(st.session.id, Stopped, now, Some("Stream completed"))]
    ensures var made := OfflineAlert(apiPrefix, id, attempt);
      made.Failure? ==>
        r.statusEvents == st.statusEvents
          + (if st.session.status != Stopped then [SessionStatusEvent(st.session.id, Stopped, now, Some("Stream completed"))] else [])
          + [SessionStatusEvent(st.session.id, Running, now, Some(made.error))]
  {
    var made := OfflineAlert(apiPrefix, id, attempt);
    var alerted := if made.Success? then Push(st.(alerts := st.alerts + [made.value]), Running, "Fallback alert generated", now)
                   else st;
    if made.Failure? then Push(Finished(alerted, now), Running, made.error, now)
    else Finished(alerted, now)
  }

  /** The capture runner's wake-up keeps its session valid. */
  lemma WokenValid(apiPrefix: string, id: string, st: SessionState, attempt: SessionLogic.Attempt, now: real)
    requires StateValid(id, st) && st.task.Sleeping?
    ensures StateValid(id, Woken(apiPrefix, id, st, attempt, now))
  {
    var made := OfflineAlert(apiPrefix, id, attempt);
    var alerted := st;
    if made.Success? {
      PushValid(id, st.(alerts := st.alerts + [made.value]), Running, "Fallback alert generated", now);
      alerted := Push(st.(alerts := st.alerts + [made.value]), Running, "Fallback alert generated", now);
    }
    FinishedValid(id, alerted, now);
    if made.Failure? {
      PushValid(id, Finished(alerted, now), Running, made.error, now);
    }
  }

  /** The session ids are exactly the ids of `order`, each once. */
  predicate Ordered(sessions: map<string, SessionState>, order: seq<string>) {
    && sessions.Keys == (set i | 0 <= i < |order| :: order[i])
    && (forall i, j :: 0 <= i < j < |order| ==> order[i] != order[j])
  }

  predicate AllValid(sessions: map<string, SessionState>) {
    forall id {:trigger StateValid(id, sessions[id])} :: id in sessions ==> StateValid(id, sessions[id])
  }

  /** Sessions `a` and `b` share a replay object only if they are one session. */
  predicate Unshared(sessions: map<string, SessionState>, a: string, b: string) {
    a in sessions && b in sessions && SourceOf(sessions[a]).Some? && SourceOf(sessions[a]) == SourceOf(sessions[b]) ==> a == b
  }

  /** No two sessions share a replay object. */
  predicate SourcesDistinct(sessions: map<string, SessionState>) {
    forall a, b {:trigger Unshared(sessions, a, b)} :: a in sessions && b in sessions ==> Unshared(sessions, a, b)
  }

  /** Session `id`'s replay object, if any, is one of `repr` and is in a consistent state. */
  ghost predicate HeldAt(sessions: map<string, SessionState>, repr: set<EventIngest.EventIngestSource>, id: string)
    reads repr
  {
    id in sessions && SourceOf(sessions[id]).Some? ==>
      SourceOf(sessions[id]).value in repr && SourceOf(sessions[id]).value.Valid()
  }

  /** Every session's replay object is one of `repr`, and is in a consistent state. */
  ghost predicate SourcesHeld(sessions: map<string, SessionState>, repr: set<EventIngest.EventIngestSource>)
    reads repr
  {
    forall id {:trigger HeldAt(sessions, repr, id)} :: HeldAt(sessions, repr, id)
  }

  /** The registry's invariant, over its fields' values and the replay objects in `repr`. */
  ghost predicate Consistent(sessions: map<string, SessionState>, order: seq<string>, repr: set<EventIngest.EventIngestSource>)
    reads repr
  {
    Ordered(sessions, order) && AllValid(sessions) && SourcesDistinct(sessions) && SourcesHeld(sessions, repr)
  }

  /** Filing one session's new state keeps the registry consistent. */
  lemma ReplaceConsistent(sessions: map<string, SessionState>, order: seq<string>, repr: set<EventIngest.EventIngestSource>,
                          id: string, st: SessionState)
    requires Consistent(sessions, order, repr)
    requires id in sessions && StateValid(id, st)
    requires SourceOf(st).Some? ==> SourceOf(st).value in repr && SourceOf(st).value.Valid()
    requires SourceOf(st).None? || SourceOf(st) == SourceOf(sessions[id])
             || forall other :: other in sessions && other != id ==> SourceOf(sessions[other]) != SourceOf(st)
    ensures Consistent(sessions[id := st], order, repr)
  {
    ReplaceOrdered(sessions, order, id, st);
    ReplaceAllValid(sessions, id, st);
    ReplaceDistinct(sessions, id, st);
    ReplaceHeld(sessions, repr, id, st);
  }

  lemma ReplaceOrdered(sessions: map<string, SessionState>, order: seq<string>, id: string, st: SessionState)
    requires Ordered(sessions, order) && id in sessions
    ensures Ordered(sessions[id := st], order)
  {
    assert sessions[id := st].Keys == sessions.Keys;
  }

  lemma ReplaceAllValid(sessions: map<string, SessionState>, id: string, st: SessionState)
    requires AllValid(sessions) && StateValid(id, st)
    ensures AllValid(sessions[id := st])
  {
  }

  lemma ReplaceDistinct(sessions: map<string, SessionState>, id: string, st: SessionState)
    requires SourcesDistinct(sessions) && id in sessions
    requires SourceOf(st).None? || SourceOf(st) == SourceOf(sessions[id])
             || forall other :: other in sessions && other != id ==> SourceOf(sessions[other]) != SourceOf(st)
    ensures SourcesDistinct(sessions[id := st])
  {
    var t := sessions[id := st];
    forall a, b | a in t && b in t ensures Unshared(t, a, b) {
      assert Unshared(sessions, a, b);
      if a == id || b == id {
        var other := if a == id then b else a;
        assert Unshared(sessions, id, other) && Unshared(sessions, other, id);
      }
    }
  }

  lemma ReplaceHeld(sessions: map<string, SessionState>, repr: set<EventIngest.EventIngestSource>, id: string, st: SessionState)
    requires SourcesHeld(sessions, repr)
    requires SourceOf(st).Some? ==> SourceOf(st).value in repr && SourceOf(st).value.Valid()
    ensures SourcesHeld(sessions[id := st], repr)
  {
    var t := sessions[id := st];
    forall k ensures HeldAt(t, repr, k) {
      assert HeldAt(sessions, repr, k);
    }
  }

  /** Filing a new session without a replay object keeps the registry consistent. */
  lemma InsertConsistent(sessions: map<string, SessionState>, order: seq<string>, repr: set<EventIngest.EventIngestSource>,
                         id: string, st: SessionState)
    requires Consistent(sessions, order, repr)
    requires id !in sessions && StateValid(id, st) && SourceOf(st).None?
    ensures Consistent(sessions[id := st], order + [id], repr)
  {
    var next := order + [id];
    assert forall i :: 0 <= i < |order| ==> next[i] == order[i];
    assert (set i | 0 <= i < |next| :: next[i]) == (set i | 0 <= i < |order| :: order[i]) + {id} by {
      assert next[|order|] == id;
    }
    var t := sessions[id := st];
    forall a, b | a in t && b in t ensures Unshared(t, a, b) {
      assert Unshared(sessions, a, b);
    }
    forall k ensures HeldAt(t, repr, k) {
      assert HeldAt(sessions, repr, k);
    }
  }

  /** The replay object a session state holds, as a set. */
  function SourceSet(st: SessionState): set<EventIngest.EventIngestSource> {
    if SourceOf(st).Some? then {SourceOf(st).value} else {}
  }

  /** Filing a state whose replay object is the session's own, or one the registry never held, keeps it consistent. */
  lemma PutConsistent(sessions: map<string, SessionState>, order: seq<string>, repr: set<EventIngest.EventIngestSource>,
                      id: string, st: SessionState)
    requires Consistent(sessions, order, repr)
    requires id in sessions && StateValid(id, st)
    requires SourceOf(st).Some? ==> SourceOf(st).value.Valid()
    requires SourceOf(st).None? || SourceOf(st) == SourceOf(sessions[id]) || SourceOf(st).value !in repr
    ensures Consistent(sessions[id := st], order, repr + SourceSet(st))
  {
    if SourceOf(st).Some? && SourceOf(st).value !in repr {
      NewSourceUnshared(sessions, order, repr, SourceOf(st).value);
    }
    forall k ensures HeldAt(sessions, repr + SourceSet(st), k) {
      assert HeldAt(sessions, repr, k);
    }
    ReplaceConsistent(sessions, order, repr + SourceSet(st), id, st);
  }

  /** A session's own replay object is one the registry holds. */
  lemma OwnSourceHeld(sessions: map<string, SessionState>, order: seq<string>, repr: set<EventIngest.EventIngestSource>,
                      id: string)
    requires Consistent(sessions, order, repr) && id in sessions
    ensures SourceSet(sessions[id]) <= repr
  {
    assert HeldAt(sessions, repr, id);
  }

  /** A replay object the registry never held is no session's. */
  lemma NewSourceUnshared(sessions: map<string, SessionState>, order: seq<string>, repr: set<EventIngest.EventIngestSource>,
                          src: EventIngest.EventIngestSource)
    requires Consistent(sessions, order, repr) && src !in repr
    ensures forall other :: other in sessions ==> SourceOf(sessions[other]) != Some(src)
    ensures Consistent(sessions, order, repr + {src})
  {
    forall k ensures HeldAt(sessions, repr + {src}, k) && (k in sessions ==> SourceOf(sessions[k]) != Some(src)) {
      assert HeldAt(sessions, repr, k);
    }
  }

  /** `EventIngestSource(...)` then `open()`: a new replay object, loaded and rewound unless its file is missing. */
  method OpenSource(spec: IngestFactory.SourceSpec, fs: Csv.FileSystem) returns (src: EventIngest.EventIngestSource, r: Outcome<string>)
    requires spec.EventLogSpec?
    ensures fresh(src) && src.Valid()
    ensures r.Fail? <==> OpenError(spec, fs).Some?
    ensures r.Fail? ==> r.error == OpenError(spec, fs).value
    ensures src.csvPath == spec.path && src.gameId == spec.gameId
    ensures r.Pass? ==> src.events == EventIngest.LoadedEvents(fs[spec.path].rows, spec.gameId) && src.cursor == 0
  {
    src := new EventIngest.EventIngestSource(spec.path, spec.gameId, spec.playbackSpeed);
    r := src.Open(fs);
  }

  class SessionManager {
    var sessions: map<string, SessionState>
    /** The ids in creation order, the order `list_sessions` reports. */
    var order: seq<string>
    const settings: Config.Settings
    const store: Uploads.UploadStore
    /** The event-log replay objects the sessions have opened. */
    ghost var Repr: set<EventIngest.EventIngestSource>

    ghost predicate Valid()
      reads this, Repr
    {
      Consistent(sessions, order, Repr)
    }

    constructor (settings: Config.Settings, store: Uploads.UploadStore)
      ensures Valid()
      ensures this.settings == settings && this.store == store
      ensures sessions == map[] && order == []
    {
      this.settings := settings;
      this.store := store;
      sessions := map[];
      order := [];
      Repr := {};
    }

    /** `list_sessions`: the sessions in creation order. */
    function ListSessions(): (r: seq<Session>)
      reads this
      requires sessions.Keys == (set i | 0 <= i < |order| :: order[i])
      ensures |r| == |order|
      ensures forall i :: 0 <= i < |order| ==> r[i] == sessions[order[i]].session
    {
      assert forall i :: 0 <= i < |order| ==> order[i] in sessions;
      seq(|order|, i requires 0 <= i < |order| && order[i] in sessions reads this => sessions[order[i]].session)
    }

    /** `get_session`; a missing id raises `KeyError`, here `None`. */
    function GetSession(id: string): (r: Option<Session>)
      reads this
      ensures r.Some? <==> id in sessions
      ensures r.Some? ==> r.value == sessions[id].session
    {
      if id in sessions then Some(sessions[id].session) else None
    }

    /** `get_alerts`. */
    function GetAlerts(id: string): (r: Option<seq<Alert>>)
      reads this
      ensures r.Some? <==> id in sessions
      ensures r.Some? ==> r.value == sessions[id].alerts
    {
      if id in sessions then Some(sessions[id].alerts) else None
    }

    /** `status_events`. */
    function StatusEvents(id: string): (r: Option<seq<SessionStatusEvent>>)
      reads this
      ensures r.Some? <==> id in sessions
      ensures r.Some? ==> r.value == sessions[id].statusEvents
    {
      if id in sessions then Some(sessions[id].statusEvents) else None
    }

    /**
     * File `st` as the state of the existing session `id`; nothing else changes. Its
     * replay object, if any, is the one the session had or one the manager never held.
     */
    method Put(id: string, st: SessionState)
      requires Valid() && id in sessions && StateValid(id, st)
      requires SourceOf(st).Some? ==> SourceOf(st).value.Valid()
      requires SourceOf(st).None? || SourceOf(st) == SourceOf(sessions[id]) || SourceOf(st).value !in Repr
      modifies this
      ensures Valid()
      ensures sessions == old(sessions)[id := st] && order == old(order)
      ensures Repr == old(Repr) + SourceSet(st)
    {
      PutConsistent(sessions, order, Repr, id, st);
      sessions, Repr := sessions[id := st], Repr + SourceSet(st);
    }

    /** `create_session`: file a new session under the fresh id `id`, opened with CREATED. */
    method Create(p: SessionCreateRequest, id: string, now: real) returns (s: Session)
      requires Valid() && store.Valid()
      requires id !in sessions
      modifies this
      ensures Valid()
      ensures sessions == old(sessions)[id := NewState(id, p, settings, store, now)]
      ensures order == old(order) + [id] && Repr == old(Repr)
      ensures s == sessions[id].session
    {
      var st := NewState(id, p, settings, store, now);
      InsertConsistent(sessions, order, Repr, id, st);
      sessions := sessions[id := st];
      order := order + [id];
      s := st.session;
    }
  
    /** The replay object of session `id`, the one object besides the manager a call on it changes. */
    function SourcesOf(id: string): set<object>
      reads this
    {
      if id in sessions && SourceOf(sessions[id]).Some? then {SourceOf(sessions[id]).value} else {}
    }

    /**
     * `start_session`: a running or lost session is left as it is; otherwise CONNECTING,
     * then LOST if the source cannot be built or opened, else RUNNING with its runner
     * task created.
     */
    method Start(id: string, fs: Csv.FileSystem, now: real) returns (r: Option<Session>)
      requires Valid() && store.Valid()
      modifies this
      ensures Valid()
      ensures order == old(order) && old(Repr) <= Repr
      ensures id !in old(sessions) ==> r.None? && sessions == old(sessions)
      ensures id in old(sessions) ==> sessions == old(sessions)[id := sessions[id]] && r == Some(sessions[id].session)
      ensures id in old(sessions) && old(sessions[id].session.status) in {Running, Lost} ==> sessions == old(sessions)
      ensures id in old(sessions) && old(sessions[id].session.status) !in {Running, Lost} ==>
        var before := old(sessions[id]);
        var built := IngestFactory.Build(before.payload, settings, fs, store);
        if built.Failure? then sessions[id] == Failed(before, OpenFailed(IngestFactory.ErrorText(built.error)), now)
        else Started(before, sessions[id], built.value, fs, now)
      ensures id in old(sessions) && old(sessions[id].session.status) !in {Running, Lost} ==>
        SourceOf(sessions[id]).Some? ==> fresh(SourceOf(sessions[id]).value)
    {
      if id !in sessions {
        return None;
      }
      var st := sessions[id];
      assert StateValid(id, st) && HeldAt(sessions, Repr, id);
      if st.session.status == Running || st.session.status == Lost {
        return Some(st.session);
      }
      var built := IngestFactory.Build(st.payload, settings, fs, store);
      if built.Failure? {
        Abort(id, OpenFailed(IngestFactory.ErrorText(built.error)), now);
        return Some(sessions[id].session);
      }
      var s := Launch(id, built.value, fs, now);
      r := Some(s);
    }

    /**
     * The rest of `start_session` once the source is built: open it, then either LOST
     * with the error, or RUNNING with the source attached and the runner task created.
     */
    method Launch(id: string, spec: IngestFactory.SourceSpec, fs: Csv.FileSystem, now: real) returns (s: Session)
      requires Valid() && id in sessions && sessions[id].session.status !in {Running, Lost}
      requires spec.EventLogSpec? <==> sessions[id].payload.sourceType == EventLog
      modifies this
      ensures Valid()
      ensures order == old(order) && old(Repr) <= Repr
      ensures sessions == old(sessions)[id := sessions[id]] && s == sessions[id].session
      ensures Started(old(sessions[id]), sessions[id], spec, fs, now)
      ensures SourceOf(sessions[id]).Some? ==> fresh(SourceOf(sessions[id]).value)
    {
      assert StateValid(id, sessions[id]);
      var ingest: Ingest;
      if spec.EventLogSpec? {
        var src, outcome := OpenSource(spec, fs);
        if outcome.Fail? {
          Abort(id, OpenFailed(outcome.error), now);
          return sessions[id].session;
        }
        ingest := EventSource(src);
      } else {
        ingest := CaptureSource(spec);
      }
      Attach(id, ingest, now);
      s := sessions[id].session;
    }

    /** `start_session`'s success path: the session is RUNNING with `ingest` and its runner task created. */
    method Attach(id: string, ingest: Ingest, now: real)
      requires Valid() && id in sessions && sessions[id].session.status !in {Running, Lost}
      requires ingest.EventSource? <==> sessions[id].payload.sourceType == EventLog
      requires ingest.EventSource? ==> ingest.source.Valid() && ingest.source !in Repr
      modifies this
      ensures Valid()
      ensures order == old(order) && Repr == old(Repr) + SourceSet(sessions[id])
      ensures sessions == old(sessions)[id := Launched(old(sessions[id]), ingest, now)]
    {
      var st := sessions[id];
      assert StateValid(id, st);
      LaunchedValid(id, st, ingest, now);
      Put(id, Launched(st, ingest, now));
    }

    /** `start_session`'s `except` branch: the session is LOST with `message`. */
    method Abort(id: string, message: string, now: real)
      requires Valid() && id in sessions && sessions[id].session.status !in {Running, Lost}
      modifies this
      ensures Valid()
      ensures order == old(order) && Repr == old(Repr)
      ensures sessions == old(sessions)[id := Failed(old(sessions[id]), message, now)]
    {
      var st := sessions[id];
      assert StateValid(id, st);
      OwnSourceHeld(sessions, order, Repr, id);
      assert HeldAt(sessions, Repr, id);
      LostValid(id, st, message, now);
      Put(id, Failed(st, message, now));
    }

    /**
     * `stop_session`: cancel the task (a task that already runs finishes through its
     * `finally` block; one that never ran does not), close the source, and log STOPPED.
     */
    method Stop(id: string, reason: Option<string>, now: real) returns (r: Option<Session>)
      requires Valid()
      modifies this, SourcesOf(id)
      ensures Valid()
      ensures order == old(order) && Repr == old(Repr)
      ensures id !in old(sessions) ==> r.None? && sessions == old(sessions)
      ensures id in old(sessions) ==>
        && sessions == old(sessions)[id := Halted(old(sessions[id]), reason, now)]
        && r == Some(sessions[id].session)
      ensures id in old(sessions) && SourceOf(old(sessions[id])).Some? ==> SourceOf(old(sessions[id])).value.events == []
    {
      if id !in sessions {
        return None;
      }
      if SourceOf(sessions[id]).Some? {
        CloseSource(id);
      }
      var st := sessions[id];
      assert StateValid(id, st);
      HaltedValid(id, st, reason, now);
      Put(id, Halted(st, reason, now));
      r := Some(sessions[id].session);
    }

    /** `ingest_source.close()` on session `id`'s replay object; the registry is not touched. */
    method CloseSource(id: string)
      requires Valid() && id in sessions && SourceOf(sessions[id]).Some?
      modifies SourcesOf(id)
      ensures Valid()
      ensures SourceOf(sessions[id]).value.events == []
    {
      assert HeldAt(sessions, Repr, id);
      SourceOf(sessions[id]).value.Close();
      forall k ensures HeldAt(sessions, Repr, k) {
        assert old(HeldAt(sessions, Repr, k));
      }
    }

    /** A created task starts running: the event runner enters its loop, the capture runner its sleep. */
    method Begin(id: string)
      requires Valid() && id in sessions && sessions[id].task.Pending?
      modifies this
      ensures Valid()
      ensures order == old(order) && Repr == old(Repr)
      ensures sessions == old(sessions)[id := old(sessions[id]).(task :=
        if old(sessions[id].task.runner) == EventRunner then Streaming([], 0.0) else Sleeping)]
    {
      var st := sessions[id];
      assert StateValid(id, st) && HeldAt(sessions, Repr, id);
      var next := if st.task.runner == EventRunner then Streaming([], 0.0) else Sleeping;
      var started := st.(task := next);
      assert StateValid(id, started);
      OwnSourceHeld(sessions, order, Repr, id);
      Put(id, started);
    }

    /**
     * One pass of `_run_event_realtime`'s loop: read a frame; at the end of the log run
     * the `finally` block; otherwise slide the window and, at most once per second of
     * play, evaluate it, then let the deferred evidence-failure pushes run.
     */
    method Step(id: string, attempts: SessionLogic.Attempts, now: real)
      requires Valid() && id in sessions && sessions[id].task.Streaming?
      requires SourceOf(sessions[id]).Some?  // follows from Valid()
      modifies this, SourcesOf(id)
      ensures Valid()
      ensures order == old(order) && Repr == old(Repr)
      ensures sessions == old(sessions)[id := sessions[id]]
      ensures var before := old(sessions[id]);
        var src := SourceOf(before).value;
        if old(src.cursor) >= |old(src.events)| then
          sessions[id] == Finished(before, now) && src.events == []
        else
          && src.cursor == old(src.cursor) + 1
          && sessions[id] == Advance(settings, id, before, old(src.events[src.cursor]), attempts, now)
    {
      var frame := Read(id);
      if frame.None? {
        Retire(id, now);
      } else {
        Feed(id, frame.value.0, attempts, now);
      }
    }

    /** `ingest.read_frame()` on session `id`'s replay object; the registry is not touched. */
    method Read(id: string) returns (frame: Option<(EventRecord, real)>)
      requires Valid() && id in sessions && SourceOf(sessions[id]).Some?
      modifies SourcesOf(id)
      ensures Valid()
      ensures var src := SourceOf(sessions[id]).value;
        && src.events == old(src.events)
        && (frame.None? <==> old(src.cursor) >= |src.events|)
        && (frame.Some? ==> frame.value.0 == src.events[old(src.cursor)] && src.cursor == old(src.cursor) + 1)
    {
      assert HeldAt(sessions, Repr, id);
      var src := SourceOf(sessions[id]).value;
      var pause;
      frame, pause := src.ReadFrame();
      forall k ensures HeldAt(sessions, Repr, k) {
        assert old(HeldAt(sessions, Repr, k));
      }
    }

    /** The event runner's `finally` block at the end of its log: close the source, then finish. */
    method Retire(id: string, now: real)
      requires Valid() && id in sessions && SourceOf(sessions[id]).Some?
      modifies this, SourcesOf(id)
      ensures Valid()
      ensures order == old(order) && Repr == old(Repr)
      ensures sessions == old(sessions)[id := Finished(old(sessions[id]), now)]
      ensures SourceOf(old(sessions[id])).value.events == []
    {
      CloseSource(id);
      var st := sessions[id];
      assert StateValid(id, st);
      FinishedValid(id, st, now);
      Put(id, Finished(st, now));
    }

    /** The rest of one pass of the loop, once the replay object has produced the event `e`. */
    method Feed(id: string, e: EventRecord, attempts: SessionLogic.Attempts, now: real)
      requires Valid() && id in sessions && sessions[id].task.Streaming?
      modifies this
      ensures Valid()
      ensures order == old(order) && Repr == old(Repr)
      ensures sessions == old(sessions)[id := Advance(settings, id, old(sessions[id]), e, attempts, now)]
    {
      var st := sessions[id];
      assert StateValid(id, st);
      OwnSourceHeld(sessions, order, Repr, id);
      assert HeldAt(sessions, Repr, id);
      AdvanceValid(settings, id, st, e, attempts, now);
      Put(id, Advance(settings, id, st, e, attempts, now));
    }

    /**
     * `_run_offline_realtime` after its three-second sleep: the stand-in alert, then the
     * `finally` block. An evidence failure's deferred push runs once the task has ended,
     * so it lands after STOPPED.
     */
    method Wake(id: string, attempt: SessionLogic.Attempt, now: real)
      requires Valid() && id in sessions && sessions[id].task.Sleeping?
      modifies this
      ensures Valid()
      ensures order == old(order) && Repr == old(Repr)
      ensures sessions == old(sessions)[id := Woken(settings.apiPrefix, id, old(sessions[id]), attempt, now)]
    {
      var st := sessions[id];
      assert StateValid(id, st);
      WokenValid(settings.apiPrefix, id, st, attempt, now);
      Put(id, Woken(settings.apiPrefix, id, st, attempt, now));
    }
  }
}

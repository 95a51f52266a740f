/**
 * The records and enumerations of the session API (backend/app/schemas/session.py)
 * and the event record (backend/app/schemas/event.py). Timestamps are seconds as
 * `real`; a `datetime` is a parameter of whoever creates the record.
 */
module Schemas {
  import opened Wrappers

  /** Where a session's input comes from. `EventLog` is used by the manager and the factory. */
  datatype SourceType = File | Rtsp | Webcam | EventLog {
    function Value(): string {
      match this
      case File => "file"
      case Rtsp => "rtsp"
      case Webcam => "webcam"
      case EventLog => "event_log"
    }
  }

  datatype SessionMode = OfflineRealtime | Live {
    function Value(): string {
      match this
      case OfflineRealtime => "offline_realtime"
      case Live => "live"
    }
  }

  datatype SessionStatus = Created | Connecting | Running | Lost | Stopped {
    function Value(): string {
      match this
      case Created => "CREATED"
      case Connecting => "CONNECTING"
      case Running => "RUNNING"
      case Lost => "LOST"
      case Stopped => "STOPPED"
    }
  }

  datatype Severity = Low | Medium | High {
    function Value(): string {
      match this
      case Low => "low"
      case Medium => "medium"
      case High => "high"
    }
  }

  /** The enumeration's members in declaration order. */
  const Statuses: seq<SessionStatus> := [Created, Connecting, Running, Lost, Stopped]
  const Severities: seq<Severity> := [Low, Medium, High]

  /** `SessionStatus(value)`: the member whose value is `value`, if any. */
  function StatusOf(value: string): (r: Option<SessionStatus>)
    ensures r.Some? ==> r.value.Value() == value && r.value in Statuses
    ensures r.None? ==> forall s: SessionStatus :: s.Value() != value
  {
    if value == "CREATED" then Some(Created)
    else if value == "CONNECTING" then Some(Connecting)
    else if value == "RUNNING" then Some(Running)
    else if value == "LOST" then Some(Lost)
    else if value == "STOPPED" then Some(Stopped)
    else None
  }

  /** `Severity(value)`. */
  function SeverityOf(value: string): (r: Option<Severity>)
    ensures r.Some? ==> r.value.Value() == value && r.value in Severities
    ensures r.None? ==> forall s: Severity :: s.Value() != value
  {
    if value == "low" then Some(Low)
    else if value == "medium" then Some(Medium)
    else if value == "high" then Some(High)
    else None
  }

  function SourceTypeOf(value: string): (r: Option<SourceType>)
    ensures r.Some? ==> r.value.Value() == value
    ensures r.None? ==> forall s: SourceType :: s.Value() != value
  {
    if value == "file" then Some(File)
    else if value == "rtsp" then Some(Rtsp)
    else if value == "webcam" then Some(Webcam)
    else if value == "event_log" then Some(EventLog)
    else None
  }

  function ModeOf(value: string): (r: Option<SessionMode>)
    ensures r.Some? ==> r.value.Value() == value
    ensures r.None? ==> forall m: SessionMode :: m.Value() != value
  {
    if value == "offline_realtime" then Some(OfflineRealtime)
    else if value == "live" then Some(Live)
    else None
  }

  /** There are exactly five statuses, told apart by their values, and every status is one of them. */
  lemma StatusesComplete(s: SessionStatus)
    ensures |Statuses| == 5 && s in Statuses
    ensures StatusOf(s.Value()) == Some(s)
    ensures forall i, j :: 0 <= i < j < |Statuses| ==> Statuses[i].Value() != Statuses[j].Value()
  {
  }

  lemma SeveritiesComplete(s: Severity)
    ensures |Severities| == 3 && s in Severities
    ensures SeverityOf(s.Value()) == Some(s)
  {
  }

  /** One row of the raw event log (backend/app/schemas/event.py). */
  datatype EventRecord = EventRecord(
    gameId: string,
    gameEpisode: Option<int>,
    actionId: Option<int>,
    timeSeconds: real,
    typeName: string,
    resultName: string,
    startX: Option<real>,
    startY: Option<real>,
    endX: Option<real>,
    endY: Option<real>)

  /** One item of a `Dict[str, float]` of metrics; the dictionary is its items in insertion order. */
  datatype Metric = Metric(name: string, value: real)

  datatype EvidenceMetric = EvidenceMetric(name: string, value: real, unit: Option<string>)

  datatype Evidence = Evidence(clips: seq<string>, overlays: seq<string>, metrics: map<string, EvidenceMetric>)

  /** `Evidence()`: every collection defaults to empty. */
  const EmptyEvidence := Evidence([], [], map[])

  datatype Alert = Alert(
    id: string,
    tsStart: real,
    tsEnd: real,
    patternType: string,
    severity: Severity,
    claimText: string,
    recommendationText: string,
    riskText: string,
    evidence: Evidence)

  /** A validated session-creation request, with the fields the callers read. */
  datatype SessionCreateRequest = SessionCreateRequest(
    sourceType: SourceType,
    mode: SessionMode,
    fps: int,
    bufferMs: Option<int>,
    path: Option<string>,
    rtspUrl: Option<string>,
    deviceId: Option<int>,
    fileId: Option<string>,
    datasetPath: Option<string>,
    gameId: Option<string>,
    playbackSpeed: real)

  /** A field of a request body: left out (the default applies) or given. */
  datatype Field<T> = Omitted | Given(value: T) {
    function Or(default: T): T {
      if Given? then value else default
    }
  }

  /** A request body before validation. `sourceType` has no default. */
  datatype RequestBody = RequestBody(
    sourceType: Field<SourceType>,
    mode: Field<SessionMode>,
    fps: Field<int>,
    bufferMs: Field<Option<int>>,
    path: Field<Option<string>>,
    rtspUrl: Field<Option<string>>,
    deviceId: Field<Option<int>>,
    fileId: Field<Option<string>>,
    datasetPath: Field<Option<string>>,
    gameId: Field<Option<string>>,
    playbackSpeed: Field<real>)

  const DefaultFps := 25
  const DefaultBufferMs := 300
  const DefaultDeviceId := 0
  const DefaultPlaybackSpeed := 5.0

  /** `ge=0` on an optional integer: `None` passes, a number must not be negative. */
  predicate NonNegativeOrNone(v: Option<int>) {
    v.None? || v.value >= 0
  }

  /** The names of the fields whose given value breaks a constraint, in declaration order. */
  function Violations(body: RequestBody): (r: seq<string>)
    ensures "source_type" in r <==> body.sourceType.Omitted?
    ensures "fps" in r <==> body.fps.Given? && !(1 <= body.fps.value <= 60)
    ensures "buffer_ms" in r <==> body.bufferMs.Given? && !NonNegativeOrNone(body.bufferMs.value)
    ensures "device_id" in r <==> body.deviceId.Given? && !NonNegativeOrNone(body.deviceId.value)
    ensures forall n :: n in r ==> n in ["source_type", "fps", "buffer_ms", "device_id"]
  {
    (if body.sourceType.Omitted? then ["source_type"] else [])
    + (if body.fps.Given? && !(1 <= body.fps.value <= 60) then ["fps"] else [])
    + (if body.bufferMs.Given? && !NonNegativeOrNone(body.bufferMs.value) then ["buffer_ms"] else [])
    + (if body.deviceId.Given? && !NonNegativeOrNone(body.deviceId.value) then ["device_id"] else [])
  }

  /**
   * Validation of a `SessionCreateRequest` body: every violated constraint is
   * reported; otherwise each omitted field takes its declared default.
   */
  function ValidateCreateRequest(body: RequestBody): (r: Result<SessionCreateRequest, seq<string>>)
    ensures r.Failure? <==> Violations(body) != []
    ensures r.Failure? ==> r.error == Violations(body)
    ensures r.Success? ==> var q := r.value;
      && 1 <= q.fps <= 60
      && NonNegativeOrNone(q.bufferMs)
      && NonNegativeOrNone(q.deviceId)
      && (body.mode.Omitted? ==> q.mode == OfflineRealtime)
      && (body.fps.Omitted? ==> q.fps == DefaultFps)
      && (body.bufferMs.Omitted? ==> q.bufferMs == Some(DefaultBufferMs))
      && (body.deviceId.Omitted? ==> q.deviceId == Some(DefaultDeviceId))
      && (body.path.Omitted? ==> q.path.None?)
      && (body.rtspUrl.Omitted? ==> q.rtspUrl.None?)
      && (body.fileId.Omitted? ==> q.fileId.None?)
      && (body.datasetPath.Omitted? ==> q.datasetPath.None?)
      && (body.gameId.Omitted? ==> q.gameId.None?)
      && (body.playbackSpeed.Omitted? ==> q.playbackSpeed == DefaultPlaybackSpeed)
      && (body.sourceType.Given? && q.sourceType == body.sourceType.value)
      && (body.fps.Given? ==> q.fps == body.fps.value)
      && (body.bufferMs.Given? ==> q.bufferMs == body.bufferMs.value)
      && (body.deviceId.Given? ==> q.deviceId == body.deviceId.value)
      && (body.mode.Given? ==> q.mode == body.mode.value)
      && (body.path.Given? ==> q.path == body.path.value)
      && (body.rtspUrl.Given? ==> q.rtspUrl == body.rtspUrl.value)
      && (body.fileId.Given? ==> q.fileId == body.fileId.value)
      && (body.datasetPath.Given? ==> q.datasetPath == body.datasetPath.value)
      && (body.gameId.Given? ==> q.gameId == body.gameId.value)
      && (body.playbackSpeed.Given? ==> q.playbackSpeed == body.playbackSpeed.value)
  {
    var errors := Violations(body);
    if errors != [] then Failure(errors)
    else
      Success(SessionCreateRequest(
        body.sourceType.value,
        body.mode.Or(OfflineRealtime),
        body.fps.Or(DefaultFps),
        body.bufferMs.Or(Some(DefaultBufferMs)),
        body.path.Or(None),
        body.rtspUrl.Or(None),
        body.deviceId.Or(Some(DefaultDeviceId)),
        body.fileId.Or(None),
        body.datasetPath.Or(None),
        body.gameId.Or(None),
        body.playbackSpeed.Or(DefaultPlaybackSpeed)))
  }

  /** A request that gives only the source type gets every default, and is valid. */
  lemma DefaultsAreValid(t: SourceType)
    ensures var body := RequestBody(Given(t), Omitted, Omitted, Omitted, Omitted, Omitted,
                                    Omitted, Omitted, Omitted, Omitted, Omitted);
      ValidateCreateRequest(body)
        == Success(SessionCreateRequest(t, OfflineRealtime, 25, Some(300), None, None, Some(0),
                                        None, None, None, 5.0))
  {
  }

  /** A session as the API reports it. `createdAt` is a number of seconds. */
  datatype Session = Session(
    id: string,
    createdAt: real,
    status: SessionStatus,
    sourceType: SourceType,
    mode: SessionMode,
    fps: int,
    sourceUri: string,
    bufferMs: Option<int>,
    downloadUrl: Option<string>,
    gameId: Option<string>)

  datatype SessionStatusEvent = SessionStatusEvent(
    sessionId: string,
    status: SessionStatus,
    timestamp: real,
    detail: Option<string>)

  /** `StopSessionRequest()` and `StartSessionRequest()` defaults. */
  const DefaultStopReason: Option<string> := None
  const DefaultTargetStatus := Running
}

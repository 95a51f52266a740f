/**
 * The ingest factory (backend/app/services/ingest/factory.py): which source a session
 * request builds, from which path, and the errors it raises instead. The source is
 * returned as a `SourceSpec` value; `EventIngest.EventIngestSource` is built from it.
 */
module IngestFactory {
  import opened Wrappers
  import opened Schemas
  import opened PyValue
  import Config
  import Csv
  import Text
  import Track2
  import Uploads

  /** The source `build` constructs, with the arguments it passes. */
  datatype SourceSpec =
    | EventLogSpec(path: string, gameId: string, playbackSpeed: real)
    | FileSpec(path: string, fps: int)
    | RtspSpec(url: string, fps: int, bufferMs: int)
    | WebcamSpec(deviceId: int, fps: int)

  /** An exception `build` raises. */
  datatype BuildError = Http(error: Track2.HttpError) | ValueError(message: string)

  /** `str(exc)`; an `HTTPException` prints as `"<status>: <detail>"`. */
  function ErrorText(e: BuildError): string {
    match e
    case Http(h) => Text.IntToText(h.statusCode) + ": " + h.detail
    case ValueError(m) => m
  }

  /**
   * The path an event-log source reads: `dataset_path`, else `path`, else the upload
   * of `file_id`, else the configured events file.
   */
  function EventLogPath(p: SessionCreateRequest, settings: Config.Settings, store: Uploads.UploadStore)
    : (r: Option<string>)
    reads store
    ensures Truthy(p.datasetPath) ==> r == p.datasetPath
    ensures !Truthy(p.datasetPath) && Truthy(p.path) ==> r == p.path
    ensures (!Truthy(p.datasetPath) && !Truthy(p.path) && Truthy(p.fileId)
             && Truthy(store.ResolvePath(p.fileId.value))) ==> r == store.ResolvePath(p.fileId.value)
    ensures (!Truthy(p.datasetPath) && !Truthy(p.path)
             && !(Truthy(p.fileId) && Truthy(store.ResolvePath(p.fileId.value)))) ==> r == Some(settings.eventsDataPath)
  {
    var given := Or(p.datasetPath, p.path);
    var path := if !Truthy(given) && Truthy(p.fileId) then store.ResolvePath(p.fileId.value) else given;
    if Truthy(path) then path else Some(settings.eventsDataPath)
  }

  /** The path a file source reads: `path`, else the upload of `file_id`. */
  function FilePath(p: SessionCreateRequest, store: Uploads.UploadStore): (r: Option<string>)
    reads store
    ensures Truthy(p.path) ==> r == p.path
    ensures !Truthy(p.path) && Truthy(p.fileId) ==> r == store.ResolvePath(p.fileId.value)
    ensures !Truthy(p.path) && !Truthy(p.fileId) ==> r == p.path
  {
    if !Truthy(p.path) && Truthy(p.fileId) then store.ResolvePath(p.fileId.value) else p.path
  }

  /** `IngestFactory.build(payload)`. */
  function Build(p: SessionCreateRequest, settings: Config.Settings, fs: Csv.FileSystem,
                 store: Uploads.UploadStore): (r: Result<SourceSpec, BuildError>)
    reads store
    // event_log: the data files are checked first, then the game id
    ensures p.sourceType == EventLog && Track2.EnsureTrack2Ready(fs, settings).Failure? ==>
      r == Failure(Http(Track2.EnsureTrack2Ready(fs, settings).error))
    ensures p.sourceType == EventLog && Track2.EnsureTrack2Ready(fs, settings).Success?
            && Truthy(EventLogPath(p, settings, store)) && !Truthy(p.gameId) ==>
      r == Failure(ValueError("game_id is required for event_log source"))
    ensures p.sourceType == EventLog && Track2.EnsureTrack2Ready(fs, settings).Success?
            && !Truthy(EventLogPath(p, settings, store)) ==>
      r == Failure(ValueError("dataset_path or file_id is required for event_log source"))
    ensures p.sourceType == EventLog && r.Success? ==>
      && Truthy(p.gameId)
      && Track2.EnsureGameIdExists(fs, settings, p.gameId.value).Pass?
      && r.value == EventLogSpec(EventLogPath(p, settings, store).value, p.gameId.value, p.playbackSpeed)
    ensures p.sourceType == EventLog && Track2.EnsureTrack2Ready(fs, settings).Success?
            && Truthy(EventLogPath(p, settings, store)) && Truthy(p.gameId)
            && Track2.EnsureGameIdExists(fs, settings, p.gameId.value).Fail? ==>
      r == Failure(Http(Track2.EnsureGameIdExists(fs, settings, p.gameId.value).error))
    // file: a path is required
    ensures p.sourceType == File ==>
      if Truthy(FilePath(p, store)) then r == Success(FileSpec(FilePath(p, store).value, p.fps))
      else r == Failure(ValueError("File path is required for file source"))
    // rtsp: a url is required; a missing or zero buffer becomes 300 ms
    ensures p.sourceType == Rtsp ==>
      if Truthy(p.rtspUrl) then r == Success(RtspSpec(p.rtspUrl.value, p.fps, IntOr(p.bufferMs, 300)))
      else r == Failure(ValueError("rtsp_url is required for rtsp source"))
    // anything else is a webcam
    ensures p.sourceType == Webcam ==> r == Success(WebcamSpec(IntOr(p.deviceId, 0), p.fps))
  {
    match p.sourceType
    case EventLog =>
      var ready := Track2.EnsureTrack2Ready(fs, settings);
      var path := EventLogPath(p, settings, store);
      if ready.Failure? then Failure(Http(ready.error))
      else if !Truthy(path) then Failure(ValueError("dataset_path or file_id is required for event_log source"))
      else if !Truthy(p.gameId) then Failure(ValueError("game_id is required for event_log source"))
      else
        var known := Track2.EnsureGameIdExists(fs, settings, p.gameId.value);
        if known.Fail? then Failure(Http(known.error))
        else Success(EventLogSpec(path.value, p.gameId.value, p.playbackSpeed))
    case File =>
      var path := FilePath(p, store);
      if Truthy(path) then Success(FileSpec(path.value, p.fps))
      else Failure(ValueError("File path is required for file source"))
    case Rtsp =>
      if Truthy(p.rtspUrl) then Success(RtspSpec(p.rtspUrl.value, p.fps, IntOr(p.bufferMs, 300)))
      else Failure(ValueError("rtsp_url is required for rtsp source"))
    case Webcam => Success(WebcamSpec(IntOr(p.deviceId, 0), p.fps))
  }

  /** An event-log request with a game id that the log contains builds whenever the data files are ready. */
  lemma EventLogBuilds(p: SessionCreateRequest, settings: Config.Settings, fs: Csv.FileSystem,
                       store: Uploads.UploadStore)
    requires p.sourceType == EventLog && settings.eventsDataPath != ""
    requires Track2.EnsureTrack2Ready(fs, settings).Success?
    requires Truthy(p.gameId)
    requires exists i :: 0 <= i < |fs[settings.eventsDataPath].rows|
                         && Csv.Get(fs[settings.eventsDataPath].rows[i], "game_id") == p.gameId
    ensures Build(p, settings, fs, store).Success?
    ensures Build(p, settings, fs, store).value.EventLogSpec?
  {
    assert settings.eventsDataPath in fs;
  }
}

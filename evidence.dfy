/**
 * The evidence builder (backend/app/services/evidence/builder.py): for one alert it
 * renders a 10 fps clip of the ten seconds around the alert and a still overlay of the
 * same window with the pattern, severity and metrics written on it, and returns the two
 * download URLs. The pixels are not modelled: a frame is the list of marks drawn on the
 * pitch, in drawing order, and the overlay's text is a list of captions with their rows.
 */
module EvidenceBuilder {
  import opened Wrappers
  import opened Schemas
  import Text
  import Sorting
  import Seqs
  import PyNum

  const PitchLength := 105.0
  const PitchWidth := 68.0
  const Scale := 8
  /** `int(PITCH_LENGTH * SCALE)`, that is 840. */
  const FrameWidth := PyNum.Trunc(PitchLength * Scale as real)
  /** `int(PITCH_WIDTH * SCALE)`, that is 544. */
  const FrameHeight := PyNum.Trunc(PitchWidth * Scale as real)
  const ClipFps := 10
  /** Seconds of play on either side of the alert's timestamp. */
  const HalfWindow := 5.0

  /** A pixel position `(px, py)`. */
  datatype Px = Px(x: int, y: int)

  /** An OpenCV colour, in blue-green-red order. */
  datatype Color = Color(b: int, g: int, r: int)

  const ShotColor := Color(0, 0, 255)
  const PassColor := Color(0, 200, 255)
  const CarryColor := Color(255, 140, 0)
  const LostBallColor := Color(180, 180, 180)
  const OtherColor := Color(255, 255, 0)

  /** What `_draw_event` puts on a frame: an arrow, a filled circle, or nothing. */
  datatype Mark = Arrow(from: Px, to: Px, color: Color) | Dot(at: Px, color: Color) | NoMark

  /** The text of one overlay line: `Pattern: ...`, `Severity: ...` or `name: value` (three decimals). */
  datatype Caption = PatternCaption(pattern: string) | SeverityCaption(severity: string) | MetricCaption(name: string, value: real)

  /** A caption written at row `y` of the overlay. */
  datatype Label = Label(caption: Caption, y: int)

  /**
   * The link under which a session's evidence file is served: the API prefix, the
   * `/evidence/` route, the session's directory, then the file name.
   */
  function ArtifactUrl(apiPrefix: string, sessionId: string, file: string): (url: string)
    ensures |url| == |apiPrefix| + 10 + |sessionId| + 1 + |file|
    ensures url[..|apiPrefix|] == apiPrefix
    ensures url[|apiPrefix|..|apiPrefix| + 10] == "/evidence/"
    ensures url[|apiPrefix| + 10..|apiPrefix| + 10 + |sessionId|] == sessionId
    ensures url[|apiPrefix| + 10 + |sessionId|] == '/'
    ensures url[|url| - |file|..] == file
  {
    var head := apiPrefix + "/evidence/";
    assert (head + sessionId)[..|apiPrefix|] == apiPrefix;
    assert (head + sessionId)[|apiPrefix|..|apiPrefix| + 10] == "/evidence/";
    apiPrefix + "/evidence/" + sessionId + "/" + file
  }

  /** The clip's link: `clip_{alert_id}.mp4`. */
  function ClipUrl(apiPrefix: string, sessionId: string, alertId: string): string {
    ArtifactUrl(apiPrefix, sessionId, "clip_" + alertId + ".mp4")
  }

  /** The overlay's link: `overlay_{alert_id}.png`. */
  function OverlayUrl(apiPrefix: string, sessionId: string, alertId: string): string {
    ArtifactUrl(apiPrefix, sessionId, "overlay_" + alertId + ".png")
  }

  /** The two URLs of one alert differ: clip and overlay never share a link. */
  lemma {:induction false} UrlsDiffer(apiPrefix: string, sessionId: string, alertId: string)
    ensures ClipUrl(apiPrefix, sessionId, alertId) != OverlayUrl(apiPrefix, sessionId, alertId)
  {
    var k := |apiPrefix + "/evidence/" + sessionId + "/"|;
    assert ClipUrl(apiPrefix, sessionId, alertId)[k] == 'c';
    assert OverlayUrl(apiPrefix, sessionId, alertId)[k] == 'o';
  }

  /** `_to_px`: pitch metres to pixels, `None` when either coordinate is missing. */
  function ToPx(x: Option<real>, y: Option<real>): (r: Option<Px>)
    ensures r.None? <==> x.None? || y.None?
    ensures r.Some? ==> r.value == Px(PyNum.Trunc(x.value * Scale as real), PyNum.Trunc(y.value * Scale as real))
  {
    if x.None? || y.None? then None
    else
      FrameExact();
      Some(Px(PyNum.Trunc(x.value / PitchLength * FrameWidth as real),
                 PyNum.Trunc(y.value / PitchWidth * FrameHeight as real)))
  }

  /** The frame is exactly the pitch at `Scale` pixels per metre. */
  lemma FrameExact()
    ensures FrameWidth == 840 && FrameHeight == 544
    ensures FrameWidth as real == PitchLength * Scale as real && FrameHeight as real == PitchWidth * Scale as real
  {
  }

  /** A point on the pitch lands within [0, FrameWidth] × [0, FrameHeight]; the far edge is one past the last pixel. */
  lemma ToPxOnPitch(x: real, y: real)
    requires 0.0 <= x <= PitchLength && 0.0 <= y <= PitchWidth
    ensures ToPx(Some(x), Some(y)).Some?
    ensures 0 <= ToPx(Some(x), Some(y)).value.x <= FrameWidth
    ensures 0 <= ToPx(Some(x), Some(y)).value.y <= FrameHeight
  {
    PyNum.TruncMonotone(x * Scale as real, PitchLength * Scale as real);
    PyNum.TruncMonotone(y * Scale as real, PitchWidth * Scale as real);
  }

  /** Further up the pitch is never further left in the frame. */
  lemma ToPxMonotone(x1: real, x2: real, y: real)
    requires x1 <= x2
    ensures ToPx(Some(x1), Some(y)).value.x <= ToPx(Some(x2), Some(y)).value.x
  {
    PyNum.TruncMonotone(x1 * Scale as real, x2 * Scale as real);
  }

  /** `_color_for_event`: by event type first, then lost-ball events, then the rest. */
  function ColorFor(e: EventRecord): (c: Color)
    ensures c == ShotColor <==> Text.Lower(e.typeName) == "shot"
    ensures c == PassColor <==> Text.Lower(e.typeName) == "pass"
    ensures c == CarryColor <==> Text.Lower(e.typeName) == "carry"
    ensures c == LostBallColor <==>
      (Text.Lower(e.typeName) !in {"shot", "pass", "carry"} &&
       (Text.Contains(Text.Lower(e.typeName), "turnover") || Text.Lower(e.resultName) == "unsuccessful"))
    ensures c in {ShotColor, PassColor, CarryColor, LostBallColor, OtherColor}
  {
    var t := Text.Lower(e.typeName);
    if t == "shot" then ShotColor
    else if t == "pass" then PassColor
    else if t == "carry" then CarryColor
    else if Text.Contains(t, "turnover") || Text.Lower(e.resultName) == "unsuccessful" then LostBallColor
    else OtherColor
  }

  /** `_draw_event`: an arrow when both ends are known, else a dot at whichever end is. */
  function DrawEvent(e: EventRecord): (m: Mark)
    ensures m.Arrow? <==> ToPx(e.startX, e.startY).Some? && ToPx(e.endX, e.endY).Some?
    ensures m.NoMark? <==> ToPx(e.startX, e.startY).None? && ToPx(e.endX, e.endY).None?
    ensures m.Arrow? ==> m == Arrow(ToPx(e.startX, e.startY).value, ToPx(e.endX, e.endY).value, ColorFor(e))
    ensures m.Dot? ==> m.color == ColorFor(e)
    ensures m.Dot? && ToPx(e.startX, e.startY).Some? ==> m.at == ToPx(e.startX, e.startY).value
    ensures m.Dot? && ToPx(e.startX, e.startY).None? ==> m.at == ToPx(e.endX, e.endY).value
  {
    var from := ToPx(e.startX, e.startY);
    var to := ToPx(e.endX, e.endY);
    if from.Some? && to.Some? then Arrow(from.value, to.value, ColorFor(e))
    else if from.Some? then Dot(from.value, ColorFor(e))
    else if to.Some? then Dot(to.value, ColorFor(e))
    else NoMark
  }

  /** The marks of `events`, drawn in order. */
  function Marks(events: seq<EventRecord>): (r: seq<Mark>)
    ensures |r| == |events| && forall i :: 0 <= i < |events| ==> r[i] == DrawEvent(events[i])
  {
    Seqs.Map(events, DrawEvent)
  }

  /** The order of the key `time_seconds`. */
  predicate TimeLe(a: EventRecord, b: EventRecord) {
    a.timeSeconds <= b.timeSeconds
  }

  lemma TimeLeTotalPreorder()
    ensures Sorting.TotalPreorder(TimeLe)
  {
  }

  /** `max(0.0, ts_center - 5.0)`. */
  function WindowStart(center: real): real {
    if center - HalfWindow > 0.0 then center - HalfWindow else 0.0
  }

  /** `ts_center + 5.0`. */
  function WindowEnd(center: real): real {
    center + HalfWindow
  }

  /** `max(1, int(max(0.1, end_ts - start_ts) * fps))`. */
  function FrameCount(start: real, end: real): (n: nat)
    ensures n >= 1
  {
    var duration := if end - start > 0.1 then end - start else 0.1;
    var n := PyNum.Trunc(duration * ClipFps as real);
    if n > 1 then n else 1
  }

  /** An alert's clip has at most 100 frames, and exactly 100 once five seconds have passed. */
  lemma FrameCountOfWindow(center: real)
    ensures 1 <= FrameCount(WindowStart(center), WindowEnd(center)) <= 100
    ensures center >= HalfWindow ==> FrameCount(WindowStart(center), WindowEnd(center)) == 100
  {
    var start, end := WindowStart(center), WindowEnd(center);
    var duration := if end - start > 0.1 then end - start else 0.1;
    assert duration <= 10.0;
    PyNum.TruncMonotone(duration * ClipFps as real, 100.0);
  }

  /** The playback time of frame `k`: `start_ts + frame_idx / fps`. */
  function FrameTime(start: real, k: nat): real {
    start + k as real / ClipFps as real
  }

  /** The events frame at time `now` draws: those from the clip's start up to `now`. */
  function Shown(events: seq<EventRecord>, start: real, now: real): seq<EventRecord> {
    Seqs.Filter(events, Between(start, now))
  }

  function Between(start: real, now: real): EventRecord -> bool {
    (e: EventRecord) => start <= e.timeSeconds <= now
  }

  lemma ShownMember(events: seq<EventRecord>, start: real, now: real, e: EventRecord)
    ensures e in Shown(events, start, now) <==> e in events && start <= e.timeSeconds <= now
  {
    Seqs.FilterMember(events, Between(start, now), e);
  }

  /** A clip only accumulates: whatever one frame shows, every later frame shows too. */
  lemma ClipAccumulates(events: seq<EventRecord>, start: real, k1: nat, k2: nat)
    requires k1 <= k2
    ensures |Shown(events, start, FrameTime(start, k1))| <= |Shown(events, start, FrameTime(start, k2))|
    ensures forall e :: e in Shown(events, start, FrameTime(start, k1)) ==> e in Shown(events, start, FrameTime(start, k2))
  {
    var t1, t2 := FrameTime(start, k1), FrameTime(start, k2);
    Seqs.FilterWeaker(events, Between(start, t1), Between(start, t2));
  }

  /** The events of time-sorted input stay in time order on every frame. */
  lemma {:induction false} ShownSorted(events: seq<EventRecord>, start: real, now: real)
    requires Sorting.SortedBy(events, TimeLe)
    ensures Sorting.SortedBy(Shown(events, start, now), TimeLe)
  {
    if events != [] {
      var init := events[..|events| - 1];
      assert Sorting.SortedBy(init, TimeLe);
      ShownSorted(init, start, now);
      var last := events[|events| - 1];
      var front := Shown(init, start, now);
      var r := Shown(events, start, now);
      assert r == front + (if Between(start, now)(last) then [last] else []);
      forall i, j | 0 <= i < j < |r| ensures TimeLe(r[i], r[j]) {
        if j >= |front| {
          assert r[i] == front[i] && r[j] == last;
          ShownMember(init, start, now, front[i]);
          var m :| 0 <= m < |init| && init[m] == front[i];
          assert events[m] == front[i];
        }
      }
    }
  }

  /** `_render_clip`: one list of marks per frame, frame `k` drawing the events seen by its time. */
  method RenderClip(events: seq<EventRecord>, start: real, end: real) returns (frames: seq<seq<Mark>>)
    ensures |frames| == FrameCount(start, end)
    ensures forall k :: 0 <= k < |frames| ==> frames[k] == Marks(Shown(events, start, FrameTime(start, k)))
  {
    var count := FrameCount(start, end);
    frames := [];
    var k := 0;
    while k < count
      invariant k <= count && |frames| == k
      invariant forall j :: 0 <= j < k ==> frames[j] == Marks(Shown(events, start, FrameTime(start, j)))
    {
      var marks := FrameMarks(events, start, start + k as real / ClipFps as real);
      frames := frames + [marks];
      k := k + 1;
    }
  }

  /** One frame of the clip: the marks of the events from `start` up to `now`, in input order. */
  method FrameMarks(events: seq<EventRecord>, start: real, now: real) returns (marks: seq<Mark>)
    ensures marks == Marks(Shown(events, start, now))
  {
    marks := [];
    var i := 0;
    while i < |events|
      invariant i <= |events|
      invariant marks == Marks(Shown(events[..i], start, now))
    {
      assert events[..i + 1][..i] == events[..i];
      if start <= events[i].timeSeconds <= now {
        marks := marks + [DrawEvent(events[i])];
      }
      i := i + 1;
    }
    assert events[..i] == events;
  }

  /** The events the overlay draws: `abs(time_seconds - ts_center) <= 5`. */
  function NearCenter(events: seq<EventRecord>, center: real): seq<EventRecord> {
    Seqs.Filter(events, (e: EventRecord) => -HalfWindow <= e.timeSeconds - center <= HalfWindow)
  }

  /** `_render_overlay`: the marks of the events near the centre, then the captions, top to bottom. */
  method RenderOverlay(events: seq<EventRecord>, patternType: string, severity: string, metrics: seq<Metric>, center: real)
    returns (marks: seq<Mark>, labels: seq<Label>)
    ensures marks == Marks(NearCenter(events, center))
    ensures |labels| == 2 + |metrics|
    ensures labels[0] == Label(PatternCaption(patternType), 30)
    ensures labels[1] == Label(SeverityCaption(severity), 65)
    ensures forall i :: 0 <= i < |metrics| ==>
      labels[2 + i] == Label(MetricCaption(metrics[i].name, metrics[i].value), 100 + 30 * i)
    ensures forall i, j :: 0 <= i < j < |labels| ==> labels[i].y + 30 <= labels[j].y
  {
    marks := OverlayMarks(events, center);
    labels := Captions(patternType, severity, metrics);
  }

  /** The overlay's drawing pass: the marks of the events within five seconds of the centre. */
  method OverlayMarks(events: seq<EventRecord>, center: real) returns (marks: seq<Mark>)
    ensures marks == Marks(NearCenter(events, center))
  {
    marks := [];
    var i := 0;
    while i < |events|
      invariant i <= |events|
      invariant marks == Marks(NearCenter(events[..i], center))
    {
      assert events[..i + 1][..i] == events[..i];
      var d := events[i].timeSeconds - center;
      if -HalfWindow <= d <= HalfWindow {
        marks := marks + [DrawEvent(events[i])];
      }
      i := i + 1;
    }
    assert events[..i] == events;
  }

  /** The overlay's captions: pattern, severity, then one line per metric, at least 30 pixels apart. */
  method Captions(patternType: string, severity: string, metrics: seq<Metric>) returns (labels: seq<Label>)
    ensures |labels| == 2 + |metrics|
    ensures labels[0] == Label(PatternCaption(patternType), 30)
    ensures labels[1] == Label(SeverityCaption(severity), 65)
    ensures forall i :: 0 <= i < |metrics| ==>
      labels[2 + i] == Label(MetricCaption(metrics[i].name, metrics[i].value), 100 + 30 * i)
    ensures forall i, j :: 0 <= i < j < |labels| ==> labels[i].y + 30 <= labels[j].y
  {
    var y := 30;
    labels := [Label(PatternCaption(patternType), y)];
    y := y + 35;
    labels := labels + [Label(SeverityCaption(severity), y)];
    y := y + 35;
    var m := 0;
    while m < |metrics|
      invariant m <= |metrics| && |labels| == 2 + m && y == 100 + 30 * m
      invariant labels[0] == Label(PatternCaption(patternType), 30)
      invariant labels[1] == Label(SeverityCaption(severity), 65)
      invariant forall j :: 0 <= j < m ==>
        labels[2 + j] == Label(MetricCaption(metrics[j].name, metrics[j].value), 100 + 30 * j)
      invariant forall i, j :: 0 <= i < j < |labels| ==> labels[i].y + 30 <= labels[j].y
      invariant forall i :: 0 <= i < |labels| ==> labels[i].y + 30 <= y
    {
      labels := labels + [Label(MetricCaption(metrics[m].name, metrics[m].value), y)];
      y := y + 30;
      m := m + 1;
    }
  }

  /**
   * `build_evidence`: both renderings of the time-sorted events over the window around
   * `center`, and the URLs under which the two files are served.
   */
  method BuildEvidence(apiPrefix: string, sessionId: string, alertId: string, center: real,
                       patternType: string, severity: string, metrics: seq<Metric>, events: seq<EventRecord>)
    returns (clipUrl: string, overlayUrl: string, clip: seq<seq<Mark>>, overlay: seq<Mark>, labels: seq<Label>)
    ensures clipUrl == ClipUrl(apiPrefix, sessionId, alertId)
    ensures overlayUrl == OverlayUrl(apiPrefix, sessionId, alertId)
    ensures |clip| == FrameCount(WindowStart(center), WindowEnd(center)) <= 100
    ensures forall k :: 0 <= k < |clip| ==>
      clip[k] == Marks(Shown(Sorting.SortBy(events, TimeLe), WindowStart(center), FrameTime(WindowStart(center), k)))
    ensures overlay == Marks(NearCenter(Sorting.SortBy(events, TimeLe), center))
    ensures |labels| == 2 + |metrics|
    ensures labels[0] == Label(PatternCaption(patternType), 30)
    ensures labels[1] == Label(SeverityCaption(severity), 65)
    ensures forall i :: 0 <= i < |metrics| ==>
      labels[2 + i] == Label(MetricCaption(metrics[i].name, metrics[i].value), 100 + 30 * i)
  {
    var sorted := Sorting.SortBy(events, TimeLe);
    FrameCountOfWindow(center);
    clip := RenderClip(sorted, WindowStart(center), WindowEnd(center));
    overlay, labels := RenderOverlay(sorted, patternType, severity, metrics, center);
    clipUrl := ClipUrl(apiPrefix, sessionId, alertId);
    overlayUrl := OverlayUrl(apiPrefix, sessionId, alertId);
  }
}

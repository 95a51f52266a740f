/**
 * The alert logic of the session manager (backend/app/services/sessions/manager.py):
 * the three pattern detectors run over the sliding window of recent events, the
 * per-pattern cooldown, the fallback alert, and the alert record built around the
 * evidence URLs. Everything here is a function of the window, the clock value `ts` and
 * the session's alert ledger; the manager class applies the result.
 */
module SessionLogic {
  import opened Wrappers
  import opened Schemas
  import Text
  import Seqs
  import PyValue
  import EvidenceBuilder

  /** The `pattern_type` names an alert can carry. */
  datatype PatternType = BuildUpBias | TransitionRisk | FinalThirdPressure {
    function Name(): string {
      match this
      case BuildUpBias => "build_up_bias"
      case TransitionRisk => "transition_risk"
      case FinalThirdPressure => "final_third_pressure"
    }
  }

  /** Seconds of play the event runner keeps in its window. */
  const WindowSeconds := 45.0
  /** The runner evaluates at most once per this many seconds of play. */
  const EvalInterval := 1.0
  /** `_should_emit`'s default cooldown, per pattern. */
  const Cooldown := 8.0
  /** No fallback alert is raised before this many seconds of play. */
  const FallbackAfter := 30.0

  /** A detector's verdict: a severity and the metrics dictionary. */
  datatype Detection = Detection(severity: Severity, metrics: seq<Metric>)

  function Count(s: seq<EventRecord>, p: EventRecord -> bool): nat {
    |Seqs.Filter(s, p)|
  }

  function Abs(x: real): real {
    if x < 0.0 then -x else x
  }

  // ---------------------------------------------------------------- build-up bias

  /** A pass or carry with both x coordinates known. */
  predicate IsProgression(e: EventRecord) {
    Text.Lower(e.typeName) in {"pass", "carry"} && e.startX.Some? && e.endX.Some?
  }

  /** `end_x - start_x`, where both are known. */
  function Dx(e: EventRecord): real {
    if e.startX.Some? && e.endX.Some? then e.endX.value - e.startX.value else 0.0
  }

  function MeanDx(events: seq<EventRecord>): real
    requires events != []
  {
    Seqs.Sum(Seqs.Map(events, Dx)) / |events| as real
  }

  predicate HasStartY(e: EventRecord) {
    e.startY.Some?
  }

  /** Started in the right channel, `start_y > 68 * 2 / 3`. */
  predicate InRightChannel(e: EventRecord) {
    e.startY.Some? && e.startY.value > 68.0 * 2.0 / 3.0
  }

  /** Started in the left channel, `start_y < 68 / 3`. */
  predicate InLeftChannel(e: EventRecord) {
    e.startY.Some? && e.startY.value < 68.0 / 3.0
  }

  /** Started in the central channel, between the two bounds inclusive. */
  predicate InCentralChannel(e: EventRecord) {
    e.startY.Some? && 68.0 / 3.0 <= e.startY.value <= 68.0 * 2.0 / 3.0
  }

  /** The three channels split the events whose `start_y` is known. */
  lemma ChannelsPartition(events: seq<EventRecord>)
    ensures Count(events, InRightChannel) + Count(events, InLeftChannel) + Count(events, InCentralChannel)
            == Count(events, HasStartY)
  {
    Seqs.FilterSplit3(events, InRightChannel, InLeftChannel, InCentralChannel, HasStartY);
  }

  /** `right_channel / total_channel`, or 0.0 when no event has a `start_y`. */
  function RightRatio(events: seq<EventRecord>): real {
    var total := Count(events, InRightChannel) + Count(events, InLeftChannel) + Count(events, InCentralChannel);
    if total == 0 then 0.0 else Count(events, InRightChannel) as real / total as real
  }

  /** The ratio is a share of the events with known `start_y`. */
  lemma RightRatioBounds(events: seq<EventRecord>)
    ensures 0.0 <= RightRatio(events) <= 1.0
    ensures Count(events, HasStartY) > 0 ==>
      RightRatio(events) == Count(events, InRightChannel) as real / Count(events, HasStartY) as real
  {
    ChannelsPartition(events);
    var right := Count(events, InRightChannel) as real;
    var total := (Count(events, InRightChannel) + Count(events, InLeftChannel) + Count(events, InCentralChannel)) as real;
    if total > 0.0 {
      ShareAtMostOne(right, total);
    }
  }

  lemma ShareAtMostOne(part: real, whole: real)
    requires 0.0 <= part <= whole && whole > 0.0
    ensures 0.0 <= part / whole <= 1.0
  {
    var q := part / whole;
    assert q * whole == part;
  }

  function BuildUpMetrics(passes: seq<EventRecord>): seq<Metric>
    requires passes != []
  {
    [Metric("mean_dx", MeanDx(passes)),
     Metric("right_channel_ratio", RightRatio(passes)),
     Metric("event_count", |passes| as real)]
  }

  /** `_detect_build_up_bias`: at least eight passes or carries that either lean forward or stay right. */
  function DetectBuildUpBias(window: seq<EventRecord>): (r: Option<Detection>)
    ensures var passes := Seqs.Filter(window, IsProgression);
      && (r.Some? <==> |passes| >= 8 && (Abs(MeanDx(passes)) > 5.0 || RightRatio(passes) > 0.5))
      && (r.Some? ==>
            && (r.value.severity == High <==> Abs(MeanDx(passes)) > 8.0 || RightRatio(passes) > 0.6)
            && (r.value.severity != High ==> r.value.severity == Medium)
            && r.value.metrics == BuildUpMetrics(passes))
  {
    var passes := Seqs.Filter(window, IsProgression);
    if |passes| < 8 then None
    else
      var meanDx := MeanDx(passes);
      var ratio := RightRatio(passes);
      if Abs(meanDx) > 8.0 || ratio > 0.6 then Some(Detection(High, BuildUpMetrics(passes)))
      else if Abs(meanDx) > 5.0 || ratio > 0.5 then Some(Detection(Medium, BuildUpMetrics(passes)))
      else None
  }

  // ---------------------------------------------------------------- transition risk

  /** An unsuccessful action or a turnover. */
  predicate IsTurnover(e: EventRecord) {
    Text.Lower(e.resultName) == "unsuccessful" || Text.Contains(Text.Lower(e.typeName), "turnover")
  }

  /** The position of the first of the latest events. */
  function LatestIndex(events: seq<EventRecord>): (i: nat)
    requires events != []
    ensures i < |events|
    ensures forall j :: 0 <= j < |events| ==> events[j].timeSeconds <= events[i].timeSeconds
    ensures forall j :: 0 <= j < i ==> events[j].timeSeconds < events[i].timeSeconds
  {
    if |events| == 1 then 0
    else
      var best := LatestIndex(events[..|events| - 1]);
      if events[|events| - 1].timeSeconds > events[best].timeSeconds then |events| - 1 else best
  }

  /** `max(events, key=time_seconds)`: the first of the latest events. */
  function Latest(events: seq<EventRecord>): (r: EventRecord)
    requires events != []
    ensures r in events
    ensures forall e :: e in events ==> e.timeSeconds <= r.timeSeconds
  {
    events[LatestIndex(events)]
  }

  /** A shot, or an action ending beyond x = 88, within eight seconds after time `t`. */
  function FollowUpOf(t: real): EventRecord -> bool {
    (e: EventRecord) =>
      t < e.timeSeconds <= t + 8.0 && (Text.Lower(e.typeName) == "shot" || (e.endX.Some? && e.endX.value > 88.0))
  }

  /** `end_x or start_x or 0.0`. */
  function TurnoverX(e: EventRecord): real {
    PyValue.RealOr(e.endX, PyValue.RealOr(e.startX, 0.0))
  }

  /** `_detect_transition_risk`: attacking actions right after the latest turnover. */
  function DetectTransitionRisk(window: seq<EventRecord>): (r: Option<Detection>)
    ensures var turnovers := Seqs.Filter(window, IsTurnover);
      && (r.Some? <==> turnovers != [] && Seqs.Filter(window, FollowUpOf(Latest(turnovers).timeSeconds)) != [])
      && (r.Some? ==>
            var follow := Seqs.Filter(window, FollowUpOf(Latest(turnovers).timeSeconds));
            && r.value.severity == (if |follow| >= 2 then High else Medium)
            && r.value.metrics == [Metric("turnover_x", TurnoverX(Latest(turnovers))),
                                   Metric("followup_attack_count", |follow| as real)])
  {
    var turnovers := Seqs.Filter(window, IsTurnover);
    if window == [] || turnovers == [] then None
    else
      var latest := Latest(turnovers);
      var follow := Seqs.Filter(window, FollowUpOf(latest.timeSeconds));
      if follow == [] then None
      else
        Some(Detection(if |follow| >= 2 then High else Medium,
                       [Metric("turnover_x", TurnoverX(latest)), Metric("followup_attack_count", |follow| as real)]))
  }

  /** The turnover the detector measures from is the latest one, and no follow-up is a turnover's own moment. */
  lemma TransitionAnchor(window: seq<EventRecord>, e: EventRecord)
    requires Seqs.Filter(window, IsTurnover) != []
    requires e in window && IsTurnover(e)
    ensures e.timeSeconds <= Latest(Seqs.Filter(window, IsTurnover)).timeSeconds
    ensures !FollowUpOf(Latest(Seqs.Filter(window, IsTurnover)).timeSeconds)(Latest(Seqs.Filter(window, IsTurnover)))
  {
    Seqs.FilterMember(window, IsTurnover, e);
  }

  // ---------------------------------------------------------------- final-third pressure

  /** An action ending beyond x = 70. */
  predicate EntersFinalThird(e: EventRecord) {
    e.endX.Some? && e.endX.value > 70.0
  }

  /** `_detect_final_third_pressure`: five entries are medium, ten are high. */
  function DetectFinalThirdPressure(window: seq<EventRecord>): (r: Option<Detection>)
    ensures r.Some? <==> Count(window, EntersFinalThird) >= 5
    ensures r.Some? ==> (r.value.severity == High <==> Count(window, EntersFinalThird) >= 10)
    ensures r.Some? ==> r.value.severity in {Medium, High}
    ensures r.Some? ==> r.value.metrics == [Metric("final_third_entries", Count(window, EntersFinalThird) as real)]
  {
    var entries := Count(window, EntersFinalThird);
    if entries < 5 then None
    else Some(Detection(if entries >= 10 then High else Medium, [Metric("final_third_entries", entries as real)]))
  }

  /** More events never weaken the pressure verdict. */
  lemma PressureMonotone(window: seq<EventRecord>, more: seq<EventRecord>)
    requires DetectFinalThirdPressure(window).Some?
    ensures DetectFinalThirdPressure(window + more).Some?
    ensures DetectFinalThirdPressure(window).value.severity == High ==>
      DetectFinalThirdPressure(window + more).value.severity == High
  {
    Seqs.FilterAppend(window, more, EntersFinalThird);
  }

  // ---------------------------------------------------------------- cooldown, evidence, demo metrics

  /** `_events_for_evidence`: the events within five seconds of `ts`, the same ones the overlay draws. */
  function EventsForEvidence(window: seq<EventRecord>, ts: real): (r: seq<EventRecord>)
    ensures forall e :: e in r <==> e in window && -EvidenceBuilder.HalfWindow <= e.timeSeconds - ts <= EvidenceBuilder.HalfWindow
    ensures EvidenceBuilder.NearCenter(r, ts) == r
  {
    var near := (e: EventRecord) => -EvidenceBuilder.HalfWindow <= e.timeSeconds - ts <= EvidenceBuilder.HalfWindow;
    Seqs.FilterIdempotent(window, near);
    assert forall e :: e in EvidenceBuilder.NearCenter(window, ts) <==> e in window && near(e) by {
      forall e
        ensures e in EvidenceBuilder.NearCenter(window, ts) <==> e in window && near(e)
      {
        Seqs.FilterMember(window, near, e);
      }
    }
    EvidenceBuilder.NearCenter(window, ts)
  }

  /**
   * The slice keeps the window's order: the slice of a window read in two parts is the
   * slice of the first part followed by the slice of the second.
   */
  lemma EventsForEvidenceInOrder(first: seq<EventRecord>, second: seq<EventRecord>, ts: real)
    ensures EventsForEvidence(first + second, ts) == EventsForEvidence(first, ts) + EventsForEvidence(second, ts)
  {
    Seqs.FilterAppend(first, second, (e: EventRecord) => -EvidenceBuilder.HalfWindow <= e.timeSeconds - ts <= EvidenceBuilder.HalfWindow);
  }

  /** `_should_emit`: a pattern not seen before, or seen at least the cooldown ago. */
  predicate ShouldEmit(lastPatternTs: map<string, real>, patternType: string, ts: real) {
    patternType !in lastPatternTs || ts - lastPatternTs[patternType] >= Cooldown
  }

  predicate HasDx(e: EventRecord) {
    e.startX.Some? && e.endX.Some?
  }

  predicate IsShot(e: EventRecord) {
    Text.Lower(e.typeName) == "shot"
  }

  /** `_demo_metrics`: the window's size, mean forward run, final-third entries and shots. */
  function DemoMetrics(window: seq<EventRecord>): (r: seq<Metric>)
    ensures |r| == 4
    ensures r[0] == Metric("event_count", |window| as real)
    ensures r[1].name == "mean_dx"
    ensures r[1].value == (if Seqs.Filter(window, HasDx) == [] then 0.0 else MeanDx(Seqs.Filter(window, HasDx)))
    ensures r[2] == Metric("final_third_entries", Count(window, EntersFinalThird) as real)
    ensures r[3] == Metric("shot_count", Count(window, IsShot) as real)
  {
    var moving := Seqs.Filter(window, HasDx);
    [Metric("event_count", |window| as real),
     Metric("mean_dx", if moving == [] then 0.0 else MeanDx(moving)),
     Metric("final_third_entries", Count(window, EntersFinalThird) as real),
     Metric("shot_count", Count(window, IsShot) as real)]
  }

  /** The demo metrics report the same final-third count the pressure detector does. */
  lemma DemoAgreesWithPressure(window: seq<EventRecord>)
    requires DetectFinalThirdPressure(window).Some?
    ensures DemoMetrics(window)[2] == DetectFinalThirdPressure(window).value.metrics[0]
  {
  }

  // ---------------------------------------------------------------- alerts

  /** `uuid4()` for one alert, and the text of the exception `build_evidence` raises, if it does. */
  datatype Attempt = Attempt(alertId: string, failure: Option<string>)

  function Claim(p: PatternType): string {
    match p
    case BuildUpBias => "최근 전개가 우측으로 치우치고 있습니다."
    case TransitionRisk => "턴오버 직후 전환 압박이 증가했습니다."
    case FinalThirdPressure => "상대가 파이널 서드 진입을 반복하고 있습니다."
  }

  function Recommendation(p: PatternType): string {
    match p
    case BuildUpBias => "좌측 혹은 중앙 전환을 섞어 압박 균형을 무너뜨리세요."
    case TransitionRisk => "턴오버 직후 안정화 패턴을 가동해 위험 구간을 줄이세요."
    case FinalThirdPressure => "박스 근처 압박 라인을 재정렬해 진입 빈도를 낮추세요."
  }

  function Risk(p: PatternType): string {
    match p
    case BuildUpBias => "우측에서 볼을 잃을 시 역습 위험이 높습니다."
    case TransitionRisk => "지속적인 전환 압박으로 인한 실점 위험이 있습니다."
    case FinalThirdPressure => "박스 부근 진입이 누적되면 실점 확률이 높아집니다."
  }

  /** `{key: EvidenceMetric(name=key, value=value) for key, value in metrics.items()}`. */
  function EvidenceMetrics(metrics: seq<Metric>): (m: map<string, EvidenceMetric>)
    ensures m.Keys == set i | 0 <= i < |metrics| :: metrics[i].name
    ensures forall k :: k in m ==> m[k].name == k && m[k].unit.None?
  {
    if metrics == [] then map[]
    else
      var last := metrics[|metrics| - 1];
      var init := EvidenceMetrics(metrics[..|metrics| - 1]);
      assert forall i :: 0 <= i < |metrics| - 1 ==> metrics[..|metrics| - 1][i] == metrics[i];
      init[last.name := EvidenceMetric(last.name, last.value, None)]
  }

  /** With distinct names, every metric is filed under its own name with its own value. */
  lemma {:induction false} EvidenceMetricsValues(metrics: seq<Metric>, i: nat)
    requires i < |metrics|
    requires forall a, b :: 0 <= a < b < |metrics| ==> metrics[a].name != metrics[b].name
    ensures EvidenceMetrics(metrics)[metrics[i].name] == EvidenceMetric(metrics[i].name, metrics[i].value, None)
  {
    if i < |metrics| - 1 {
      var init := metrics[..|metrics| - 1];
      EvidenceMetricsValues(init, i);
      assert init[i] == metrics[i];
    }
  }

  /** What a failed `build_evidence` leaves: a status detail pushed after the tick. */
  function EvidenceFailure(message: string): string {
    "evidence_generation_failed: " + message
  }

  /**
   * `_try_create_alert`: the alert that covers the five seconds before `ts`, with one
   * clip and one overlay, or the status detail of the evidence failure.
   */
  function TryCreateAlert(apiPrefix: string, sessionId: string, ts: real, p: PatternType, severity: Severity,
                          metrics: seq<Metric>, a: Attempt): (r: Result<Alert, string>)
    ensures r.Failure? <==> a.failure.Some?
    ensures r.Failure? ==> r.error == EvidenceFailure(a.failure.value)
    ensures r.Success? ==>
      && r.value.id == a.alertId
      && r.value.tsStart == EvidenceBuilder.WindowStart(ts) && r.value.tsEnd == ts
      && r.value.patternType == p.Name() && r.value.severity == severity
      && r.value.claimText == Claim(p) && r.value.recommendationText == Recommendation(p)
      && r.value.riskText == Risk(p)
      && r.value.evidence.clips == [EvidenceBuilder.ClipUrl(apiPrefix, sessionId, a.alertId)]
      && r.value.evidence.overlays == [EvidenceBuilder.OverlayUrl(apiPrefix, sessionId, a.alertId)]
      && r.value.evidence.metrics == EvidenceMetrics(metrics)
  {
    if a.failure.Some? then Failure(EvidenceFailure(a.failure.value))
    else
      var evidence := Evidence([EvidenceBuilder.ClipUrl(apiPrefix, sessionId, a.alertId)],
                               [EvidenceBuilder.OverlayUrl(apiPrefix, sessionId, a.alertId)],
                               EvidenceMetrics(metrics));
      Success(Alert(a.alertId, EvidenceBuilder.WindowStart(ts), ts, p.Name(), severity,
                    Claim(p), Recommendation(p), Risk(p), evidence))
  }

  /** An alert's span never starts after it ends, once play is under way. */
  lemma AlertSpan(apiPrefix: string, sessionId: string, ts: real, p: PatternType, severity: Severity,
                  metrics: seq<Metric>, a: Attempt)
    requires ts >= 0.0 && a.failure.None?
    ensures var alert := TryCreateAlert(apiPrefix, sessionId, ts, p, severity, metrics, a).value;
      0.0 <= alert.tsStart <= alert.tsEnd && alert.tsEnd - alert.tsStart <= EvidenceBuilder.HalfWindow
  {
  }

  // ---------------------------------------------------------------- one evaluation

  /**
   * A session's alerts, its `last_pattern_ts`, and what one evaluation has to say: the
   * details it pushes (all with status RUNNING), the evidence failures whose pushes run
   * once the runner yields, and whether a pattern produced an alert.
   */
  datatype Ledger = Ledger(
    alerts: seq<Alert>,
    lastPatternTs: map<string, real>,
    pushes: seq<string>,
    deferred: seq<string>,
    triggered: bool)

  /** The id and evidence outcome for each alert an evaluation may try to create. */
  datatype Attempts = Attempts(buildUp: Attempt, transition: Attempt, pressure: Attempt, fallback: Attempt)

  function Generated(p: PatternType): string {
    p.Name() + " alert generated"
  }

  /**
   * One detector's branch of `_evaluate_event_alerts`. The final-third branch pushes its
   * status line even when the alert could not be created (`pushOnFailure`).
   */
  function Consider(l: Ledger, apiPrefix: string, sessionId: string, p: PatternType, d: Option<Detection>,
                    ts: real, a: Attempt, pushOnFailure: bool): (r: Ledger)
    ensures var tried := d.Some? && ShouldEmit(l.lastPatternTs, p.Name(), ts);
      var made := tried && a.failure.None?;
      && r.alerts == l.alerts + (if made then [TryCreateAlert(apiPrefix, sessionId, ts, p, d.value.severity, d.value.metrics, a).value] else [])
      && r.lastPatternTs == (if made then l.lastPatternTs[p.Name() := ts] else l.lastPatternTs)
      && r.triggered == (l.triggered || made)
      && r.pushes == l.pushes + (if made || (tried && pushOnFailure) then [Generated(p)] else [])
      && r.deferred == l.deferred + (if tried && a.failure.Some? then [EvidenceFailure(a.failure.value)] else [])
  {
    if d.None? || !ShouldEmit(l.lastPatternTs, p.Name(), ts) then l
    else
      match TryCreateAlert(apiPrefix, sessionId, ts, p, d.value.severity, d.value.metrics, a)
      case Failure(detail) =>
        l.(pushes := l.pushes + (if pushOnFailure then [Generated(p)] else []), deferred := l.deferred + [detail])
      case Success(alert) =>
        l.(alerts := l.alerts + [alert], lastPatternTs := l.lastPatternTs[p.Name() := ts],
           pushes := l.pushes + [Generated(p)], triggered := true)
  }

  /** The metrics of the fallback alert. */
  function FallbackMetrics(window: seq<EventRecord>, demoMode: bool): seq<Metric> {
    if demoMode then DemoMetrics(window) else [Metric("event_count", |window| as real)]
  }

  /** The fallback: a medium build-up alert once 30 seconds have passed without any alert. */
  function Fallback(l: Ledger, apiPrefix: string, sessionId: string, demoMode: bool, window: seq<EventRecord>,
                    ts: real, a: Attempt): (r: Ledger)
    ensures var tried := !l.triggered && ts >= FallbackAfter && l.alerts == [] && window != [];
      var made := tried && a.failure.None?;
      && r.alerts == l.alerts + (if made then [TryCreateAlert(apiPrefix, sessionId, ts, BuildUpBias, Medium, FallbackMetrics(window, demoMode), a).value] else [])
      && r.lastPatternTs == (if made then l.lastPatternTs[BuildUpBias.Name() := ts] else l.lastPatternTs)
      && r.pushes == l.pushes + (if made then ["fallback alert generated"] else [])
      && r.deferred == l.deferred + (if tried && a.failure.Some? then [EvidenceFailure(a.failure.value)] else [])
      && r.triggered == l.triggered
  {
    if l.triggered || ts < FallbackAfter || l.alerts != [] || window == [] then l
    else
      match TryCreateAlert(apiPrefix, sessionId, ts, BuildUpBias, Medium, FallbackMetrics(window, demoMode), a)
      case Failure(detail) => l.(deferred := l.deferred + [detail])
      case Success(alert) =>
        l.(alerts := l.alerts + [alert], lastPatternTs := l.lastPatternTs[BuildUpBias.Name() := ts],
           pushes := l.pushes + ["fallback alert generated"])
  }

  /** `_evaluate_event_alerts` over the current window at time `ts`. */
  function Evaluate(apiPrefix: string, sessionId: string, demoMode: bool, alerts: seq<Alert>,
                    lastPatternTs: map<string, real>, window: seq<EventRecord>, ts: real, a: Attempts): (r: Ledger)
  {
    var start := Ledger(alerts, lastPatternTs, [], [], false);
    var afterBuildUp := Consider(start, apiPrefix, sessionId, BuildUpBias, DetectBuildUpBias(window), ts, a.buildUp, false);
    var afterTransition := Consider(afterBuildUp, apiPrefix, sessionId, TransitionRisk, DetectTransitionRisk(window), ts, a.transition, false);
    var afterPressure := Consider(afterTransition, apiPrefix, sessionId, FinalThirdPressure,
                                  DetectFinalThirdPressure(window), ts, a.pressure, true);
    Fallback(afterPressure, apiPrefix, sessionId, demoMode, window, ts, a.fallback)
  }

  /**
   * The cooldown as an invariant of a session's alerts: every pattern's last time is no
   * earlier than its alerts, and two alerts of one pattern are a cooldown apart.
   */
  predicate CooldownKept(alerts: seq<Alert>, lastPatternTs: map<string, real>) {
    && (forall i :: 0 <= i < |alerts| ==>
          alerts[i].patternType in lastPatternTs && alerts[i].tsEnd <= lastPatternTs[alerts[i].patternType])
    && (forall i, j :: 0 <= i < j < |alerts| && alerts[i].patternType == alerts[j].patternType ==>
          alerts[j].tsEnd - alerts[i].tsEnd >= Cooldown)
  }

  /** `after` is `before` with at most `k` alerts appended, all stamped `ts`. */
  predicate Grows(before: seq<Alert>, after: seq<Alert>, ts: real, k: nat) {
    && |before| <= |after| <= |before| + k
    && after[..|before|] == before
    && (forall i :: |before| <= i < |after| ==> after[i].tsEnd == ts)
  }

  lemma GrowsTrans(a: seq<Alert>, b: seq<Alert>, c: seq<Alert>, ts: real, k1: nat, k2: nat)
    requires Grows(a, b, ts, k1) && Grows(b, c, ts, k2)
    ensures Grows(a, c, ts, k1 + k2)
  {
    assert c[..|b|][..|a|] == c[..|a|];
    forall i | |a| <= i < |c| ensures c[i].tsEnd == ts {
      if i < |b| {
        assert c[i] == c[..|b|][i];
      }
    }
  }

  /** A detector branch appends at most one alert, stamped `ts`, and only when it triggers. */
  lemma ConsiderGrows(l: Ledger, apiPrefix: string, sessionId: string, p: PatternType, d: Option<Detection>,
                      ts: real, a: Attempt, pushOnFailure: bool)
    ensures var r := Consider(l, apiPrefix, sessionId, p, d, ts, a, pushOnFailure);
      && Grows(l.alerts, r.alerts, ts, 1)
      && (r.alerts != l.alerts ==> r.triggered)
      && (l.triggered ==> r.triggered)
  {
  }

  /** A detector branch keeps the cooldown: it only alerts on a pattern a cooldown after its last alert. */
  lemma ConsiderKeepsCooldown(l: Ledger, apiPrefix: string, sessionId: string, p: PatternType, d: Option<Detection>,
                              ts: real, a: Attempt, pushOnFailure: bool)
    requires CooldownKept(l.alerts, l.lastPatternTs)
    ensures var r := Consider(l, apiPrefix, sessionId, p, d, ts, a, pushOnFailure);
      CooldownKept(r.alerts, r.lastPatternTs)
  {
    var r := Consider(l, apiPrefix, sessionId, p, d, ts, a, pushOnFailure);
    if |r.alerts| > |l.alerts| {
      var n := |l.alerts|;
      assert r.alerts[n].patternType == p.Name() && r.alerts[n].tsEnd == ts;
      forall i | 0 <= i < n && r.alerts[i].patternType == p.Name()
        ensures r.alerts[n].tsEnd - r.alerts[i].tsEnd >= Cooldown
      {
        assert r.alerts[i] == l.alerts[i];
      }
    }
  }

  /** The fallback appends at most one alert, stamped `ts`, and only to an empty list when nothing triggered. */
  lemma FallbackGrows(l: Ledger, apiPrefix: string, sessionId: string, demoMode: bool,
                      window: seq<EventRecord>, ts: real, a: Attempt)
    ensures var r := Fallback(l, apiPrefix, sessionId, demoMode, window, ts, a);
      && Grows(l.alerts, r.alerts, ts, 1)
      && (r.alerts != l.alerts ==> l.alerts == [] && !l.triggered)
  {
  }

  /** The fallback keeps the cooldown. */
  lemma FallbackKeepsCooldown(l: Ledger, apiPrefix: string, sessionId: string, demoMode: bool,
                              window: seq<EventRecord>, ts: real, a: Attempt)
    requires CooldownKept(l.alerts, l.lastPatternTs)
    ensures var r := Fallback(l, apiPrefix, sessionId, demoMode, window, ts, a);
      CooldownKept(r.alerts, r.lastPatternTs)
  {
  }

  /** The three detector branches and the fallback, for any verdicts, keep the cooldown. */
  lemma ChainKeepsCooldown(start: Ledger, apiPrefix: string, sessionId: string, demoMode: bool,
                           d1: Option<Detection>, d2: Option<Detection>, d3: Option<Detection>,
                           window: seq<EventRecord>, ts: real, a: Attempts)
    requires CooldownKept(start.alerts, start.lastPatternTs)
    ensures var l1 := Consider(start, apiPrefix, sessionId, BuildUpBias, d1, ts, a.buildUp, false);
      var l2 := Consider(l1, apiPrefix, sessionId, TransitionRisk, d2, ts, a.transition, false);
      var l3 := Consider(l2, apiPrefix, sessionId, FinalThirdPressure, d3, ts, a.pressure, true);
      var r := Fallback(l3, apiPrefix, sessionId, demoMode, window, ts, a.fallback);
      CooldownKept(r.alerts, r.lastPatternTs)
  {
    var l1 := Consider(start, apiPrefix, sessionId, BuildUpBias, d1, ts, a.buildUp, false);
    ConsiderKeepsCooldown(start, apiPrefix, sessionId, BuildUpBias, d1, ts, a.buildUp, false);
    var l2 := Consider(l1, apiPrefix, sessionId, TransitionRisk, d2, ts, a.transition, false);
    ConsiderKeepsCooldown(l1, apiPrefix, sessionId, TransitionRisk, d2, ts, a.transition, false);
    var l3 := Consider(l2, apiPrefix, sessionId, FinalThirdPressure, d3, ts, a.pressure, true);
    ConsiderKeepsCooldown(l2, apiPrefix, sessionId, FinalThirdPressure, d3, ts, a.pressure, true);
    FallbackKeepsCooldown(l3, apiPrefix, sessionId, demoMode, window, ts, a.fallback);
  }

  /**
   * The three detector branches and the fallback append at most three alerts, all
   * stamped `ts`: the fallback only fires when no branch did.
   */
  lemma ChainGrows(start: Ledger, apiPrefix: string, sessionId: string, demoMode: bool,
                   d1: Option<Detection>, d2: Option<Detection>, d3: Option<Detection>,
                   window: seq<EventRecord>, ts: real, a: Attempts)
    requires !start.triggered
    ensures var l1 := Consider(start, apiPrefix, sessionId, BuildUpBias, d1, ts, a.buildUp, false);
      var l2 := Consider(l1, apiPrefix, sessionId, TransitionRisk, d2, ts, a.transition, false);
      var l3 := Consider(l2, apiPrefix, sessionId, FinalThirdPressure, d3, ts, a.pressure, true);
      var r := Fallback(l3, apiPrefix, sessionId, demoMode, window, ts, a.fallback);
      Grows(start.alerts, r.alerts, ts, 3)
  {
    var l1 := Consider(start, apiPrefix, sessionId, BuildUpBias, d1, ts, a.buildUp, false);
    ConsiderGrows(start, apiPrefix, sessionId, BuildUpBias, d1, ts, a.buildUp, false);
    var l2 := Consider(l1, apiPrefix, sessionId, TransitionRisk, d2, ts, a.transition, false);
    ConsiderGrows(l1, apiPrefix, sessionId, TransitionRisk, d2, ts, a.transition, false);
    var l3 := Consider(l2, apiPrefix, sessionId, FinalThirdPressure, d3, ts, a.pressure, true);
    ConsiderGrows(l2, apiPrefix, sessionId, FinalThirdPressure, d3, ts, a.pressure, true);
    var r := Fallback(l3, apiPrefix, sessionId, demoMode, window, ts, a.fallback);
    FallbackGrows(l3, apiPrefix, sessionId, demoMode, window, ts, a.fallback);
    GrowsTrans(start.alerts, l1.alerts, l2.alerts, ts, 1, 1);
    GrowsTrans(start.alerts, l2.alerts, l3.alerts, ts, 2, 1);
    if r.alerts != l3.alerts {
      assert l3.alerts == start.alerts;
    }
  }

  /** An evaluation appends at most three alerts, all stamped `ts`, and keeps the cooldown. */
  lemma EvaluateKeepsCooldown(apiPrefix: string, sessionId: string, demoMode: bool, alerts: seq<Alert>,
                              lastPatternTs: map<string, real>, window: seq<EventRecord>, ts: real, a: Attempts)
    requires CooldownKept(alerts, lastPatternTs)
    ensures var r := Evaluate(apiPrefix, sessionId, demoMode, alerts, lastPatternTs, window, ts, a);
      CooldownKept(r.alerts, r.lastPatternTs) && Grows(alerts, r.alerts, ts, 3)
  {
    ChainKeepsCooldown(Ledger(alerts, lastPatternTs, [], [], false), apiPrefix, sessionId, demoMode,
                       DetectBuildUpBias(window), DetectTransitionRisk(window), DetectFinalThirdPressure(window),
                       window, ts, a);
    ChainGrows(Ledger(alerts, lastPatternTs, [], [], false), apiPrefix, sessionId, demoMode,
               DetectBuildUpBias(window), DetectTransitionRisk(window), DetectFinalThirdPressure(window),
               window, ts, a);
  }

  /** With no detector firing, the evaluation is the fallback alone. */
  lemma FallbackOnlyWhenQuiet(apiPrefix: string, sessionId: string, demoMode: bool, alerts: seq<Alert>,
                              lastPatternTs: map<string, real>, window: seq<EventRecord>, ts: real, a: Attempts)
    requires DetectBuildUpBias(window).None? && DetectTransitionRisk(window).None? && DetectFinalThirdPressure(window).None?
    ensures var r := Evaluate(apiPrefix, sessionId, demoMode, alerts, lastPatternTs, window, ts, a);
      r.alerts == alerts + (if alerts == [] && window != [] && ts >= FallbackAfter && a.fallback.failure.None?
                            then [TryCreateAlert(apiPrefix, sessionId, ts, BuildUpBias, Medium, FallbackMetrics(window, demoMode), a.fallback).value]
                            else [])
  {
  }
}

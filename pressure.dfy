/**
 * `extract_pressure_features` of the StatsBomb integration script: six pressure features
 * of one event list. The events are sorted by a time key, the pressure events are
 * counted, the ones in the last `time_window` seconds are counted again, and the
 * longest run of pressure events at most 5 s apart gives the intensity.
 */
module Pressure {
  import opened Wrappers
  import Seqs
  import Sorting

  /** The first two `:`-separated fields of a string `timestamp`, already read as numbers. */
  datatype Stamp = Stamp(first: real, second: real)

  /**
   * One StatsBomb event dictionary, reduced to the keys the feature extraction reads.
   * `minute`/`second` are `None` when the key is absent; `stamp` is `None` when
   * `timestamp` is absent or not a string; the two flags say whether the value under
   * `under_pressure` / `counterpress` `is True`.
   */
  datatype StatsEvent = StatsEvent(
    minute: Option<real>,
    second: Option<real>,
    stamp: Option<Stamp>,
    underPressure: bool,
    counterpress: bool)

  /** The six features, all `0.0` by default. */
  datatype PressureFeatures = PressureFeatures(
    pressureEventCount: real,
    underPressureCount: real,
    counterpressCount: real,
    pressureRate: real,
    recentPressureCount: real,
    pressureIntensity: real)

  const NoFeatures := PressureFeatures(0.0, 0.0, 0.0, 0.0, 0.0, 0.0)

  /** Pressure events closer than this many seconds belong to the same run. */
  const RunGap: real := 5.0

  /** `e.get("minute", 0) * 60 + e.get("second", 0)`. */
  function ClockTime(e: StatsEvent): real {
    e.minute.GetOr(0.0) * 60.0 + e.second.GetOr(0.0)
  }

  /** The sort key: the clock time when `minute` is present, else the timestamp, else 0. */
  function SortKey(e: StatsEvent): real {
    if e.minute.Some? then ClockTime(e)
    else if e.stamp.Some? then e.stamp.value.first * 60.0 + e.stamp.value.second
    else 0.0
  }

  predicate KeyLe(a: StatsEvent, b: StatsEvent) {
    SortKey(a) <= SortKey(b)
  }

  lemma KeyLeOrder()
    ensures Sorting.TotalPreorder(KeyLe)
  {
  }

  predicate IsUnderPressure(e: StatsEvent) { e.underPressure }

  predicate IsCounterpress(e: StatsEvent) { e.counterpress }

  predicate IsPressure(e: StatsEvent) { e.underPressure || e.counterpress }

  /** `sorted(events, key=...)`: a stable sort by `SortKey`. */
  function SortedEvents(events: seq<StatsEvent>): seq<StatsEvent> {
    Sorting.SortBy(events, KeyLe)
  }

  /** `pressure_events`: the pressure events in sorted order. */
  function PressureEvents(events: seq<StatsEvent>): seq<StatsEvent> {
    Seqs.Filter(SortedEvents(events), IsPressure)
  }

  /** The recency test: an event without `minute` always passes. */
  predicate IsRecent(e: StatsEvent, lastTime: real, timeWindow: real) {
    e.minute.Some? ==> ClockTime(e) >= lastTime - timeWindow
  }

  /** `recent_pressure`, given a non-empty event list; `last_time` is the last sorted key. */
  function RecentPressure(events: seq<StatsEvent>, timeWindow: real): seq<StatsEvent>
    requires events != []
  {
    var sorted := SortedEvents(events);
    var lastTime := SortKey(sorted[|sorted| - 1]);
    Seqs.Filter(PressureEvents(events), e => IsRecent(e, lastTime, timeWindow))
  }

  // ---- the run grouping of `pressure_intensity` ----

  /** Event `j` continues the run of event `j - 1`. */
  predicate Chained(ps: seq<StatsEvent>, j: nat)
    requires 0 < j < |ps|
  {
    ClockTime(ps[j]) - ClockTime(ps[j - 1]) <= RunGap
  }

  /** The length of the run that event `j` closes so far. */
  function RunLen(ps: seq<StatsEvent>, j: nat): (n: nat)
    requires j < |ps|
    ensures 1 <= n <= j + 1
  {
    if j == 0 || !Chained(ps, j) then 1 else RunLen(ps, j - 1) + 1
  }

  /** The longest run among the first `n` events. */
  function LongestRun(ps: seq<StatsEvent>, n: nat): (m: nat)
    requires 1 <= n <= |ps|
    ensures 1 <= m <= n
  {
    if n == 1 then RunLen(ps, 0)
    else Max(LongestRun(ps, n - 1), RunLen(ps, n - 1))
  }

  function Max(a: nat, b: nat): nat { if a < b then b else a }

  /** `max(groups)` for a non-empty list, `0` for an empty one. */
  function MaxOr0(groups: seq<nat>): nat {
    if groups == [] then 0 else Max(MaxOr0(groups[..|groups| - 1]), groups[|groups| - 1])
  }

  /** The intensity: the longest run when there are at least two events and it has size > 1, else 0. */
  function Intensity(ps: seq<StatsEvent>): nat {
    if |ps| <= 1 then 0
    else
      var longest := LongestRun(ps, |ps|);
      if longest > 1 then longest else 0
  }

  /** Every feature of `extract_pressure_features(events, time_window)`. */
  function FeaturesOf(events: seq<StatsEvent>, timeWindow: real): PressureFeatures {
    if events == [] then NoFeatures
    else
      var sorted := SortedEvents(events);
      var pressure := PressureEvents(events);
      PressureFeatures(
        |pressure| as real,
        |Seqs.Filter(sorted, IsUnderPressure)| as real,
        |Seqs.Filter(sorted, IsCounterpress)| as real,
        |pressure| as real / |sorted| as real,
        |RecentPressure(events, timeWindow)| as real,
        Intensity(pressure) as real)
  }

  /** The grouping loop, run over the pressure events. */
  method PressureIntensity(ps: seq<StatsEvent>) returns (intensity: nat)
    ensures intensity == Intensity(ps)
  {
    if |ps| <= 1 {
      return 0;
    }
    var groups: seq<nat> := [];
    var current := [ps[0]];
    var i := 1;
    while i < |ps|
      invariant 1 <= i <= |ps|
      invariant 1 <= |current| <= i
      invariant |current| == RunLen(ps, i - 1)
      invariant current == ps[i - |current|..i]
      invariant forall g :: g in groups ==> g > 1
      invariant Max(MaxOr0(groups), |current|) == LongestRun(ps, i)
    {
      if ClockTime(ps[i]) - ClockTime(ps[i - 1]) <= RunGap {
        current := current + [ps[i]];
      } else {
        if |current| > 1 {
          assert (groups + [|current|])[..|groups|] == groups;
          groups := groups + [|current|];
        }
        current := [ps[i]];
      }
      i := i + 1;
    }
    if |current| > 1 {
      assert (groups + [|current|])[..|groups|] == groups;
      groups := groups + [|current|];
    } else {
      MaxOr0Members(groups);
    }
    intensity := MaxOr0(groups);
  }

  lemma {:induction false} MaxOr0Members(groups: seq<nat>)
    ensures MaxOr0(groups) == 0 || MaxOr0(groups) in groups
  {
    if groups != [] {
      var init := groups[..|groups| - 1];
      MaxOr0Members(init);
      assert forall g :: g in init ==> g in groups;
    }
  }

  /** `extract_pressure_features(events, time_window)`. */
  method ExtractPressureFeatures(events: seq<StatsEvent>, timeWindow: real) returns (f: PressureFeatures)
    ensures f == FeaturesOf(events, timeWindow)
  {
    f := NoFeatures;
    if events == [] {
      return;
    }
    var sorted := SortedEvents(events);
    var pressure := Seqs.Filter(sorted, IsPressure);
    var intensity := 0;
    if |pressure| > 1 {
      intensity := PressureIntensity(pressure);
    }
    var lastTime := SortKey(sorted[|sorted| - 1]);
    f := PressureFeatures(
      |pressure| as real,
      |Seqs.Filter(sorted, IsUnderPressure)| as real,
      |Seqs.Filter(sorted, IsCounterpress)| as real,
      |pressure| as real / |sorted| as real,
      |Seqs.Filter(pressure, e => IsRecent(e, lastTime, timeWindow))| as real,
      intensity as real);
  }

  // ---- properties ----

  /** An empty event list gives all six features as 0.0. */
  lemma EmptyGivesZeros(timeWindow: real)
    ensures FeaturesOf([], timeWindow) == PressureFeatures(0.0, 0.0, 0.0, 0.0, 0.0, 0.0)
  {
  }

  /** Filtered counts depend only on which events there are, not on their order. */
  lemma {:induction false} FilterCountOrderFree<T>(a: seq<T>, b: seq<T>, p: T -> bool)
    requires multiset(a) == multiset(b)
    ensures |Seqs.Filter(a, p)| == |Seqs.Filter(b, p)|
    decreases |a|
  {
    if a == [] {
      assert |b| == |multiset(b)| == 0;
    } else {
      var n := |a| - 1;
      var x := a[n];
      assert x in multiset(b);
      var i :| 0 <= i < |b| && b[i] == x;
      var rest := b[..i] + b[i + 1..];
      Sorting.MultisetRemove(a, n);
      Sorting.MultisetRemove(b, i);
      assert a[..n] + a[n + 1..] == a[..n];
      assert a == a[..n] + [x];
      assert b == b[..i] + [x] + b[i + 1..];
      FilterCountOrderFree(a[..n], rest, p);
      Seqs.FilterAppend(b[..i], [x], p);
      Seqs.FilterAppend(b[..i] + [x], b[i + 1..], p);
      Seqs.FilterAppend(b[..i], b[i + 1..], p);
      assert Seqs.Filter([x], p) == Seqs.Filter([], p) + (if p(x) then [x] else []);
    }
  }

  /**
   * The three counts are counts over the events as given: sorting changes nothing. The
   * pressure count is at most the number of events and at least each single count, and
   * under-pressure plus counterpress events number at least the pressure events.
   */
  lemma CountsBounded(events: seq<StatsEvent>, timeWindow: real)
    requires events != []
    ensures var f := FeaturesOf(events, timeWindow);
      && f.pressureEventCount == |Seqs.Filter(events, IsPressure)| as real
      && f.underPressureCount == |Seqs.Filter(events, IsUnderPressure)| as real
      && f.counterpressCount == |Seqs.Filter(events, IsCounterpress)| as real
      && f.underPressureCount <= f.pressureEventCount <= |events| as real
      && f.counterpressCount <= f.pressureEventCount
      && f.pressureEventCount <= f.underPressureCount + f.counterpressCount
  {
    var sorted := SortedEvents(events);
    FilterCountOrderFree(sorted, events, IsPressure);
    FilterCountOrderFree(sorted, events, IsUnderPressure);
    FilterCountOrderFree(sorted, events, IsCounterpress);
    Seqs.FilterWeaker(events, IsUnderPressure, IsPressure);
    Seqs.FilterWeaker(events, IsCounterpress, IsPressure);
    UnionCount(events);
  }

  lemma {:induction false} UnionCount(s: seq<StatsEvent>)
    ensures |Seqs.Filter(s, IsPressure)|
      <= |Seqs.Filter(s, IsUnderPressure)| + |Seqs.Filter(s, IsCounterpress)|
  {
    if s != [] {
      UnionCount(s[..|s| - 1]);
    }
  }

  /** The pressure rate is the pressure share of the events and lies in [0, 1]. */
  lemma RateInUnitInterval(events: seq<StatsEvent>, timeWindow: real)
    requires events != []
    ensures var f := FeaturesOf(events, timeWindow);
      && f.pressureRate == f.pressureEventCount / |events| as real
      && 0.0 <= f.pressureRate <= 1.0
  {
    var sorted := SortedEvents(events);
    assert |multiset(sorted)| == |multiset(events)|;
    CountsBounded(events, timeWindow);
    var f := FeaturesOf(events, timeWindow);
    ShareInUnit(f.pressureEventCount, |events| as real);
  }

  lemma ShareInUnit(part: real, whole: real)
    requires 0.0 <= part <= whole && whole > 0.0
    ensures 0.0 <= part / whole <= 1.0
  {
    assert part / whole * whole == part;
  }

  /**
   * The recent count is at most the pressure count, and every pressure event without a
   * `minute` is among the recent ones, whatever the window.
   */
  lemma RecentBounded(events: seq<StatsEvent>, timeWindow: real)
    requires events != []
    ensures var f := FeaturesOf(events, timeWindow);
      && f.recentPressureCount <= f.pressureEventCount
      && |Seqs.Filter(PressureEvents(events), NoMinute)| as real <= f.recentPressureCount
  {
    var sorted := SortedEvents(events);
    var lastTime := SortKey(sorted[|sorted| - 1]);
    var recent := e => IsRecent(e, lastTime, timeWindow);
    Seqs.FilterWeaker(PressureEvents(events), NoMinute, recent);
    assert |Seqs.Filter(PressureEvents(events), recent)| <= |PressureEvents(events)|;
  }

  predicate NoMinute(e: StatsEvent) { e.minute.None? }

  /** Event `b` ends a chained stretch that starts at event `a`. */
  predicate ChainedFrom(ps: seq<StatsEvent>, a: nat, b: nat)
    requires a <= b < |ps|
  {
    forall k :: a < k <= b ==> Chained(ps, k)
  }

  /** A chained stretch ending at `b` is no longer than the run `b` closes. */
  lemma {:induction false} RunCoversChain(ps: seq<StatsEvent>, a: nat, b: nat)
    requires a <= b < |ps| && ChainedFrom(ps, a, b)
    ensures b - a + 1 <= RunLen(ps, b)
  {
    if a < b {
      RunCoversChain(ps, a, b - 1);
    }
  }

  /** The run `j` closes is a chained stretch. */
  lemma {:induction false} RunIsChain(ps: seq<StatsEvent>, j: nat)
    requires j < |ps|
    ensures ChainedFrom(ps, j + 1 - RunLen(ps, j), j)
  {
    if j > 0 && Chained(ps, j) {
      RunIsChain(ps, j - 1);
    }
  }

  lemma {:induction false} LongestCovers(ps: seq<StatsEvent>, n: nat, j: nat)
    requires j < n <= |ps|
    ensures RunLen(ps, j) <= LongestRun(ps, n)
  {
    if j < n - 1 {
      LongestCovers(ps, n - 1, j);
    }
  }

  lemma {:induction false} LongestAttained(ps: seq<StatsEvent>, n: nat) returns (j: nat)
    requires 1 <= n <= |ps|
    ensures j < n && RunLen(ps, j) == LongestRun(ps, n)
  {
    if n == 1 {
      j := 0;
    } else if LongestRun(ps, n - 1) < RunLen(ps, n - 1) {
      j := n - 1;
    } else {
      j := LongestAttained(ps, n - 1);
    }
  }

  /**
   * The intensity is the length of the longest stretch of at least two pressure events
   * whose consecutive clock times are at most 5 s apart, and 0 when no such stretch exists.
   */
  lemma IntensityIsLongestRun(ps: seq<StatsEvent>)
    ensures Intensity(ps) != 1
    ensures forall a: nat, b: nat :: a < b < |ps| && ChainedFrom(ps, a, b) ==> b - a + 1 <= Intensity(ps)
    ensures Intensity(ps) > 0 ==>
      exists a: nat, b: nat :: a < b < |ps| && ChainedFrom(ps, a, b) && b - a + 1 == Intensity(ps)
  {
    forall a: nat, b: nat | a < b < |ps| && ChainedFrom(ps, a, b)
      ensures b - a + 1 <= Intensity(ps)
    {
      RunCoversChain(ps, a, b);
      LongestCovers(ps, |ps|, b);
    }
    if Intensity(ps) > 0 {
      var j := LongestAttained(ps, |ps|);
      RunIsChain(ps, j);
      var a := j + 1 - RunLen(ps, j);
      assert a < j < |ps| && ChainedFrom(ps, a, j) && j - a + 1 == Intensity(ps);
    }
  }
}

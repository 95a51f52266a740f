/**
 * The event-log replay source (backend/app/services/ingest/events.py): the rows of one
 * game, sorted by time, handed out one per `read_frame` with the pause the replay
 * sleeps before returning it. The CSV file is a `Csv.CsvFile`; the sleep is returned.
 */
module EventIngest {
  import opened Wrappers
  import opened Csv
  import opened Schemas
  import PyValue
  import PyNum
  import Text
  import Sorting
  import Seqs

  /** `_try_float`: `None` for a missing or empty cell and for text `float()` rejects. */
  function TryFloat(value: Option<string>): (r: Option<real>)
    ensures value.None? || value.value == "" ==> r.None?
    ensures value.Some? && value.value != "" ==>
      r == (match PyNum.ParseFloat(value.value) case Finite(v) => Some(v) case _ => None)
  {
    if value.None? || value.value == "" then None
    else match PyNum.ParseFloat(value.value)
      case Finite(v) => Some(v)
      case _ => None
  }

  /** `_try_int`: `None` for a missing or empty cell and for text `int()` rejects. */
  function TryInt(value: Option<string>): (r: Option<int>)
    ensures value.None? || value.value == "" ==> r.None?
    ensures value.Some? && value.value != "" ==> r == PyNum.ParseInt(value.value)
  {
    if value.None? || value.value == "" then None else PyNum.ParseInt(value.value)
  }

  /** The text of an integer reads back through both parsers. */
  lemma TryParseIntText(n: int)
    ensures TryInt(Some(Text.IntToText(n))) == Some(n)
    ensures TryFloat(Some(Text.IntToText(n))) == Some(n as real)
  {
    PyNum.IntTextRoundTrip(n);
    PyNum.FloatOfIntText(n);
  }

  /** The second half of the sort key, `action_id or 0`. */
  function ActionKey(e: EventRecord): int {
    PyValue.IntOr(e.actionId, 0)
  }

  /** The order of the key `(time_seconds, action_id or 0)`. */
  predicate EventLe(a: EventRecord, b: EventRecord) {
    a.timeSeconds < b.timeSeconds || (a.timeSeconds == b.timeSeconds && ActionKey(a) <= ActionKey(b))
  }

  lemma EventLeTotalPreorder()
    ensures Sorting.TotalPreorder(EventLe)
  {
  }

  /**
   * `float(row.get("time_seconds", 0.0))`: a missing column reads as 0.0, bad text raises.
   * Event times are finite here, so "nan" and "inf" text reads as `None` as well.
   */
  function TimeOf(row: Row): (t: Option<real>)
    ensures "time_seconds" !in row ==> t == Some(0.0)
    ensures "time_seconds" in row && PyNum.ParseFloat(row["time_seconds"]).Finite? ==>
      t == Some(PyNum.ParseFloat(row["time_seconds"]).value)
    ensures "time_seconds" in row && PyNum.ParseFloat(row["time_seconds"]).Invalid? ==> t.None?
    ensures "time_seconds" in row && PyNum.ParseFloat(row["time_seconds"]).NonFinite? ==> t.None?
  {
    if "time_seconds" !in row then Some(0.0)
    else match PyNum.ParseFloat(row["time_seconds"])
      case Finite(v) => Some(v)
      case _ => None
  }

  /** The `EventRecord` of a row, or `None` where building it raises `ValueError`. */
  function ParseRow(row: Row): (r: Option<EventRecord>)
    ensures r.Some? <==> TimeOf(row).Some?
    ensures r.Some? ==> r.value.gameId == GetText(row, "game_id") && r.value.timeSeconds == TimeOf(row).value
  {
    match TimeOf(row)
    case None => None
    case Some(t) =>
      Some(EventRecord(
        GetText(row, "game_id"),
        TryInt(Get(row, "game_episode")),
        TryInt(Get(row, "action_id")),
        t,
        GetText(row, "type_name"),
        GetText(row, "result_name"),
        TryFloat(Get(row, "start_x")),
        TryFloat(Get(row, "start_y")),
        TryFloat(Get(row, "end_x")),
        TryFloat(Get(row, "end_y"))))
  }

  /** The record a row contributes to game `gameId`: none for another game or a bad row. */
  function Pick(row: Row, gameId: string): (r: Option<EventRecord>)
    ensures r.Some? ==> r.value.gameId == gameId
  {
    if Get(row, "game_id") == Some(gameId) then ParseRow(row) else None
  }

  /** The records of game `gameId`, in file order, skipping rows that fail to build. */
  function Selected(rows: seq<Row>, gameId: string): seq<EventRecord> {
    Seqs.Collect(rows, row => Pick(row, gameId))
  }

  /**
   * A record is selected exactly when some row of the game builds into it: rows of
   * other games and rows whose time does not parse are skipped.
   */
  lemma SelectedSpec(rows: seq<Row>, gameId: string, e: EventRecord)
    ensures |Selected(rows, gameId)| <= |rows|
    ensures e in Selected(rows, gameId) ==> e.gameId == gameId
    ensures e in Selected(rows, gameId) <==>
      exists i :: 0 <= i < |rows| && Get(rows[i], "game_id") == Some(gameId) && ParseRow(rows[i]) == Some(e)
  {
    Seqs.CollectMember(rows, row => Pick(row, gameId), e);
    if e in Selected(rows, gameId) {
      var i :| 0 <= i < |rows| && Pick(rows[i], gameId) == Some(e);
    }
  }

  /** The events `open` loads: the game's records, stably sorted by the key. */
  function LoadedEvents(rows: seq<Row>, gameId: string): seq<EventRecord> {
    Sorting.SortBy(Selected(rows, gameId), EventLe)
  }

  /** The loaded events are sorted, are the game's records, and keep file order among equal keys. */
  lemma LoadedEventsSpec(rows: seq<Row>, gameId: string, k: EventRecord)
    ensures Sorting.SortedBy(LoadedEvents(rows, gameId), EventLe)
    ensures multiset(LoadedEvents(rows, gameId)) == multiset(Selected(rows, gameId))
    ensures forall e :: e in LoadedEvents(rows, gameId) ==> e.gameId == gameId
    ensures Sorting.Tied(LoadedEvents(rows, gameId), EventLe, k) == Sorting.Tied(Selected(rows, gameId), EventLe, k)
  {
    EventLeTotalPreorder();
    Sorting.SortBySorted(Selected(rows, gameId), EventLe);
    Sorting.SortByStable(Selected(rows, gameId), EventLe, k);
    forall e | e in LoadedEvents(rows, gameId) ensures e.gameId == gameId {
      assert e in multiset(LoadedEvents(rows, gameId));
      SelectedSpec(rows, gameId, e);
    }
  }

  /** The pause before a frame: the scaled gap to the previous frame, capped at 0.2 s. */
  function Pause(last: Option<real>, current: real, speed: real): (p: real)
    requires speed > 0.0
    ensures 0.0 <= p <= 0.2
    ensures last.None? ==> p == 0.0
    ensures last.Some? && (current - last.value) / speed > 0.0 ==>
      p == if (current - last.value) / speed < 0.2 then (current - last.value) / speed else 0.2
    ensures last.Some? && current <= last.value ==> p == 0.0
  {
    if last.None? then 0.0
    else
      var delta := (current - last.value) / speed;
      if delta > 0.0 then (if delta < 0.2 then delta else 0.2) else 0.0
  }

  class EventIngestSource {
    const csvPath: string
    const gameId: string
    const playbackSpeed: real
    var events: seq<EventRecord>
    var cursor: nat
    var lastTs: Option<real>

    /** The events are in key order and `lastTs` is the time of the last frame handed out. */
    ghost predicate Valid()
      reads this
    {
      && playbackSpeed > 0.0
      && cursor <= |events|
      && Sorting.SortedBy(events, EventLe)
      && lastTs == (if cursor == 0 then None else Some(events[cursor - 1].timeSeconds))
    }

    constructor (csvPath: string, gameId: string, playbackSpeed: real)
      ensures Valid()
      ensures this.csvPath == csvPath && this.gameId == gameId
      ensures this.playbackSpeed == if playbackSpeed > 0.0 then playbackSpeed else 1.0
      ensures events == [] && cursor == 0 && lastTs.None?
    {
      this.csvPath := csvPath;
      this.gameId := gameId;
      this.playbackSpeed := if playbackSpeed > 0.0 then playbackSpeed else 1.0;
      events := [];
      cursor := 0;
      lastTs := None;
    }

    /** `open()`: load the game's events and rewind; a missing file raises and changes nothing. */
    method Open(fs: FileSystem) returns (r: Outcome<string>)
      requires Valid()
      modifies this
      ensures Valid()
      ensures csvPath !in fs ==> r == Fail(NoSuchFile(csvPath)) && unchanged(this)
      ensures csvPath in fs ==>
        r.Pass? && events == LoadedEvents(fs[csvPath].rows, gameId) && cursor == 0 && lastTs.None?
    {
      if csvPath !in fs {
        return Fail(NoSuchFile(csvPath));
      }
      var rows := fs[csvPath].rows;
      var loaded: seq<EventRecord> := [];
      var i := 0;
      while i < |rows|
        invariant 0 <= i <= |rows|
        invariant loaded == Selected(rows[..i], gameId)
      {
        assert rows[..i + 1][..i] == rows[..i];
        if Get(rows[i], "game_id") == Some(gameId) {
          var built := ParseRow(rows[i]);
          if built.Some? {
            loaded := loaded + [built.value];
          }
        }
        assert loaded == Selected(rows[..i + 1], gameId);
        i := i + 1;
      }
      assert rows[..i] == rows;
      EventLeTotalPreorder();
      Sorting.SortBySorted(loaded, EventLe);
      events := Sorting.SortBy(loaded, EventLe);
      cursor := 0;
      lastTs := None;
      return Pass;
    }

    /**
     * `read_frame()`: the next event and its time, or `None` at the end. `pause` is
     * how long the replay sleeps before returning the frame.
     */
    method ReadFrame() returns (frame: Option<(EventRecord, real)>, pause: real)
      requires Valid()
      modifies this
      ensures Valid() && events == old(events)
      ensures frame.None? <==> old(cursor) >= |events|
      ensures frame.None? ==> cursor == old(cursor) && lastTs == old(lastTs) && pause == 0.0
      ensures frame.Some? ==>
        && frame.value == (events[old(cursor)], events[old(cursor)].timeSeconds)
        && cursor == old(cursor) + 1
        && lastTs == Some(frame.value.1)
        && pause == Pause(old(lastTs), frame.value.1, playbackSpeed)
      ensures frame.Some? && old(lastTs).Some? ==> old(lastTs).value <= frame.value.1
      ensures 0.0 <= pause <= 0.2
    {
      if cursor >= |events| {
        return None, 0.0;
      }
      var event := events[cursor];
      cursor := cursor + 1;
      var current := event.timeSeconds;
      pause := Pause(lastTs, current, playbackSpeed);
      if cursor > 1 {
        assert EventLe(events[cursor - 2], events[cursor - 1]);
      }
      lastTs := Some(current);
      frame := Some((event, current));
    }

    /** `close()`: drop the events, so every later read returns `None`. */
    method Close()
      requires Valid()
      modifies this
      ensures Valid()
      ensures events == [] && cursor == 0 && lastTs.None?
    {
      events := [];
      cursor := 0;
      lastTs := None;
    }
  }
}

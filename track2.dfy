/**
 * The Track2 data-file checks and the game listing (backend/app/services/data/track2.py).
 * A file is a `Csv.CsvFile` in a `Csv.FileSystem`; an `HTTPException` is an `HttpError`.
 */
module Track2 {
  import opened Wrappers
  import opened Text
  import opened Csv
  import opened PyValue
  import Sorting
  import Config

  /** The columns the raw event log must have. */
  const RequiredEventColumns: seq<string> := [
    "game_id", "game_episode", "action_id", "time_seconds", "type_name",
    "result_name", "start_x", "start_y", "end_x", "end_y"]

  predicate Distinct(s: seq<string>) {
    forall i, j :: 0 <= i < j < |s| ==> s[i] != s[j]
  }

  lemma RequiredColumnsExact()
    ensures |RequiredEventColumns| == 10 && Distinct(RequiredEventColumns)
    ensures (set c | c in RequiredEventColumns) == {"game_id", "game_episode", "action_id",
      "time_seconds", "type_name", "result_name", "start_x", "start_y", "end_x", "end_y"}
  {
  }

  datatype Track2Error = FileNotFound(message: string) | MissingColumns(message: string)

  datatype HttpError = HttpError(statusCode: int, detail: string)

  /** `str(exc)`. */
  function Message(e: Track2Error): string {
    e.message
  }

  /** The message of the `FileNotFoundError` that `_ensure_file` raises. */
  function FileMissing(tag: string, path: string): string {
    tag + " 파일이 존재하지 않습니다: " + path
  }

  /** The detail of the 404 for an unknown game. */
  function UnknownGame(gameId: string): string {
    "game_id '" + gameId + "'를 raw_data에서 찾을 수 없습니다."
  }

  /** `_ensure_file`. */
  function EnsureFile(fs: FileSystem, path: string, tag: string): (r: Outcome<Track2Error>)
    ensures r.Pass? <==> path in fs
    ensures r.Fail? ==> r.error == FileNotFound(FileMissing(tag, path))
  {
    if path in fs then Pass else Fail(FileNotFound(FileMissing(tag, path)))
  }

  /** `required - headers`, as the elements of `required` that are not headers. */
  function Missing(required: seq<string>, headers: seq<string>): (m: seq<string>)
    ensures forall c :: c in m <==> c in required && c !in headers
    ensures Distinct(required) ==> Distinct(m)
  {
    if required == [] then []
    else (if required[0] in headers then [] else [required[0]]) + Missing(required[1..], headers)
  }

  /** `sorted(missing)`. */
  function SortedMissing(required: seq<string>, headers: seq<string>): seq<string> {
    Sorting.SortBy(Missing(required, headers), LexLe)
  }

  lemma LexLeOrder()
    ensures Sorting.TotalPreorder(LexLe)
    ensures forall a, b :: LexLe(a, b) && LexLe(b, a) ==> a == b
  {
    forall a, b ensures LexLe(a, b) || LexLe(b, a) { LexLeTotal(a, b); }
    forall a, b, c | LexLe(a, b) && LexLe(b, c) ensures LexLe(a, c) { LexLeTransitive(a, b, c); }
    forall a, b | LexLe(a, b) && LexLe(b, a) ensures a == b { LexLeAntisymmetric(a, b); }
  }

  /** The sorted list names every missing column once, in string order. */
  lemma SortedMissingSpec(required: seq<string>, headers: seq<string>)
    requires Distinct(required)
    ensures var s := SortedMissing(required, headers);
      && Sorting.SortedBy(s, LexLe)
      && Distinct(s)
      && forall c :: c in s <==> c in required && c !in headers
  {
    var m := Missing(required, headers);
    var s := SortedMissing(required, headers);
    LexLeOrder();
    Sorting.SortBySorted(m, LexLe);
    DistinctMultiset(m);
    assert multiset(s) == multiset(m);
    forall c ensures c in s <==> c in m {
      assert c in s <==> c in multiset(s);
      assert c in m <==> c in multiset(m);
    }
    forall i, j | 0 <= i < j < |s| ensures s[i] != s[j] {
      if s[i] == s[j] {
        assert multiset(s)[s[i]] >= 2 by {
          MultisetTwice(s, i, j);
        }
      }
    }
  }

  lemma MultisetTwice(s: seq<string>, i: nat, j: nat)
    requires i < j < |s| && s[i] == s[j]
    ensures multiset(s)[s[i]] >= 2
  {
    assert s == s[..i] + [s[i]] + s[i + 1..j] + [s[j]] + s[j + 1..];
  }

  lemma {:induction false} DistinctMultiset(s: seq<string>)
    requires Distinct(s)
    ensures forall c :: multiset(s)[c] == if c in s then 1 else 0
  {
    if s != [] {
      DistinctMultiset(s[1..]);
      assert s == [s[0]] + s[1..];
      assert s[0] !in s[1..];
    }
  }

  /** The message depends only on the SET of required columns, not on how it is listed. */
  lemma SortedMissingSetOnly(r1: seq<string>, r2: seq<string>, headers: seq<string>)
    requires Distinct(r1) && Distinct(r2)
    requires forall c :: c in r1 <==> c in r2
    ensures SortedMissing(r1, headers) == SortedMissing(r2, headers)
  {
    var s1, s2 := SortedMissing(r1, headers), SortedMissing(r2, headers);
    SortedMissingSpec(r1, headers);
    SortedMissingSpec(r2, headers);
    SameMembersMultiset(s1, s2);
    LexLeOrder();
    Sorting.SortedUnique(s1, s2, LexLe);
  }

  lemma SameMembersMultiset(s1: seq<string>, s2: seq<string>)
    requires Distinct(s1) && Distinct(s2)
    requires forall c :: c in s1 <==> c in s2
    ensures multiset(s1) == multiset(s2)
  {
    DistinctMultiset(s1);
    DistinctMultiset(s2);
    forall c ensures multiset(s1)[c] == multiset(s2)[c] {}
  }

  /** `_ensure_columns`: the file must be readable and name every required column. */
  function EnsureColumns(fs: FileSystem, path: string, tag: string, required: seq<string>)
    : (r: Outcome<Track2Error>)
    ensures path !in fs ==> r == Fail(FileNotFound(NoSuchFile(path)))
    ensures path in fs ==>
      (r.Pass? <==> forall c :: c in required ==> c in fs[path].header)
    ensures path in fs && r.Fail? ==> r.error == MissingColumns(
      tag + "에 필요한 컬럼이 없습니다: " + Join(", ", SortedMissing(required, fs[path].header)))
  {
    if path !in fs then Fail(FileNotFound(NoSuchFile(path)))
    else
      var missing := Missing(required, fs[path].header);
      if missing != [] then
        assert missing[0] in missing;
        Fail(MissingColumns(tag + "에 필요한 컬럼이 없습니다: "
                             + Join(", ", SortedMissing(required, fs[path].header))))
      else
        assert forall c :: c in required ==> c in fs[path].header;
        Pass
  }

  datatype Track2Paths = Track2Paths(eventsDataPath: string, matchInfoPath: string)

  /** `validate_track2_data`: the events file, then the match file, then the columns. */
  function ValidateTrack2Data(fs: FileSystem, settings: Config.Settings): (r: Result<Track2Paths, Track2Error>)
    ensures r.Success? <==>
      && settings.eventsDataPath in fs
      && settings.matchInfoPath in fs
      && forall c :: c in RequiredEventColumns ==> c in fs[settings.eventsDataPath].header
    ensures r.Success? ==> r.value == Track2Paths(settings.eventsDataPath, settings.matchInfoPath)
    ensures settings.eventsDataPath !in fs ==>
      r == Failure(FileNotFound(FileMissing("Track2 raw_data", settings.eventsDataPath)))
    ensures settings.eventsDataPath in fs && settings.matchInfoPath !in fs ==>
      r == Failure(FileNotFound(FileMissing("Track2 match_info", settings.matchInfoPath)))
    ensures settings.eventsDataPath in fs && settings.matchInfoPath in fs && r.Failure? ==>
      r.error.MissingColumns?
  {
    match EnsureFile(fs, settings.eventsDataPath, "Track2 raw_data")
    case Fail(e) => Failure(e)
    case Pass =>
      match EnsureFile(fs, settings.matchInfoPath, "Track2 match_info")
      case Fail(e) => Failure(e)
      case Pass =>
        match EnsureColumns(fs, settings.eventsDataPath, "Track2 raw_data", RequiredEventColumns)
        case Fail(e) => Failure(e)
        case Pass => Success(Track2Paths(settings.eventsDataPath, settings.matchInfoPath))
  }

  /** `ensure_track2_ready`: every validation failure becomes an HTTP 500 with its message. */
  function EnsureTrack2Ready(fs: FileSystem, settings: Config.Settings): (r: Result<Track2Paths, HttpError>)
    ensures r.Success? <==> ValidateTrack2Data(fs, settings).Success?
    ensures r.Success? ==> r.value == ValidateTrack2Data(fs, settings).value
    ensures r.Failure? ==>
      r.error == HttpError(500, Message(ValidateTrack2Data(fs, settings).error))
  {
    match ValidateTrack2Data(fs, settings)
    case Success(paths) => Success(paths)
    case Failure(e) => Failure(HttpError(500, Message(e)))
  }

  /** Some row's `game_id` is exactly `gameId`. */
  predicate HasGame(rows: seq<Row>, gameId: string)
    ensures HasGame(rows, gameId) <==> exists i :: 0 <= i < |rows| && Get(rows[i], "game_id") == Some(gameId)
  {
    if rows == [] then false
    else if Get(rows[0], "game_id") == Some(gameId) then true
    else
      assert forall i :: 0 < i < |rows| ==> rows[i] == rows[1..][i - 1];
      HasGame(rows[1..], gameId)
  }

  /** `ensure_game_id_exists`. */
  function EnsureGameIdExists(fs: FileSystem, settings: Config.Settings, gameId: string): (r: Outcome<HttpError>)
    ensures settings.eventsDataPath !in fs ==>
      r == Fail(HttpError(500, FileMissing("Track2 raw_data", settings.eventsDataPath)))
    ensures settings.eventsDataPath in fs ==>
      (r.Pass? <==> exists i :: 0 <= i < |fs[settings.eventsDataPath].rows|
                                 && Get(fs[settings.eventsDataPath].rows[i], "game_id") == Some(gameId))
    ensures settings.eventsDataPath in fs && r.Fail? ==>
      r.error == HttpError(404, UnknownGame(gameId))
  {
    match EnsureFile(fs, settings.eventsDataPath, "Track2 raw_data")
    case Fail(e) => Fail(HttpError(500, Message(e)))
    case Pass =>
      if HasGame(fs[settings.eventsDataPath].rows, gameId) then Pass
      else Fail(HttpError(404, UnknownGame(gameId)))
  }

  /** The distinct non-empty game ids of `rows`, in order of first appearance. */
  function FirstSeen(rows: seq<Row>): seq<string> {
    if rows == [] then []
    else
      var earlier := FirstSeen(rows[..|rows| - 1]);
      var gid := Get(rows[|rows| - 1], "game_id");
      if Truthy(gid) && gid.value !in earlier then earlier + [gid.value] else earlier
  }

  lemma {:induction false} FirstSeenSpec(rows: seq<Row>)
    ensures Distinct(FirstSeen(rows))
    ensures forall g :: g in FirstSeen(rows) <==>
      exists i :: 0 <= i < |rows| && Get(rows[i], "game_id") == Some(g) && g != ""
  {
    if rows != [] {
      var init := rows[..|rows| - 1];
      FirstSeenSpec(init);
      forall g ensures g in FirstSeen(rows) <==>
        exists i :: 0 <= i < |rows| && Get(rows[i], "game_id") == Some(g) && g != ""
      {
        if g in FirstSeen(init) {
          var i :| 0 <= i < |init| && Get(init[i], "game_id") == Some(g) && g != "";
          assert rows[i] == init[i];
        }
        if exists i :: 0 <= i < |rows| && Get(rows[i], "game_id") == Some(g) && g != "" {
          var i :| 0 <= i < |rows| && Get(rows[i], "game_id") == Some(g) && g != "";
          if i < |init| { assert init[i] == rows[i]; }
        }
      }
    }
  }

  /** Listing the first `k` rows gives a prefix of listing them all. */
  lemma {:induction false} FirstSeenPrefix(rows: seq<Row>, k: nat)
    requires k <= |rows|
    ensures FirstSeen(rows[..k]) <= FirstSeen(rows)
    decreases |rows|
  {
    if k < |rows| {
      var init := rows[..|rows| - 1];
      assert init[..k] == rows[..k];
      FirstSeenPrefix(init, k);
    } else {
      assert rows[..k] == rows;
    }
  }

  /** How many ids a truthy `limit` lets through: the loop stops at the first length `>= limit`. */
  function Cap(limit: Option<int>): (c: Option<nat>)
    ensures c.Some? <==> limit.Some? && limit.value != 0
    ensures c.Some? ==> c.value >= 1 && (limit.value >= 1 ==> c.value == limit.value)
  {
    if limit.Some? && limit.value != 0 then Some(if limit.value < 1 then 1 else limit.value) else None
  }

  /** The ids `list_game_ids(limit)` returns. */
  function ListedIds(rows: seq<Row>, limit: Option<int>): seq<string> {
    var all := FirstSeen(rows);
    match Cap(limit)
    case None => all
    case Some(c) => if |all| <= c then all else all[..c]
  }

  /** The listed ids are distinct, non-empty, present in the log, in first-appearance order, and capped. */
  lemma ListedIdsSpec(rows: seq<Row>, limit: Option<int>)
    ensures var ids := ListedIds(rows, limit);
      && Distinct(ids)
      && ids <= FirstSeen(rows)
      && (forall g :: g in ids ==> g != "" && exists i :: 0 <= i < |rows| && Get(rows[i], "game_id") == Some(g))
      && (Cap(limit).None? ==> ids == FirstSeen(rows))
      && (Cap(limit).Some? ==> |ids| == if |FirstSeen(rows)| <= Cap(limit).value then |FirstSeen(rows)| else Cap(limit).value)
  {
    FirstSeenSpec(rows);
    var all, ids := FirstSeen(rows), ListedIds(rows, limit);
    forall g | g in ids ensures g in all {
      var k :| 0 <= k < |ids| && ids[k] == g;
      assert all[k] == g;
    }
  }

  datatype MatchInfo = MatchInfo(homeTeam: string, awayTeam: string, matchDate: string, stadium: string)

  datatype GameEntry = GameEntry(
    gameId: string, homeTeam: string, awayTeam: string, matchDate: string, stadium: string)

  function InfoOf(row: Row): MatchInfo {
    MatchInfo(GetText(row, "home_team"), GetText(row, "away_team"),
              GetText(row, "match_date"), GetText(row, "stadium"))
  }

  /** The match metadata by game id; a later row for the same game replaces an earlier one. */
  function MetaOf(rows: seq<Row>): map<string, MatchInfo> {
    if rows == [] then map[]
    else
      var earlier := MetaOf(rows[..|rows| - 1]);
      var gid := Get(rows[|rows| - 1], "game_id");
      if Truthy(gid) then earlier[gid.value := InfoOf(rows[|rows| - 1])] else earlier
  }

  /** The metadata of a game is that of the LAST match row naming it. */
  lemma {:induction false} MetaOfLastWins(rows: seq<Row>, i: nat)
    requires i < |rows|
    requires Truthy(Get(rows[i], "game_id"))
    requires forall j :: i < j < |rows| ==> Get(rows[j], "game_id") != Get(rows[i], "game_id")
    ensures Get(rows[i], "game_id").value in MetaOf(rows)
    ensures MetaOf(rows)[Get(rows[i], "game_id").value] == InfoOf(rows[i])
  {
    if i < |rows| - 1 {
      var init := rows[..|rows| - 1];
      assert init[i] == rows[i];
      forall j | i < j < |init| ensures Get(init[j], "game_id") != Get(init[i], "game_id") {
        assert init[j] == rows[j];
      }
      MetaOfLastWins(init, i);
    }
  }

  /** Games that no match row names get empty metadata. */
  lemma {:induction false} MetaOfKeys(rows: seq<Row>, g: string)
    requires forall j :: 0 <= j < |rows| ==> Get(rows[j], "game_id") != Some(g)
    ensures g !in MetaOf(rows)
  {
    if rows != [] {
      var init := rows[..|rows| - 1];
      forall j | 0 <= j < |init| ensures Get(init[j], "game_id") != Some(g) {
        assert init[j] == rows[j];
      }
      MetaOfKeys(init, g);
    }
  }

  function EntryFor(gid: string, meta: map<string, MatchInfo>): GameEntry {
    if gid in meta then
      GameEntry(gid, meta[gid].homeTeam, meta[gid].awayTeam, meta[gid].matchDate, meta[gid].stadium)
    else GameEntry(gid, "", "", "", "")
  }

  /** The first loop of `list_game_ids`: collect ids until the cap is reached. */
  method CollectGameIds(rows: seq<Row>, cap: Option<nat>) returns (gameIds: seq<string>)
    requires cap.Some? ==> cap.value >= 1
    ensures gameIds == match cap
      case None => FirstSeen(rows)
      case Some(c) => if |FirstSeen(rows)| <= c then FirstSeen(rows) else FirstSeen(rows)[..c]
  {
    gameIds := [];
    var seen: set<string> := {};
    var i := 0;
    while i < |rows|
      invariant 0 <= i <= |rows|
      invariant gameIds == FirstSeen(rows[..i])
      invariant forall g :: g in seen <==> g in gameIds
      invariant cap.Some? ==> |gameIds| < cap.value
    {
      var gid := Get(rows[i], "game_id");
      assert rows[..i + 1][..i] == rows[..i];
      if Truthy(gid) && gid.value !in seen {
        seen := seen + {gid.value};
        gameIds := gameIds + [gid.value];
        if cap.Some? && |gameIds| >= cap.value {
          FirstSeenPrefix(rows, i + 1);
          return;
        }
      }
      i := i + 1;
    }
    assert rows[..i] == rows;
  }

  /** The second loop of `list_game_ids`: the match metadata by game id. */
  method CollectMeta(rows: seq<Row>) returns (meta: map<string, MatchInfo>)
    ensures meta == MetaOf(rows)
  {
    meta := map[];
    var j := 0;
    while j < |rows|
      invariant 0 <= j <= |rows|
      invariant meta == MetaOf(rows[..j])
    {
      var gid := Get(rows[j], "game_id");
      assert rows[..j + 1][..j] == rows[..j];
      if Truthy(gid) {
        meta := meta[gid.value := InfoOf(rows[j])];
      }
      j := j + 1;
    }
    assert rows[..j] == rows;
  }

  /**
   * `list_game_ids(limit)`: distinct non-empty game ids in order of first appearance,
   * at most `Cap(limit)` of them, each with its match metadata or empty strings.
   */
  method ListGameIds(fs: FileSystem, settings: Config.Settings, limit: Option<int>)
    returns (r: Result<seq<GameEntry>, Track2Error>)
    ensures r.Failure? <==> settings.eventsDataPath !in fs
    ensures r.Failure? ==> r.error == FileNotFound(FileMissing("Track2 raw_data", settings.eventsDataPath))
    ensures r.Success? ==>
      var ids := ListedIds(fs[settings.eventsDataPath].rows, limit);
      var meta := if settings.matchInfoPath in fs then MetaOf(fs[settings.matchInfoPath].rows) else map[];
      && |r.value| == |ids|
      && forall k :: 0 <= k < |ids| ==> r.value[k] == EntryFor(ids[k], meta)
  {
    if settings.eventsDataPath !in fs {
      return Failure(FileNotFound(FileMissing("Track2 raw_data", settings.eventsDataPath)));
    }
    var gameIds := CollectGameIds(fs[settings.eventsDataPath].rows, Cap(limit));
    var meta: map<string, MatchInfo> := map[];
    if settings.matchInfoPath in fs {
      meta := CollectMeta(fs[settings.matchInfoPath].rows);
    }
    var result := Entries(gameIds, meta);
    return Success(result);
  }

  /** The final list comprehension of `list_game_ids`: one entry per id. */
  method Entries(ids: seq<string>, meta: map<string, MatchInfo>) returns (result: seq<GameEntry>)
    ensures |result| == |ids|
    ensures forall m :: 0 <= m < |ids| ==> result[m] == EntryFor(ids[m], meta)
  {
    result := [];
    var k := 0;
    while k < |ids|
      invariant 0 <= k <= |ids|
      invariant |result| == k
      invariant forall m :: 0 <= m < k ==> result[m] == EntryFor(ids[m], meta)
    {
      result := result + [EntryFor(ids[k], meta)];
      k := k + 1;
    }
  }
}

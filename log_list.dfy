/**
 * The client log list (pages/operations/log_list/index.tsx): the search
 * request built from the table's filters, the name a downloaded log is
 * saved under, deletion, and the platform tags.
 */
module LogList {
  import opened Optional
  import opened JsText
  import opened Api
  import opened Initials

  /** `LogItem`. */
  datatype LogItem = LogItem(userID: string, platform: string, url: string, createTime: int, nickname: string,
                             logID: string, filename: string, systemType: string, ex: string, version: string)

  /**
   * The table's search values. Each entry of `createTime` is the timestamp
   * `dayjs(entry).valueOf()` gives, `None` standing for an entry that is
   * not a date (NaN).
   */
  datatype SearchParams = SearchParams(current: Option<int>, pageSize: Option<int>, userID: Option<string>,
                                       createTime: Option<seq<Option<int>>>)

  /** `requestParams`: the page twice over, and the optional user and time range. */
  datatype LogQuery = LogQuery(current: int, pageSize: int, pageNumber: int, showNumber: int,
                               userID: Option<string>, startTime: Option<int>, endTime: Option<int>)

  /** A timestamp JavaScript treats as true: a number other than 0 and NaN. */
  predicate Truthy(t: Option<int>)
  {
    t.Some? && t.value != 0
  }

  /** The range is sent only when the picker holds two entries whose timestamps are both truthy. */
  function TimeRange(createTime: Option<seq<Option<int>>>): (range: Option<(int, int)>)
    ensures range.Some? <==> createTime.Some? && |createTime.value| == 2
                             && Truthy(createTime.value[0]) && Truthy(createTime.value[1])
    ensures range.Some? ==> range.value == (createTime.value[0].value, createTime.value[1].value)
  {
    if createTime.Some? && |createTime.value| == 2 && Truthy(createTime.value[0]) && Truthy(createTime.value[1])
    then Some((createTime.value[0].value, createTime.value[1].value))
    else None
  }

  /** `fetchClientLogs`'s request: page 1 of 10 by default, the user only when not blank. */
  function LogQueryFor(p: SearchParams): (q: LogQuery)
    ensures q.current == q.pageNumber == PageField(p.current, 1)
    ensures q.pageSize == q.showNumber == PageField(p.pageSize, 10)
    ensures q.userID.Some? <==> p.userID.Some? && !IsBlank(p.userID.value)
    ensures q.userID.Some? ==> q.userID == p.userID
    ensures q.startTime.Some? <==> TimeRange(p.createTime).Some?
    ensures q.startTime.Some? <==> q.endTime.Some?
    ensures q.startTime.Some? ==> (q.startTime.value, q.endTime.value) == TimeRange(p.createTime).value
  {
    var range := TimeRange(p.createTime);
    LogQuery(PageField(p.current, 1), PageField(p.pageSize, 10), PageField(p.current, 1), PageField(p.pageSize, 10),
             if p.userID.Some? && !IsBlank(p.userID.value) then p.userID else None,
             if range.Some? then Some(range.value.0) else None,
             if range.Some? then Some(range.value.1) else None)
  }

  /** An empty search asks for the first page of ten with no filter. */
  lemma EmptySearch()
    ensures LogQueryFor(SearchParams(None, None, Some("  "), Some([Some(1), None]))) == LogQuery(1, 10, 1, 10, None, None, None)
  {
    assert IsBlank("  ") by {
      assert IsJsWhitespace("  "[0]) && IsJsWhitespace("  "[1]);
      BlankIffAllWhitespace("  ");
    }
  }

  /**
   * The notice a search ends with: none on success, `errMsg || …` on an
   * error code, and the retry text on an exception, which includes a
   * success envelope without `data`.
   */
  function SearchNotice(reply: Reply<Option<Page<LogItem>>>): (notice: Option<string>)
    ensures notice.None? <==> ToListResult(reply).success
    ensures reply.Answered? && reply.errCode != 0 ==> notice == Some(Or(reply.errMsg, "获取客户端日志列表失败"))
  {
    match reply
    case Threw(_) => Some("获取客户端日志列表失败，请重试")
    case Answered(code, msg, data) =>
      if code != 0 then Some(Or(msg, "获取客户端日志列表失败"))
      else if data.None? then Some("获取客户端日志列表失败，请重试")
      else None
  }

  /** `filename.split('/').pop() || \`log_${logID}.zip\``. */
  function DownloadName(filename: string, logID: string): (name: string)
    ensures name != ""
    ensures Last(Split(filename, '/')) != "" ==> name == Last(Split(filename, '/'))
  {
    Or(Last(Split(filename, '/')), "log_" + logID + ".zip")
  }

  /** The name is the last segment of a path; the fallback is used only for a path that ends in a slash or is empty. */
  lemma DownloadNameOfPath(dirs: seq<string>, base: string, logID: string)
    requires forall i :: 0 <= i < |dirs| ==> Excludes(dirs[i], '/')
    requires Excludes(base, '/')
    ensures DownloadName(Join(dirs + [base], "/"), logID) == (if base != "" then base else "log_" + logID + ".zip")
  {
    var parts := dirs + [base];
    assert forall i :: 0 <= i < |parts| ==> Excludes(parts[i], '/') by {
      forall i | 0 <= i < |parts|
        ensures Excludes(parts[i], '/')
      {
        if i < |dirs| {
          assert parts[i] == dirs[i];
        } else {
          assert parts[i] == base;
        }
      }
    }
    SplitJoin(parts, '/');
    assert "/" == ['/'];
    var split := Split(Join(parts, "/"), '/');
    assert split == parts;
    assert Last(split) == base;
  }

  /** The saved name never contains a slash, as long as the log's id has none. */
  lemma DownloadNameHasNoSlash(filename: string, logID: string)
    requires Excludes(logID, '/')
    ensures Excludes(DownloadName(filename, logID), '/')
  {
    var parts := Split(filename, '/');
    assert Excludes(parts[|parts| - 1], '/');
    var fallback := "log_" + logID + ".zip";
    forall i | 0 <= i < |fallback|
      ensures fallback[i] != '/'
    {
      if i < 4 {
        assert fallback[i] == "log_"[i];
      } else if i < 4 + |logID| {
        assert fallback[i] == logID[i - 4];
      } else {
        assert fallback[i] == ".zip"[i - 4 - |logID|];
      }
    }
  }

  /** `handleDelete`'s body: exactly the row's log. */
  function DeleteRequest(record: LogItem): (logIDs: seq<string>)
    ensures logIDs == [record.logID]
  {
    [record.logID]
  }

  /** The platform tag's colour; any platform outside the five known ones is `default`. */
  function PlatformColor(platform: string): (color: string)
    ensures platform == "Android" <==> color == "green"
    ensures platform == "iOS" <==> color == "blue"
    ensures platform == "Windows" <==> color == "cyan"
    ensures platform == "macOS" <==> color == "purple"
    ensures platform == "Web" <==> color == "orange"
    ensures color == "default" <==> platform !in {"Android", "iOS", "Windows", "macOS", "Web"}
  {
    match platform
    case "Android" => "green"
    case "iOS" => "blue"
    case "Windows" => "cyan"
    case "macOS" => "purple"
    case "Web" => "orange"
    case _ => "default"
  }

  /** The avatar letter: the nickname's first character in upper case, `'U'` without one. */
  function LogInitial(nickname: string): (r: string)
    ensures nickname == "" ==> r == "U"
    ensures nickname != "" ==> |r| == 1 && !IsAsciiLower(r[0])
    ensures nickname != "" ==> r == [AsciiUpper(nickname[0])]
  {
    PlainInitial(Or(nickname, "U"), "U")
  }
}

/** app/api/logs.py: the `/logs` filter and paging computation, and the page-number
    window of the `renderPagination` script served by `/logs/web`. */
module Logs {
  import opened Wrappers
  import opened Strings
  import opened Http

  // ---------------------------------------------------------------- query parameters

  /** The validated query of `get_logs`: `page >= 1` and `1 <= page_size <= 200`. */
  datatype LogsQuery = LogsQuery(page: int, pageSize: int) {
    predicate Valid() {
      page >= 1 && 1 <= pageSize <= 200
    }
  }

  type ValidLogsQuery = q: LogsQuery | q.Valid() witness LogsQuery(1, 50)

  /** Query validation: a missing value takes its default (page 1, page_size 50); a value
      out of range is rejected, naming the field. */
  function MakeLogsQuery(page: Option<int>, pageSize: Option<int>): (r: Result<ValidLogsQuery, seq<string>>)
    ensures r.Success? <==> page.GetOr(1) >= 1 && 1 <= pageSize.GetOr(50) <= 200
    ensures r.Success? ==> r.value.page == page.GetOr(1) && r.value.pageSize == pageSize.GetOr(50)
    ensures r.Failure? ==> |r.error| >= 1
  {
    var p := page.GetOr(1);
    var ps := pageSize.GetOr(50);
    var bad := (if p >= 1 then [] else ["page"]) + (if 1 <= ps <= 200 then [] else ["page_size"]);
    if bad == [] then Success(LogsQuery(p, ps)) else Failure(bad)
  }

  /** `offset = (page - 1) * page_size`. */
  function Offset(q: ValidLogsQuery): (r: nat)
    ensures q.page == 1 ==> r == 0
    ensures r + q.pageSize == q.page * q.pageSize
  {
    (q.page - 1) * q.pageSize
  }

  /** `(total + page_size - 1) // page_size`: the number of pages, rounding up. */
  function Pages(total: nat, pageSize: int): (p: nat)
    requires pageSize >= 1
  {
    (total + pageSize - 1) / pageSize
  }

  /** `pages` is the ceiling of total / page_size: the pages hold every row, and the last
      one is not empty. */
  lemma PagesIsCeiling(total: nat, pageSize: int)
    requires pageSize >= 1
    ensures Pages(total, pageSize) * pageSize >= total
    ensures total > 0 ==> (Pages(total, pageSize) - 1) * pageSize < total
    ensures total == 0 <==> Pages(total, pageSize) == 0
  {
    var p := Pages(total, pageSize);
    var r := (total + pageSize - 1) % pageSize;
    assert total + pageSize - 1 == p * pageSize + r;
  }

  // ---------------------------------------------------------------- filters

  /** A filter counts as given when it is present and not the empty string. */
  predicate Given(f: Option<string>) {
    f.Some? && f.value != ""
  }

  const LevelCondition: string := "level = :level"
  const ComponentCondition: string := "component = :component"
  const SearchCondition: string := "(message LIKE :search OR logger LIKE :search OR module LIKE :search)"

  /** The elements of `xs` whose flag is set, in order. */
  function Select<T>(xs: seq<T>, keep: seq<bool>): (r: seq<T>)
    requires |xs| == |keep|
    ensures |r| <= |xs|
    ensures (forall i :: 0 <= i < |keep| ==> !keep[i]) <==> r == []
  {
    if xs == [] then [] else (if keep[0] then [xs[0]] else []) + Select(xs[1..], keep[1..])
  }

  /** Selecting from three elements, written out. */
  lemma SelectThree<T>(a: T, b: T, c: T, x: bool, y: bool, z: bool)
    ensures Select([a, b, c], [x, y, z]) == (if x then [a] else []) + (if y then [b] else []) + (if z then [c] else [])
  {
    assert [a, b, c][1..] == [b, c] && [x, y, z][1..] == [y, z];
    assert [b, c][1..] == [c] && [y, z][1..] == [z];
    var tail := Select([c], [z]);
    assert tail == (if z then [c] else []) by {
      assert [c][1..] == [] && [z][1..] == [];
      assert Select([c][1..], [z][1..]) == [];
    }
    assert Select([b, c], [y, z]) == (if y then [b] else []) + tail;
  }

  /** The bound filter parameters of `get_logs`: a "level", "component" and "search" entry
      exactly for the given filters, holding the filter's value, the search term wrapped in
      `%`. */
  predicate BindsFilters(params: map<string, Json>, level: Option<string>, component: Option<string>, search: Option<string>) {
    && params.Keys <= {"level", "component", "search"}
    && ("level" in params <==> Given(level)) && ("component" in params <==> Given(component))
    && ("search" in params <==> Given(search))
    && (Given(level) ==> params["level"] == JStr(level.value))
    && (Given(component) ==> params["component"] == JStr(component.value))
    && (Given(search) ==> params["search"] == JStr("%" + search.value + "%"))
  }

  /** The filter building of `get_logs`: one condition and one parameter per given filter,
      in the order level, component, search; the search term is wrapped in `%`. */
  method BuildFilter(level: Option<string>, component: Option<string>, search: Option<string>)
    returns (conditions: seq<string>, params: map<string, Json>)
    ensures conditions == Select([LevelCondition, ComponentCondition, SearchCondition],
                                 [Given(level), Given(component), Given(search)])
    ensures BindsFilters(params, level, component, search)
    ensures |conditions| == |params|
  {
    SelectThree(LevelCondition, ComponentCondition, SearchCondition, Given(level), Given(component), Given(search));
    conditions, params := [], map[];
    if Given(level) {
      conditions := conditions + [LevelCondition];
      params := params["level" := JStr(level.value)];
    }
    assert params.Keys <= {"level"} && |conditions| == |params|;
    if Given(component) {
      assert "component" !in params;
      conditions := conditions + [ComponentCondition];
      params := params["component" := JStr(component.value)];
    }
    assert params.Keys <= {"level", "component"} && |conditions| == |params|;
    if Given(search) {
      assert "search" !in params;
      conditions := conditions + [SearchCondition];
      params := params["search" := JStr("%" + search.value + "%")];
    }
  }

  /** `"WHERE " + " AND ".join(conditions) if conditions else ""`. */
  function WhereClause(conditions: seq<string>): (w: string)
    ensures conditions == [] ==> w == ""
    ensures conditions != [] ==> |w| >= 6 && w[..6] == "WHERE " && w[6..] == Join(conditions, " AND ")
  {
    if conditions == [] then "" else "WHERE " + Join(conditions, " AND ")
  }

  /** The WHERE clause is empty exactly when no filter is given; otherwise the first
      condition follows "WHERE " directly. */
  lemma WhereClauseEmptyIff(level: Option<string>, component: Option<string>, search: Option<string>)
    ensures var conditions := Select([LevelCondition, ComponentCondition, SearchCondition],
                                     [Given(level), Given(component), Given(search)]);
            && (WhereClause(conditions) == "" <==> !Given(level) && !Given(component) && !Given(search))
            && (Given(level) ==> conditions[0] == LevelCondition)
            && (!Given(level) && Given(component) ==> conditions[0] == ComponentCondition)
            && (!Given(level) && !Given(component) && Given(search) ==> conditions == [SearchCondition])
  {
    SelectThree(LevelCondition, ComponentCondition, SearchCondition, Given(level), Given(component), Given(search));
  }

  /** All three filters give the three conditions in order, joined by " AND ". */
  lemma AllFiltersWhereClause(level: string, component: string, search: string)
    requires level != "" && component != "" && search != ""
    ensures WhereClause(Select([LevelCondition, ComponentCondition, SearchCondition],
                               [Given(Some(level)), Given(Some(component)), Given(Some(search))]))
            == "WHERE " + ((LevelCondition + " AND ") + ((ComponentCondition + " AND ") + SearchCondition))
  {
    var all := [LevelCondition, ComponentCondition, SearchCondition];
    assert Given(Some(level)) && Given(Some(component)) && Given(Some(search));
    SelectThree(LevelCondition, ComponentCondition, SearchCondition, true, true, true);
    assert [LevelCondition] + [ComponentCondition] + [SearchCondition] == all;
    JoinThree(LevelCondition, ComponentCondition, SearchCondition, " AND ");
  }

  // ---------------------------------------------------------------- get_logs

  /** One row of the log table, as the query returns it. */
  datatype LogRow = LogRow(id: int, timestamp: string, level: string, logger: string, moduleName: string,
                           line: int, message: string, component: string, traceId: Option<string>)

  /** The two statements `get_logs` issues; `params` are the bound parameters. */
  datatype StatementKind = ListLogs | CountLogs
  datatype Statement = Statement(kind: StatementKind, whereClause: string, params: map<string, Json>)

  /** What the database does: raise with a message, or answer with the page's rows and the
      total number of matching rows. */
  datatype DbAnswer = DbFailed(err: string) | DbRows(rows: seq<LogRow>, total: nat)

  datatype LogsPagination = LogsPagination(page: int, pageSize: int, total: nat, pages: nat)

  datatype LogsResult =
    | LogsError(message: string, ts: real)
    | LogsSuccess(logs: seq<LogRow>, pagination: LogsPagination, ts: real)

  /** The two statements `get_logs` builds from the query and the filters. */
  method BuildStatements(q: ValidLogsQuery, level: Option<string>, component: Option<string>, search: Option<string>)
    returns (statements: seq<Statement>)
    ensures |statements| == 2 && statements[0].kind == ListLogs && statements[1].kind == CountLogs
    ensures var conditions := Select([LevelCondition, ComponentCondition, SearchCondition],
                                     [Given(level), Given(component), Given(search)]);
            && statements[0].whereClause == WhereClause(conditions)
            && statements[1].whereClause == WhereClause(conditions)
    ensures BindsFilters(statements[1].params, level, component, search)
    ensures && statements[0].params.Keys == statements[1].params.Keys + {"limit", "offset"}
            && statements[0].params["limit"] == JInt(q.pageSize)
            && statements[0].params["offset"] == JInt(Offset(q))
            && forall k :: k in statements[1].params ==> statements[0].params[k] == statements[1].params[k]
  {
    var conditions, params := BuildFilter(level, component, search);
    var whereClause := WhereClause(conditions);
    var listParams := ListParams(params, q);
    statements := [Statement(ListLogs, whereClause, listParams), Statement(CountLogs, whereClause, params)];
    assert statements[0].params == listParams && statements[1].params == params;
  }

  /** `get_logs(...)`: `engineAvailable` says whether an engine was obtained, `answer` is what
      the database does with the statements, `ts` the clock reading. Besides the result, the
      statements built for the database are returned. */
  method GetLogs(q: ValidLogsQuery, level: Option<string>, component: Option<string>, search: Option<string>,
                 engineAvailable: bool, answer: DbAnswer, ts: real)
    returns (r: LogsResult, statements: seq<Statement>)
    ensures !engineAvailable ==> r == LogsError("数据库不可用", ts) && statements == []
    ensures engineAvailable && answer.DbFailed? ==> r == LogsError("获取日志失败: " + answer.err, ts)
    ensures engineAvailable && answer.DbRows? ==>
              r == LogsSuccess(answer.rows, LogsPagination(q.page, q.pageSize, answer.total, Pages(answer.total, q.pageSize)), ts)
    ensures engineAvailable ==> |statements| == 2 && statements[0].kind == ListLogs && statements[1].kind == CountLogs
    ensures engineAvailable ==>
              var conditions := Select([LevelCondition, ComponentCondition, SearchCondition],
                                       [Given(level), Given(component), Given(search)]);
              && statements[0].whereClause == WhereClause(conditions)
              && statements[1].whereClause == WhereClause(conditions)
    ensures engineAvailable ==> BindsFilters(statements[1].params, level, component, search)
    ensures engineAvailable ==>
              && statements[0].params.Keys == statements[1].params.Keys + {"limit", "offset"}
              && statements[0].params["limit"] == JInt(q.pageSize)
              && statements[0].params["offset"] == JInt(Offset(q))
              && forall k :: k in statements[1].params ==> statements[0].params[k] == statements[1].params[k]
    ensures r.LogsError? ==> r.ts == ts
  {
    if !engineAvailable {
      return LogsError("数据库不可用", ts), [];
    }
    statements := BuildStatements(q, level, component, search);
    match answer {
      case DbFailed(err) =>
        r := LogsError("获取日志失败: " + err, ts);
      case DbRows(rows, total) =>
        var pages := (total + q.pageSize - 1) / q.pageSize;
        assert pages == Pages(total, q.pageSize);
        r := LogsSuccess(rows, LogsPagination(q.page, q.pageSize, total, pages), ts);
    }
  }

  /** The parameters of the list statement: the filter parameters plus limit and offset. */
  function ListParams(params: map<string, Json>, q: ValidLogsQuery): (r: map<string, Json>)
    requires params.Keys <= {"level", "component", "search"}
    ensures r.Keys == params.Keys + {"limit", "offset"}
    ensures r["limit"] == JInt(q.pageSize) && r["offset"] == JInt(Offset(q))
    ensures forall k :: k in params ==> r[k] == params[k]
  {
    assert "limit" !in params && "offset" !in params;
    params["limit" := JInt(q.pageSize)]["offset" := JInt((q.page - 1) * q.pageSize)]
  }

  // ---------------------------------------------------------------- renderPagination

  /** The number of page buttons shown at most. */
  const ShowPages: int := 5

  /** A previous/next button: whether it is disabled, and the page a click loads, if any. */
  datatype NavButton = NavButton(disabled: bool, target: Option<int>)

  /** A page-number button: its label (also the page a click loads) and whether it is active. */
  datatype PageButton = PageButton(number: int, active: bool)

  /** `renderPagination({page, pages})`: the previous button, the window of page buttons
      and the next button. */
  method RenderPagination(page: int, pages: int) returns (prev: NavButton, buttons: seq<PageButton>, next: NavButton)
    ensures prev.disabled <==> page <= 1
    ensures prev.target == (if page > 1 then Some(page - 1) else None)
    ensures next.disabled <==> page >= pages
    ensures next.target == (if page < pages then Some(page + 1) else None)
    ensures |buttons| == Max(0, Min(ShowPages, pages))
    ensures forall i :: 0 <= i < |buttons| ==> 1 <= buttons[i].number <= pages
    ensures forall i :: 0 < i < |buttons| ==> buttons[i].number == buttons[i - 1].number + 1
    ensures forall i :: 0 <= i < |buttons| ==> (buttons[i].active <==> buttons[i].number == page)
    ensures 1 <= page <= pages ==> exists i :: 0 <= i < |buttons| && buttons[i].number == page
    ensures pages >= 1 ==> buttons[0].number == Max(1, Min(page - ShowPages / 2, pages - ShowPages + 1))
  {
    prev := NavButton(page <= 1, if page > 1 then Some(page - 1) else None);
    var startPage := Max(1, page - ShowPages / 2);
    var endPage := Min(pages, startPage + ShowPages - 1);
    if endPage - startPage + 1 < ShowPages {
      startPage := Max(1, endPage - ShowPages + 1);
    }
    buttons := [];
    var i := startPage;
    while i <= endPage
      invariant startPage <= i <= Max(startPage, endPage + 1)
      invariant |buttons| == i - startPage
      invariant forall k :: 0 <= k < |buttons| ==> buttons[k] == PageButton(startPage + k, startPage + k == page)
    {
      buttons := buttons + [PageButton(i, i == page)];
      i := i + 1;
    }
    if 1 <= page <= pages {
      assert startPage <= page <= endPage;
      assert buttons[page - startPage].number == page;
    }
    next := NavButton(page >= pages, if page < pages then Some(page + 1) else None);
  }
}

/** The schema explorer page (frontend/pages/index.js): pick a connection, then
    a table to see its columns or a stored procedure to read and analyze it. The
    procedure list is filtered by a case-insensitive search and each procedure
    carries a badge for its analysis status. Every request is split into what
    the handler does at once and what it does when the answer arrives. */
module SchemaExplorer {
  import opened Common
  import opened Frontend
  import AnalyzeStatus

  // ---------------------------------------------------------------------------
  // The procedure search

  /** The search matches the procedure name, both lower-cased. */
  predicate Matches(procedure: string, search: string) {
    Contains(Lower(procedure), Lower(search))
  }

  /** `filteredProcedures`: the procedures whose name matches the search, in
      list order. */
  function FilteredProcedures(procedures: seq<string>, search: string): (r: seq<string>)
    ensures forall p :: p in r <==> p in procedures && Matches(p, search)
    ensures |r| <= |procedures|
  {
    if |procedures| == 0 then []
    else
      var last := procedures[|procedures| - 1];
      FilteredProcedures(procedures[..|procedures| - 1], search) + (if Matches(last, search) then [last] else [])
  }

  /** Filtering a concatenation filters each part: the kept procedures keep
      their relative order. */
  lemma {:induction false} FilteredProceduresAppend(a: seq<string>, b: seq<string>, search: string)
    ensures FilteredProcedures(a + b, search) == FilteredProcedures(a, search) + FilteredProcedures(b, search)
    decreases |b|
  {
    if |b| == 0 {
      assert a + b == a;
    } else {
      var b' := b[..|b| - 1];
      assert (a + b)[..|a + b| - 1] == a + b';
      FilteredProceduresAppend(a, b', search);
    }
  }

  /** An empty search keeps every procedure. */
  lemma {:induction false} EmptySearchKeepsAll(procedures: seq<string>)
    ensures FilteredProcedures(procedures, "") == procedures
  {
    if |procedures| > 0 {
      EmptySearchKeepsAll(procedures[..|procedures| - 1]);
      ContainsEmpty(Lower(procedures[|procedures| - 1]));
    }
  }

  /** The search is case-insensitive: typing it in lower case changes nothing. */
  lemma SearchIgnoresCase(procedures: seq<string>, search: string)
    ensures FilteredProcedures(procedures, Lower(search)) == FilteredProcedures(procedures, search)
  {
    LowerIdempotent(search);
  }

  // ---------------------------------------------------------------------------
  // Status badges

  /** `statusBadge`: the badge text for a status, none for an unknown one. */
  function StatusBadge(status: string): Option<string> {
    if status == "up_to_date" then Some("🟢 Up-to-date")
    else if status == "outdated" then Some("🟡 Outdated")
    else if status == "not_analyzed" then Some("⚪ Not analyzed")
    else None
  }

  /** Exactly the three status names the backend reports get a badge, and every
      status the backend computes is one of them. */
  lemma StatusBadgeIff(status: string)
    ensures StatusBadge(status).Some? <==> status in ["up_to_date", "outdated", "not_analyzed"]
    ensures forall s: AnalyzeStatus.ProcStatus :: StatusBadge(AnalyzeStatus.StatusName(s)).Some?
  {
    forall s: AnalyzeStatus.ProcStatus ensures StatusBadge(AnalyzeStatus.StatusName(s)).Some? {
      match s
      case NotAnalyzed =>
      case UpToDate =>
      case Outdated =>
    }
  }

  // ---------------------------------------------------------------------------
  // Analysis

  /** The fields of the analyze endpoint's answer the page reads. */
  datatype AnalyzeReply = AnalyzeReply(summary: string, cached: bool)

  /** The body `handleAnalyze` posts. */
  datatype AnalyzeRequest = AnalyzeRequest(content: string, dbAlias: Option<string>, procedureName: Option<string>)

  const AnalyzeErrorPrefix: string := "Error analyzing procedure: "

  /** What the analysis panel shows once `handleAnalyze` is done. */
  datatype AnalysisView = AnalysisView(analysis: Option<string>, cached: bool, statusMap: map<string, string>)

  /** `handleAnalyze` after its requests: the analysis post and, when that
      succeeded, the status refresh, from the cached flag and statuses shown
      before. A failure of either shows its message; the cached flag set by a
      successful post stays. */
  function AnalysisAfter(post: AxiosResult<AnalyzeReply>, refresh: AxiosResult<map<string, string>>,
                         cached: bool, statusMap: map<string, string>): AnalysisView {
    match post
    case Rejected(message, _) => AnalysisView(Some(AnalyzeErrorPrefix + message), cached, statusMap)
    case Resolved(reply) =>
      match refresh
      case Resolved(refreshed) => AnalysisView(Some(reply.summary), reply.cached, refreshed)
      case Rejected(message, _) => AnalysisView(Some(AnalyzeErrorPrefix + message), reply.cached, statusMap)
  }

  /** The summary is shown, with its cached flag and the refreshed statuses,
      exactly when both requests succeed; otherwise the first failure's message
      is shown after the prefix and the statuses stay as they were. */
  lemma AnalysisAfterCases(post: AxiosResult<AnalyzeReply>, refresh: AxiosResult<map<string, string>>,
                           cached: bool, statusMap: map<string, string>)
    ensures var v := AnalysisAfter(post, refresh, cached, statusMap);
      && v.analysis.Some?
      && (post.Resolved? && refresh.Resolved? ==>
            v == AnalysisView(Some(post.data.summary), post.data.cached, refresh.data))
      && (post.Rejected? ==> v == AnalysisView(Some(AnalyzeErrorPrefix + post.message), cached, statusMap))
      && (post.Resolved? && refresh.Rejected? ==>
            v.analysis == Some(AnalyzeErrorPrefix + refresh.message) && v.statusMap == statusMap)
  {
  }

  /** A status refresh that fails after a cached analysis shows the error text
      with the cached flag still set. */
  lemma FailedRefreshKeepsCachedFlag(summary: string, message: string, data: Option<JsonObject>,
                                     statusMap: map<string, string>)
    ensures var v := AnalysisAfter(Resolved(AnalyzeReply(summary, true)), Rejected(message, data), false, statusMap);
      v.cached && v.analysis == Some(AnalyzeErrorPrefix + message)
  {
  }

  // ---------------------------------------------------------------------------
  // The page

  class ExplorerPage {
    var connections: seq<string>
    var selectedConnection: Option<string>
    var tables: seq<string>
    var selectedTable: Option<string>
    var columns: seq<JsonObject>
    var procedures: seq<string>
    var procSearch: string
    var selectedProc: Option<string>
    var procBody: string
    var analysis: Option<string>
    var analyzing: bool
    var error: Option<string>
    var analysisCached: bool
    var procStatusMap: map<string, string>

    /** The initial state of every cell. */
    constructor ()
      ensures connections == [] && selectedConnection == None && tables == [] && selectedTable == None
      ensures columns == [] && procedures == [] && procSearch == "" && selectedProc == None && procBody == ""
      ensures analysis == None && !analyzing && error == None && !analysisCached && procStatusMap == map[]
    {
      connections := [];
      selectedConnection := None;
      tables := [];
      selectedTable := None;
      columns := [];
      procedures := [];
      procSearch := "";
      selectedProc := None;
      procBody := "";
      analysis := None;
      analyzing := false;
      error := None;
      analysisCached := false;
      procStatusMap := map[];
    }

    /** The procedures listed under the search box. */
    function Listed(): (r: seq<string>)
      reads this
      ensures forall p :: p in r <==> p in procedures && Matches(p, procSearch)
    {
      FilteredProcedures(procedures, procSearch)
    }

    /** The connection list, loaded once on mount. */
    method ConnectionsLoaded(result: AxiosResult<seq<string>>)
      modifies this
      ensures result.Resolved? ==> connections == result.data && error == old(error)
      ensures result.Rejected? ==> connections == old(connections) && error == Some(result.message)
      ensures unchanged(this`selectedConnection, this`tables, this`selectedTable, this`columns, this`procedures,
                        this`procSearch, this`selectedProc, this`procBody, this`analysis, this`analyzing,
                        this`analysisCached, this`procStatusMap)
    {
      if result.Resolved? {
        connections := result.data;
      } else {
        error := Some(result.message);
      }
    }

    /** `fetchTables`, before its three requests: choosing a connection clears
        everything that belonged to the previous one. */
    method FetchTables(alias: string)
      modifies this
      ensures selectedConnection == Some(alias) && selectedTable == None && columns == []
      ensures procedures == [] && procSearch == "" && selectedProc == None && procBody == ""
      ensures analysis == None && !analysisCached && procStatusMap == map[]
      ensures connections == old(connections) && tables == old(tables) && error == old(error)
      ensures analyzing == old(analyzing)
    {
      selectedConnection := Some(alias);
      selectedTable := None;
      columns := [];
      ClearProcedureView();
    }

    /** The procedure half of `fetchTables`'s reset. */
    method ClearProcedureView()
      modifies this
      ensures procedures == [] && procSearch == "" && selectedProc == None && procBody == ""
      ensures analysis == None && !analysisCached && procStatusMap == map[]
      ensures connections == old(connections) && tables == old(tables) && error == old(error)
      ensures analyzing == old(analyzing) && selectedConnection == old(selectedConnection)
      ensures selectedTable == old(selectedTable) && columns == old(columns)
    {
      procedures := [];
      procSearch := "";
      selectedProc := None;
      procBody := "";
      ClearAnalysis();
    }

    /** The analysis part of `fetchTables`'s reset. */
    method ClearAnalysis()
      modifies this
      ensures analysis == None && !analysisCached && procStatusMap == map[]
      ensures procedures == old(procedures) && procSearch == old(procSearch)
      ensures selectedProc == old(selectedProc) && procBody == old(procBody)
      ensures connections == old(connections) && tables == old(tables) && error == old(error)
      ensures analyzing == old(analyzing) && selectedConnection == old(selectedConnection)
      ensures selectedTable == old(selectedTable) && columns == old(columns)
    {
      analysis := None;
      analysisCached := false;
      procStatusMap := map[];
    }

    /** The table list of `fetchTables`. */
    method TablesLoaded(result: AxiosResult<seq<string>>)
      modifies this
      ensures result.Resolved? ==> tables == result.data && error == old(error)
      ensures result.Rejected? ==> tables == old(tables) && error == Some(result.message)
      ensures unchanged(this`connections, this`selectedConnection, this`selectedTable, this`columns, this`procedures,
                        this`procSearch, this`selectedProc, this`procBody, this`analysis, this`analyzing,
                        this`analysisCached, this`procStatusMap)
    {
      if result.Resolved? {
        tables := result.data;
      } else {
        error := Some(result.message);
      }
    }

    /** The procedure list of `fetchTables`. */
    method ProceduresLoaded(result: AxiosResult<seq<string>>)
      modifies this
      ensures result.Resolved? ==> procedures == result.data && error == old(error)
      ensures result.Rejected? ==> procedures == old(procedures) && error == Some(result.message)
      ensures unchanged(this`connections, this`selectedConnection, this`tables, this`selectedTable, this`columns,
                        this`procSearch, this`selectedProc, this`procBody, this`analysis, this`analyzing,
                        this`analysisCached, this`procStatusMap)
    {
      if result.Resolved? {
        procedures := result.data;
      } else {
        error := Some(result.message);
      }
    }

    /** The status map of `fetchTables`; a failure is only logged. */
    method StatusLoaded(result: AxiosResult<map<string, string>>)
      modifies this
      ensures procStatusMap == (if result.Resolved? then result.data else old(procStatusMap))
      ensures unchanged(this`connections, this`selectedConnection, this`tables, this`selectedTable, this`columns,
                        this`procedures, this`procSearch, this`selectedProc, this`procBody, this`analysis,
                        this`analyzing, this`error, this`analysisCached)
    {
      if result.Resolved? {
        procStatusMap := result.data;
      }
    }

    /** `fetchColumns`, before its request. */
    method FetchColumns(table: string)
      modifies this
      ensures selectedTable == Some(table) && columns == []
      ensures unchanged(this`connections, this`selectedConnection, this`tables, this`procedures, this`procSearch,
                        this`selectedProc, this`procBody, this`analysis, this`analyzing, this`error,
                        this`analysisCached, this`procStatusMap)
    {
      selectedTable := Some(table);
      columns := [];
    }

    method ColumnsLoaded(result: AxiosResult<seq<JsonObject>>)
      modifies this
      ensures result.Resolved? ==> columns == result.data && error == old(error)
      ensures result.Rejected? ==> columns == old(columns) && error == Some(result.message)
      ensures unchanged(this`connections, this`selectedConnection, this`tables, this`selectedTable, this`procedures,
                        this`procSearch, this`selectedProc, this`procBody, this`analysis, this`analyzing,
                        this`analysisCached, this`procStatusMap)
    {
      if result.Resolved? {
        columns := result.data;
      } else {
        error := Some(result.message);
      }
    }

    /** `fetchProcedure`, before its request: a new procedure drops the
        previous analysis but keeps the previous body until its own arrives. */
    method FetchProcedure(procName: string)
      modifies this
      ensures selectedProc == Some(procName) && analysis == None && !analysisCached
      ensures unchanged(this`connections, this`selectedConnection, this`tables, this`selectedTable, this`columns,
                        this`procedures, this`procSearch, this`procBody, this`analyzing, this`error,
                        this`procStatusMap)
    {
      selectedProc := Some(procName);
      analysis := None;
      analysisCached := false;
    }

    /** The definition read from the procedure's answer. */
    method ProcedureLoaded(result: AxiosResult<string>)
      modifies this
      ensures result.Resolved? ==> procBody == result.data && error == old(error)
      ensures result.Rejected? ==> procBody == old(procBody) && error == Some(result.message)
      ensures unchanged(this`connections, this`selectedConnection, this`tables, this`selectedTable, this`columns,
                        this`procedures, this`procSearch, this`selectedProc, this`analysis, this`analyzing,
                        this`analysisCached, this`procStatusMap)
    {
      if result.Resolved? {
        procBody := result.data;
      } else {
        error := Some(result.message);
      }
    }

    /** `handleAnalyze` up to the post: the body sent is the shown definition
        with the selected connection and procedure. */
    method StartAnalyze() returns (request: AnalyzeRequest)
      modifies this
      ensures analyzing && analysis == None && !analysisCached
      ensures request == AnalyzeRequest(procBody, selectedConnection, selectedProc)
      ensures unchanged(this`connections, this`selectedConnection, this`tables, this`selectedTable, this`columns,
                        this`procedures, this`procSearch, this`selectedProc, this`procBody, this`error,
                        this`procStatusMap)
    {
      analyzing := true;
      analysis := None;
      analysisCached := false;
      request := AnalyzeRequest(procBody, selectedConnection, selectedProc);
    }

    /** `handleAnalyze` once its requests are answered. */
    method FinishAnalyze(post: AxiosResult<AnalyzeReply>, refresh: AxiosResult<map<string, string>>)
      modifies this
      ensures !analyzing
      ensures AnalysisView(analysis, analysisCached, procStatusMap)
              == AnalysisAfter(post, refresh, old(analysisCached), old(procStatusMap))
      ensures unchanged(this`connections, this`selectedConnection, this`tables, this`selectedTable, this`columns,
                        this`procedures, this`procSearch, this`selectedProc, this`procBody, this`error)
    {
      match post {
        case Rejected(message, _) =>
          analysis := Some(AnalyzeErrorPrefix + message);
        case Resolved(reply) =>
          analysis := Some(reply.summary);
          analysisCached := reply.cached;
          match refresh {
            case Resolved(refreshed) =>
              procStatusMap := refreshed;
            case Rejected(message, _) =>
              analysis := Some(AnalyzeErrorPrefix + message);
          }
      }
      analyzing := false;
    }
  }

  /** Choosing a connection lists no procedure until its list arrives, and
      then, with the search cleared, lists all of them. */
  lemma NewConnectionListsAllProcedures(procedures: seq<string>)
    ensures FilteredProcedures([], "") == []
    ensures FilteredProcedures(procedures, "") == procedures
  {
    EmptySearchKeepsAll(procedures);
  }
}

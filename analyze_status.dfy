/** The staleness report (backend/api/analyze_status.py): every procedure of a
    connection is classified by comparing the digest of its current definition
    with the digest cached for it. */
module AnalyzeStatus {
  import opened Common
  import opened Hashing
  import opened ProcedureCache
  import Manager
  import CacheEngine

  /** One row of the catalog query: a procedure's name and its current
      definition; `sys.sql_modules.definition` is NULL (None) for an encrypted
      procedure. */
  datatype ProcRow = ProcRow(name: string, definition: Option<string>)

  /** The three states of a procedure's analysis. */
  datatype ProcStatus = NotAnalyzed | UpToDate | Outdated

  /** The status strings the endpoint returns. */
  function StatusName(s: ProcStatus): (r: string)
    ensures r in {"not_analyzed", "up_to_date", "outdated"}
  {
    match s
    case NotAnalyzed => "not_analyzed"
    case UpToDate => "up_to_date"
    case Outdated => "outdated"
  }

  /** Distinct states have distinct names, so a reader of the strings can tell them apart. */
  lemma StatusNameInjective(a: ProcStatus, b: ProcStatus)
    requires StatusName(a) == StatusName(b)
    ensures a == b
  {
  }

  /** The procedure names of the catalog. */
  function Names(procRows: seq<ProcRow>): set<string> {
    if |procRows| == 0 then {} else Names(procRows[..|procRows| - 1]) + {procRows[|procRows| - 1].name}
  }

  lemma {:induction false} NamesAreRowNames(procRows: seq<ProcRow>, name: string)
    ensures name in Names(procRows) <==> exists i :: 0 <= i < |procRows| && procRows[i].name == name
    decreases |procRows|
  {
    if |procRows| > 0 {
      var n := |procRows| - 1;
      NamesAreRowNames(procRows[..n], name);
      if name in Names(procRows[..n]) {
        var i :| 0 <= i < n && procRows[..n][i].name == name;
        assert procRows[i].name == name;
      }
      if exists i :: 0 <= i < |procRows| && procRows[i].name == name {
        var i :| 0 <= i < |procRows| && procRows[i].name == name;
        if i < n {
          assert procRows[..n][i].name == name;
        }
      }
    }
  }

  /** The definition `procs[name]` holds: the last catalog row with that name
      (`Some(None)` when that row's definition is NULL). */
  function LastDefinition(procRows: seq<ProcRow>, name: string): (r: Option<Option<string>>)
    ensures r.None? <==> name !in Names(procRows)
  {
    if |procRows| == 0 then None
    else if procRows[|procRows| - 1].name == name then Some(procRows[|procRows| - 1].definition)
    else LastDefinition(procRows[..|procRows| - 1], name)
  }

  /** `LastDefinition` picks the row with that name that no later row of that name follows. */
  lemma {:induction false} LastDefinitionIsLastRow(procRows: seq<ProcRow>, name: string)
    requires name in Names(procRows)
    ensures exists i :: 0 <= i < |procRows| && procRows[i] == ProcRow(name, LastDefinition(procRows, name).value) &&
                        forall j :: i < j < |procRows| ==> procRows[j].name != name
    decreases |procRows|
  {
    var n := |procRows| - 1;
    if procRows[n].name != name {
      var prefix := procRows[..n];
      LastDefinitionIsLastRow(prefix, name);
      var i :| 0 <= i < n && prefix[i] == ProcRow(name, LastDefinition(prefix, name).value) &&
        forall j :: i < j < n ==> prefix[j].name != name;
      assert procRows[i] == prefix[i];
      assert forall j :: i < j < n ==> procRows[j] == prefix[j];
    }
  }

  predicate RowFor(row: CacheRow, alias: string, name: string) {
    row.dbAlias == alias && row.procedureName == name
  }

  /** The digest `cached_map[name]` holds: that of the last cache row of this alias and name. */
  function LastCachedHash(cacheRows: seq<CacheRow>, alias: string, name: string): Option<string> {
    if |cacheRows| == 0 then None
    else if RowFor(cacheRows[|cacheRows| - 1], alias, name) then Some(cacheRows[|cacheRows| - 1].procHash)
    else LastCachedHash(cacheRows[..|cacheRows| - 1], alias, name)
  }

  /** No digest is found exactly when no cache row belongs to this alias and name. */
  lemma {:induction false} LastCachedHashNoneIff(cacheRows: seq<CacheRow>, alias: string, name: string)
    ensures LastCachedHash(cacheRows, alias, name).None? <==>
      forall i :: 0 <= i < |cacheRows| ==> !RowFor(cacheRows[i], alias, name)
    decreases |cacheRows|
  {
    if |cacheRows| > 0 {
      var n := |cacheRows| - 1;
      var prefix := cacheRows[..n];
      LastCachedHashNoneIff(prefix, alias, name);
      assert forall i :: 0 <= i < n ==> cacheRows[i] == prefix[i];
    }
  }

  /** The decision made for one procedure. */
  function Classify(cached: Option<string>, current: string): ProcStatus {
    if cached.None? then NotAnalyzed
    else if cached.value == current then UpToDate
    else Outdated
  }

  /** Every name's definition, as `procs` keeps it, is a text: the loop can hash
      them all. */
  predicate AllDefined(procRows: seq<ProcRow>) {
    forall n :: n in Names(procRows) ==> LastDefinition(procRows, n).value.Some?
  }

  /** The status of one catalog name. */
  function StatusOf(procRows: seq<ProcRow>, cacheRows: seq<CacheRow>, alias: string, sha: Sha256Hex, name: string): ProcStatus
    requires name in Names(procRows) && LastDefinition(procRows, name).value.Some?
  {
    Classify(LastCachedHash(cacheRows, alias, name), HashProcedure(sha, LastDefinition(procRows, name).value.value))
  }

  /** The report as a whole: one status per catalog name. */
  function StatusMap(procRows: seq<ProcRow>, cacheRows: seq<CacheRow>, alias: string, sha: Sha256Hex): (m: map<string, ProcStatus>)
    requires AllDefined(procRows)
    ensures m.Keys == Names(procRows)
    ensures forall n :: n in m ==> m[n] == StatusOf(procRows, cacheRows, alias, sha, n)
  {
    map n | n in Names(procRows) :: StatusOf(procRows, cacheRows, alias, sha, n)
  }

  // ---------------------------------------------------------------------------
  // The dictionaries the handler builds

  /** `{row.name: row.definition for row in result}`: later rows overwrite earlier
      ones, so each name maps to its last definition. */
  function ProcDict(procRows: seq<ProcRow>): (m: map<string, Option<string>>)
    ensures m.Keys == Names(procRows)
    ensures forall n :: n in m ==> LastDefinition(procRows, n) == Some(m[n])
  {
    if |procRows| == 0 then map[]
    else ProcDict(procRows[..|procRows| - 1])[procRows[|procRows| - 1].name := procRows[|procRows| - 1].definition]
  }

  /** `dict.get(key)`. */
  function Lookup(m: map<string, string>, key: string): Option<string> {
    if key in m then Some(m[key]) else None
  }

  /** `{row.procedure_name: row.proc_hash for row in cached}` over the rows of
      `alias`: each name maps to the digest of its last row. */
  function CachedMap(cacheRows: seq<CacheRow>, alias: string): (m: map<string, string>)
    ensures forall n :: Lookup(m, n) == LastCachedHash(cacheRows, alias, n)
  {
    if |cacheRows| == 0 then map[]
    else
      var n := |cacheRows| - 1;
      var rest := CachedMap(cacheRows[..n], alias);
      if cacheRows[n].dbAlias == alias then rest[cacheRows[n].procedureName := cacheRows[n].procHash] else rest
  }

  /** The keys of `procs` in dictionary order: first occurrence in the catalog. */
  function DistinctNames(procRows: seq<ProcRow>): (names: seq<string>)
    ensures forall i, j :: 0 <= i < j < |names| ==> names[i] != names[j]
    ensures forall n :: n in names <==> n in Names(procRows)
    ensures |names| == |Names(procRows)|
  {
    if |procRows| == 0 then []
    else
      var n := |procRows| - 1;
      var before := Names(procRows[..n]);
      assert Names(procRows) == before + {procRows[n].name} by {
        assert forall j :: 0 <= j < n ==> procRows[..n][j] == procRows[j];
      }
      var d := DistinctNames(procRows[..n]);
      if procRows[n].name in d then
        assert Names(procRows) == before;
        d
      else
        assert before * {procRows[n].name} == {};
        d + [procRows[n].name]
  }

  /** What the handler's loop computes from its two dictionaries. */
  predicate NoNullValue(procs: map<string, Option<string>>) {
    forall n :: n in procs ==> procs[n].Some?
  }

  function DictStatus(procs: map<string, Option<string>>, cachedMap: map<string, string>, sha: Sha256Hex): map<string, ProcStatus>
    requires NoNullValue(procs)
  {
    map n | n in procs :: Classify(Lookup(cachedMap, n), HashProcedure(sha, procs[n].value))
  }

  /** The dictionaries hold exactly the information the report is defined by:
      `procs` has a None value exactly when some name's last definition is NULL,
      and otherwise the loop's report is `StatusMap`. */
  lemma DictStatusIsStatusMap(procRows: seq<ProcRow>, cacheRows: seq<CacheRow>, alias: string, sha: Sha256Hex)
    ensures NoNullValue(ProcDict(procRows)) <==> AllDefined(procRows)
    ensures AllDefined(procRows) ==>
      DictStatus(ProcDict(procRows), CachedMap(cacheRows, alias), sha) == StatusMap(procRows, cacheRows, alias, sha)
  {
  }

  /** The handler's loop: one digest per name of `order`, compared with
      `cachedMap`; hashing a None definition raises and ends the request. */
  method ClassifyAll(procs: map<string, Option<string>>, order: seq<string>, cachedMap: map<string, string>, sha: Sha256Hex)
    returns (r: Result<map<string, ProcStatus>>, hashed: nat)
    requires forall n :: n in procs <==> n in order
    ensures r.Ok? <==> NoNullValue(procs)
    ensures r.Err? ==> r == Err(NoneEncodeDetail)
    ensures r.Ok? ==> r.value == DictStatus(procs, cachedMap, sha) && hashed == |order|
  {
    var status: map<string, ProcStatus> := map[];
    hashed := 0;
    var i := 0;
    while i < |order|
      invariant 0 <= i <= |order|
      invariant forall k :: 0 <= k < i ==> order[k] in status && procs[order[k]].Some?
      invariant forall n :: n in status ==> n in procs && procs[n].Some? &&
                                            status[n] == Classify(Lookup(cachedMap, n), HashProcedure(sha, procs[n].value))
      invariant hashed == i
    {
      var name := order[i];
      if procs[name].None? {
        return Err(NoneEncodeDetail), hashed;
      }
      var hashVal := HashProcedure(sha, procs[name].value);
      hashed := hashed + 1;
      if name !in cachedMap {
        status := status[name := NotAnalyzed];
      } else if cachedMap[name] == hashVal {
        status := status[name := UpToDate];
      } else {
        status := status[name := Outdated];
      }
      i := i + 1;
    }
    assert forall n :: n in procs ==> n in status;
    r := Ok(status);
  }

  /** The answer of `get_analysis_status` and the connection manager's cache afterwards. */
  datatype StatusOutcome = StatusOutcome(response: Result<map<string, ProcStatus>>, cache: map<string, Manager.Engine>)

  /** `get_analysis_status` in the order it fails: the engine of `alias`, the
      cache engine, the catalog query (with its connection), the cache query
      (with its connection), then the digest of each definition. `quotePlus` is
      the URL quoting the cache engine uses. Every failure is the HTTP 500, and
      no partial report is returned. */
  function StatusSpec(connections: Connections, cache: map<string, Manager.Engine>, alias: string, env: Env,
                      quotePlus: string -> string, catalog: Result<seq<ProcRow>>, cached: Result<seq<CacheRow>>,
                      sha: Sha256Hex): StatusOutcome {
    var got := Manager.GetEngineSpec(connections, cache, alias, env);
    var response :=
      match got.response
      case Raised(e) => Err(ExceptionText(e))
      case Returns(_) =>
        match CacheEngine.GetCacheEngine(env, quotePlus)
        case Raised(e) => Err(ExceptionText(e))
        case Returns(_) =>
          if catalog.Err? then Err(catalog.detail)
          else if cached.Err? then Err(cached.detail)
          else if !AllDefined(catalog.value) then Err(NoneEncodeDetail)
          else Ok(StatusMap(catalog.value, cached.value, alias, sha));
    StatusOutcome(response, got.cache)
  }

  /** `get_analysis_status`. `catalog` and `cached` are the two query results;
      `hashed` counts the digests computed. */
  method GetAnalysisStatus(mgr: Manager.ConnectionManager, alias: string, env: Env, quotePlus: string -> string,
                           catalog: Result<seq<ProcRow>>, cached: Result<seq<CacheRow>>, sha: Sha256Hex)
    returns (r: Result<map<string, ProcStatus>>, hashed: nat)
    modifies mgr
    ensures var o := StatusSpec(mgr.connections, old(mgr.cache), alias, env, quotePlus, catalog, cached, sha);
      r == o.response && mgr.cache == o.cache
    ensures r.Ok? ==> catalog.Ok? && hashed == |Names(catalog.value)|
  {
    var engine := mgr.GetSqlalchemyEngine(alias, env);
    if engine.Raised? {
      return Err(ExceptionText(engine.exception)), 0;
    }
    var cacheEngine := CacheEngine.GetCacheEngine(env, quotePlus);
    if cacheEngine.Raised? {
      return Err(ExceptionText(cacheEngine.exception)), 0;
    }
    if catalog.Err? {
      return Err(catalog.detail), 0;
    }
    if cached.Err? {
      return Err(cached.detail), 0;
    }
    var procs := ProcDict(catalog.value);
    var order := DistinctNames(catalog.value);
    var cachedMap := CachedMap(cached.value, alias);
    DictStatusIsStatusMap(catalog.value, cached.value, alias, sha);
    r, hashed := ClassifyAll(procs, order, cachedMap, sha);
  }

  /** The report is returned exactly when both engines are obtained, both
      queries succeed and every procedure's definition is a text; it is then
      `StatusMap`. A NULL definition fails the whole request. */
  lemma StatusSucceedsIff(connections: Connections, cache: map<string, Manager.Engine>, alias: string, env: Env,
                          quotePlus: string -> string, catalog: Result<seq<ProcRow>>, cached: Result<seq<CacheRow>>,
                          sha: Sha256Hex)
    ensures var o := StatusSpec(connections, cache, alias, env, quotePlus, catalog, cached, sha);
      && (o.response.Ok? <==>
            && Manager.GetEngineSpec(connections, cache, alias, env).response.Returns?
            && CacheEngine.GetCacheEngine(env, quotePlus).Returns?
            && catalog.Ok? && cached.Ok? && AllDefined(catalog.value))
      && (o.response.Ok? ==> o.response.value == StatusMap(catalog.value, cached.value, alias, sha))
  {
  }

  /** A procedure whose definition is NULL, with no later catalog row of that
      name, makes the request fail with the error of hashing None, once the
      engines and queries succeeded. */
  lemma NullDefinitionFailsReport(connections: Connections, cache: map<string, Manager.Engine>, alias: string, env: Env,
                                  quotePlus: string -> string, procRows: seq<ProcRow>, cacheRows: seq<CacheRow>,
                                  sha: Sha256Hex, i: nat)
    requires Manager.GetEngineSpec(connections, cache, alias, env).response.Returns?
    requires CacheEngine.GetCacheEngine(env, quotePlus).Returns?
    requires i < |procRows| && procRows[i].definition.None?
    requires forall j :: i < j < |procRows| ==> procRows[j].name != procRows[i].name
    ensures StatusSpec(connections, cache, alias, env, quotePlus, Ok(procRows), Ok(cacheRows), sha).response
         == Err(NoneEncodeDetail)
  {
    LastRowDefines(procRows, i);
  }

  /** The last catalog row of a name decides its definition. */
  lemma {:induction false} LastRowDefines(procRows: seq<ProcRow>, i: nat)
    requires i < |procRows|
    requires forall j :: i < j < |procRows| ==> procRows[j].name != procRows[i].name
    ensures procRows[i].name in Names(procRows)
    ensures LastDefinition(procRows, procRows[i].name) == Some(procRows[i].definition)
    decreases |procRows|
  {
    NamesAreRowNames(procRows, procRows[i].name);
    var n := |procRows| - 1;
    if i < n {
      var prefix := procRows[..n];
      assert prefix[i] == procRows[i];
      forall j | i < j < |prefix|
        ensures prefix[j].name != prefix[i].name
      {
        assert prefix[j] == procRows[j];
      }
      LastRowDefines(prefix, i);
    }
  }

  /** Without a trusted connection and without CACHE_DB_USER, every request
      whose connection is configured fails with the credentials error, before
      the catalog is queried. */
  lemma MissingCacheCredentialsReported(connections: Connections, cache: map<string, Manager.Engine>, alias: string,
                                        env: Env, quotePlus: string -> string, catalog: Result<seq<ProcRow>>,
                                        cached: Result<seq<CacheRow>>, sha: Sha256Hex)
    requires Manager.GetEngineSpec(connections, cache, alias, env).response.Returns?
    requires !CacheEngine.UsesTrustedConnection(env)
    requires !TruthyOpt(GetEnv(env, "CACHE_DB_USER"))
    ensures StatusSpec(connections, cache, alias, env, quotePlus, catalog, cached, sha).response
         == Err(CacheEngine.AuthErrorMessage)
  {
    CacheEngine.CacheBuildSucceedsIff(env, quotePlus);
  }

  // ---------------------------------------------------------------------------
  // Properties of the report

  /** A procedure is "not_analyzed" exactly when no cache row of this alias names it. */
  lemma NotAnalyzedIff(procRows: seq<ProcRow>, cacheRows: seq<CacheRow>, alias: string, sha: Sha256Hex, name: string)
    requires AllDefined(procRows) && name in Names(procRows)
    ensures StatusMap(procRows, cacheRows, alias, sha)[name] == NotAnalyzed <==>
      forall i :: 0 <= i < |cacheRows| ==> !RowFor(cacheRows[i], alias, name)
  {
    LastCachedHashNoneIff(cacheRows, alias, name);
  }

  /** Once the procedure has cache rows, the last of them decides: "up_to_date" when
      its digest is that of the current definition, "outdated" otherwise. */
  lemma LastRowDecides(procRows: seq<ProcRow>, cacheRows: seq<CacheRow>, alias: string, sha: Sha256Hex,
                       name: string, hash: string, summary: string)
    requires AllDefined(procRows) && name in Names(procRows)
    ensures var m := StatusMap(procRows, cacheRows + [CacheRow(alias, name, hash, summary)], alias, sha);
      m[name] == if hash == HashString(sha, LastDefinition(procRows, name).value.value) then UpToDate else Outdated
  {
    var rows := cacheRows + [CacheRow(alias, name, hash, summary)];
    assert rows[..|rows| - 1] == cacheRows;
  }

  /** Cache rows of other connections or of procedures missing from the catalog
      leave the report unchanged. */
  lemma {:induction false} ForeignRowsIgnored(procRows: seq<ProcRow>, cacheRows: seq<CacheRow>, alias: string, sha: Sha256Hex, row: CacheRow)
    requires AllDefined(procRows)
    requires row.dbAlias != alias || row.procedureName !in Names(procRows)
    ensures StatusMap(procRows, cacheRows + [row], alias, sha) == StatusMap(procRows, cacheRows, alias, sha)
  {
    var rows := cacheRows + [row];
    assert rows[..|rows| - 1] == cacheRows;
    forall n | n in Names(procRows)
      ensures LastCachedHash(rows, alias, n) == LastCachedHash(cacheRows, alias, n)
    {
    }
  }

  /** The three-procedure scenario: never analysed, analysed and unchanged,
      analysed and then edited. */
  lemma ThreeProcedureScenario(sha: Sha256Hex, d1: string, d2: string, d3: string, old3: string, s2: string, s3: string)
    requires sha(old3) != sha(d3)
    ensures var procs := [ProcRow("p1", Some(d1)), ProcRow("p2", Some(d2)), ProcRow("p3", Some(d3))];
      && AllDefined(procs)
      && StatusMap(procs, [CacheRow("conn1", "p2", sha(d2), s2), CacheRow("conn1", "p3", sha(old3), s3)], "conn1", sha)
         == map["p1" := NotAnalyzed, "p2" := UpToDate, "p3" := Outdated]
  {
    var procs := [ProcRow("p1", Some(d1)), ProcRow("p2", Some(d2)), ProcRow("p3", Some(d3))];
    var rows := [CacheRow("conn1", "p2", sha(d2), s2), CacheRow("conn1", "p3", sha(old3), s3)];
    assert procs[..2] == [ProcRow("p1", Some(d1)), ProcRow("p2", Some(d2))];
    assert procs[..2][..1] == [ProcRow("p1", Some(d1))];
    assert Names(procs[..2][..1]) == {"p1"} by {
      assert procs[..2][..1][..0] == [];
    }
    assert Names(procs) == {"p1", "p2", "p3"};
    assert LastDefinition(procs, "p2") == Some(Some(d2));
    assert procs[0].name == "p1" && procs[1].name == "p2" && procs[2].name == "p3";
    LastRowDefines(procs, 0);
    LastRowDefines(procs, 2);
    assert rows[..1] == [CacheRow("conn1", "p2", sha(d2), s2)];
    assert rows[..1][..0] == [];
    assert LastCachedHash(rows[..1], "conn1", "p1") == None;
    assert LastCachedHash(rows, "conn1", "p1") == None;
    assert LastCachedHash(rows, "conn1", "p2") == Some(sha(d2));
  }

  /** A definition edited and then reverted: its first digest is still cached (a
      lookup hits), yet the report says "outdated", because the later row of the
      intermediate version is the one the report reads. */
  lemma RevertedDefinitionReportedOutdated(sha: Sha256Hex, v1: string, v2: string, s1: string, s2: string)
    requires sha(v1) != sha(v2)
    ensures var rows := [CacheRow("a", "p", sha(v1), s1), CacheRow("a", "p", sha(v2), s2)];
      && GetCachedSummary(rows, "a", "p", HashProcedure(sha, v1)) == Some(s1)
      && "p" in Names([ProcRow("p", Some(v1))]) && AllDefined([ProcRow("p", Some(v1))])
      && StatusMap([ProcRow("p", Some(v1))], rows, "a", sha)["p"] == Outdated
  {
    var rows := [CacheRow("a", "p", sha(v1), s1), CacheRow("a", "p", sha(v2), s2)];
    assert Names([ProcRow("p", Some(v1))]) == {"p"} by {
      assert [ProcRow("p", Some(v1))][0].name == "p";
    }
    assert LastCachedHash(rows, "a", "p") == Some(sha(v2));
  }
}

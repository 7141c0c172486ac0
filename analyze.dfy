/** The summarising endpoint (backend/api/analyze.py): look the procedure up in
    the summary cache by (connection, name, digest of the text); on a hit with a
    non-empty summary answer from the cache, otherwise ask the language model,
    store its answer and return it. */
module Analyze {
  import opened Common
  import opened Hashing
  import opened ProcedureCache
  import opened AnalyzeStatus
  import CacheEngine

  datatype AnalyzeRequest = AnalyzeRequest(content: string, procedureName: string, dbAlias: string)

  datatype AnalyzeResponse = AnalyzeResponse(summary: string, cached: bool)

  /** `get_llm().invoke(prompt).content`: the model's text, or the error raised on the way. */
  type Llm = string -> Result<string>

  const PromptPreamble: string :=
    "You're a data engineer helping understand SQL Server stored procedures.\n" +
    "Summarize what this stored procedure does.\n" +
    "Highlight any source and destination tables, transformation steps, and logic.\n\n" +
    "SQL:\n"

  /** The prompt: the fixed instructions followed by the procedure text. */
  function Prompt(content: string): (r: string)
    ensures StartsWith(r, PromptPreamble) && r[|PromptPreamble|..] == content
  {
    PromptPreamble + content
  }

  /** The cache key of a request. */
  function KeyHash(req: AnalyzeRequest, sha: Sha256Hex): string {
    HashProcedure(sha, req.content)
  }

  /** Python truthiness of the looked-up summary (`if cached:`). */
  predicate IsHit(cached: Option<string>) {
    cached.Some? && cached.value != ""
  }

  /** What one call answers, the cache table afterwards, and whether the model was asked. */
  datatype Outcome = Outcome(response: Result<AnalyzeResponse>, rows: seq<CacheRow>, llmCalled: bool)

  /** The row a successful call stores. */
  function StoredRow(req: AnalyzeRequest, sha: Sha256Hex, summary: string): CacheRow {
    CacheRow(req.dbAlias, req.procedureName, KeyHash(req, sha), summary)
  }

  /** One call of `analyze_proc` against the cache rows `rows`; `db` says how the
      cache database behaves on this call. Every exception becomes the error. */
  function AnalyzeSpec(rows: seq<CacheRow>, req: AnalyzeRequest, sha: Sha256Hex, llm: Llm, db: CacheDb): Outcome {
    var hash := KeyHash(req, sha);
    match FetchSummary(rows, db, req.dbAlias, req.procedureName, hash)
    case Err(e) => Outcome(Err(e), rows, false)
    case Ok(cached) =>
      if IsHit(cached) then
        Outcome(Ok(AnalyzeResponse(cached.value, true)), rows, false)
      else
        match llm(Prompt(req.content))
        case Err(e) => Outcome(Err(e), rows, true)
        case Ok(summary) =>
          match StoreError(db, StoredRow(req, sha, summary))
          case Some(e) => Outcome(Err(e), rows, true)
          case None => Outcome(Ok(AnalyzeResponse(summary, false)), rows + [StoredRow(req, sha, summary)], true)
  }

  /** `analyze_proc`. `llmCalled` reports whether the model was invoked. */
  method AnalyzeProc(cache: ProcedureCacheTable, req: AnalyzeRequest, sha: Sha256Hex, llm: Llm, db: CacheDb)
    returns (r: Result<AnalyzeResponse>, llmCalled: bool)
    modifies cache
    ensures var o := AnalyzeSpec(old(cache.rows), req, sha, llm, db);
      r == o.response && cache.rows == o.rows && llmCalled == o.llmCalled
  {
    var procHash := HashProcedure(sha, req.content);
    var cached := FetchSummary(cache.rows, db, req.dbAlias, req.procedureName, procHash);
    if cached.Err? {
      return Err(cached.detail), false;
    }
    if cached.value.Some? && cached.value.value != "" {
      return Ok(AnalyzeResponse(cached.value.value, true)), false;
    }
    var prompt := Prompt(req.content);
    var response := llm(prompt);
    llmCalled := true;
    if response.Err? {
      return Err(response.detail), llmCalled;
    }
    var summary := response.value;
    var error := cache.StoreSummary(db, req.dbAlias, req.procedureName, procHash, summary);
    if error.Some? {
      return Err(error.value), llmCalled;
    }
    r := Ok(AnalyzeResponse(summary, false));
  }

  // ---------------------------------------------------------------------------
  // Properties

  /** The cache lookup succeeded and found `cached`. */
  predicate LookedUp(rows: seq<CacheRow>, req: AnalyzeRequest, sha: Sha256Hex, db: CacheDb, cached: Option<string>) {
    FetchSummary(rows, db, req.dbAlias, req.procedureName, HashString(sha, req.content)) == Ok(cached)
  }

  /** A hit with a non-empty summary answers from the cache, leaves the table as it
      was and does not ask the model. */
  lemma HitShortCircuits(rows: seq<CacheRow>, req: AnalyzeRequest, sha: Sha256Hex, llm: Llm, db: CacheDb, s: string)
    requires LookedUp(rows, req, sha, db, Some(s))
    requires s != ""
    ensures AnalyzeSpec(rows, req, sha, llm, db) == Outcome(Ok(AnalyzeResponse(s, true)), rows, false)
  {
  }

  /** Otherwise the model is asked once; when the INSERT goes through, its answer is
      appended under the key and returned as not cached. */
  lemma MissAsksAndStores(rows: seq<CacheRow>, req: AnalyzeRequest, sha: Sha256Hex, llm: Llm, db: CacheDb,
                          cached: Option<string>, s: string)
    requires LookedUp(rows, req, sha, db, cached) && !IsHit(cached)
    requires llm(Prompt(req.content)) == Ok(s)
    requires db.storeCheck(CacheRow(req.dbAlias, req.procedureName, HashString(sha, req.content), s)).None?
    ensures var o := AnalyzeSpec(rows, req, sha, llm, db);
      && o.llmCalled
      && o.response == Ok(AnalyzeResponse(s, false))
      && o.rows == rows + [CacheRow(req.dbAlias, req.procedureName, HashString(sha, req.content), s)]
  {
  }

  /** A failing model call stores nothing and the handler reports the error. */
  lemma LlmFailureStoresNothing(rows: seq<CacheRow>, req: AnalyzeRequest, sha: Sha256Hex, llm: Llm, db: CacheDb,
                                cached: Option<string>, e: string)
    requires LookedUp(rows, req, sha, db, cached) && !IsHit(cached)
    requires llm(Prompt(req.content)) == Err(e)
    ensures AnalyzeSpec(rows, req, sha, llm, db) == Outcome(Err(e), rows, true)
  {
  }

  /** A failing lookup (no engine, no connection, a failing SELECT) reports the
      error without asking the model or writing anything. */
  lemma LookupFailureAsksNothing(rows: seq<CacheRow>, req: AnalyzeRequest, sha: Sha256Hex, llm: Llm, db: CacheDb)
    requires !EngineBuilds(db) || db.lookupError.Some?
    ensures var o := AnalyzeSpec(rows, req, sha, llm, db);
      o.response.Err? && o.rows == rows && !o.llmCalled
  {
  }

  /** Without integrated login and without a non-empty CACHE_DB_USER, every call
      fails with the credentials message before the model is asked. */
  lemma MissingCacheCredentialsFail(rows: seq<CacheRow>, req: AnalyzeRequest, sha: Sha256Hex, llm: Llm, db: CacheDb)
    requires !CacheEngine.UsesTrustedConnection(db.env)
    requires !TruthyOpt(GetEnv(db.env, "CACHE_DB_USER"))
    ensures AnalyzeSpec(rows, req, sha, llm, db) == Outcome(Err(CacheEngine.AuthErrorMessage), rows, false)
  {
    CacheEngine.CacheBuildSucceedsIff(db.env, db.quotePlus);
  }

  /** When the INSERT fails after the model answered, the answer is lost: nothing
      is stored, the error is reported, and the next call asks the model again. */
  lemma StoreFailureWritesNothing(rows: seq<CacheRow>, req: AnalyzeRequest, sha: Sha256Hex, llm: Llm, db: CacheDb,
                                  cached: Option<string>, s: string, e: string)
    requires LookedUp(rows, req, sha, db, cached) && !IsHit(cached)
    requires llm(Prompt(req.content)) == Ok(s)
    requires db.storeCheck(CacheRow(req.dbAlias, req.procedureName, HashString(sha, req.content), s)) == Some(e)
    ensures AnalyzeSpec(rows, req, sha, llm, db) == Outcome(Err(e), rows, true)
    ensures AnalyzeSpec(AnalyzeSpec(rows, req, sha, llm, db).rows, req, sha, llm, db).llmCalled
  {
  }

  /** The table only grows, and by at most the one row of this request's key. */
  lemma OnlyAppendsOwnKey(rows: seq<CacheRow>, req: AnalyzeRequest, sha: Sha256Hex, llm: Llm, db: CacheDb)
    ensures var o := AnalyzeSpec(rows, req, sha, llm, db);
      || o.rows == rows
      || (exists s :: o.rows == rows + [CacheRow(req.dbAlias, req.procedureName, HashString(sha, req.content), s)])
  {
    var o := AnalyzeSpec(rows, req, sha, llm, db);
    if o.rows != rows {
      var s := llm(Prompt(req.content)).value;
      assert o.rows == rows + [CacheRow(req.dbAlias, req.procedureName, HashString(sha, req.content), s)];
    }
  }

  /** Two identical calls in a row: when the second call's lookup goes through, it
      is answered from the cache with the first call's summary, provided that
      summary is non-empty and the table held no empty summary under the key
      beforehand. */
  lemma SecondCallHits(rows: seq<CacheRow>, req: AnalyzeRequest, sha: Sha256Hex, llm1: Llm, llm2: Llm,
                       db1: CacheDb, db2: CacheDb, s: string)
    requires GetCachedSummary(rows, req.dbAlias, req.procedureName, HashString(sha, req.content)) != Some("")
    requires AnalyzeSpec(rows, req, sha, llm1, db1).response.Ok?
    requires AnalyzeSpec(rows, req, sha, llm1, db1).response.value.summary == s
    requires s != ""
    requires EngineBuilds(db2) && db2.lookupError == None
    ensures var first := AnalyzeSpec(rows, req, sha, llm1, db1);
      AnalyzeSpec(first.rows, req, sha, llm2, db2) == Outcome(Ok(AnalyzeResponse(s, true)), first.rows, false)
  {
    var hash := HashString(sha, req.content);
    var cached := GetCachedSummary(rows, req.dbAlias, req.procedureName, hash);
    if !IsHit(cached) {
      assert cached == None;
      StoreAfterMissHits(rows, req.dbAlias, req.procedureName, hash, s);
    }
  }

  /** An empty summary in the first matching row poisons the key: every call whose
      lookup goes through asks the model again, and a successful call appends yet
      another row, after which the key is still poisoned. */
  lemma EmptySummaryAlwaysMisses(rows: seq<CacheRow>, req: AnalyzeRequest, sha: Sha256Hex, llm: Llm, db: CacheDb)
    requires GetCachedSummary(rows, req.dbAlias, req.procedureName, HashString(sha, req.content)) == Some("")
    ensures var o := AnalyzeSpec(rows, req, sha, llm, db);
      && (o.llmCalled <==> EngineBuilds(db) && db.lookupError == None)
      && (o.response.Ok? ==> |o.rows| == |rows| + 1)
      && GetCachedSummary(o.rows, req.dbAlias, req.procedureName, HashString(sha, req.content)) == Some("")
  {
    var o := AnalyzeSpec(rows, req, sha, llm, db);
    if o.response.Ok? {
      GetAfterAppend(rows, o.rows[|rows|], req.dbAlias, req.procedureName, HashString(sha, req.content));
    }
  }

  /** A call that stored a fresh summary makes the staleness report say
      "up_to_date" for that procedure, as long as the catalog's current definition
      is the text that was analysed. */
  lemma StoreMakesUpToDate(procRows: seq<ProcRow>, rows: seq<CacheRow>, req: AnalyzeRequest, sha: Sha256Hex, llm: Llm,
                           db: CacheDb)
    requires AllDefined(procRows) && LastDefinition(procRows, req.procedureName) == Some(Some(req.content))
    requires AnalyzeSpec(rows, req, sha, llm, db).rows != rows
    ensures var m := StatusMap(procRows, AnalyzeSpec(rows, req, sha, llm, db).rows, req.dbAlias, sha);
      req.procedureName in m && m[req.procedureName] == UpToDate
  {
    var s := llm(Prompt(req.content)).value;
    LastRowDecides(procRows, rows, req.dbAlias, sha, req.procedureName, HashString(sha, req.content), s);
  }
}

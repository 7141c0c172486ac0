/** The procedure summary cache (backend/storage/procedure_cache.py): an
    insert-only table `procedure_analysis_cache` of
    (db_alias, procedure_name, proc_hash, summary) rows. Lookups return the
    summary of the first row, in table order, that matches all three key parts. */
module ProcedureCache {
  import opened Common
  import opened Hashing
  import CacheEngine

  datatype CacheRow = CacheRow(dbAlias: string, procedureName: string, procHash: string, summary: string)

  /** `hash_procedure`: the same digest as `hash_string`. */
  function HashProcedure(sha: Sha256Hex, content: string): (r: string)
    ensures r == HashString(sha, content)
  {
    sha(content)
  }

  predicate Matches(row: CacheRow, alias: string, name: string, hash: string) {
    row.dbAlias == alias && row.procedureName == name && row.procHash == hash
  }

  /** `get_cached_summary`: `fetchone()` of the rows matching alias, name and hash. */
  function GetCachedSummary(rows: seq<CacheRow>, alias: string, name: string, hash: string): (r: Option<string>)
    ensures r.None? <==> forall i :: 0 <= i < |rows| ==> !Matches(rows[i], alias, name, hash)
    ensures r.Some? ==>
      exists i :: 0 <= i < |rows| && Matches(rows[i], alias, name, hash) && rows[i].summary == r.value &&
        forall j :: 0 <= j < i ==> !Matches(rows[j], alias, name, hash)
  {
    if |rows| == 0 then None
    else if Matches(rows[0], alias, name, hash) then Some(rows[0].summary)
    else
      var r := GetCachedSummary(rows[1..], alias, name, hash);
      assert forall i :: 1 <= i < |rows| ==> rows[i] == rows[1..][i - 1];
      if r.Some? then
        var k :| 0 <= k < |rows[1..]| && Matches(rows[1..][k], alias, name, hash) && rows[1..][k].summary == r.value &&
          forall j :: 0 <= j < k ==> !Matches(rows[1..][j], alias, name, hash);
        assert Matches(rows[k + 1], alias, name, hash) && rows[k + 1].summary == r.value;
        r
      else r
  }

  /** What a lookup sees after one more row was appended: an earlier match still
      wins; otherwise the new row answers for its own key and for no other. */
  lemma {:induction false} GetAfterAppend(rows: seq<CacheRow>, row: CacheRow, alias: string, name: string, hash: string)
    ensures GetCachedSummary(rows + [row], alias, name, hash) ==
      match GetCachedSummary(rows, alias, name, hash)
      case Some(s) => Some(s)
      case None => if Matches(row, alias, name, hash) then Some(row.summary) else None
  {
    if |rows| > 0 {
      assert (rows + [row])[1..] == rows[1..] + [row];
      GetAfterAppend(rows[1..], row, alias, name, hash);
    }
  }

  /** After a miss, storing a summary under the key makes the next lookup return it. */
  lemma StoreAfterMissHits(rows: seq<CacheRow>, alias: string, name: string, hash: string, summary: string)
    requires GetCachedSummary(rows, alias, name, hash) == None
    ensures GetCachedSummary(rows + [CacheRow(alias, name, hash, summary)], alias, name, hash) == Some(summary)
  {
    GetAfterAppend(rows, CacheRow(alias, name, hash, summary), alias, name, hash);
  }

  /** A store under one key leaves the lookup of every other key as it was. */
  lemma StoreLeavesOtherKeys(rows: seq<CacheRow>, row: CacheRow, alias: string, name: string, hash: string)
    requires !Matches(row, alias, name, hash)
    ensures GetCachedSummary(rows + [row], alias, name, hash) == GetCachedSummary(rows, alias, name, hash)
  {
    GetAfterAppend(rows, row, alias, name, hash);
  }

  /** What the cache database does on one call: the environment the cache
      engine is built from (`get_cache_engine` runs again for every lookup and
      every store), `quote_plus`, the error connecting or running the SELECT
      raises, if any, and the error the INSERT raises for a given row, if any. */
  datatype CacheDb = CacheDb(env: Env, quotePlus: string -> string, lookupError: Option<string>,
                             storeCheck: InsertCheck<CacheRow>)

  predicate EngineBuilds(db: CacheDb) {
    CacheEngine.GetCacheEngine(db.env, db.quotePlus).Returns?
  }

  /** `get_cached_summary`: build the cache engine, then run the SELECT and take
      the first row. Missing SQL credentials raise before any query runs. */
  function FetchSummary(rows: seq<CacheRow>, db: CacheDb, alias: string, name: string, hash: string): (r: Result<Option<string>>)
    ensures r.Err? <==> !EngineBuilds(db) || db.lookupError.Some?
    ensures !EngineBuilds(db) ==> r == Err(CacheEngine.AuthErrorMessage)
    ensures r.Ok? ==> (r.value.None? <==> forall i :: 0 <= i < |rows| ==> !Matches(rows[i], alias, name, hash))
    ensures r.Ok? ==> r.value == GetCachedSummary(rows, alias, name, hash)
  {
    match CacheEngine.GetCacheEngine(db.env, db.quotePlus)
    case Raised(e) => Err(ExceptionText(e))
    case Returns(_) =>
      if db.lookupError.Some? then Err(db.lookupError.value)
      else Ok(GetCachedSummary(rows, alias, name, hash))
  }

  /** The error `store_summary` raises for `row`, if any: building the cache
      engine comes first, then the INSERT. */
  function StoreError(db: CacheDb, row: CacheRow): (r: Option<string>)
    ensures r.None? <==> EngineBuilds(db) && db.storeCheck(row).None?
    ensures !EngineBuilds(db) ==> r == Some(CacheEngine.AuthErrorMessage)
  {
    match CacheEngine.GetCacheEngine(db.env, db.quotePlus)
    case Raised(e) => Some(ExceptionText(e))
    case Returns(_) => db.storeCheck(row)
  }

  /** The cache table. Rows are only ever appended. */
  class ProcedureCacheTable {
    var rows: seq<CacheRow>

    constructor (initial: seq<CacheRow>)
      ensures rows == initial
    {
      rows := initial;
    }

    /** `store_summary`: one INSERT in its own transaction, no update or delete;
        a failure leaves the table as it was. */
    method StoreSummary(db: CacheDb, alias: string, name: string, hash: string, summary: string)
      returns (error: Option<string>)
      modifies this
      ensures error == StoreError(db, CacheRow(alias, name, hash, summary))
      ensures rows == if error.None? then old(rows) + [CacheRow(alias, name, hash, summary)] else old(rows)
    {
      var row := CacheRow(alias, name, hash, summary);
      var engine := CacheEngine.GetCacheEngine(db.env, db.quotePlus);
      if engine.Raised? {
        return Some(ExceptionText(engine.exception));
      }
      error := db.storeCheck(row);
      if error.None? {
        rows := rows + [row];
      }
    }
  }
}

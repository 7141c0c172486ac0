/** Lineage endpoints (backend/api/lineage.py): `analyze_lineage` passes the
    agent's result through; `save_lineage` replaces, in one transaction, the
    `lineage_map` rows of a procedure version (procedure name and digest of its
    text) by one row per column mapping of the posted lineage dictionary. */
module Lineage {
  import opened Common
  import opened Hashing
  import opened LineageAgent
  import Manager

  /** One row of `lineage_map`. Source and target columns are stored as given,
      so a JSON null becomes a NULL column. */
  datatype LineageMapRow = LineageMapRow(
    procedureName: string, databaseName: string, schemaName: string,
    sourceTable: string, targetTable: string,
    sourceColumn: Option<string>, targetColumn: Option<string>,
    sourceFull: string, analyzedAt: Timestamp, hash: string)

  // ---------------------------------------------------------------------------
  // The posted lineage dictionary

  /** The value found under one key of a posted dictionary. */
  datatype Field = Missing | Null | Str(s: string)

  /** One entry of `column_mappings`. */
  datatype MappingDict = MappingDict(source: Field, target: Field, sourceTable: Field)

  /** The `column_mappings` entry: absent, null, or a list. */
  datatype MappingsField = NoMappings | NullMappings | Mappings(items: seq<MappingDict>)

  /** The parts of the `lineage` dictionary that are read. */
  datatype LineageDict = LineageDict(targetTable: Field, columnMappings: MappingsField)

  datatype LineageRecord = LineageRecord(procedureName: string, database: string, content: string, lineage: LineageDict)

  const NoneSplitDetail: string := "'NoneType' object has no attribute 'split'"
  const NoneIterDetail: string := "'NoneType' object is not iterable"

  /** `d[key]` when `.split` is called on it next. */
  function SplitArgument(f: Field, key: string): (r: Result<string>)
    ensures r.Ok? <==> f.Str?
    ensures r.Ok? ==> r.value == f.s
  {
    match f
    case Missing => Err(KeyErrorDetail(key))
    case Null => Err(NoneSplitDetail)
    case Str(s) => Ok(s)
  }

  /** `d[key]` bound as a column value: a null is stored as NULL. */
  function ColumnValue(f: Field, key: string): (r: Result<Option<string>>)
    ensures r.Err? <==> f.Missing?
    ensures f.Str? ==> r == Ok(Some(f.s))
    ensures f.Null? ==> r == Ok(None)
  {
    match f
    case Missing => Err(KeyErrorDetail(key))
    case Null => Ok(None)
    case Str(s) => Ok(Some(s))
  }

  /** `lineage.get("column_mappings", [])`, as iterated by the insert loop. */
  function MappingList(m: MappingsField): (r: Result<seq<MappingDict>>)
    ensures r.Err? <==> m.NullMappings?
    ensures m.NoMappings? ==> r == Ok([])
    ensures m.Mappings? ==> r == Ok(m.items)
  {
    match m
    case NoMappings => Ok([])
    case NullMappings => Err(NoneIterDetail)
    case Mappings(items) => Ok(items)
  }

  /** The row one mapping produces, its parameters evaluated in the order the
      dictionary literal lists them. */
  function MappingRow(proc: string, db: string, targetTable: Field, m: MappingDict, now: Timestamp, hash: string): Result<LineageMapRow> {
    match SplitArgument(targetTable, "target_table")
    case Err(e) => Err(e)
    case Ok(target) =>
      match SplitArgument(m.sourceTable, "source_table")
      case Err(e) => Err(e)
      case Ok(src) =>
        match ColumnValue(m.source, "source")
        case Err(e) => Err(e)
        case Ok(srcCol) =>
          match ColumnValue(m.target, "target")
          case Err(e) => Err(e)
          case Ok(tgtCol) =>
            Ok(LineageMapRow(proc, db, BeforeFirst(target, '.'), AfterLast(src, '.'), AfterLast(target, '.'),
                             srcCol, tgtCol, src, now, hash))
  }

  /** A mapping yields a row exactly when both table names are strings and both
      column keys are present; the row's fields are derived from them as stated. */
  lemma MappingRowFields(proc: string, db: string, targetTable: Field, m: MappingDict, now: Timestamp, hash: string)
    ensures MappingRow(proc, db, targetTable, m, now, hash).Ok? <==>
      targetTable.Str? && m.sourceTable.Str? && !m.source.Missing? && !m.target.Missing?
    ensures MappingRow(proc, db, targetTable, m, now, hash).Ok? ==>
      var row := MappingRow(proc, db, targetTable, m, now, hash).value;
      && row.procedureName == proc && row.databaseName == db
      && row.schemaName == BeforeFirst(targetTable.s, '.')
      && row.targetTable == AfterLast(targetTable.s, '.')
      && row.sourceTable == AfterLast(m.sourceTable.s, '.')
      && row.sourceFull == m.sourceTable.s
      && row.sourceColumn == (if m.source.Str? then Some(m.source.s) else None)
      && row.targetColumn == (if m.target.Str? then Some(m.target.s) else None)
      && row.analyzedAt == now && row.hash == hash
  {
  }

  /** One pass of the insert loop: the row's parameters are evaluated, then the
      INSERT runs; `check` is the error the INSERT raises for a row, if any. */
  function InsertedRow(proc: string, db: string, targetTable: Field, m: MappingDict, now: Timestamp, hash: string,
                       check: InsertCheck<LineageMapRow>): (r: Result<LineageMapRow>)
    ensures r.Ok? <==> MappingRow(proc, db, targetTable, m, now, hash).Ok? &&
                       check(MappingRow(proc, db, targetTable, m, now, hash).value).None?
    ensures r.Ok? ==> r == MappingRow(proc, db, targetTable, m, now, hash)
    ensures MappingRow(proc, db, targetTable, m, now, hash).Err? ==> r == MappingRow(proc, db, targetTable, m, now, hash)
  {
    match MappingRow(proc, db, targetTable, m, now, hash)
    case Err(e) => Err(e)
    case Ok(row) =>
      match check(row)
      case Some(e) => Err(e)
      case None => Ok(row)
  }

  /** The rows of a list of mappings, or the first error met. */
  function MappingRows(proc: string, db: string, targetTable: Field, items: seq<MappingDict>, now: Timestamp, hash: string, check: InsertCheck<LineageMapRow>)
    : (r: Result<seq<LineageMapRow>>)
    ensures r.Ok? ==> |r.value| == |items|
  {
    if |items| == 0 then Ok([])
    else
      var n := |items| - 1;
      var rows := MappingRows(proc, db, targetTable, items[..n], now, hash, check);
      var row := InsertedRow(proc, db, targetTable, items[n], now, hash, check);
      if rows.Err? then rows
      else if row.Err? then Err(row.detail)
      else Ok(rows.value + [row.value])
  }

  /** The list yields rows exactly when every mapping does. */
  lemma {:induction false} MappingRowsOkIff(proc: string, db: string, targetTable: Field, items: seq<MappingDict>,
                                            now: Timestamp, hash: string, check: InsertCheck<LineageMapRow>)
    ensures MappingRows(proc, db, targetTable, items, now, hash, check).Ok? <==>
      forall i :: 0 <= i < |items| ==> InsertedRow(proc, db, targetTable, items[i], now, hash, check).Ok?
  {
    if |items| > 0 {
      var n := |items| - 1;
      var prefix := items[..n];
      MappingRowsOkIff(proc, db, targetTable, prefix, now, hash, check);
      var rows := MappingRows(proc, db, targetTable, prefix, now, hash, check);
      var row := InsertedRow(proc, db, targetTable, items[n], now, hash, check);
      if rows.Err? {
        MappingRowsOfErrPrefix(proc, db, targetTable, items, now, hash, check);
        var i :| 0 <= i < n && !InsertedRow(proc, db, targetTable, prefix[i], now, hash, check).Ok?;
        assert prefix[i] == items[i];
      } else if row.Err? {
        assert MappingRows(proc, db, targetTable, items, now, hash, check).Err?;
      } else {
        assert MappingRows(proc, db, targetTable, items, now, hash, check).Ok?;
        forall i | 0 <= i < |items|
          ensures InsertedRow(proc, db, targetTable, items[i], now, hash, check).Ok?
        {
          if i < n {
            assert prefix[i] == items[i];
            assert InsertedRow(proc, db, targetTable, prefix[i], now, hash, check).Ok?;
          } else {
            assert i == n;
          }
        }
      }
    }
  }

  /** When the list yields rows, the row at each position is the one its mapping yields. */
  lemma {:induction false} MappingRowsAt(proc: string, db: string, targetTable: Field, items: seq<MappingDict>,
                                         now: Timestamp, hash: string, check: InsertCheck<LineageMapRow>)
    requires MappingRows(proc, db, targetTable, items, now, hash, check).Ok?
    ensures forall i :: 0 <= i < |items| ==>
      InsertedRow(proc, db, targetTable, items[i], now, hash, check) == Ok(MappingRows(proc, db, targetTable, items, now, hash, check).value[i])
  {
    if |items| > 0 {
      var n := |items| - 1;
      var prefix := items[..n];
      var rows := MappingRows(proc, db, targetTable, prefix, now, hash, check).value;
      var row := InsertedRow(proc, db, targetTable, items[n], now, hash, check).value;
      MappingRowsAt(proc, db, targetTable, prefix, now, hash, check);
      var r := MappingRows(proc, db, targetTable, items, now, hash, check).value;
      assert r == rows + [row];
      forall i | 0 <= i < |items|
        ensures InsertedRow(proc, db, targetTable, items[i], now, hash, check) == Ok(r[i])
      {
        if i < n {
          assert prefix[i] == items[i] && r[i] == rows[i];
        }
      }
    }
  }

  /** Both facts together. */
  lemma MappingRowsSpec(proc: string, db: string, targetTable: Field, items: seq<MappingDict>, now: Timestamp, hash: string, check: InsertCheck<LineageMapRow>)
    ensures var r := MappingRows(proc, db, targetTable, items, now, hash, check);
      && (r.Ok? <==> forall i :: 0 <= i < |items| ==> InsertedRow(proc, db, targetTable, items[i], now, hash, check).Ok?)
      && (r.Ok? ==> forall i :: 0 <= i < |items| ==> InsertedRow(proc, db, targetTable, items[i], now, hash, check) == Ok(r.value[i]))
  {
    MappingRowsOkIff(proc, db, targetTable, items, now, hash, check);
    if MappingRows(proc, db, targetTable, items, now, hash, check).Ok? {
      MappingRowsAt(proc, db, targetTable, items, now, hash, check);
    }
  }

  /** Once a prefix of the list fails, the whole list fails with the same error. */
  lemma {:induction false} MappingRowsPrefixError(proc: string, db: string, targetTable: Field, items: seq<MappingDict>,
                                                   k: nat, now: Timestamp, hash: string, check: InsertCheck<LineageMapRow>)
    requires k <= |items|
    requires MappingRows(proc, db, targetTable, items[..k], now, hash, check).Err?
    ensures MappingRows(proc, db, targetTable, items, now, hash, check) == MappingRows(proc, db, targetTable, items[..k], now, hash, check)
    decreases |items| - k
  {
    if k < |items| {
      var prefix := items[..|items| - 1];
      assert prefix[..k] == items[..k];
      MappingRowsPrefixError(proc, db, targetTable, prefix, k, now, hash, check);
      MappingRowsOfErrPrefix(proc, db, targetTable, items, now, hash, check);
    } else {
      assert items[..k] == items;
    }
  }

  lemma MappingRowsOfErrPrefix(proc: string, db: string, targetTable: Field, items: seq<MappingDict>, now: Timestamp, hash: string, check: InsertCheck<LineageMapRow>)
    requires |items| > 0 && MappingRows(proc, db, targetTable, items[..|items| - 1], now, hash, check).Err?
    ensures MappingRows(proc, db, targetTable, items, now, hash, check) == MappingRows(proc, db, targetTable, items[..|items| - 1], now, hash, check)
  {
  }

  /** One more mapping: the prefix's rows followed by its row, or its error. */
  lemma MappingRowsExtend(proc: string, db: string, targetTable: Field, items: seq<MappingDict>, i: nat, now: Timestamp, hash: string, check: InsertCheck<LineageMapRow>)
    requires i < |items| && MappingRows(proc, db, targetTable, items[..i], now, hash, check).Ok?
    ensures var row := InsertedRow(proc, db, targetTable, items[i], now, hash, check);
      var rows := MappingRows(proc, db, targetTable, items[..i], now, hash, check).value;
      MappingRows(proc, db, targetTable, items[..i + 1], now, hash, check) == if row.Err? then Err(row.detail) else Ok(rows + [row.value])
  {
    var prefix := items[..i + 1];
    assert prefix[..i] == items[..i] && prefix[i] == items[i];
  }

  // ---------------------------------------------------------------------------
  // Deleting

  /** The two DELETE statements on `lineage_map`: by procedure and digest
      (`save_lineage`) and by procedure and database (the bulk endpoint). */
  datatype DeleteKey = ByProcHash(proc: string, hash: string) | ByProcDb(proc: string, db: string)

  predicate Deletes(key: DeleteKey, row: LineageMapRow) {
    match key
    case ByProcHash(p, h) => row.procedureName == p && row.hash == h
    case ByProcDb(p, d) => row.procedureName == p && row.databaseName == d
  }

  /** The table after `DELETE ... WHERE key`: the other rows, in order. */
  function DeleteWhere(rows: seq<LineageMapRow>, key: DeleteKey): (r: seq<LineageMapRow>)
    ensures forall row :: row in r <==> row in rows && !Deletes(key, row)
    ensures |r| <= |rows|
  {
    if |rows| == 0 then []
    else
      var n := |rows| - 1;
      var rest := DeleteWhere(rows[..n], key);
      assert rows == rows[..n] + [rows[n]];
      if Deletes(key, rows[n]) then rest else rest + [rows[n]]
  }

  lemma {:induction false} DeleteWhereAppend(a: seq<LineageMapRow>, b: seq<LineageMapRow>, key: DeleteKey)
    ensures DeleteWhere(a + b, key) == DeleteWhere(a, key) + DeleteWhere(b, key)
    decreases |b|
  {
    if |b| == 0 {
      assert a + b == a;
    } else {
      var n := |b| - 1;
      assert (a + b)[..|a + b| - 1] == a + b[..n];
      DeleteWhereAppend(a, b[..n], key);
    }
  }

  /** Deleting twice by the same key deletes nothing more. */
  lemma {:induction false} DeleteWhereIdempotent(rows: seq<LineageMapRow>, key: DeleteKey)
    ensures DeleteWhere(DeleteWhere(rows, key), key) == DeleteWhere(rows, key)
    decreases |rows|
  {
    if |rows| > 0 {
      var n := |rows| - 1;
      DeleteWhereIdempotent(rows[..n], key);
      var rest := DeleteWhere(rows[..n], key);
      if !Deletes(key, rows[n]) {
        DeleteWhereAppend(rest, [rows[n]], key);
      }
    }
  }

  /** Rows that all match the key vanish entirely. */
  lemma {:induction false} DeleteWhereAllMatching(rows: seq<LineageMapRow>, key: DeleteKey)
    requires forall i :: 0 <= i < |rows| ==> Deletes(key, rows[i])
    ensures DeleteWhere(rows, key) == []
    decreases |rows|
  {
    if |rows| > 0 {
      DeleteWhereAllMatching(rows[..|rows| - 1], key);
    }
  }

  // ---------------------------------------------------------------------------
  // The table and the save endpoint

  /** The `lineage_map` table. */
  class LineageMapTable {
    var rows: seq<LineageMapRow>

    constructor (initial: seq<LineageMapRow>)
      ensures rows == initial
    {
      rows := initial;
    }
  }

  /** What a save answers and the table afterwards. */
  datatype SaveOutcome = SaveOutcome(response: Result<nat>, rows: seq<LineageMapRow>)

  /** How the lineage database behaves inside one transaction: the error that
      opening it or the DELETE raises, if any, and the error the INSERT raises
      for a given row, if any. */
  datatype LineageWrites = LineageWrites(deleteError: Option<string>, insertCheck: InsertCheck<LineageMapRow>)

  /** One call of `save_lineage` against the table rows `rows`; `now` is
      `datetime.utcnow()` and `engine` the answer of
      `get_sqlalchemy_engine("lineage")`. Any exception rolls the transaction
      back and becomes the error. */
  function SaveSpec(rows: seq<LineageMapRow>, record: LineageRecord, sha: Sha256Hex, now: Timestamp,
                    engine: Raises<Manager.Engine>, writes: LineageWrites): SaveOutcome {
    var hash := HashString(sha, record.content);
    var kept := DeleteWhere(rows, ByProcHash(record.procedureName, hash));
    match engine
    case Raised(e) => SaveOutcome(Err(ExceptionText(e)), rows)
    case Returns(_) =>
      match writes.deleteError
      case Some(e) => SaveOutcome(Err(e), rows)
      case None =>
        match MappingList(record.lineage.columnMappings)
        case Err(e) => SaveOutcome(Err(e), rows)
        case Ok(items) =>
          match MappingRows(record.procedureName, record.database, record.lineage.targetTable, items, now, hash, writes.insertCheck)
          case Err(e) => SaveOutcome(Err(e), rows)
          case Ok(inserted) => SaveOutcome(Ok(|items|), kept + inserted)
  }

  /** The `for mapping in ...` loop: one INSERT per mapping into the pending
      transaction, stopping at the first mapping that raises. */
  method InsertMappings(proc: string, db: string, targetTable: Field, items: seq<MappingDict>, now: Timestamp, hash: string,
                        check: InsertCheck<LineageMapRow>)
    returns (r: Result<seq<LineageMapRow>>)
    ensures r == MappingRows(proc, db, targetTable, items, now, hash, check)
  {
    var inserted: seq<LineageMapRow> := [];
    var i := 0;
    while i < |items|
      invariant 0 <= i <= |items|
      invariant MappingRows(proc, db, targetTable, items[..i], now, hash, check) == Ok(inserted)
    {
      var row := InsertedRow(proc, db, targetTable, items[i], now, hash, check);
      MappingRowsExtend(proc, db, targetTable, items, i, now, hash, check);
      if row.Err? {
        MappingRowsPrefixError(proc, db, targetTable, items, i + 1, now, hash, check);
        return Err(row.detail);
      }
      inserted := inserted + [row.value];
      i := i + 1;
    }
    assert items[..i] == items;
    r := Ok(inserted);
  }

  /** `save_lineage`: the engine comes from the connection manager; the DELETE
      and the inserts are made on a pending copy that is committed only when
      every statement succeeded. */
  method SaveLineage(mgr: Manager.ConnectionManager, table: LineageMapTable, record: LineageRecord, sha: Sha256Hex,
                     now: Timestamp, env: Env, writes: LineageWrites)
    returns (r: Result<nat>)
    modifies mgr, table
    ensures var got := Manager.GetEngineSpec(mgr.connections, old(mgr.cache), "lineage", env);
      var o := SaveSpec(old(table.rows), record, sha, now, got.response, writes);
      r == o.response && table.rows == o.rows && mgr.cache == got.cache
  {
    var hashVal := HashString(sha, record.content);
    var engine := mgr.GetSqlalchemyEngine("lineage", env);
    if engine.Raised? {
      return Err(ExceptionText(engine.exception));
    }
    if writes.deleteError.Some? {
      return Err(writes.deleteError.value);
    }
    var kept := DeleteWhere(table.rows, ByProcHash(record.procedureName, hashVal));
    var mappings := MappingList(record.lineage.columnMappings);
    if mappings.Err? {
      return Err(mappings.detail);
    }
    var inserted := InsertMappings(record.procedureName, record.database, record.lineage.targetTable, mappings.value,
                                   now, hashVal, writes.insertCheck);
    if inserted.Err? {
      return Err(inserted.detail);
    }
    table.rows := kept + inserted.value;
    r := Ok(|mappings.value|);
  }

  /** `analyze_lineage`: the agent's result, unchanged; no table is touched. */
  function AnalyzeLineage(procName: string, database: string, content: string,
                          sha: Sha256Hex, callModel: CallModel, parse: ParseLineage): (r: Result<LineageOutput>)
    ensures r.Ok? ==> r.value.hash == HashString(sha, content) && r.value.procedureName == procName && r.value.database == database
    ensures r.Err? <==> callModel(Prompt(procName, content)).Err?
  {
    SummarizeLineage(procName, database, content, sha, callModel, parse)
  }

  // ---------------------------------------------------------------------------
  // Properties of a save

  /** A save succeeds exactly when the engine is built, the DELETE goes through,
      `column_mappings` is not null and every mapping yields a row whose INSERT
      goes through. */
  lemma SaveSucceedsIff(rows: seq<LineageMapRow>, record: LineageRecord, sha: Sha256Hex, now: Timestamp,
                        engine: Raises<Manager.Engine>, writes: LineageWrites)
    ensures SaveSpec(rows, record, sha, now, engine, writes).response.Ok? <==>
      && engine.Returns? && writes.deleteError.None?
      && MappingList(record.lineage.columnMappings).Ok?
      && var items := MappingList(record.lineage.columnMappings).value;
         forall i :: 0 <= i < |items| ==>
           && MappingRow(record.procedureName, record.database, record.lineage.targetTable, items[i], now, HashString(sha, record.content)).Ok?
           && writes.insertCheck(MappingRow(record.procedureName, record.database, record.lineage.targetTable, items[i], now,
                                            HashString(sha, record.content)).value).None?
  {
    if MappingList(record.lineage.columnMappings).Ok? {
      MappingRowsOkIff(record.procedureName, record.database, record.lineage.targetTable,
                       MappingList(record.lineage.columnMappings).value, now, HashString(sha, record.content), writes.insertCheck);
    }
  }

  /** A save whose engine cannot be built, or whose DELETE fails, reports that
      error and writes nothing. */
  lemma SaveNeedsEngineAndDelete(rows: seq<LineageMapRow>, record: LineageRecord, sha: Sha256Hex, now: Timestamp,
                                 engine: Raises<Manager.Engine>, writes: LineageWrites)
    ensures engine.Raised? ==> SaveSpec(rows, record, sha, now, engine, writes) == SaveOutcome(Err(ExceptionText(engine.exception)), rows)
    ensures engine.Returns? && writes.deleteError.Some? ==>
      SaveSpec(rows, record, sha, now, engine, writes) == SaveOutcome(Err(writes.deleteError.value), rows)
  {
  }

  /** A successful save reports one row per mapping, and the table then holds the
      rows of other versions followed by exactly one row per mapping, each carrying
      the request's procedure, database, digest and timestamp. */
  lemma SaveInsertsOneRowPerMapping(rows: seq<LineageMapRow>, record: LineageRecord, sha: Sha256Hex, now: Timestamp,
                                    engine: Raises<Manager.Engine>, writes: LineageWrites)
    requires SaveSpec(rows, record, sha, now, engine, writes).response.Ok?
    ensures var o := SaveSpec(rows, record, sha, now, engine, writes);
      var key := ByProcHash(record.procedureName, HashString(sha, record.content));
      var kept := DeleteWhere(rows, key);
      && |o.rows| == |kept| + o.response.value
      && o.rows[..|kept|] == kept
      && o.response.value == |MappingList(record.lineage.columnMappings).value|
      && forall i :: |kept| <= i < |o.rows| ==>
           && o.rows[i].procedureName == record.procedureName
           && o.rows[i].databaseName == record.database
           && o.rows[i].hash == HashString(sha, record.content)
           && o.rows[i].analyzedAt == now
  {
    var o := SaveSpec(rows, record, sha, now, engine, writes);
    var hash := HashString(sha, record.content);
    var items := MappingList(record.lineage.columnMappings).value;
    var inserted := MappingRows(record.procedureName, record.database, record.lineage.targetTable, items, now, hash, writes.insertCheck).value;
    var kept := DeleteWhere(rows, ByProcHash(record.procedureName, hash));
    MappingRowsSpec(record.procedureName, record.database, record.lineage.targetTable, items, now, hash, writes.insertCheck);
    forall i | |kept| <= i < |o.rows|
      ensures o.rows[i] == inserted[i - |kept|]
    {
    }
    forall k | 0 <= k < |inserted|
      ensures inserted[k].procedureName == record.procedureName && inserted[k].databaseName == record.database
      ensures inserted[k].hash == hash && inserted[k].analyzedAt == now
    {
      MappingRowFields(record.procedureName, record.database, record.lineage.targetTable, items[k], now, hash);
    }
  }

  /** Rows of any other procedure version survive a save, whatever its outcome;
      after a successful save the only rows of this version are the new ones. */
  lemma SaveTouchesOnlyItsVersion(rows: seq<LineageMapRow>, record: LineageRecord, sha: Sha256Hex, now: Timestamp,
                                  engine: Raises<Manager.Engine>, writes: LineageWrites)
    ensures var o := SaveSpec(rows, record, sha, now, engine, writes);
      var key := ByProcHash(record.procedureName, HashString(sha, record.content));
      && (forall row :: row in rows && !Deletes(key, row) ==> row in o.rows)
      && (o.response.Ok? ==> forall i :: 0 <= i < |o.rows| && Deletes(key, o.rows[i]) ==> i >= |DeleteWhere(rows, key)|)
  {
    var o := SaveSpec(rows, record, sha, now, engine, writes);
    var key := ByProcHash(record.procedureName, HashString(sha, record.content));
    var kept := DeleteWhere(rows, key);
    if o.response.Ok? {
      forall i | 0 <= i < |kept|
        ensures !Deletes(key, o.rows[i])
      {
        assert o.rows[i] == kept[i];
      }
    }
  }

  /** A failed save leaves the table as it was: the transaction rolls back. */
  lemma SaveFailureRollsBack(rows: seq<LineageMapRow>, record: LineageRecord, sha: Sha256Hex, now: Timestamp,
                             engine: Raises<Manager.Engine>, writes: LineageWrites)
    requires SaveSpec(rows, record, sha, now, engine, writes).response.Err?
    ensures SaveSpec(rows, record, sha, now, engine, writes).rows == rows
  {
  }

  /** The delete ignores the database: rows of the same procedure and digest saved
      under another database name are removed too. */
  lemma SaveDeletesAcrossDatabases(rows: seq<LineageMapRow>, record: LineageRecord, sha: Sha256Hex, now: Timestamp,
                                   engine: Raises<Manager.Engine>, writes: LineageWrites, row: LineageMapRow)
    requires SaveSpec(rows, record, sha, now, engine, writes).response.Ok?
    requires row in rows && row.procedureName == record.procedureName && row.hash == HashString(sha, record.content)
    requires row.databaseName != record.database
    ensures row !in SaveSpec(rows, record, sha, now, engine, writes).rows
  {
    SaveInsertsOneRowPerMapping(rows, record, sha, now, engine, writes);
    var kept := DeleteWhere(rows, ByProcHash(record.procedureName, HashString(sha, record.content)));
    assert row !in kept;
  }

  /** Saving the same record twice with the same timestamp, engine and database
      behaviour gives the same table as saving it once. */
  lemma SaveIdempotent(rows: seq<LineageMapRow>, record: LineageRecord, sha: Sha256Hex, now: Timestamp,
                       engine: Raises<Manager.Engine>, writes: LineageWrites)
    ensures var once := SaveSpec(rows, record, sha, now, engine, writes);
      SaveSpec(once.rows, record, sha, now, engine, writes) == once
  {
    var once := SaveSpec(rows, record, sha, now, engine, writes);
    var hash := HashString(sha, record.content);
    var key := ByProcHash(record.procedureName, hash);
    if once.response.Ok? {
      var items := MappingList(record.lineage.columnMappings).value;
      var inserted := MappingRows(record.procedureName, record.database, record.lineage.targetTable, items, now, hash, writes.insertCheck).value;
      var kept := DeleteWhere(rows, key);
      MappingRowsSpec(record.procedureName, record.database, record.lineage.targetTable, items, now, hash, writes.insertCheck);
      forall k | 0 <= k < |inserted|
        ensures Deletes(key, inserted[k])
      {
        MappingRowFields(record.procedureName, record.database, record.lineage.targetTable, items[k], now, hash);
      }
      DeleteWhereAppend(kept, inserted, key);
      DeleteWhereIdempotent(rows, key);
      DeleteWhereAllMatching(inserted, key);
      assert DeleteWhere(once.rows, key) == kept;
    }
  }

  /** Without `column_mappings` a save whose engine and DELETE succeed returns
      no rows, even when `target_table` is missing, and still clears the
      version's old rows. */
  lemma NoMappingsClearsVersion(rows: seq<LineageMapRow>, proc: string, db: string, content: string, target: Field,
                                sha: Sha256Hex, now: Timestamp, engine: Raises<Manager.Engine>, writes: LineageWrites)
    requires engine.Returns? && writes.deleteError.None?
    ensures var o := SaveSpec(rows, LineageRecord(proc, db, content, LineageDict(target, NoMappings)), sha, now, engine, writes);
      o == SaveOutcome(Ok(0), DeleteWhere(rows, ByProcHash(proc, HashString(sha, content))))
  {
  }
}

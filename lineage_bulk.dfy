/** Bulk lineage (backend/api/lineage_bulk.py): for every procedure of a
    connection, optionally of one schema only, in (schema, name) order, fetch its
    definition, ask the lineage agent, and replace the procedure's `lineage_map`
    rows for this database in a transaction of its own. */
module LineageBulk {
  import opened Common
  import opened Hashing
  import opened Ordering
  import opened LineageAgent
  import opened Lineage
  import Manager

  /** A row of `sys.procedures` joined with `sys.schemas`. */
  datatype CatalogProc = CatalogProc(schemaName: string, name: string)

  datatype BulkLineageRequest = BulkLineageRequest(alias: string, schema: Option<string>)

  /** What the definition query returns for a procedure: no row, a row whose
      definition is NULL, or the text. */
  datatype Definition = NoRow | NullDefinition | Defined(body: string)

  /** Everything the handler consults besides the table: the digest, the model
      and the parser used by the agent, the definition query (an error when it
      raises), the clock, read once per analysed procedure, the answer of
      `get_sqlalchemy_engine("lineage")`, the error that connecting, opening the
      transaction or the DELETE raises for a procedure, if any, and the error the
      INSERT raises for a row, if any. The lineage engine is one answer for the
      whole request: the first engine built is cached (`Manager.SecondCallHits`),
      and a failure ends the request. */
  datatype BulkEnv = BulkEnv(
    sha: Sha256Hex, callModel: CallModel, parse: ParseLineage,
    definitionOf: string -> Result<Definition>, clock: nat -> Timestamp,
    lineageEngine: Raises<Manager.Engine>, deleteError: string -> Option<string>,
    insertCheck: InsertCheck<LineageMapRow>)

  /** The text the prompt shows for a NULL definition. */
  const NoneText: string := "None"

  // ---------------------------------------------------------------------------
  // The procedure list

  /** `ORDER BY s.name, p.name`, on code points. */
  predicate ProcLe(a: CatalogProc, b: CatalogProc) {
    if a.schemaName == b.schemaName then LexLe(a.name, b.name) else LexLe(a.schemaName, b.schemaName)
  }

  lemma ProcLeIsTotalPreorder()
    ensures TotalPreorder(ProcLe)
  {
    forall a, b ensures ProcLe(a, b) || ProcLe(b, a) {
      LexLeTotal(a.name, b.name);
      LexLeTotal(a.schemaName, b.schemaName);
    }
    forall a, b, c | ProcLe(a, b) && ProcLe(b, c) ensures ProcLe(a, c) {
      if a.schemaName == b.schemaName && b.schemaName == c.schemaName {
        LexLeTransitive(a.name, b.name, c.name);
      } else if a.schemaName == b.schemaName || b.schemaName == c.schemaName {
      } else {
        LexLeTransitive(a.schemaName, b.schemaName, c.schemaName);
        if a.schemaName == c.schemaName {
          LexLeAntisymmetric(a.schemaName, b.schemaName);
        }
      }
    }
  }

  /** `WHERE (:schema IS NULL OR s.name = :schema)`. */
  function InSchema(catalog: seq<CatalogProc>, schema: Option<string>): (r: seq<CatalogProc>)
    ensures forall p :: p in r <==> p in catalog && (schema.None? || p.schemaName == schema.value)
    ensures schema.None? ==> r == catalog
  {
    if |catalog| == 0 then []
    else
      var rest := InSchema(catalog[1..], schema);
      assert catalog == [catalog[0]] + catalog[1..];
      if schema.None? || catalog[0].schemaName == schema.value then [catalog[0]] + rest else rest
  }

  function ProcNames(ps: seq<CatalogProc>): (r: seq<string>)
    ensures |r| == |ps| && forall i :: 0 <= i < |ps| ==> r[i] == ps[i].name
  {
    seq(|ps|, i requires 0 <= i < |ps| => ps[i].name)
  }

  /** The sorted catalog rows the query returns. */
  function OrderedProcedures(catalog: seq<CatalogProc>, schema: Option<string>): (r: seq<CatalogProc>)
    ensures multiset(r) == multiset(InSchema(catalog, schema))
    ensures Sorted(r, ProcLe)
  {
    ProcLeIsTotalPreorder();
    SortSorted(InSchema(catalog, schema), ProcLe);
    Sort(InSchema(catalog, schema), ProcLe)
  }

  /** `procedures`: the names of those rows, in query order. */
  function SelectProcedures(catalog: seq<CatalogProc>, schema: Option<string>): seq<string> {
    ProcNames(OrderedProcedures(catalog, schema))
  }

  /** Exactly the procedures of the requested schema (all when none is given)
      are listed, in (schema, name) order. */
  lemma SelectProceduresSpec(catalog: seq<CatalogProc>, schema: Option<string>)
    ensures var ordered := OrderedProcedures(catalog, schema);
      && SelectProcedures(catalog, schema) == ProcNames(ordered)
      && (forall p :: p in ordered <==> p in catalog && (schema.None? || p.schemaName == schema.value))
      && (forall i, j :: 0 <= i < j < |ordered| ==> ProcLe(ordered[i], ordered[j]))
  {
    var ordered := OrderedProcedures(catalog, schema);
    forall p
      ensures p in ordered <==> p in InSchema(catalog, schema)
    {
      assert p in ordered <==> p in multiset(ordered);
      assert p in InSchema(catalog, schema) <==> p in multiset(InSchema(catalog, schema));
    }
  }

  // ---------------------------------------------------------------------------
  // One procedure

  /** The agent's result as the dictionary the insert loop reads. */
  function AsMappingDict(m: ColumnMapping): MappingDict {
    MappingDict(Str(m.source), Str(m.target), if m.sourceTable.Some? then Str(m.sourceTable.value) else Null)
  }

  function AsLineageDict(out: LineageOutput): (d: LineageDict)
    ensures d.columnMappings.Mappings? && |d.columnMappings.items| == |out.lineage.columnMappings|
  {
    LineageDict(Str(out.lineage.targetTable),
                Mappings(seq(|out.lineage.columnMappings|, i requires 0 <= i < |out.lineage.columnMappings| =>
                               AsMappingDict(out.lineage.columnMappings[i]))))
  }

  /** What happens to one listed procedure. */
  datatype Step = Skipped | Failed(detail: string) | Stored(rows: seq<LineageMapRow>)

  /** One iteration of the loop: skip a procedure whose definition query finds
      no row; otherwise ask the agent, then delete the procedure's rows of this
      database and insert the new ones, as one transaction. A NULL definition
      still reaches the agent, which asks the model and then fails on the digest. */
  function ProcStep(rows: seq<LineageMapRow>, proc: string, alias: string, count: nat, env: BulkEnv): Step {
    match env.definitionOf(proc)
    case Err(e) => Failed(e)
    case Ok(NoRow) => Skipped
    case Ok(NullDefinition) =>
      (match env.callModel(Prompt(proc, NoneText))
       case Err(e) => Failed(e)
       case Ok(_) => Failed(NoneEncodeDetail))
    case Ok(Defined(body)) =>
      match SummarizeLineage(proc, alias, body, env.sha, env.callModel, env.parse)
      case Err(e) => Failed(e)
      case Ok(out) =>
        match env.lineageEngine
        case Raised(e) => Failed(ExceptionText(e))
        case Returns(_) =>
          match env.deleteError(proc)
          case Some(e) => Failed(e)
          case None =>
            var d := AsLineageDict(out);
            match MappingRows(proc, alias, d.targetTable, d.columnMappings.items, env.clock(count), out.hash, env.insertCheck)
            case Err(e) => Failed(e)
            case Ok(inserted) => Stored(DeleteWhere(rows, ByProcDb(proc, alias)) + inserted)
  }

  /** The loop body as a value: what happens to a procedure, given the table so
      far and the number of procedures stored so far. */
  type StepFn = (seq<LineageMapRow>, string, nat) -> Step

  /** The loop body of a request for connection `alias`. */
  function StepOf(alias: string, env: BulkEnv): StepFn {
    (rows: seq<LineageMapRow>, proc: string, count: nat) => ProcStep(rows, proc, alias, count, env)
  }

  // ---------------------------------------------------------------------------
  // The whole request

  datatype BulkOutcome = BulkOutcome(response: Result<nat>, rows: seq<LineageMapRow>)

  /** The loop from position `i`, with `count` procedures stored so far. A failure
      keeps what the earlier procedures committed. */
  function BulkFrom(rows: seq<LineageMapRow>, procs: seq<string>, i: nat, count: nat, step: StepFn): BulkOutcome
    requires i <= |procs|
    decreases |procs| - i
  {
    if i == |procs| then BulkOutcome(Ok(count), rows)
    else
      match step(rows, procs[i], count)
      case Skipped => BulkFrom(rows, procs, i + 1, count, step)
      case Failed(e) => BulkOutcome(Err(e), rows)
      case Stored(next) => BulkFrom(next, procs, i + 1, count + 1, step)
  }

  /** `bulk_analyze_by_schema`; `catalog` is the result of the procedure query. */
  function BulkSpec(rows: seq<LineageMapRow>, req: BulkLineageRequest, catalog: Result<seq<CatalogProc>>, env: BulkEnv): BulkOutcome {
    match catalog
    case Err(e) => BulkOutcome(Err(e), rows)
    case Ok(c) => BulkFrom(rows, SelectProcedures(c, req.schema), 0, 0, StepOf(req.alias, env))
  }

  method BulkAnalyzeBySchema(table: LineageMapTable, req: BulkLineageRequest, catalog: Result<seq<CatalogProc>>, env: BulkEnv)
    returns (r: Result<nat>)
    modifies table
    ensures var o := BulkSpec(old(table.rows), req, catalog, env);
      r == o.response && table.rows == o.rows
  {
    if catalog.Err? {
      return Err(catalog.detail);
    }
    var procedures := SelectProcedures(catalog.value, req.schema);
    ghost var step := StepOf(req.alias, env);
    var results: seq<string> := [];
    var i := 0;
    while i < |procedures|
      invariant 0 <= i <= |procedures|
      invariant BulkFrom(table.rows, procedures, i, |results|, step) ==
                BulkFrom(old(table.rows), procedures, 0, 0, step)
    {
      var proc := procedures[i];
      var outcome := AnalyzeOne(table.rows, proc, req.alias, |results|, env);
      match outcome
      case Skipped =>
        i := i + 1;
      case Failed(e) =>
        return Err(e);
      case Stored(next) =>
        table.rows := next;
        results := results + [proc];
        i := i + 1;
    }
    r := Ok(|results|);
  }

  /** One pass of the loop body on the current table rows: the definition query,
      the agent, then the delete and the inserts of one transaction. */
  method AnalyzeOne(rows: seq<LineageMapRow>, proc: string, alias: string, count: nat, env: BulkEnv) returns (s: Step)
    ensures s == ProcStep(rows, proc, alias, count, env)
  {
    var row := env.definitionOf(proc);
    if row.Err? {
      return Failed(row.detail);
    }
    match row.value
    case NoRow =>
      return Skipped;
    case NullDefinition =>
      var answer := env.callModel(Prompt(proc, NoneText));
      if answer.Err? {
        return Failed(answer.detail);
      }
      return Failed(NoneEncodeDetail);
    case Defined(body) =>
      var lineage := SummarizeLineage(proc, alias, body, env.sha, env.callModel, env.parse);
      if lineage.Err? {
        return Failed(lineage.detail);
      }
      var now := env.clock(count);
      if env.lineageEngine.Raised? {
        return Failed(ExceptionText(env.lineageEngine.exception));
      }
      var deleteError := env.deleteError(proc);
      if deleteError.Some? {
        return Failed(deleteError.value);
      }
      var kept := DeleteWhere(rows, ByProcDb(proc, alias));
      var d := AsLineageDict(lineage.value);
      var inserted := InsertMappings(proc, alias, d.targetTable, d.columnMappings.items, now, lineage.value.hash, env.insertCheck);
      if inserted.Err? {
        return Failed(inserted.detail);
      }
      s := Stored(kept + inserted.value);
  }

  // ---------------------------------------------------------------------------
  // Properties

  /** The number of listed procedures whose definition query returns a row. */
  function CountDefined(procs: seq<string>, definitionOf: string -> Result<Definition>): nat {
    if |procs| == 0 then 0
    else (if definitionOf(procs[0]) != Ok(NoRow) then 1 else 0) + CountDefined(procs[1..], definitionOf)
  }

  lemma CountDefinedStep(procs: seq<string>, i: nat, definitionOf: string -> Result<Definition>)
    requires i < |procs|
    ensures CountDefined(procs[i..], definitionOf) ==
      (if definitionOf(procs[i]) != Ok(NoRow) then 1 else 0) + CountDefined(procs[i + 1..], definitionOf)
  {
    assert procs[i..][1..] == procs[i + 1..];
  }

  /** For any loop body that skips exactly the procedures without a definition,
      a successful loop counts the procedures that have one. */
  lemma {:induction false} LoopCountsDefined(rows: seq<LineageMapRow>, procs: seq<string>, i: nat, count: nat,
                                             step: StepFn, definitionOf: string -> Result<Definition>)
    requires i <= |procs|
    requires forall r, p, c :: step(r, p, c).Skipped? <==> definitionOf(p) == Ok(NoRow)
    requires BulkFrom(rows, procs, i, count, step).response.Ok?
    ensures BulkFrom(rows, procs, i, count, step).response.value == count + CountDefined(procs[i..], definitionOf)
    decreases |procs| - i
  {
    if i < |procs| {
      CountDefinedStep(procs, i, definitionOf);
      match step(rows, procs[i], count)
      case Skipped => LoopCountsDefined(rows, procs, i + 1, count, step, definitionOf);
      case Stored(next) => LoopCountsDefined(next, procs, i + 1, count + 1, step, definitionOf);
    }
  }

  /** A procedure is skipped exactly when its definition query returns no row. */
  lemma ProcStepSkipsUndefined(rows: seq<LineageMapRow>, proc: string, alias: string, count: nat, env: BulkEnv)
    ensures ProcStep(rows, proc, alias, count, env).Skipped? <==> env.definitionOf(proc) == Ok(NoRow)
  {
  }

  /** A NULL definition is not skipped: the model is asked with "None" in place
      of the text, and the procedure then fails, ending the request. */
  lemma NullDefinitionFails(rows: seq<LineageMapRow>, proc: string, alias: string, count: nat, env: BulkEnv)
    requires env.definitionOf(proc) == Ok(NullDefinition)
    ensures ProcStep(rows, proc, alias, count, env).Failed?
    ensures env.callModel(Prompt(proc, NoneText)).Ok? ==>
      ProcStep(rows, proc, alias, count, env) == Failed(NoneEncodeDetail)
  {
  }

  /** A procedure is stored exactly when its definition is text, the agent
      answers, the lineage engine is built, the DELETE goes through and every
      mapping's INSERT goes through. */
  lemma ProcStepStoredIff(rows: seq<LineageMapRow>, proc: string, alias: string, count: nat, env: BulkEnv)
    ensures ProcStep(rows, proc, alias, count, env).Stored? <==>
      && env.definitionOf(proc).Ok? && env.definitionOf(proc).value.Defined?
      && var out := SummarizeLineage(proc, alias, env.definitionOf(proc).value.body, env.sha, env.callModel, env.parse);
         && out.Ok? && env.lineageEngine.Returns? && env.deleteError(proc).None?
         && var d := AsLineageDict(out.value);
            forall i :: 0 <= i < |d.columnMappings.items| ==>
              InsertedRow(proc, alias, d.targetTable, d.columnMappings.items[i], env.clock(count), out.value.hash, env.insertCheck).Ok?
  {
    if env.definitionOf(proc).Ok? && env.definitionOf(proc).value.Defined? {
      var out := SummarizeLineage(proc, alias, env.definitionOf(proc).value.body, env.sha, env.callModel, env.parse);
      if out.Ok? {
        var d := AsLineageDict(out.value);
        MappingRowsOkIff(proc, alias, d.targetTable, d.columnMappings.items, env.clock(count), out.value.hash, env.insertCheck);
      }
    }
  }

  /** On success the count is the number of listed procedures with a definition:
      procedures without one are skipped and not counted. */
  lemma BulkCountsDefined(rows: seq<LineageMapRow>, procs: seq<string>, alias: string, env: BulkEnv)
    requires BulkFrom(rows, procs, 0, 0, StepOf(alias, env)).response.Ok?
    ensures BulkFrom(rows, procs, 0, 0, StepOf(alias, env)).response.value == CountDefined(procs, env.definitionOf)
  {
    var step := StepOf(alias, env);
    forall r, p, c ensures step(r, p, c).Skipped? <==> env.definitionOf(p) == Ok(NoRow) {
      ProcStepSkipsUndefined(r, p, alias, c, env);
    }
    LoopCountsDefined(rows, procs, 0, 0, step, env.definitionOf);
    assert procs[0..] == procs;
  }

  /** One stored procedure replaces exactly its own rows for this database: rows of
      other procedures or other databases stay. */
  lemma StepKeepsOtherRows(rows: seq<LineageMapRow>, proc: string, alias: string, count: nat, env: BulkEnv, row: LineageMapRow)
    requires ProcStep(rows, proc, alias, count, env).Stored?
    requires row in rows && (row.procedureName != proc || row.databaseName != alias)
    ensures row in ProcStep(rows, proc, alias, count, env).rows
  {
  }

  /** Every row a stored procedure inserts carries that procedure, the request's
      alias as database, the digest the agent attached and one timestamp. */
  lemma StepInsertsOwnRows(rows: seq<LineageMapRow>, proc: string, alias: string, count: nat, env: BulkEnv)
    requires ProcStep(rows, proc, alias, count, env).Stored?
    ensures var kept := DeleteWhere(rows, ByProcDb(proc, alias));
      var next := ProcStep(rows, proc, alias, count, env).rows;
      && next[..|kept|] == kept
      && |next| - |kept| == |SummarizeLineage(proc, alias, env.definitionOf(proc).value.body, env.sha, env.callModel, env.parse).value.lineage.columnMappings|
      && forall k :: |kept| <= k < |next| ==>
           && next[k].procedureName == proc && next[k].databaseName == alias
           && next[k].hash == HashString(env.sha, env.definitionOf(proc).value.body)
           && next[k].analyzedAt == env.clock(count)
  {
    var out := SummarizeLineage(proc, alias, env.definitionOf(proc).value.body, env.sha, env.callModel, env.parse).value;
    var d := AsLineageDict(out);
    var items := d.columnMappings.items;
    AppendedRowsCarry(DeleteWhere(rows, ByProcDb(proc, alias)), proc, alias, d.targetTable, items, env.clock(count), out.hash,
                      env.insertCheck);
  }

  /** The rows `MappingRows` yields, appended after `kept`, all carry the
      procedure, database, timestamp and digest they were built with. */
  lemma AppendedRowsCarry(kept: seq<LineageMapRow>, proc: string, alias: string, target: Field,
                          items: seq<MappingDict>, now: Timestamp, hash: string, check: InsertCheck<LineageMapRow>)
    requires MappingRows(proc, alias, target, items, now, hash, check).Ok?
    ensures var next := kept + MappingRows(proc, alias, target, items, now, hash, check).value;
      && next[..|kept|] == kept
      && |next| - |kept| == |items|
      && forall k :: |kept| <= k < |next| ==>
           && next[k].procedureName == proc && next[k].databaseName == alias
           && next[k].hash == hash && next[k].analyzedAt == now
  {
    var inserted := MappingRows(proc, alias, target, items, now, hash, check).value;
    MappingRowsSpec(proc, alias, target, items, now, hash, check);
    var next := kept + inserted;
    forall k | |kept| <= k < |next|
      ensures next[k].procedureName == proc && next[k].databaseName == alias
      ensures next[k].hash == hash && next[k].analyzedAt == now
    {
      assert next[k] == inserted[k - |kept|];
      MappingRowFields(proc, alias, target, items[k - |kept|], now, hash);
    }
  }

  /** For any loop body that keeps a given row whenever it stores, the row
      survives the whole loop, whatever its outcome. */
  lemma {:induction false} LoopKeepsRow(rows: seq<LineageMapRow>, procs: seq<string>, i: nat, count: nat,
                                        step: StepFn, row: LineageMapRow)
    requires i <= |procs|
    requires forall r, p, c :: row in r && step(r, p, c).Stored? ==> row in step(r, p, c).rows
    requires row in rows
    ensures row in BulkFrom(rows, procs, i, count, step).rows
    decreases |procs| - i
  {
    if i < |procs| {
      match step(rows, procs[i], count)
      case Skipped => LoopKeepsRow(rows, procs, i + 1, count, step, row);
      case Failed(_) =>
      case Stored(next) => LoopKeepsRow(next, procs, i + 1, count + 1, step, row);
    }
  }

  /** Rows of other databases are never deleted by the bulk endpoint, whatever
      its outcome; the single save, by contrast, deletes across databases
      (`Lineage.SaveDeletesAcrossDatabases`). */
  lemma BulkKeepsOtherDatabases(rows: seq<LineageMapRow>, procs: seq<string>, alias: string, env: BulkEnv, row: LineageMapRow)
    requires row in rows && row.databaseName != alias
    ensures row in BulkFrom(rows, procs, 0, 0, StepOf(alias, env)).rows
  {
    var step := StepOf(alias, env);
    forall r, p, c | row in r && step(r, p, c).Stored? ensures row in step(r, p, c).rows {
      StepKeepsOtherRows(r, p, alias, c, env, row);
    }
    LoopKeepsRow(rows, procs, 0, 0, step, row);
  }

  /** A failing procedure leaves the table exactly as the procedures before it
      left it: its own delete is rolled back, earlier commits stay. */
  lemma FailureKeepsEarlierCommits(rows: seq<LineageMapRow>, procs: seq<string>, i: nat, count: nat, alias: string, env: BulkEnv)
    requires i < |procs|
    requires ProcStep(rows, procs[i], alias, count, env).Failed?
    ensures BulkFrom(rows, procs, i, count, StepOf(alias, env)) == BulkOutcome(Err(ProcStep(rows, procs[i], alias, count, env).detail), rows)
  {
  }
}

/** Adding one source-to-stage mapping (backend/api/source_to_stage.py) with the
    record shape of backend/models/source_stage.py. The table
    `source_to_stage_map` is shared with the listing and the dictionary insert
    of backend/api/source_stage_map.py and is read by the stage-to-bronze
    suggester. */
module SourceToStage {
  import opened Common

  /** A row of `source_to_stage_map`; `None` is SQL NULL. */
  datatype SourceStageRow = SourceStageRow(
    sourceType: Option<string>, sourceHost: Option<string>, sourceTns: Option<string>,
    sourceDatabase: Option<string>, sourceSchema: Option<string>, sourceTable: Option<string>,
    stageDatabase: Option<string>, stageSchema: Option<string>, stageTable: Option<string>,
    connectionName: Option<string>, notes: Option<string>, createdAt: Option<Timestamp>)

  /** `SourceToStageRecord`: five required text fields, six optional ones. */
  datatype SourceToStageRecord = SourceToStageRecord(
    sourceType: string, sourceHost: Option<string>, sourceTns: Option<string>,
    sourceDatabase: Option<string>, sourceSchema: Option<string>, sourceTable: string,
    stageDatabase: string, stageSchema: string, stageTable: string,
    connectionName: Option<string>, notes: Option<string>)

  /** A JSON request body whose values are text or null. */
  type Body = map<string, Option<string>>

  /** A required field: present and not null. */
  function RequiredField(body: Body, key: string): (r: Option<string>)
    ensures r.Some? <==> key in body && body[key].Some?
  {
    if key in body then body[key] else None
  }

  /** An optional field: null when absent. */
  function OptionalField(body: Body, key: string): (r: Option<string>)
    ensures key !in body ==> r == None
  {
    if key in body then body[key] else None
  }

  const RequiredKeys: seq<string> := ["source_type", "source_table", "stage_database", "stage_schema", "stage_table"]

  /** Request validation: `None` is the 422 answer given before the handler runs. */
  function ParseRecord(body: Body): Option<SourceToStageRecord> {
    var sourceType :- RequiredField(body, "source_type");
    var sourceTable :- RequiredField(body, "source_table");
    var stageDatabase :- RequiredField(body, "stage_database");
    var stageSchema :- RequiredField(body, "stage_schema");
    var stageTable :- RequiredField(body, "stage_table");
    Some(SourceToStageRecord(
      sourceType, OptionalField(body, "source_host"), OptionalField(body, "source_tns"),
      OptionalField(body, "source_database"), OptionalField(body, "source_schema"), sourceTable,
      stageDatabase, stageSchema, stageTable,
      OptionalField(body, "connection_name"), OptionalField(body, "notes")))
  }

  /** A body is accepted exactly when each of the five required fields is
      present as text; every optional field that is absent becomes null. */
  lemma ParseRecordIff(body: Body)
    ensures ParseRecord(body).Some? <==> forall k :: k in RequiredKeys ==> k in body && body[k].Some?
    ensures ParseRecord(body).Some? ==>
      var rec := ParseRecord(body).value;
      && Some(rec.sourceType) == body["source_type"] && Some(rec.sourceTable) == body["source_table"]
      && Some(rec.stageDatabase) == body["stage_database"] && Some(rec.stageSchema) == body["stage_schema"]
      && Some(rec.stageTable) == body["stage_table"]
      && ("source_host" !in body ==> rec.sourceHost == None) && ("source_tns" !in body ==> rec.sourceTns == None)
      && ("source_database" !in body ==> rec.sourceDatabase == None)
      && ("source_schema" !in body ==> rec.sourceSchema == None)
      && ("connection_name" !in body ==> rec.connectionName == None) && ("notes" !in body ==> rec.notes == None)
  {
    assert RequiredKeys[0] == "source_type" && RequiredKeys[1] == "source_table" && RequiredKeys[2] == "stage_database";
    assert RequiredKeys[3] == "stage_schema" && RequiredKeys[4] == "stage_table";
  }

  /** The row the INSERT writes: `record.dict()` plus `created_at`. */
  function RecordRow(rec: SourceToStageRecord, now: Timestamp): SourceStageRow {
    SourceStageRow(
      Some(rec.sourceType), rec.sourceHost, rec.sourceTns,
      rec.sourceDatabase, rec.sourceSchema, Some(rec.sourceTable),
      Some(rec.stageDatabase), Some(rec.stageSchema), Some(rec.stageTable),
      rec.connectionName, rec.notes, Some(now))
  }

  /** The answer of `add_source_to_stage_mapping`. */
  datatype AddResponse = Inserted | Unprocessable | ServerError(detail: string)

  datatype AddOutcome = AddOutcome(response: AddResponse, rows: seq<SourceStageRow>)

  /** One call against the table rows `rows`: validation, then one INSERT in its
      own transaction. */
  function AddSpec(rows: seq<SourceStageRow>, body: Body, now: Timestamp, check: InsertCheck<SourceStageRow>): AddOutcome {
    match ParseRecord(body)
    case None => AddOutcome(Unprocessable, rows)
    case Some(rec) =>
      var row := RecordRow(rec, now);
      match check(row)
      case Some(e) => AddOutcome(ServerError(e), rows)
      case None => AddOutcome(Inserted, rows + [row])
  }

  /** The `source_to_stage_map` table. */
  class SourceToStageTable {
    var rows: seq<SourceStageRow>

    constructor (initial: seq<SourceStageRow>)
      ensures rows == initial
    {
      rows := initial;
    }
  }

  /** `add_source_to_stage_mapping`. */
  method AddSourceToStageMapping(table: SourceToStageTable, body: Body, now: Timestamp, check: InsertCheck<SourceStageRow>)
    returns (r: AddResponse)
    modifies table
    ensures var o := AddSpec(old(table.rows), body, now, check);
      r == o.response && table.rows == o.rows
  {
    var record := ParseRecord(body);
    if record.None? {
      return Unprocessable;
    }
    var row := RecordRow(record.value, now);
    var error := check(row);
    if error.Some? {
      return ServerError(error.value);
    }
    table.rows := table.rows + [row];
    r := Inserted;
  }

  /** A successful call adds exactly one row, carrying every field of the
      request (absent optional ones as null) and the call's time; the earlier
      rows are kept as they were. */
  lemma AddAppendsOneRow(rows: seq<SourceStageRow>, body: Body, now: Timestamp, check: InsertCheck<SourceStageRow>)
    requires AddSpec(rows, body, now, check).response == Inserted
    ensures var o := AddSpec(rows, body, now, check);
      && |o.rows| == |rows| + 1 && o.rows[..|rows|] == rows
      && var row := o.rows[|rows|];
         && row.sourceType == body["source_type"] && row.sourceTable == body["source_table"]
         && row.stageDatabase == body["stage_database"] && row.stageSchema == body["stage_schema"]
         && row.stageTable == body["stage_table"]
         && row.sourceHost == OptionalField(body, "source_host") && row.sourceTns == OptionalField(body, "source_tns")
         && row.sourceDatabase == OptionalField(body, "source_database")
         && row.sourceSchema == OptionalField(body, "source_schema")
         && row.connectionName == OptionalField(body, "connection_name") && row.notes == OptionalField(body, "notes")
         && row.createdAt == Some(now)
  {
    ParseRecordIff(body);
    var o := AddSpec(rows, body, now, check);
    assert o.rows[..|rows|] == rows;
  }

  /** A rejected body, or an INSERT the database refuses, leaves the table unchanged. */
  lemma AddFailureInsertsNothing(rows: seq<SourceStageRow>, body: Body, now: Timestamp, check: InsertCheck<SourceStageRow>)
    requires AddSpec(rows, body, now, check).response != Inserted
    ensures AddSpec(rows, body, now, check).rows == rows
  {
  }

  /** There is no uniqueness check: the same request made twice adds two equal rows. */
  lemma AddTwiceAddsTwoRows(rows: seq<SourceStageRow>, body: Body, now: Timestamp, check: InsertCheck<SourceStageRow>)
    requires AddSpec(rows, body, now, check).response == Inserted
    ensures var once := AddSpec(rows, body, now, check);
      && AddSpec(once.rows, body, now, check).response == Inserted
      && var twice := AddSpec(once.rows, body, now, check).rows;
         |twice| == |rows| + 2 && twice[|rows|] == twice[|rows| + 1] && twice[..|rows|] == rows
  {
    var once := AddSpec(rows, body, now, check);
    var twice := AddSpec(once.rows, body, now, check).rows;
    assert twice[..|rows|] == rows;
  }
}

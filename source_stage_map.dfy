/** Listing and dictionary insert of source-to-stage mappings
    (backend/api/source_stage_map.py). The listing is the whole table ordered by
    (source_type, source_schema, source_table), NULL before any text; the insert
    binds nine named values from the posted dictionary. */
module SourceStageMap {
  import opened Common
  import opened Ordering
  import opened SourceToStage
  import Manager

  // ---------------------------------------------------------------------------
  // The listing

  /** Ascending order of a nullable text column: NULL first, then code-point order. */
  predicate NullableLe(a: Option<string>, b: Option<string>) {
    a.None? || (b.Some? && LexLe(a.value, b.value))
  }

  lemma NullableLeTotal(a: Option<string>, b: Option<string>)
    ensures NullableLe(a, b) || NullableLe(b, a)
  {
    if a.Some? && b.Some? {
      LexLeTotal(a.value, b.value);
    }
  }

  lemma NullableLeTransitive(a: Option<string>, b: Option<string>, c: Option<string>)
    requires NullableLe(a, b) && NullableLe(b, c)
    ensures NullableLe(a, c)
  {
    if a.Some? {
      LexLeTransitive(a.value, b.value, c.value);
    }
  }

  lemma NullableLeAntisymmetric(a: Option<string>, b: Option<string>)
    requires NullableLe(a, b) && NullableLe(b, a)
    ensures a == b
  {
    if a.Some? {
      LexLeAntisymmetric(a.value, b.value);
    }
  }

  /** `ORDER BY source_type, source_schema, source_table`. */
  predicate ListingLe(r1: SourceStageRow, r2: SourceStageRow) {
    && NullableLe(r1.sourceType, r2.sourceType)
    && (r1.sourceType == r2.sourceType ==>
          && NullableLe(r1.sourceSchema, r2.sourceSchema)
          && (r1.sourceSchema == r2.sourceSchema ==> NullableLe(r1.sourceTable, r2.sourceTable)))
  }

  lemma ListingLeTotal(r1: SourceStageRow, r2: SourceStageRow)
    ensures ListingLe(r1, r2) || ListingLe(r2, r1)
  {
    NullableLeTotal(r1.sourceType, r2.sourceType);
    NullableLeTotal(r1.sourceSchema, r2.sourceSchema);
    NullableLeTotal(r1.sourceTable, r2.sourceTable);
  }

  lemma ListingLeTransitive(r1: SourceStageRow, r2: SourceStageRow, r3: SourceStageRow)
    requires ListingLe(r1, r2) && ListingLe(r2, r3)
    ensures ListingLe(r1, r3)
  {
    NullableLeTransitive(r1.sourceType, r2.sourceType, r3.sourceType);
    if r1.sourceType == r3.sourceType {
      NullableLeAntisymmetric(r1.sourceType, r2.sourceType);
      NullableLeTransitive(r1.sourceSchema, r2.sourceSchema, r3.sourceSchema);
      if r1.sourceSchema == r3.sourceSchema {
        NullableLeAntisymmetric(r1.sourceSchema, r2.sourceSchema);
        NullableLeTransitive(r1.sourceTable, r2.sourceTable, r3.sourceTable);
      }
    }
  }

  /** The three sort keys, compared one after the other, order all rows. */
  lemma ListingLeIsTotalPreorder()
    ensures TotalPreorder(ListingLe)
  {
    forall r1, r2 ensures ListingLe(r1, r2) || ListingLe(r2, r1) {
      ListingLeTotal(r1, r2);
    }
    forall r1, r2, r3 | ListingLe(r1, r2) && ListingLe(r2, r3) ensures ListingLe(r1, r3) {
      ListingLeTransitive(r1, r2, r3);
    }
  }

  /** `list_source_to_stage_mappings`: every row of the table, in listing order. */
  function ListMappings(rows: seq<SourceStageRow>): seq<SourceStageRow> {
    Sort(rows, ListingLe)
  }

  /** The listing holds exactly the table's rows, each as often as stored, and
      is ordered by source type, then schema, then table. */
  lemma ListingIsOrderedTable(rows: seq<SourceStageRow>)
    ensures multiset(ListMappings(rows)) == multiset(rows)
    ensures Sorted(ListMappings(rows), ListingLe)
  {
    ListingLeIsTotalPreorder();
    SortSorted(rows, ListingLe);
  }

  /** In particular rows of a smaller source type come first. */
  lemma ListingGroupsBySourceType(rows: seq<SourceStageRow>, i: nat, j: nat)
    requires i < j < |ListMappings(rows)|
    ensures NullableLe(ListMappings(rows)[i].sourceType, ListMappings(rows)[j].sourceType)
  {
    ListingIsOrderedTable(rows);
  }

  // ---------------------------------------------------------------------------
  // The dictionary insert

  /** The named parameters of the INSERT, in statement order. */
  const BindNames: seq<string> := ["source_type", "source_host", "source_database", "source_schema", "source_table",
                                   "source_tns", "stage_database", "stage_schema", "stage_table"]

  /** The first bind parameter the posted dictionary has no value for. */
  function MissingBind(mapping: Body, names: seq<string>): (r: Option<string>)
    ensures r.None? <==> forall k :: k in names ==> k in mapping
    ensures r.Some? ==> r.value in names && r.value !in mapping
  {
    if |names| == 0 then None
    else if names[0] !in mapping then Some(names[0])
    else MissingBind(mapping, names[1..])
  }

  /** The error the statement raises for a parameter without a value. */
  function MissingBindDetail(name: string): string {
    "A value is required for bind parameter '" + name + "'"
  }

  /** The row `add_mapping` writes: the nine bound columns; the other columns
      (connection name, notes, creation time) are left NULL. */
  function MappingRow(mapping: Body): SourceStageRow
    requires forall k :: k in BindNames ==> k in mapping
  {
    assert BindNames[0] == "source_type" && BindNames[1] == "source_host" && BindNames[2] == "source_database";
    assert BindNames[3] == "source_schema" && BindNames[4] == "source_table" && BindNames[5] == "source_tns";
    assert BindNames[6] == "stage_database" && BindNames[7] == "stage_schema" && BindNames[8] == "stage_table";
    SourceStageRow(
      mapping["source_type"], mapping["source_host"], mapping["source_tns"],
      mapping["source_database"], mapping["source_schema"], mapping["source_table"],
      mapping["stage_database"], mapping["stage_schema"], mapping["stage_table"],
      None, None, None)
  }

  /** The answer of `add_mapping` and the table afterwards. */
  datatype AddMappingOutcome = AddMappingOutcome(response: Result<string>, rows: seq<SourceStageRow>)

  /** The "lineage" engine is requested and the transaction begun before the
      statement binds its parameters, so their failures come first. */
  function AddMappingSpec(rows: seq<SourceStageRow>, mapping: Body, engine: Raises<Manager.Engine>,
                          beginError: Option<string>, check: InsertCheck<SourceStageRow>): AddMappingOutcome {
    match engine
    case Raised(e) => AddMappingOutcome(Err(ExceptionText(e)), rows)
    case Returns(_) =>
      match beginError
      case Some(e) => AddMappingOutcome(Err(e), rows)
      case None =>
        match MissingBind(mapping, BindNames)
        case Some(name) => AddMappingOutcome(Err(MissingBindDetail(name)), rows)
        case None =>
          var row := MappingRow(mapping);
          match check(row)
          case Some(e) => AddMappingOutcome(Err(e), rows)
          case None => AddMappingOutcome(Ok("added"), rows + [row])
  }

  /** `add_mapping`: one INSERT in its own transaction. */
  method AddMapping(mgr: Manager.ConnectionManager, table: SourceToStageTable, mapping: Body, env: Env,
                    beginError: Option<string>, check: InsertCheck<SourceStageRow>) returns (r: Result<string>)
    modifies mgr, table
    ensures var got := Manager.GetEngineSpec(mgr.connections, old(mgr.cache), "lineage", env);
      var o := AddMappingSpec(old(table.rows), mapping, got.response, beginError, check);
      r == o.response && table.rows == o.rows && mgr.cache == got.cache
  {
    var engine := mgr.GetSqlalchemyEngine("lineage", env);
    if engine.Raised? {
      return Err(ExceptionText(engine.exception));
    }
    if beginError.Some? {
      return Err(beginError.value);
    }
    var missing := MissingBind(mapping, BindNames);
    if missing.Some? {
      return Err(MissingBindDetail(missing.value));
    }
    var row := MappingRow(mapping);
    var error := check(row);
    if error.Some? {
      return Err(error.value);
    }
    table.rows := table.rows + [row];
    r := Ok("added");
  }

  /** The insert succeeds if and only if all nine named values are present and
      the database accepts the row; then exactly that row is appended. Keys
      beyond the nine are ignored, and a present null is stored as NULL. */
  lemma AddMappingAppendsIff(rows: seq<SourceStageRow>, mapping: Body, engine: Raises<Manager.Engine>,
                             beginError: Option<string>, check: InsertCheck<SourceStageRow>)
    ensures var o := AddMappingSpec(rows, mapping, engine, beginError, check);
      && (o.response.Ok? <==> engine.Returns? && beginError.None? &&
                              (forall k :: k in BindNames ==> k in mapping) && check(MappingRow(mapping)).None?)
      && (o.response.Ok? ==> o.response.value == "added" && o.rows == rows + [MappingRow(mapping)])
      && (o.response.Err? ==> o.rows == rows)
  {
  }

  /** The row holds the posted values column by column. */
  lemma MappingRowColumns(mapping: Body)
    requires forall k :: k in BindNames ==> k in mapping
    ensures var row := MappingRow(mapping);
      && row.sourceType == mapping["source_type"] && row.sourceHost == mapping["source_host"]
      && row.sourceDatabase == mapping["source_database"] && row.sourceSchema == mapping["source_schema"]
      && row.sourceTable == mapping["source_table"] && row.sourceTns == mapping["source_tns"]
      && row.stageDatabase == mapping["stage_database"] && row.stageSchema == mapping["stage_schema"]
      && row.stageTable == mapping["stage_table"]
      && row.connectionName == None && row.notes == None && row.createdAt == None
  {
  }

  /** A dictionary without one of the nine keys is refused and nothing is
      written; once connected, the error names the first missing key. */
  lemma MissingKeyRejected(rows: seq<SourceStageRow>, mapping: Body, engine: Raises<Manager.Engine>,
                           beginError: Option<string>, check: InsertCheck<SourceStageRow>, key: string)
    requires key in BindNames && key !in mapping
    ensures AddMappingSpec(rows, mapping, engine, beginError, check).response.Err?
    ensures AddMappingSpec(rows, mapping, engine, beginError, check).rows == rows
    ensures engine.Returns? && beginError.None? ==>
      AddMappingSpec(rows, mapping, engine, beginError, check).response
        == Err(MissingBindDetail(MissingBind(mapping, BindNames).value))
  {
  }

  /** A failing engine request or `begin()` is the error whatever was posted:
      the parameters are bound only afterwards. */
  lemma ConnectFailsBeforeBinding(rows: seq<SourceStageRow>, mapping: Body, engine: Raises<Manager.Engine>,
                                  beginError: Option<string>, check: InsertCheck<SourceStageRow>)
    requires engine.Raised? || beginError.Some?
    ensures AddMappingSpec(rows, mapping, engine, beginError, check) ==
      AddMappingOutcome(Err(if engine.Raised? then ExceptionText(engine.exception) else beginError.value), rows)
  {
  }

  /** No upsert: the same dictionary posted twice adds two equal rows. */
  lemma AddMappingTwiceAddsTwoRows(rows: seq<SourceStageRow>, mapping: Body, engine: Raises<Manager.Engine>,
                                   beginError: Option<string>, check: InsertCheck<SourceStageRow>)
    requires AddMappingSpec(rows, mapping, engine, beginError, check).response.Ok?
    ensures var once := AddMappingSpec(rows, mapping, engine, beginError, check).rows;
      && AddMappingSpec(once, mapping, engine, beginError, check).response.Ok?
      && AddMappingSpec(once, mapping, engine, beginError, check).rows == rows + [MappingRow(mapping), MappingRow(mapping)]
  {
  }
}

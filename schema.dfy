/** Browsing a connection's catalog (backend/api/schema.py): the configured
    aliases, the qualified names of all tables of a connection in sorted order,
    and the columns of one table named either "table" or "schema.table". The
    engine comes from the module's shared connection manager; what inspecting
    it gives is a parameter. Every exception inside a handler becomes an HTTP
    500 with the exception's text, which is the `Err` of the answers here. */
module Schema {
  import opened Common
  import opened Ordering
  import Manager

  /** `list_connections`: the aliases of connections.json, in file order. */
  function ListConnections(connections: Connections): (r: seq<string>)
    ensures |r| == |connections|
    ensures forall i :: 0 <= i < |connections| ==> r[i] == connections[i].0
  {
    seq(|connections|, i requires 0 <= i < |connections| => connections[i].0)
  }

  // ---------------------------------------------------------------------------
  // Tables

  /** A schema and the names `get_table_names` gives for it. */
  datatype SchemaTables = SchemaTables(schema: string, tables: seq<string>)

  /** What inspecting an engine gives: its schemas, each with its tables. */
  type Inspect = Manager.Engine -> Raises<seq<SchemaTables>>

  function QualifiedName(schema: string, table: string): string {
    schema + "." + table
  }

  /** The qualified names of one schema's tables, in catalog order. */
  function SchemaNames(st: SchemaTables): seq<string> {
    seq(|st.tables|, j requires 0 <= j < |st.tables| => QualifiedName(st.schema, st.tables[j]))
  }

  /** The qualified names in the order the nested loop appends them. */
  function QualifiedNames(catalog: seq<SchemaTables>): seq<string>
    decreases |catalog|
  {
    if |catalog| == 0 then [] else QualifiedNames(catalog[..|catalog| - 1]) + SchemaNames(catalog[|catalog| - 1])
  }

  /** The nested loop of `list_tables`. */
  method CollectTables(catalog: seq<SchemaTables>) returns (tables: seq<string>)
    ensures tables == QualifiedNames(catalog)
  {
    tables := [];
    for i := 0 to |catalog|
      invariant tables == QualifiedNames(catalog[..i])
    {
      assert catalog[..i + 1][..i] == catalog[..i];
      var st := catalog[i];
      var inner := tables;
      for j := 0 to |st.tables|
        invariant tables == inner + SchemaNames(st)[..j]
      {
        assert SchemaNames(st)[..j + 1] == SchemaNames(st)[..j] + [QualifiedName(st.schema, st.tables[j])];
        tables := tables + [st.schema + "." + st.tables[j]];
      }
      assert SchemaNames(st)[..|st.tables|] == SchemaNames(st);
    }
    assert catalog[..|catalog|] == catalog;
  }

  datatype TablesOutcome = TablesOutcome(response: Result<seq<string>>, cache: map<string, Manager.Engine>)

  function ListTablesSpec(connections: Connections, cache: map<string, Manager.Engine>, alias: string, env: Env,
                          inspect: Inspect): TablesOutcome {
    var got := Manager.GetEngineSpec(connections, cache, alias, env);
    match got.response
    case Raised(e) => TablesOutcome(Err(ExceptionText(e)), got.cache)
    case Returns(engine) =>
      match inspect(engine)
      case Raised(e) => TablesOutcome(Err(ExceptionText(e)), got.cache)
      case Returns(catalog) => TablesOutcome(Ok(SortStrings(QualifiedNames(catalog))), got.cache)
  }

  /** `list_tables`. */
  method ListTables(mgr: Manager.ConnectionManager, alias: string, env: Env, inspect: Inspect) returns (r: Result<seq<string>>)
    modifies mgr
    ensures var o := ListTablesSpec(mgr.connections, old(mgr.cache), alias, env, inspect);
      r == o.response && mgr.cache == o.cache
  {
    var engine := mgr.GetSqlalchemyEngine(alias, env);
    if engine.Raised? {
      return Err(ExceptionText(engine.exception));
    }
    var catalog := inspect(engine.value);
    if catalog.Raised? {
      return Err(ExceptionText(catalog.exception));
    }
    var tables := CollectTables(catalog.value);
    r := Ok(SortStrings(tables));
  }

  /** Every appended name is "schema.table" for a table of the catalog, and
      every table of the catalog is appended. */
  lemma {:induction false} QualifiedNamesMembers(catalog: seq<SchemaTables>, name: string)
    ensures name in QualifiedNames(catalog) <==>
      exists i, j :: 0 <= i < |catalog| && 0 <= j < |catalog[i].tables| && name == QualifiedName(catalog[i].schema, catalog[i].tables[j])
    decreases |catalog|
  {
    if |catalog| > 0 {
      var init := catalog[..|catalog| - 1];
      var last := catalog[|catalog| - 1];
      QualifiedNamesMembers(init, name);
      if name in QualifiedNames(catalog) {
        if name in QualifiedNames(init) {
          var i, j :| 0 <= i < |init| && 0 <= j < |init[i].tables| && name == QualifiedName(init[i].schema, init[i].tables[j]);
          assert catalog[i] == init[i];
        } else {
          assert name in SchemaNames(last);
          var j :| 0 <= j < |last.tables| && SchemaNames(last)[j] == name;
          assert name == QualifiedName(catalog[|catalog| - 1].schema, catalog[|catalog| - 1].tables[j]);
        }
      } else {
        forall i, j | 0 <= i < |catalog| && 0 <= j < |catalog[i].tables|
          ensures name != QualifiedName(catalog[i].schema, catalog[i].tables[j])
        {
          if i < |catalog| - 1 {
            assert catalog[i] == init[i];
          } else {
            assert SchemaNames(last)[j] == QualifiedName(catalog[i].schema, catalog[i].tables[j]);
          }
        }
      }
    }
  }

  /** A successful listing holds "schema.table" for exactly the tables of the
      catalog, each as often as the catalog lists it, in sorted order. */
  lemma ListTablesIsSortedCatalog(connections: Connections, cache: map<string, Manager.Engine>, alias: string, env: Env,
                                  inspect: Inspect, name: string)
    requires ListTablesSpec(connections, cache, alias, env, inspect).response.Ok?
    ensures var got := Manager.GetEngineSpec(connections, cache, alias, env).response;
      var catalog := inspect(got.value).value;
      var r := ListTablesSpec(connections, cache, alias, env, inspect).response.value;
      && multiset(r) == multiset(QualifiedNames(catalog))
      && Sorted(r, LexLe)
      && (name in r <==> exists i, j :: 0 <= i < |catalog| && 0 <= j < |catalog[i].tables|
                                         && name == QualifiedName(catalog[i].schema, catalog[i].tables[j]))
  {
    var got := Manager.GetEngineSpec(connections, cache, alias, env).response;
    var catalog := inspect(got.value).value;
    var r := ListTablesSpec(connections, cache, alias, env, inspect).response.value;
    QualifiedNamesMembers(catalog, name);
    assert name in r <==> name in multiset(r);
    assert name in QualifiedNames(catalog) <==> name in multiset(QualifiedNames(catalog));
  }

  // ---------------------------------------------------------------------------
  // Columns

  /** `table.split('.', 1)` when the name has a '.', and no schema otherwise. */
  function SplitQualified(table: string): (r: (Option<string>, string))
    ensures r.0.None? <==> '.' !in table
    ensures r.0.Some? ==> '.' !in r.0.value && QualifiedName(r.0.value, r.1) == table
    ensures r.0.None? ==> r.1 == table
  {
    match IndexOf(table, '.')
    case None => (None, table)
    case Some(k) =>
      assert table == table[..k] + "." + table[k + 1..];
      (Some(table[..k]), table[k + 1..])
  }

  /** Splitting a listed name gives back its schema and table when the schema
      has no '.' (the table may have any number). */
  lemma SplitListedName(schema: string, table: string)
    requires '.' !in schema
    ensures SplitQualified(QualifiedName(schema, table)) == (Some(schema), table)
  {
    IndexOfJoin(schema, '.', table);
    var name := QualifiedName(schema, table);
    assert name[..|schema|] == schema && name[|schema| + 1..] == table;
  }

  /** A column as `get_columns` describes it. */
  type RawColumn = map<string, Json>

  /** The answer's record of one column. The type is given as its text. */
  datatype ColumnRecord = ColumnRecord(name: Json, columnType: string, nullable: Json, default: Json)

  function ColumnOf(col: RawColumn): Raises<ColumnRecord> {
    if "name" !in col then Raised(KeyError("name"))
    else if "type" !in col then Raised(KeyError("type"))
    else Returns(ColumnRecord(col["name"], Format(col["type"]), Get(col, "nullable", JBool(false)), Get(col, "default", JNull)))
  }

  /** The list comprehension over the columns, in order. */
  function ColumnRecords(cols: seq<RawColumn>): Raises<seq<ColumnRecord>>
    decreases |cols|
  {
    if |cols| == 0 then Returns([])
    else
      var first :- ColumnOf(cols[0]);
      var rest :- ColumnRecords(cols[1..]);
      Returns([first] + rest)
  }

  /** The columns are listed exactly when each has a name and a type; then one
      record per column, in order, with nullable false and default null where
      the description has none. */
  lemma {:induction false} ColumnRecordsShape(cols: seq<RawColumn>)
    ensures ColumnRecords(cols).Returns? <==> forall i :: 0 <= i < |cols| ==> "name" in cols[i] && "type" in cols[i]
    ensures ColumnRecords(cols).Returns? ==>
      var r := ColumnRecords(cols).value;
      && |r| == |cols|
      && forall i :: 0 <= i < |cols| ==>
           && r[i].name == cols[i]["name"] && r[i].columnType == Format(cols[i]["type"])
           && r[i].nullable == Get(cols[i], "nullable", JBool(false)) && r[i].default == Get(cols[i], "default", JNull)
    decreases |cols|
  {
    if |cols| > 0 {
      ColumnRecordsShape(cols[1..]);
      assert forall i :: 1 <= i < |cols| ==> cols[i] == cols[1..][i - 1];
    }
  }

  /** What `get_columns(table, schema=...)` gives on an engine. */
  type GetColumns = (Manager.Engine, Option<string>, string) -> Raises<seq<RawColumn>>

  datatype ColumnsOutcome = ColumnsOutcome(response: Result<seq<ColumnRecord>>, cache: map<string, Manager.Engine>)

  function ListColumnsSpec(connections: Connections, cache: map<string, Manager.Engine>, alias: string, table: string,
                           env: Env, getColumns: GetColumns): ColumnsOutcome {
    var got := Manager.GetEngineSpec(connections, cache, alias, env);
    match got.response
    case Raised(e) => ColumnsOutcome(Err(ExceptionText(e)), got.cache)
    case Returns(engine) =>
      var (schema, tableName) := SplitQualified(table);
      match getColumns(engine, schema, tableName)
      case Raised(e) => ColumnsOutcome(Err(ExceptionText(e)), got.cache)
      case Returns(cols) =>
        match ColumnRecords(cols)
        case Raised(e) => ColumnsOutcome(Err(ExceptionText(e)), got.cache)
        case Returns(records) => ColumnsOutcome(Ok(records), got.cache)
  }

  /** `list_columns`. */
  method ListColumns(mgr: Manager.ConnectionManager, alias: string, table: string, env: Env, getColumns: GetColumns)
    returns (r: Result<seq<ColumnRecord>>)
    modifies mgr
    ensures var o := ListColumnsSpec(mgr.connections, old(mgr.cache), alias, table, env, getColumns);
      r == o.response && mgr.cache == o.cache
  {
    var engine := mgr.GetSqlalchemyEngine(alias, env);
    if engine.Raised? {
      return Err(ExceptionText(engine.exception));
    }
    var schema: Option<string>;
    var tableName: string;
    if '.' in table {
      var k := IndexOf(table, '.').value;
      schema, tableName := Some(table[..k]), table[k + 1..];
    } else {
      schema, tableName := None, table;
    }
    var cols := getColumns(engine.value, schema, tableName);
    if cols.Raised? {
      return Err(ExceptionText(cols.exception));
    }
    var records := ColumnRecords(cols.value);
    if records.Raised? {
      return Err(ExceptionText(records.exception));
    }
    r := Ok(records.value);
  }

  /** The columns of a listed table are asked for under its own schema and
      name: a listed name goes back to `get_columns` as it came from the catalog. */
  lemma ListedTableColumnsAskCatalog(connections: Connections, cache: map<string, Manager.Engine>, alias: string,
                                     schema: string, table: string, env: Env, getColumns: GetColumns)
    requires '.' !in schema
    requires Manager.GetEngineSpec(connections, cache, alias, env).response.Returns?
    ensures var engine := Manager.GetEngineSpec(connections, cache, alias, env).response.value;
      var o := ListColumnsSpec(connections, cache, alias, QualifiedName(schema, table), env, getColumns);
      match getColumns(engine, Some(schema), table)
      case Raised(e) => o.response == Err(ExceptionText(e))
      case Returns(cols) => o.response == (match ColumnRecords(cols) case Raised(e) => Err(ExceptionText(e)) case Returns(rs) => Ok(rs))
  {
    SplitListedName(schema, table);
  }
}

/** Discovering the tables of every source connection (backend/api/sources.py).
    Connections are visited in connections.json order; only those whose role is
    "source" are opened, through the module's shared connection manager. A
    SQL Server connection contributes one record per base table, an Oracle
    connection one per catalog table, any other type nothing. What connecting
    and running the type's catalog query gives is the `query` parameter; the
    clock `now` gives the time at which the k-th record is made. */
module Sources {
  import opened Common
  import Manager

  /** A catalog row: its schema and table names. */
  datatype TableRow = TableRow(schema: string, table: string)

  /** One discovered table. Configuration values are copied as they are
      (`config.get`, null when absent). */
  datatype Record =
    | SqlServerRecord(alias: string, schemaName: string, tableName: string, databaseName: Json, lastSeen: Timestamp)
    | OracleRecord(alias: string, schemaName: string, tableName: string, host: Json, port: Json,
                   serviceName: Json, ezconnect: string, lastSeen: Timestamp)

  /** The answer: the records, the HTTP 500 raised for a failure while querying a
      connection, or the exception of `get_sqlalchemy_engine`, which is raised
      outside the handler's `try` and so is not turned into a detail text. */
  datatype Response = Discovered(records: seq<Record>) | HttpError(detail: string) | Uncaught(exception: Exception)

  datatype Outcome = Outcome(response: Response, cache: map<string, Manager.Engine>)

  type Query = (Manager.Engine, Json) -> Raises<seq<TableRow>>

  predicate IsSource(config: Config) {
    Get(config, "role", JNull) == JStr("source")
  }

  function QueryErrorDetail(alias: string, e: Exception): string {
    "Error querying " + alias + ": " + ExceptionText(e)
  }

  /** The Easy Connect string of an Oracle connection; the keys must be present. */
  function EzConnect(config: Config): string
    requires "host" in config && "port" in config && "service_name" in config
  {
    Format(config["host"]) + ":" + Format(config["port"]) + "/" + Format(config["service_name"])
  }

  /** The records of one connection's rows, the first of them being the
      `start`-th record of the answer. An Oracle connection without host, port
      or service_name raises KeyError at its first row. */
  function RecordsFor(alias: string, config: Config, rows: seq<TableRow>, start: nat, now: nat -> Timestamp): Raises<seq<Record>> {
    var connType := Get(config, "type", JNull);
    if connType == JStr("sqlserver") then
      Returns(seq(|rows|, i requires 0 <= i < |rows| => SqlServerRecordOf(alias, config, rows[i], now(start + i))))
    else if connType == JStr("oracle") then
      if |rows| == 0 then Returns([])
      else if "host" !in config then Raised(KeyError("host"))
      else if "port" !in config then Raised(KeyError("port"))
      else if "service_name" !in config then Raised(KeyError("service_name"))
      else Returns(seq(|rows|, i requires 0 <= i < |rows| => OracleRecordOf(alias, config, rows[i], now(start + i))))
    else Returns([])
  }

  /** What one source connection contributes: the records it appends to
      `found`, with the engine cache after opening it, or the outcome that
      ends the request. */
  datatype Step = Next(cache: map<string, Manager.Engine>, found: seq<Record>) | Stop(outcome: Outcome)

  function SourceStep(connections: Connections, alias: string, config: Config, cache: map<string, Manager.Engine>,
                      env: Env, query: Query, now: nat -> Timestamp, found: seq<Record>): (r: Step)
    ensures r.Next? ==> found <= r.found
  {
    var got := Manager.GetEngineSpec(connections, cache, alias, env);
    match got.response
    case Raised(e) => Stop(Outcome(Uncaught(e), got.cache))
    case Returns(engine) =>
      match query(engine, Get(config, "type", JNull))
      case Raised(e) => Stop(Outcome(HttpError(QueryErrorDetail(alias, e)), got.cache))
      case Returns(rows) =>
        match RecordsFor(alias, config, rows, |found|, now)
        case Raised(e) => Stop(Outcome(HttpError(QueryErrorDetail(alias, e)), got.cache))
        case Returns(records) => assert (found + records)[..|found|] == found; Next(got.cache, found + records)
  }

  /** The handler from the `i`-th connection on, with the engine cache `cache`
      and the records `found` so far. */
  function DiscoverFrom(connections: Connections, i: nat, cache: map<string, Manager.Engine>, env: Env,
                        query: Query, now: nat -> Timestamp, found: seq<Record>): Outcome
    decreases |connections| - i
  {
    if i >= |connections| then Outcome(Discovered(found), cache)
    else
      var (alias, config) := connections[i];
      if !IsSource(config) then DiscoverFrom(connections, i + 1, cache, env, query, now, found)
      else
        match SourceStep(connections, alias, config, cache, env, query, now, found)
        case Stop(outcome) => outcome
        case Next(cache', found') => DiscoverFrom(connections, i + 1, cache', env, query, now, found')
  }

  function SqlServerRecordOf(alias: string, config: Config, row: TableRow, at: Timestamp): Record {
    SqlServerRecord(alias, row.schema, row.table, Get(config, "database", JNull), at)
  }

  function OracleRecordOf(alias: string, config: Config, row: TableRow, at: Timestamp): Record
    requires "host" in config && "port" in config && "service_name" in config
  {
    OracleRecord(alias, row.schema, row.table, config["host"], config["port"], config["service_name"], EzConnect(config), at)
  }

  /** The row loop of a SQL Server connection. */
  method AppendSqlServerRecords(alias: string, config: Config, rows: seq<TableRow>, discovered: seq<Record>,
                                now: nat -> Timestamp) returns (out: seq<Record>)
    ensures out == discovered + seq(|rows|, i requires 0 <= i < |rows| => SqlServerRecordOf(alias, config, rows[i], now(|discovered| + i)))
  {
    out := discovered;
    for i := 0 to |rows|
      invariant |out| == |discovered| + i && out[..|discovered|] == discovered
      invariant forall k :: 0 <= k < i ==>
        out[|discovered| + k] == SqlServerRecordOf(alias, config, rows[k], now(|discovered| + k))
    {
      out := out + [SqlServerRecord(alias, rows[i].schema, rows[i].table, Get(config, "database", JNull), now(|out|))];
    }
    assert out == discovered + seq(|rows|, i requires 0 <= i < |rows| => SqlServerRecordOf(alias, config, rows[i], now(|discovered| + i)));
  }

  /** The row loop of an Oracle connection. */
  method AppendOracleRecords(alias: string, config: Config, rows: seq<TableRow>, discovered: seq<Record>,
                             now: nat -> Timestamp) returns (r: Raises<seq<Record>>)
    ensures |rows| > 0 && "host" !in config ==> r == Raised(KeyError("host"))
    ensures |rows| > 0 && "host" in config && "port" !in config ==> r == Raised(KeyError("port"))
    ensures |rows| > 0 && "host" in config && "port" in config && "service_name" !in config ==> r == Raised(KeyError("service_name"))
    ensures |rows| == 0 ==> r == Returns(discovered)
    ensures |rows| > 0 && "host" in config && "port" in config && "service_name" in config ==>
      r == Returns(discovered + seq(|rows|, i requires 0 <= i < |rows| => OracleRecordOf(alias, config, rows[i], now(|discovered| + i))))
  {
    var out := discovered;
    for i := 0 to |rows|
      invariant i > 0 ==> "host" in config && "port" in config && "service_name" in config
      invariant |out| == |discovered| + i && out[..|discovered|] == discovered
      invariant forall k :: 0 <= k < i ==>
        out[|discovered| + k] == OracleRecordOf(alias, config, rows[k], now(|discovered| + k))
    {
      if "host" !in config {
        return Raised(KeyError("host"));
      }
      if "port" !in config {
        return Raised(KeyError("port"));
      }
      if "service_name" !in config {
        return Raised(KeyError("service_name"));
      }
      var ezconnect := Format(config["host"]) + ":" + Format(config["port"]) + "/" + Format(config["service_name"]);
      out := out + [OracleRecord(alias, rows[i].schema, rows[i].table, config["host"], config["port"],
                                 config["service_name"], ezconnect, now(|out|))];
    }
    if |rows| == 0 {
      assert out == discovered;
    } else {
      assert out == discovered + seq(|rows|, i requires 0 <= i < |rows| => OracleRecordOf(alias, config, rows[i], now(|discovered| + i)));
    }
    r := Returns(out);
  }

  /** The row loop of one connection: appends its records to `discovered`. */
  method AppendRecords(alias: string, config: Config, rows: seq<TableRow>, discovered: seq<Record>, now: nat -> Timestamp)
    returns (r: Raises<seq<Record>>)
    ensures match RecordsFor(alias, config, rows, |discovered|, now)
      case Raised(e) => r == Raised(e)
      case Returns(records) => r == Returns(discovered + records)
  {
    var connType := Get(config, "type", JNull);
    if connType == JStr("sqlserver") {
      var out := AppendSqlServerRecords(alias, config, rows, discovered, now);
      r := Returns(out);
    } else if connType == JStr("oracle") {
      r := AppendOracleRecords(alias, config, rows, discovered, now);
    } else {
      assert RecordsFor(alias, config, rows, |discovered|, now) == Returns([]);
      assert discovered + [] == discovered;
      r := Returns(discovered);
    }
  }

  /** `discover_source_tables`, with the module's connection manager `mgr`. */
  method DiscoverSourceTables(mgr: Manager.ConnectionManager, env: Env, query: Query, now: nat -> Timestamp)
    returns (r: Response)
    modifies mgr
    ensures var o := DiscoverFrom(mgr.connections, 0, old(mgr.cache), env, query, now, []);
      r == o.response && mgr.cache == o.cache
  {
    var discovered: seq<Record> := [];
    var i := 0;
    while i < |mgr.connections|
      invariant i <= |mgr.connections|
      invariant DiscoverFrom(mgr.connections, i, mgr.cache, env, query, now, discovered)
             == DiscoverFrom(mgr.connections, 0, old(mgr.cache), env, query, now, [])
      decreases |mgr.connections| - i
    {
      var (alias, config) := mgr.connections[i];
      if !IsSource(config) {
        i := i + 1;
        continue;
      }
      var engine := mgr.GetSqlalchemyEngine(alias, env);
      if engine.Raised? {
        return Uncaught(engine.exception);
      }
      var result := query(engine.value, Get(config, "type", JNull));
      if result.Raised? {
        return HttpError(QueryErrorDetail(alias, result.exception));
      }
      var appended := AppendRecords(alias, config, result.value, discovered, now);
      if appended.Raised? {
        return HttpError(QueryErrorDetail(alias, appended.exception));
      }
      discovered := appended.value;
      i := i + 1;
    }
    r := Discovered(discovered);
  }

  // ---------------------------------------------------------------------------
  // Properties

  /** The record a connection's configuration and a row give, as the handler
      promises it. */
  predicate RecordFits(connections: Connections, rec: Record) {
    exists j :: 0 <= j < |connections| && connections[j].0 == rec.alias && IsSource(connections[j].1)
      && var config := connections[j].1;
         match rec
         case SqlServerRecord(_, _, _, database, _) =>
           Get(config, "type", JNull) == JStr("sqlserver") && database == Get(config, "database", JNull)
         case OracleRecord(_, _, _, host, port, service, ezconnect, _) =>
           && Get(config, "type", JNull) == JStr("oracle")
           && "host" in config && "port" in config && "service_name" in config
           && host == config["host"] && port == config["port"] && service == config["service_name"]
           && ezconnect == Format(host) + ":" + Format(port) + "/" + Format(service)
  }

  lemma RecordsForFit(connections: Connections, j: nat, rows: seq<TableRow>, start: nat, now: nat -> Timestamp)
    requires j < |connections| && IsSource(connections[j].1)
    requires RecordsFor(connections[j].0, connections[j].1, rows, start, now).Returns?
    ensures forall rec :: rec in RecordsFor(connections[j].0, connections[j].1, rows, start, now).value ==> RecordFits(connections, rec)
  {
  }

  /** Every record comes from a connection whose role is "source" and whose
      type is "sqlserver" (carrying the configured database name) or "oracle"
      (carrying host, port and service name and the Easy Connect string
      host:port/service_name). */
  lemma {:induction false} OnlySourceConnectionsContribute(connections: Connections, i: nat, cache: map<string, Manager.Engine>,
                                                          env: Env, query: Query, now: nat -> Timestamp, found: seq<Record>)
    requires forall rec :: rec in found ==> RecordFits(connections, rec)
    requires DiscoverFrom(connections, i, cache, env, query, now, found).response.Discovered?
    ensures forall rec :: rec in DiscoverFrom(connections, i, cache, env, query, now, found).response.records ==> RecordFits(connections, rec)
    decreases |connections| - i
  {
    if i < |connections| {
      var (alias, config) := connections[i];
      if !IsSource(config) {
        OnlySourceConnectionsContribute(connections, i + 1, cache, env, query, now, found);
      } else {
        var got := Manager.GetEngineSpec(connections, cache, alias, env);
        var rows := query(got.response.value, Get(config, "type", JNull)).value;
        var records := RecordsFor(alias, config, rows, |found|, now).value;
        RecordsForFit(connections, i, rows, |found|, now);
        OnlySourceConnectionsContribute(connections, i + 1, got.cache, env, query, now, found + records);
      }
    }
  }

  /** Records are only ever appended: those of earlier connections stay first,
      in the order they were made. */
  lemma {:induction false} EarlierRecordsComeFirst(connections: Connections, i: nat, cache: map<string, Manager.Engine>,
                                                   env: Env, query: Query, now: nat -> Timestamp, found: seq<Record>)
    requires DiscoverFrom(connections, i, cache, env, query, now, found).response.Discovered?
    ensures found <= DiscoverFrom(connections, i, cache, env, query, now, found).response.records
    decreases |connections| - i
  {
    if i < |connections| {
      var (alias, config) := connections[i];
      if !IsSource(config) {
        EarlierRecordsComeFirst(connections, i + 1, cache, env, query, now, found);
      } else {
        var step := SourceStep(connections, alias, config, cache, env, query, now, found);
        EarlierRecordsComeFirst(connections, i + 1, step.cache, env, query, now, step.found);
      }
    }
  }

  /** A failing query on a source connection ends the request with an HTTP 500
      naming that connection; no partial list is returned. */
  lemma QueryErrorAborts(connections: Connections, i: nat, cache: map<string, Manager.Engine>,
                         env: Env, query: Query, now: nat -> Timestamp, found: seq<Record>)
    requires i < |connections| && IsSource(connections[i].1)
    requires Manager.GetEngineSpec(connections, cache, connections[i].0, env).response.Returns?
    requires query(Manager.GetEngineSpec(connections, cache, connections[i].0, env).response.value,
                   Get(connections[i].1, "type", JNull)).Raised?
    ensures DiscoverFrom(connections, i, cache, env, query, now, found).response
         == HttpError(QueryErrorDetail(connections[i].0,
              query(Manager.GetEngineSpec(connections, cache, connections[i].0, env).response.value,
                    Get(connections[i].1, "type", JNull)).exception))
  {
  }

  /** Connections whose role is not "source" are neither opened nor queried:
      with no source connection the answer is the empty list and no engine is
      built. */
  lemma {:induction false} NoSourceNoQuery(connections: Connections, i: nat, cache: map<string, Manager.Engine>,
                                          env: Env, query: Query, now: nat -> Timestamp, found: seq<Record>)
    requires forall j :: i <= j < |connections| ==> !IsSource(connections[j].1)
    ensures DiscoverFrom(connections, i, cache, env, query, now, found) == Outcome(Discovered(found), cache)
    decreases |connections| - i
  {
    if i < |connections| {
      NoSourceNoQuery(connections, i + 1, cache, env, query, now, found);
    }
  }

  /** One SQL Server source: its rows in query order, each with the configured
      database name and the time it was made. */
  lemma SqlServerRowsInOrder(alias: string, config: Config, cache: map<string, Manager.Engine>, env: Env,
                             query: Query, now: nat -> Timestamp)
    requires IsSource(config) && Get(config, "type", JNull) == JStr("sqlserver")
    requires Manager.GetEngineSpec([(alias, config)], cache, alias, env).response.Returns?
    requires query(Manager.GetEngineSpec([(alias, config)], cache, alias, env).response.value, JStr("sqlserver")).Returns?
    ensures var rows := query(Manager.GetEngineSpec([(alias, config)], cache, alias, env).response.value, JStr("sqlserver")).value;
      var r := DiscoverFrom([(alias, config)], 0, cache, env, query, now, []).response;
      && r.Discovered? && |r.records| == |rows|
      && forall k :: 0 <= k < |rows| ==>
           r.records[k] == SqlServerRecord(alias, rows[k].schema, rows[k].table, Get(config, "database", JNull), now(k))
  {
    var got := Manager.GetEngineSpec([(alias, config)], cache, alias, env);
    var rows := query(got.response.value, JStr("sqlserver")).value;
    var records := RecordsFor(alias, config, rows, 0, now).value;
    assert [] + records == records;
    assert DiscoverFrom([(alias, config)], 1, got.cache, env, query, now, records).response == Discovered(records);
  }
}

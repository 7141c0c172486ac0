/** Listing the tables of an Oracle source (backend/connections/discovery_oracle.py):
    the alias is checked against connections.json, its type must be "oracle",
    the credentials come from ORACLE_USER_<ALIAS> and ORACLE_PASSWORD_<ALIAS>,
    and the catalog rows are returned as (schema, table) records. Connecting and
    querying is the `query` parameter: given the URL, the catalog rows or the
    exception raised. */
module DiscoveryOracle {
  import opened Common

  const DefaultPort: Json := JInt(1521)
  const OracleScheme: string := "oracle+cx_oracle://"

  /** A row of `SELECT owner, table_name FROM all_tables`. */
  datatype CatalogRow = CatalogRow(owner: string, tableName: string)

  /** `{"schema": ..., "table": ...}`. */
  datatype TableRecord = TableRecord(schema: string, table: string)

  function NotFoundMessage(alias: string): string {
    "Alias '" + alias + "' not found in connections.json"
  }

  function NotOracleMessage(alias: string): string {
    "Alias '" + alias + "' is not of type 'oracle'"
  }

  function UserVariable(alias: string): string {
    "ORACLE_USER_" + Upper(alias)
  }

  function PasswordVariable(alias: string): string {
    "ORACLE_PASSWORD_" + Upper(alias)
  }

  function MissingCredentialsMessage(alias: string): string {
    "Missing " + UserVariable(alias) + " or " + PasswordVariable(alias) + " in .env"
  }

  /** The connect descriptor for a host, a port and a service name. */
  function Dsn(host: string, port: string, service: string): string {
    "(DESCRIPTION=(ADDRESS=(PROTOCOL=TCP)(HOST=" + host + ")(PORT=" + port
    + "))(CONNECT_DATA=(SERVICE_NAME=" + service + ")))"
  }

  /** The checks, in order, and the URL handed to `create_engine`. An alias
      whose entry is empty counts as not found. */
  function OracleUrl(connections: Connections, alias: string, env: Env): Raises<string> {
    var config := LookupConfig(connections, alias);
    if config.None? || config.value == map[] then Raised(ValueError(NotFoundMessage(alias)))
    else if Get(config.value, "type", JNull) != JStr("oracle") then Raised(ValueError(NotOracleMessage(alias)))
    else
      var user := GetEnv(env, UserVariable(alias));
      var password := GetEnv(env, PasswordVariable(alias));
      if !TruthyOpt(user) || !TruthyOpt(password) then Raised(EnvironmentError(MissingCredentialsMessage(alias)))
      else if "host" !in config.value then Raised(KeyError("host"))
      else if "service" !in config.value then Raised(KeyError("service"))
      else
        var dsn := Dsn(Format(config.value["host"]), Format(Get(config.value, "port", DefaultPort)),
                       Format(config.value["service"]));
        Returns(CredentialedUrl(user.value, password.value, dsn))
  }

  function CredentialedUrl(user: string, password: string, dsn: string): string {
    OracleScheme + user + ":" + password + "@" + dsn
  }

  function RecordOf(row: CatalogRow): TableRecord {
    TableRecord(row.owner, row.tableName)
  }

  /** `discover_oracle_source`. */
  function DiscoverSpec(connections: Connections, alias: string, env: Env,
                        query: string -> Raises<seq<CatalogRow>>): Raises<seq<TableRecord>> {
    var url :- OracleUrl(connections, alias, env);
    var rows :- query(url);
    Returns(Records(rows))
  }

  function Records(rows: seq<CatalogRow>): seq<TableRecord> {
    seq(|rows|, i requires 0 <= i < |rows| => RecordOf(rows[i]))
  }

  /** The row loop of `discover_oracle_source`: one record per row. */
  method CollectRecords(rows: seq<CatalogRow>) returns (tables: seq<TableRecord>)
    ensures tables == Records(rows)
  {
    tables := [];
    for i := 0 to |rows|
      invariant |tables| == i
      invariant forall k :: 0 <= k < i ==> tables[k] == RecordOf(rows[k])
    {
      tables := tables + [TableRecord(rows[i].owner, rows[i].tableName)];
    }
    assert tables == Records(rows);
  }

  /** `discover_oracle_source`. */
  method DiscoverOracleSource(connections: Connections, alias: string, env: Env,
                              query: string -> Raises<seq<CatalogRow>>) returns (r: Raises<seq<TableRecord>>)
    ensures r == DiscoverSpec(connections, alias, env, query)
  {
    var url := OracleUrl(connections, alias, env);
    if url.Raised? {
      return Raised(url.exception);
    }
    var result := query(url.value);
    if result.Raised? {
      return Raised(result.exception);
    }
    var tables := CollectRecords(result.value);
    return Returns(tables);
  }

  /** An alias without a (non-empty) entry fails first, before its type, the
      environment or the database are looked at. */
  lemma UnknownAliasFailsFirst(connections: Connections, alias: string, env: Env, query: string -> Raises<seq<CatalogRow>>)
    requires LookupConfig(connections, alias).None? || LookupConfig(connections, alias) == Some(map[])
    ensures DiscoverSpec(connections, alias, env, query) == Raised(ValueError(NotFoundMessage(alias)))
  {
  }

  /** An entry whose type is not "oracle" fails next, whatever the environment holds. */
  lemma NonOracleAliasFails(connections: Connections, alias: string, env: Env, query: string -> Raises<seq<CatalogRow>>)
    requires LookupConfig(connections, alias).Some? && LookupConfig(connections, alias).value != map[]
    requires Get(LookupConfig(connections, alias).value, "type", JNull) != JStr("oracle")
    ensures DiscoverSpec(connections, alias, env, query) == Raised(ValueError(NotOracleMessage(alias)))
  {
  }

  /** An Oracle entry without credentials in the variables named after the
      upper-cased alias raises EnvironmentError, before host and service are read. */
  lemma MissingCredentialsFail(connections: Connections, alias: string, env: Env, query: string -> Raises<seq<CatalogRow>>)
    requires LookupConfig(connections, alias).Some?
    requires Get(LookupConfig(connections, alias).value, "type", JNull) == JStr("oracle")
    requires !TruthyOpt(GetEnv(env, "ORACLE_USER_" + Upper(alias))) || !TruthyOpt(GetEnv(env, "ORACLE_PASSWORD_" + Upper(alias)))
    ensures DiscoverSpec(connections, alias, env, query) == Raised(EnvironmentError(MissingCredentialsMessage(alias)))
  {
  }

  /** The variables are named after the upper-cased alias, so aliases that differ
      only in case share their credentials. */
  lemma CredentialsIgnoreAliasCase(alias1: string, alias2: string)
    requires Upper(alias1) == Upper(alias2)
    ensures UserVariable(alias1) == UserVariable(alias2) && PasswordVariable(alias1) == PasswordVariable(alias2)
    ensures MissingCredentialsMessage(alias1) == MissingCredentialsMessage(alias2)
  {
  }

  /** The URL is built exactly when the entry is an Oracle entry with a host and
      a service and both variables hold non-empty text. It then carries the
      credentials and the descriptor of the entry's host, port (1521 unless the
      entry says otherwise) and service. */
  lemma OracleUrlIff(connections: Connections, alias: string, env: Env)
    ensures OracleUrl(connections, alias, env).Returns? <==>
      && LookupConfig(connections, alias).Some?
      && Get(LookupConfig(connections, alias).value, "type", JNull) == JStr("oracle")
      && TruthyOpt(GetEnv(env, UserVariable(alias))) && TruthyOpt(GetEnv(env, PasswordVariable(alias)))
      && "host" in LookupConfig(connections, alias).value && "service" in LookupConfig(connections, alias).value
    ensures OracleUrl(connections, alias, env).Returns? ==>
      var config := LookupConfig(connections, alias).value;
      var port := if "port" in config then Format(config["port"]) else "1521";
      OracleUrl(connections, alias, env).value
        == CredentialedUrl(env[UserVariable(alias)], env[PasswordVariable(alias)],
                           Dsn(Format(config["host"]), port, Format(config["service"])))
  {
    DefaultPortText();
  }

  /** The default port is written 1521. */
  lemma DefaultPortText()
    ensures Format(DefaultPort) == "1521"
  {
    assert DigitChar(1) == '1' && DigitChar(5) == '5' && DigitChar(2) == '2';
    assert NatToString(1) == "1";
    assert NatToString(15) == "1" + "5";
    assert NatToString(152) == "15" + "2";
    assert NatToString(1521) == "152" + "1";
  }

  /** A successful call returns one record per catalog row, in the query's
      order, holding the row's owner as schema and its table name; a failing
      query's exception is passed on. */
  lemma OneRecordPerRow(connections: Connections, alias: string, env: Env, query: string -> Raises<seq<CatalogRow>>)
    requires OracleUrl(connections, alias, env).Returns?
    ensures var rows := query(OracleUrl(connections, alias, env).value);
      var r := DiscoverSpec(connections, alias, env, query);
      && (rows.Raised? ==> r == Raised(rows.exception))
      && (rows.Returns? ==>
            && r.Returns? && |r.value| == |rows.value|
            && forall i :: 0 <= i < |rows.value| ==>
                 r.value[i].schema == rows.value[i].owner && r.value[i].table == rows.value[i].tableName)
  {
  }
}

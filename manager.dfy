/** The connection manager (backend/connections/manager.py): a cache of engines
    by alias in front of two builders of SQL Server connection URLs, one from a
    connections.json entry and one from the LINEAGE_* environment variables.
    An engine is identified with the URL it is created from. */
module Manager {
  import opened Common
  import opened ConnectionUrl

  const DefaultDriver: string := "ODBC Driver 18 for SQL Server"
  const TrustCertParam: string := "TrustServerCertificate=yes"
  const TrustCertSuffix: string := "&" + TrustCertParam
  const TrustedParam: string := "trusted_connection=yes"

  function DriverParam(driver: string): string {
    "driver=" + driver
  }

  /** What `create_engine` is given. */
  datatype Engine = Engine(url: string)

  /** The Python type name of a JSON value, as a TypeError names it. */
  function TypeName(v: Json): string {
    match v
    case JStr(_) => "str"
    case JInt(_) => "int"
    case JBool(_) => "bool"
    case JNull => "NoneType"
  }

  /** `os.getenv(name)` where the name comes from the configuration: anything
      but a string raises TypeError. */
  function EnvNamedBy(env: Env, name: Json): (r: Raises<Option<string>>)
    ensures r.Returns? <==> name.JStr?
    ensures r.Returns? ==> r.value == GetEnv(env, name.s)
  {
    match name
    case JStr(key) => Returns(GetEnv(env, key))
    case _ => Raised(TypeError("str expected, not " + TypeName(name)))
  }

  /** `config[key]`. */
  function Required(config: Config, key: string): (r: Raises<Json>)
    ensures r.Returns? <==> key in config
  {
    if key in config then Returns(config[key]) else Raised(KeyError(key))
  }

  function ConfigDriver(config: Config): string {
    Format(Get(config, "driver", JStr(DefaultDriver)))
  }

  predicate UsesTrustedConnection(config: Config) {
    Truthy(Get(config, "use_trusted_connection", JNull))
  }

  predicate TrustsServerCert(config: Config) {
    Truthy(Get(config, "trust_server_cert", JNull))
  }

  function MissingCredentialsMessage(config: Config): string {
    "Missing credentials for " + Format(Get(config, "alias", JStr("unknown")))
  }

  /** `_build_engine_from_config`. */
  function BuildEngineFromConfig(config: Config, env: Env): Raises<Engine> {
    var driver := ConfigDriver(config);
    var base :-
      if UsesTrustedConnection(config) then
        var server :- Required(config, "server");
        var database :- Required(config, "database");
        Returns(UrlText("", Format(server), Format(database), DriverParam(driver) + "&" + TrustedParam))
      else
        var user :- EnvNamedBy(env, Get(config, "user_env", JNull));
        var password :- EnvNamedBy(env, Get(config, "password_env", JNull));
        if !TruthyOpt(user) || !TruthyOpt(password) then Raised(ValueError(MissingCredentialsMessage(config)))
        else
          var server :- Required(config, "server");
          var database :- Required(config, "database");
          Returns(UrlText(user.value + ":" + password.value, Format(server), Format(database), DriverParam(driver)));
    Returns(Engine(if TrustsServerCert(config) then base + TrustCertSuffix else base))
  }

  /** `_build_lineage_engine`. */
  function BuildLineageEngine(env: Env): Raises<Engine> {
    var driver := GetEnvOr(env, "LINEAGE_DRIVER", DefaultDriver);
    var server :- Environ(env, "LINEAGE_SERVER");
    var database :- Environ(env, "LINEAGE_DATABASE");
    var trustCert := Lower(GetEnvOr(env, "LINEAGE_TRUST_SERVER_CERT", "true")) == "true";
    var base :-
      if Lower(GetEnvOr(env, "LINEAGE_USE_TRUSTED_CONNECTION", "false")) == "true" then
        Returns(UrlText("", server, database, DriverParam(driver) + "&" + TrustedParam))
      else
        var username :- Environ(env, "LINEAGE_USERNAME");
        var password :- Environ(env, "LINEAGE_PASSWORD");
        Returns(UrlText(username + ":" + password, server, database, DriverParam(driver)));
    Returns(Engine(if trustCert then base + TrustCertSuffix else base))
  }

  /** The answer of one `get_sqlalchemy_engine` call and the cache afterwards. */
  datatype GetEngineOutcome = GetEngineOutcome(response: Raises<Engine>, cache: map<string, Engine>)

  function GetEngineSpec(connections: Connections, cache: map<string, Engine>, alias: string, env: Env): GetEngineOutcome {
    if alias in cache then GetEngineOutcome(Returns(cache[alias]), cache)
    else
      var built :=
        if alias == "lineage" then BuildLineageEngine(env)
        else match LookupConfig(connections, alias)
          case None => Raised(ValueError("Unsupported connection: " + alias))
          case Some(config) => BuildEngineFromConfig(config, env);
      match built
      case Raised(e) => GetEngineOutcome(Raised(e), cache)
      case Returns(engine) => GetEngineOutcome(Returns(engine), cache[alias := engine])
  }

  /** `ConnectionManager`: connections.json as loaded, and the engines built so far. */
  class ConnectionManager {
    const connections: Connections
    var cache: map<string, Engine>

    constructor (connections: Connections)
      ensures this.connections == connections && cache == map[]
    {
      this.connections := connections;
      cache := map[];
    }

    /** `get_sqlalchemy_engine`. */
    method GetSqlalchemyEngine(alias: string, env: Env) returns (r: Raises<Engine>)
      modifies this
      ensures var o := GetEngineSpec(connections, old(cache), alias, env);
        r == o.response && cache == o.cache
    {
      if alias in cache {
        return Returns(cache[alias]);
      }
      var engine: Raises<Engine>;
      if alias == "lineage" {
        engine := BuildLineageEngine(env);
      } else {
        var config := LookupConfig(connections, alias);
        if config.None? {
          return Raised(ValueError("Unsupported connection: " + alias));
        }
        engine := BuildEngineFromConfig(config.value, env);
      }
      if engine.Raised? {
        return engine;
      }
      cache := cache[alias := engine.value];
      r := engine;
    }
  }

  // ---------------------------------------------------------------------------
  // The cache

  /** A cached alias is answered from the cache, whatever the configuration and
      the environment, and the cache is unchanged. */
  lemma CachedAliasIsReused(connections: Connections, cache: map<string, Engine>, alias: string, env: Env)
    requires alias in cache
    ensures GetEngineSpec(connections, cache, alias, env) == GetEngineOutcome(Returns(cache[alias]), cache)
  {
  }

  /** The cache changes only by recording a successful build under its alias;
      a failed build leaves it as it was. */
  lemma CacheOnlyOnSuccess(connections: Connections, cache: map<string, Engine>, alias: string, env: Env)
    ensures var o := GetEngineSpec(connections, cache, alias, env);
      && (o.response.Raised? ==> o.cache == cache)
      && (o.response.Returns? ==> o.cache == cache[alias := o.response.value])
      && cache.Keys <= o.cache.Keys
      && forall a :: a in cache ==> o.cache[a] == cache[a]
  {
  }

  /** Once an alias has been answered with an engine, the next call for it
      returns the same engine, even if the environment changed in between. */
  lemma SecondCallHits(connections: Connections, cache: map<string, Engine>, alias: string, env1: Env, env2: Env)
    requires GetEngineSpec(connections, cache, alias, env1).response.Returns?
    ensures var first := GetEngineSpec(connections, cache, alias, env1);
      var second := GetEngineSpec(connections, first.cache, alias, env2);
      second.response == first.response && second.cache == first.cache
  {
    CacheOnlyOnSuccess(connections, cache, alias, env1);
  }

  /** "lineage" is built from the environment even when connections.json has an
      entry of that name. */
  lemma LineageUsesLineageBuilder(connections: Connections, cache: map<string, Engine>, env: Env)
    requires "lineage" !in cache
    ensures GetEngineSpec(connections, cache, "lineage", env).response == BuildLineageEngine(env)
  {
  }

  /** Any other uncached alias is built from its configuration entry. */
  lemma ConfiguredAliasUsesItsConfig(connections: Connections, cache: map<string, Engine>, alias: string, env: Env)
    requires alias !in cache && alias != "lineage" && LookupConfig(connections, alias).Some?
    ensures GetEngineSpec(connections, cache, alias, env).response
         == BuildEngineFromConfig(LookupConfig(connections, alias).value, env)
  {
  }

  /** An alias that is neither cached, "lineage" nor configured raises
      ValueError naming it and caches nothing. */
  lemma UnknownAliasRaises(connections: Connections, cache: map<string, Engine>, alias: string, env: Env)
    requires alias !in cache && alias != "lineage"
    requires forall i :: 0 <= i < |connections| ==> connections[i].0 != alias
    ensures GetEngineSpec(connections, cache, alias, env)
         == GetEngineOutcome(Raised(ValueError("Unsupported connection: " + alias)), cache)
  {
  }

  // ---------------------------------------------------------------------------
  // The URL built from a configuration entry

  /** The query both builders write before the certificate flag. */
  function BaseQuery(driver: string, trusted: bool): string {
    if trusted then DriverParam(driver) + "&" + TrustedParam else DriverParam(driver)
  }

  function Params(driver: string, trusted: bool, trustCert: bool): seq<string> {
    [DriverParam(driver)]
    + (if trusted then [TrustedParam] else [])
    + (if trustCert then [TrustCertParam] else [])
  }

  lemma BaseQueryIsJoin(driver: string, trusted: bool)
    ensures Join(Params(driver, trusted, false), '&') == BaseQuery(driver, trusted)
  {
    var d := DriverParam(driver);
    if trusted {
      assert Params(driver, trusted, false) == [d, TrustedParam];
      JoinTwo(d, TrustedParam, '&');
    } else {
      assert Params(driver, trusted, false) == [d];
    }
  }

  /** The written query is the parameters joined with '&'. */
  lemma QueryOfFlags(driver: string, trusted: bool, trustCert: bool)
    ensures Join(Params(driver, trusted, trustCert), '&')
         == if trustCert then BaseQuery(driver, trusted) + TrustCertSuffix else BaseQuery(driver, trusted)
  {
    BaseQueryIsJoin(driver, trusted);
    if trustCert {
      var flags := Params(driver, trusted, false);
      assert Params(driver, trusted, trustCert) == flags + [TrustCertParam];
      JoinAppend(flags, TrustCertParam, '&');
    }
  }

  /** The parameters after '?': the driver, the integrated-login flag when
      trusted, and the certificate flag when the certificate is trusted. */
  function ConfigParams(config: Config): seq<string> {
    Params(ConfigDriver(config), UsesTrustedConnection(config), TrustsServerCert(config))
  }

  /** A configuration entry is built into an engine exactly when, for a trusted
      connection, the entry has a server and a database, and otherwise the
      user_env and password_env entries name environment variables holding
      non-empty text and the entry has a server and a database. */
  lemma ConfigBuildSucceedsIff(config: Config, env: Env)
    ensures BuildEngineFromConfig(config, env).Returns? <==>
      && "server" in config && "database" in config
      && (!UsesTrustedConnection(config) ==>
            && Get(config, "user_env", JNull).JStr? && Get(config, "password_env", JNull).JStr?
            && TruthyOpt(GetEnv(env, Get(config, "user_env", JNull).s))
            && TruthyOpt(GetEnv(env, Get(config, "password_env", JNull).s)))
  {
  }

  /** Missing credentials are reported before a missing server or database. */
  lemma MissingCredentialsRaiseValueError(config: Config, env: Env)
    requires !UsesTrustedConnection(config)
    requires Get(config, "user_env", JNull).JStr? && Get(config, "password_env", JNull).JStr?
    requires !TruthyOpt(GetEnv(env, Get(config, "user_env", JNull).s))
          || !TruthyOpt(GetEnv(env, Get(config, "password_env", JNull).s))
    ensures BuildEngineFromConfig(config, env) == Raised(ValueError(MissingCredentialsMessage(config)))
  {
  }

  /** The built URL is the SQL Server URL of the entry's server and database,
      with no credentials for a trusted connection and the variables' values
      otherwise, and with the parameters of `ConfigParams`: the driver
      (by default "ODBC Driver 18 for SQL Server"), "trusted_connection=yes"
      exactly when trusted and "TrustServerCertificate=yes" exactly when the
      entry says to trust the certificate. When no value contains a delimiter
      of the URL, reading the URL back gives exactly these parts. */
  lemma ConfigEngineUrl(config: Config, env: Env)
    requires BuildEngineFromConfig(config, env).Returns?
    ensures "server" in config && "database" in config
    ensures var parts := OdbcUrl(
        if UsesTrustedConnection(config) then None
        else Some((env[Get(config, "user_env", JNull).s], env[Get(config, "password_env", JNull).s])),
        Format(config["server"]), Format(config["database"]), ConfigParams(config));
      var url := BuildEngineFromConfig(config, env).value.url;
      && url == Render(parts)
      && (Delimited(parts) ==> Parse(url) == Some(parts))
  {
    ConfigBuildSucceedsIff(config, env);
    var credentials := if UsesTrustedConnection(config) then None
      else Some((env[Get(config, "user_env", JNull).s], env[Get(config, "password_env", JNull).s]));
    var parts := OdbcUrl(credentials, Format(config["server"]), Format(config["database"]), ConfigParams(config));
    QueryOfFlags(ConfigDriver(config), UsesTrustedConnection(config), TrustsServerCert(config));
    if TrustsServerCert(config) {
      UrlTextAppend(CredentialsText(credentials), parts.server, parts.database,
                    BaseQuery(ConfigDriver(config), UsesTrustedConnection(config)), TrustCertSuffix);
    }
    if Delimited(parts) {
      ParseRender(parts);
    }
  }

  // ---------------------------------------------------------------------------
  // The URL built from the environment

  predicate LineageTrustsCert(env: Env) {
    Lower(GetEnvOr(env, "LINEAGE_TRUST_SERVER_CERT", "true")) == "true"
  }

  predicate LineageUsesTrustedConnection(env: Env) {
    Lower(GetEnvOr(env, "LINEAGE_USE_TRUSTED_CONNECTION", "false")) == "true"
  }

  function LineageParams(env: Env): seq<string> {
    Params(GetEnvOr(env, "LINEAGE_DRIVER", DefaultDriver), LineageUsesTrustedConnection(env), LineageTrustsCert(env))
  }

  /** The lineage engine is built exactly when LINEAGE_SERVER and
      LINEAGE_DATABASE are set and, unless integrated login is asked for,
      LINEAGE_USERNAME and LINEAGE_PASSWORD are set too (empty values
      included). */
  lemma LineageBuildSucceedsIff(env: Env)
    ensures BuildLineageEngine(env).Returns? <==>
      && "LINEAGE_SERVER" in env && "LINEAGE_DATABASE" in env
      && (!LineageUsesTrustedConnection(env) ==> "LINEAGE_USERNAME" in env && "LINEAGE_PASSWORD" in env)
  {
  }

  /** The lineage URL carries LINEAGE_SERVER and LINEAGE_DATABASE, the
      credentials from LINEAGE_USERNAME and LINEAGE_PASSWORD unless integrated
      login is asked for, and the parameters of `LineageParams`: the
      certificate is trusted unless LINEAGE_TRUST_SERVER_CERT says otherwise,
      integrated login is used only when LINEAGE_USE_TRUSTED_CONNECTION says
      "true" in any case. */
  lemma LineageEngineUrl(env: Env)
    requires BuildLineageEngine(env).Returns?
    ensures "LINEAGE_SERVER" in env && "LINEAGE_DATABASE" in env
    ensures var parts := OdbcUrl(
        if LineageUsesTrustedConnection(env) then None else Some((env["LINEAGE_USERNAME"], env["LINEAGE_PASSWORD"])),
        env["LINEAGE_SERVER"], env["LINEAGE_DATABASE"], LineageParams(env));
      var url := BuildLineageEngine(env).value.url;
      && url == Render(parts)
      && (Delimited(parts) ==> Parse(url) == Some(parts))
  {
    LineageBuildSucceedsIff(env);
    var credentials := if LineageUsesTrustedConnection(env) then None
      else Some((env["LINEAGE_USERNAME"], env["LINEAGE_PASSWORD"]));
    var parts := OdbcUrl(credentials, env["LINEAGE_SERVER"], env["LINEAGE_DATABASE"], LineageParams(env));
    var driver := GetEnvOr(env, "LINEAGE_DRIVER", DefaultDriver);
    QueryOfFlags(driver, LineageUsesTrustedConnection(env), LineageTrustsCert(env));
    if LineageTrustsCert(env) {
      UrlTextAppend(CredentialsText(credentials), parts.server, parts.database,
                    BaseQuery(driver, LineageUsesTrustedConnection(env)), TrustCertSuffix);
    }
    if Delimited(parts) {
      ParseRender(parts);
    }
  }
}

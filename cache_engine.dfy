/** The engine of the procedure cache database (backend/connections/cache_engine.py),
    built from the CACHE_DB_* environment variables. The driver and the password
    are URL-encoded by `quote_plus`, which is passed in. */
module CacheEngine {
  import opened Common
  import opened ConnectionUrl
  import Manager

  const AuthErrorMessage: string := "Missing CACHE_DB_USER or CACHE_DB_PASSWORD for SQL auth"

  /** `flag.lower() == "true"` for a variable read with the default "false". */
  predicate FlagSet(env: Env, key: string) {
    Lower(GetEnvOr(env, key, "false")) == "true"
  }

  predicate UsesTrustedConnection(env: Env) {
    FlagSet(env, "CACHE_DB_TRUSTED")
  }

  predicate TrustsCert(env: Env) {
    FlagSet(env, "CACHE_DB_TRUST_CERT")
  }

  function QuotedDriver(env: Env, quotePlus: string -> string): string {
    quotePlus(GetEnvOr(env, "CACHE_DB_DRIVER", Manager.DefaultDriver))
  }

  /** The certificate parameter: empty when the certificate is not trusted. */
  function CertParam(env: Env): string {
    if TrustsCert(env) then Manager.TrustCertParam else ""
  }

  const TrustedParam: string := "Trusted_Connection=yes"

  /** The query up to the certificate parameter: the driver, then the
      integrated-login flag when asked for, each followed by '&'. */
  function QueryHead(quotedDriver: string, trusted: bool): (r: string)
    ensures |r| > 0 && r[|r| - 1] == '&'
  {
    if trusted then Manager.DriverParam(quotedDriver) + "&" + TrustedParam + "&"
    else Manager.DriverParam(quotedDriver) + "&"
  }

  /** `get_cache_engine`. An unset server or database name is written as "None". */
  function GetCacheEngine(env: Env, quotePlus: string -> string): Raises<Manager.Engine> {
    var server := FormatOpt(GetEnv(env, "CACHE_DB_SERVER"));
    var db := FormatOpt(GetEnv(env, "CACHE_DB_NAME"));
    var quotedDriver := QuotedDriver(env, quotePlus);
    var trustedCert := CertParam(env);
    if UsesTrustedConnection(env) then
      Returns(Manager.Engine(UrlText("", server, db, QueryHead(quotedDriver, true) + trustedCert)))
    else
      var user := GetEnv(env, "CACHE_DB_USER");
      var password := GetEnv(env, "CACHE_DB_PASSWORD");
      if !TruthyOpt(user) || !TruthyOpt(password) then Raised(ValueError(AuthErrorMessage))
      else
        Returns(Manager.Engine(UrlText(user.value + ":" + quotePlus(password.value), server, db,
          QueryHead(quotedDriver, false) + trustedCert)))
  }

  /** The parameters after '?'. The certificate parameter is always there,
      empty when the certificate is not trusted. */
  function CacheParams(env: Env, quotePlus: string -> string): seq<string> {
    if UsesTrustedConnection(env) then [Manager.DriverParam(QuotedDriver(env, quotePlus)), TrustedParam, CertParam(env)]
    else [Manager.DriverParam(QuotedDriver(env, quotePlus)), CertParam(env)]
  }

  /** An engine is built exactly when integrated login is asked for, or both
      CACHE_DB_USER and CACHE_DB_PASSWORD hold non-empty text; otherwise
      ValueError is raised. */
  lemma CacheBuildSucceedsIff(env: Env, quotePlus: string -> string)
    ensures GetCacheEngine(env, quotePlus).Returns? <==>
      UsesTrustedConnection(env) || (TruthyOpt(GetEnv(env, "CACHE_DB_USER")) && TruthyOpt(GetEnv(env, "CACHE_DB_PASSWORD")))
    ensures GetCacheEngine(env, quotePlus).Raised? ==> GetCacheEngine(env, quotePlus) == Raised(ValueError(AuthErrorMessage))
  {
  }

  lemma QueryIsJoin(quotedDriver: string, trusted: bool, certParam: string)
    ensures Join(if trusted then [Manager.DriverParam(quotedDriver), TrustedParam, certParam]
                 else [Manager.DriverParam(quotedDriver), certParam], '&')
         == QueryHead(quotedDriver, trusted) + certParam
  {
    if trusted {
      JoinThree(Manager.DriverParam(quotedDriver), TrustedParam, certParam, '&');
    } else {
      JoinTwo(Manager.DriverParam(quotedDriver), certParam, '&');
    }
  }

  /** The URL carries the server and database names (or "None"), credentials
      only for SQL authentication, with the user as given and the password
      encoded, and the parameters of `CacheParams`: the encoded driver (by
      default "ODBC Driver 18 for SQL Server"), "Trusted_Connection=yes" exactly
      when integrated login is asked for, and the certificate parameter. When no
      value contains a delimiter of the URL, reading it back gives exactly these
      parts. */
  lemma CacheEngineUrl(env: Env, quotePlus: string -> string)
    requires GetCacheEngine(env, quotePlus).Returns?
    ensures var parts := OdbcUrl(
        if UsesTrustedConnection(env) then None
        else Some((env["CACHE_DB_USER"], quotePlus(env["CACHE_DB_PASSWORD"]))),
        FormatOpt(GetEnv(env, "CACHE_DB_SERVER")), FormatOpt(GetEnv(env, "CACHE_DB_NAME")), CacheParams(env, quotePlus));
      var url := GetCacheEngine(env, quotePlus).value.url;
      && url == Render(parts)
      && (Delimited(parts) ==> Parse(url) == Some(parts))
  {
    CacheBuildSucceedsIff(env, quotePlus);
    QueryIsJoin(QuotedDriver(env, quotePlus), UsesTrustedConnection(env), CertParam(env));
    var parts := OdbcUrl(
        if UsesTrustedConnection(env) then None
        else Some((env["CACHE_DB_USER"], quotePlus(env["CACHE_DB_PASSWORD"]))),
        FormatOpt(GetEnv(env, "CACHE_DB_SERVER")), FormatOpt(GetEnv(env, "CACHE_DB_NAME")), CacheParams(env, quotePlus));
    if Delimited(parts) {
      ParseRender(parts);
    }
  }

  /** Without certificate trust the certificate parameter is empty, so the URL
      ends with a bare '&'; with it the URL ends with "TrustServerCertificate=yes". */
  lemma TrailingAmpersandWithoutCertTrust(env: Env, quotePlus: string -> string)
    requires GetCacheEngine(env, quotePlus).Returns?
    ensures var url := GetCacheEngine(env, quotePlus).value.url;
      && (!TrustsCert(env) ==> |url| > 0 && url[|url| - 1] == '&')
      && (TrustsCert(env) ==> EndsWith(url, Manager.TrustCertParam))
  {
    var url := GetCacheEngine(env, quotePlus).value.url;
    var c := CertParam(env);
    var credentials := if UsesTrustedConnection(env) then ""
      else GetEnv(env, "CACHE_DB_USER").value + ":" + quotePlus(GetEnv(env, "CACHE_DB_PASSWORD").value);
    var head := QueryHead(QuotedDriver(env, quotePlus), UsesTrustedConnection(env));
    var server := FormatOpt(GetEnv(env, "CACHE_DB_SERVER"));
    var db := FormatOpt(GetEnv(env, "CACHE_DB_NAME"));
    assert url == UrlText(credentials, server, db, head + c);
    UrlTextAppend(credentials, server, db, head, c);
    var prefix := UrlText(credentials, server, db, head);
    UrlTextAppend(credentials, server, db, head[..|head| - 1], "&");
    assert head[..|head| - 1] + "&" == head;
    assert prefix[|prefix| - 1] == '&';
    if !TrustsCert(env) {
      assert url == prefix;
    } else {
      assert url[|url| - |c|..] == c;
    }
  }
}

/**
 * The part of `get_source_db_connection` that runs before any driver is
 * called: credentials from the secret provider, the port parsed from the
 * connection parameters, the required fields of each source kind, and the
 * arguments of the driver call with their default ports.
 */
module Connector {
  import opened Wrappers
  import opened Text
  import opened Json

  /** The arguments of each driver's `connect` call. A field the caller left out is `JNull`. */
  datatype ConnectRequest =
    | PostgresRequest(host: Json, port: int, dbname: Json, user: Json, password: Json)
    | OracleRequest(host: Json, port: int, serviceName: Json, user: Json, password: Json)
    | TeradataRequest(host: Json, user: Json, password: Json, dbsPort: string, logonDatabase: Option<Json>)
    | DatabricksRequest(serverHostname: Json, httpPath: Json, accessToken: Json)
    | SnowflakeRequest(user: Json, password: Json, account: Json, database: Json, schema: Json,
                       warehouse: Json, role: Json)

  /**
   * What the validation part decides: no connection (`None` in the source),
   * an exception that escapes to the caller, or a driver call to make.
   */
  datatype Resolution = Rejected | Raises(message: string) | Request(request: ConnectRequest)

  const DefaultPostgresPort: int := 5432
  const DefaultOraclePort: int := 1521
  const DefaultTeradataPort: string := "1025"

  /** The outcome of `int(port_str)` when `port_str` is truthy. */
  datatype PortParse = NoPort | Port(value: int) | BadPort | PortTypeError(typeName: string)

  /**
   * `port = int(port_str) if port_str else None`: text is parsed, an int
   * (or `True`) is taken as it is, text that is not a number is the
   * `ValueError` the source turns into `None` and a list or dict is a
   * `TypeError` that escapes.
   */
  function ParsePort(portValue: Json): (r: PortParse)
    ensures !Truthy(portValue) <==> r == NoPort
    ensures portValue.JStr? && portValue.s != "" ==> r == (if ParseInt(portValue.s).Some? then Port(ParseInt(portValue.s).value) else BadPort)
    ensures r.PortTypeError? <==> Truthy(portValue) && (portValue.JArr? || portValue.JObj?)
  {
    if !Truthy(portValue) then NoPort
    else
      match portValue
      case JInt(i) => Port(i)
      case JBool(_) => Port(1)
      case JStr(s) => (match ParseInt(s) case Some(n) => Port(n) case None => BadPort)
      case _ => PortTypeError(TypeName(portValue))
  }

  /** `int([...])` and `int({...})`: the message of the `TypeError`. */
  function PortTypeErrorText(typeName: string): string
  {
    "int() argument must be a string, a bytes-like object or a real number, not '" + typeName + "'"
  }

  predicate IsSupportedKind(dbType: string)
  {
    dbType == "postgresql" || dbType == "oracle" || dbType == "teradata" || dbType == "databricks"
    || dbType == "snowflake"
  }

  /** The Snowflake account: from the credentials when truthy there, else from the parameters. */
  function ValidatedAccount(params: Fields, creds: Fields): Json
  {
    var account := GetOr(creds, "account", JNull);
    if Truthy(account) then account else GetOr(params, "account", JNull)
  }

  /** The fields each kind requires, all truthy. */
  predicate HasRequiredFields(dbType: string, params: Fields, creds: Fields)
  {
    if dbType == "databricks" then
      Truthy(GetOr(creds, "token", JNull)) && Truthy(GetOr(params, "host", JNull)) && Truthy(GetOr(params, "http_path", JNull))
    else if dbType == "snowflake" then
      Truthy(GetOr(creds, "username", JNull)) && Truthy(GetOr(creds, "password", JNull))
      && Truthy(ValidatedAccount(params, creds)) && Truthy(GetOr(params, "database", JNull))
    else
      Truthy(GetOr(creds, "username", JNull)) && Truthy(GetOr(creds, "password", JNull))
      && Truthy(GetOr(params, "host", JNull)) && Truthy(GetOr(params, "database", JNull))
  }

  /**
   * The validation part of `get_source_db_connection`, with the Snowflake
   * account passed to the driver chosen by `account`: `credentials` is what
   * the secret provider returned (`None` for its `ValueError`).
   */
  function Resolve(dbType: string, params: Fields, credentials: Option<Fields>,
                   account: (Fields, Fields) -> Json): Resolution
  {
    if credentials.None? then Rejected
    else
      var creds := credentials.value;
      var user := GetOr(creds, "username", JNull);
      var password := GetOr(creds, "password", JNull);
      var token := GetOr(creds, "token", JNull);
      var host := GetOr(params, "host", JNull);
      var database := GetOr(params, "database", JNull);
      match ParsePort(GetOr(params, "port", JNull))
      case BadPort => Rejected
      case PortTypeError(t) => Raises(PortTypeErrorText(t))
      case _ =>
        var port := ParsePort(GetOr(params, "port", JNull));
        if !HasRequiredFields(dbType, params, creds) then Rejected
        else if dbType == "postgresql" then
          Request(PostgresRequest(host, if port.Port? then port.value else DefaultPostgresPort, database, user, password))
        else if dbType == "oracle" then
          if !Truthy(database) then Rejected
          else Request(OracleRequest(host, if port.Port? then port.value else DefaultOraclePort, database, user, password))
        else if dbType == "teradata" then
          Request(TeradataRequest(host, user, password,
            if port.Port? then IntToString(port.value) else DefaultTeradataPort,
            if Truthy(database) then Some(database) else None))
        else if dbType == "databricks" then
          Request(DatabricksRequest(host, GetOr(params, "http_path", JNull), token))
        else if dbType == "snowflake" then
          Request(SnowflakeRequest(user, password, account(params, creds), database,
            GetOr(params, "schema", JNull), GetOr(params, "warehouse", JNull), GetOr(params, "role", JNull)))
        else Rejected
  }

  /** `credentials.get('account', connection_params.get('account'))`, the account the source passes. */
  function AccountAsWritten(params: Fields, creds: Fields): Json
  {
    if HasKey(creds, "account") then Get(creds, "account").value else GetOr(params, "account", JNull)
  }

  /**
   * The source as written: the same validation, with the driver given the
   * credentials' `account` whenever the key exists.
   */
  function ResolveConnectionAsWritten(dbType: string, params: Fields, credentials: Option<Fields>): (r: Resolution)
    ensures r.Request? <==> (credentials.Some? && IsSupportedKind(dbType)
      && (ParsePort(GetOr(params, "port", JNull)).NoPort? || ParsePort(GetOr(params, "port", JNull)).Port?)
      && HasRequiredFields(dbType, params, credentials.value))
    ensures r.Raises? <==> credentials.Some? && ParsePort(GetOr(params, "port", JNull)).PortTypeError?
    ensures r.Request? && dbType == "snowflake" ==>
      r.request.SnowflakeRequest? && r.request.account == AccountAsWritten(params, credentials.value)
  {
    Resolve(dbType, params, credentials, AccountAsWritten)
  }

  /**
   * The validation part of `get_source_db_connection`, with the driver
   * given the account that was validated. This is the definition the rest
   * of the model uses.
   */
  function ResolveConnection(dbType: string, params: Fields, credentials: Option<Fields>): (r: Resolution)
    ensures r.Request? <==> (credentials.Some? && IsSupportedKind(dbType)
      && (ParsePort(GetOr(params, "port", JNull)).NoPort? || ParsePort(GetOr(params, "port", JNull)).Port?)
      && HasRequiredFields(dbType, params, credentials.value))
    ensures r.Raises? <==> credentials.Some? && ParsePort(GetOr(params, "port", JNull)).PortTypeError?
    ensures r.Request? ==> match r.request
      case PostgresRequest(_, _, _, _, _) => dbType == "postgresql"
      case OracleRequest(_, _, _, _, _) => dbType == "oracle"
      case TeradataRequest(_, _, _, _, _) => dbType == "teradata"
      case DatabricksRequest(_, _, _) => dbType == "databricks"
      case SnowflakeRequest(_, _, _, _, _, _, _) => dbType == "snowflake"
  {
    Resolve(dbType, params, credentials, ValidatedAccount)
  }

  /** Whatever the kind, a port that is text but not a number stops the connection before any driver call. */
  lemma BadPortRejected(dbType: string, params: Fields, credentials: Option<Fields>)
    requires GetOr(params, "port", JNull).JStr? && GetOr(params, "port", JNull).s != ""
    requires ParseInt(GetOr(params, "port", JNull).s).None?
    ensures ResolveConnection(dbType, params, credentials) == Rejected
  {
  }

  /** With no port given, each driver gets its kind's default port. */
  lemma DefaultPorts(dbType: string, params: Fields, creds: Fields)
    requires !Truthy(GetOr(params, "port", JNull))
    requires HasRequiredFields(dbType, params, creds)
    ensures dbType == "postgresql" ==> ResolveConnection(dbType, params, Some(creds)).request.port == 5432
    ensures dbType == "oracle" ==> ResolveConnection(dbType, params, Some(creds)).request.port == 1521
    ensures dbType == "teradata" ==> ResolveConnection(dbType, params, Some(creds)).request.dbsPort == "1025"
  {
  }

  /** A port given as the decimal text of a number reaches the driver as that number (as that text for Teradata). */
  lemma PortTextReadsBack(dbType: string, params: Fields, creds: Fields, n: int)
    requires GetOr(params, "port", JNull) == JStr(IntToString(n))
    requires HasRequiredFields(dbType, params, creds)
    ensures dbType == "postgresql" ==> ResolveConnection(dbType, params, Some(creds)).request.port == n
    ensures dbType == "oracle" ==> ResolveConnection(dbType, params, Some(creds)).request.port == n
    ensures dbType == "teradata" ==> ResolveConnection(dbType, params, Some(creds)).request.dbsPort == IntToString(n)
  {
    ParseIntOfIntToString(n);
    assert IntToString(n) != "" by {
      if n < 0 {
        assert IntToString(n)[0] == '-';
      } else {
        assert |NatToString(n)| > 0;
      }
    }
  }

  /** The Snowflake driver is given an account that passed validation. */
  lemma SnowflakeAccountValidated(params: Fields, creds: Fields)
    requires ResolveConnection("snowflake", params, Some(creds)).Request?
    ensures Truthy(ResolveConnection("snowflake", params, Some(creds)).request.account)
  {
  }

  /**
   * The source as written and the corrected resolver make the same decision
   * and the same driver call, except for the Snowflake account; they differ
   * only when the credentials hold an `account` that is falsy.
   */
  lemma AccountChoicesAgree(dbType: string, params: Fields, credentials: Option<Fields>)
    ensures var written := ResolveConnectionAsWritten(dbType, params, credentials);
      var corrected := ResolveConnection(dbType, params, credentials);
      && (written.Request? <==> corrected.Request?)
      && (!(written.Request? && dbType == "snowflake") ==> written == corrected)
      && (written.Request? && dbType == "snowflake" ==>
            written.request == corrected.request.(account := AccountAsWritten(params, credentials.value)))
      && (credentials.None? || !HasKey(credentials.value, "account") || Truthy(Get(credentials.value, "account").value)
          ==> written == corrected)
  {
  }

  /**
   * As written, credentials holding an empty `account` pass validation on
   * the parameters' account, and the driver is then given the empty one.
   */
  lemma SnowflakeAccountAsWrittenMismatch()
    ensures var creds := [("username", JStr("u")), ("password", JStr("p")), ("account", JStr(""))];
      var params := [("account", JStr("acme")), ("database", JStr("db"))];
      && ResolveConnectionAsWritten("snowflake", params, Some(creds)).Request?
      && ResolveConnectionAsWritten("snowflake", params, Some(creds)).request.account == JStr("")
      && ResolveConnection("snowflake", params, Some(creds)).request.account == JStr("acme")
  {
    var creds := [("username", JStr("u")), ("password", JStr("p")), ("account", JStr(""))];
    var params := [("account", JStr("acme")), ("database", JStr("db"))];
    assert Keys(creds) == ["username", "password", "account"];
    assert Get(creds, "username") == Some(JStr("u"));
    assert Get(creds, "password") == Some(JStr("p"));
    assert Get(creds, "account") == Some(JStr(""));
    assert Get(params, "account") == Some(JStr("acme"));
    assert Get(params, "database") == Some(JStr("db"));
    assert Get(params, "port") == None;
  }
}

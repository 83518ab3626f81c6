/**
 * `analyze_database_sp`: parse the connection parameters, resolve them
 * into a driver call, count the catalog objects and always close the
 * connection that was opened. The secret provider and the drivers are
 * parameters: `secrets` answers the credentials for a secret name and a
 * kind (`None` for the `ValueError` the source turns into no connection),
 * and `connect` answers an open catalog or `None` when the driver fails.
 */
module Analyze {
  import opened Wrappers
  import opened Json
  import opened Connector
  import opened ObjectCounter

  const InvalidJsonPrefix: string := "Invalid JSON: "
  const UnexpectedPrefix: string := "Unexpected error in SP: "
  const CountErrorPrefix: string := "Error fetching object counts: "

  function ConnectFailureMessage(sourceType: string): string
  {
    "Failed to connect to source database: " + sourceType + "."
  }

  type Secrets = (Json, string) -> Option<Fields>
  type Driver = ConnectRequest -> Option<Catalog>

  /** How far the procedure gets before counting: an early answer, or an open connection and the names to count. */
  datatype Stage =
    | Answered(output: Json)
    | Connected(catalog: Catalog, dbName: Json, schemaName: Json)

  /** Parsing, name extraction and connecting, in the source's order. */
  function ConnectStage(sourceType: string, connectionText: Parsed, secrets: Secrets, connect: Driver): Stage
  {
    match connectionText
    case Malformed(detail) => Answered(ErrorObject(InvalidJsonPrefix + detail))
    case Parsed(value) =>
      if !value.JObj? then Answered(ErrorObject(UnexpectedPrefix + NoAttribute(value, "get")))
      else
        var params := value.fields;
        var credentials := secrets(GetOr(params, "secret_name", JNull), sourceType);
        match ResolveConnection(sourceType, params, credentials)
        case Raises(m) => Answered(ErrorObject(UnexpectedPrefix + m))
        case Rejected => Answered(ErrorObject(ConnectFailureMessage(sourceType)))
        case Request(request) =>
          match connect(request)
          case None => Answered(ErrorObject(ConnectFailureMessage(sourceType)))
          case Some(catalog) => Connected(catalog, GetOr(params, "database", JNull), GetOr(params, "schema", JNull))
  }

  /** Whether the procedure ever holds an open connection. */
  predicate Opens(sourceType: string, connectionText: Parsed, secrets: Secrets, connect: Driver)
  {
    ConnectStage(sourceType, connectionText, secrets, connect).Connected?
  }

  /** The JSON the procedure returns. */
  function AnalysisOutput(sourceType: string, connectionText: Parsed, secrets: Secrets, connect: Driver): Json
  {
    match ConnectStage(sourceType, connectionText, secrets, connect)
    case Answered(output) => output
    case Connected(catalog, dbName, schemaName) =>
      var counted := CountObjects(Some(catalog), sourceType, dbName, schemaName);
      if counted.error.Some? then ErrorObject(CountErrorPrefix + counted.error.value) else counted.ToJson()
  }

  /** The body of the `try`: the answer, and the connection the `finally` has to close. */
  method Attempt(sourceType: string, connectionText: Parsed, secrets: Secrets, connect: Driver)
    returns (output: Json, connection: Option<Catalog>)
    ensures output == AnalysisOutput(sourceType, connectionText, secrets, connect)
    ensures connection.Some? <==> Opens(sourceType, connectionText, secrets, connect)
  {
    connection := None;
    if connectionText.Malformed? {
      return ErrorObject(InvalidJsonPrefix + connectionText.detail), connection;
    }
    var value := connectionText.value;
    if !value.JObj? {
      return ErrorObject(UnexpectedPrefix + NoAttribute(value, "get")), connection;
    }
    var params := value.fields;
    var dbName := GetOr(params, "database", JNull);
    var schemaName := GetOr(params, "schema", JNull);
    var resolution := ResolveConnection(sourceType, params, secrets(GetOr(params, "secret_name", JNull), sourceType));
    if resolution.Raises? {
      return ErrorObject(UnexpectedPrefix + resolution.message), connection;
    }
    if resolution.Request? {
      connection := connect(resolution.request);
    }
    if connection.None? {
      return ErrorObject(ConnectFailureMessage(sourceType)), connection;
    }
    assert ConnectStage(sourceType, connectionText, secrets, connect) == Connected(connection.value, dbName, schemaName);
    var counted := FetchObjectCounts(connection, sourceType, dbName, schemaName);
    if counted.error.Some? {
      return ErrorObject(CountErrorPrefix + counted.error.value), connection;
    }
    output := counted.ToJson();
  }

  /**
   * `analyze_database_sp`: the answer of the procedure, and how many times
   * it closes a connection. A `conn.close()` that raises is only logged, so
   * it changes neither.
   */
  method AnalyzeDatabase(sourceType: string, connectionText: Parsed, secrets: Secrets, connect: Driver)
    returns (output: Json, closes: nat)
    ensures output == AnalysisOutput(sourceType, connectionText, secrets, connect)
    ensures closes == if Opens(sourceType, connectionText, secrets, connect) then 1 else 0
  {
    var connection;
    output, connection := Attempt(sourceType, connectionText, secrets, connect);
    closes := 0;
    if connection.Some? {
      closes := closes + 1;
    }
  }

  // ---------------------------------------------------------------------
  // Properties
  // ---------------------------------------------------------------------

  /** Text that is not JSON gives the parse error, and no connection is attempted. */
  lemma InvalidJsonAnswer(sourceType: string, detail: string, secrets: Secrets, connect: Driver)
    ensures AnalysisOutput(sourceType, Malformed(detail), secrets, connect) == ErrorObject(InvalidJsonPrefix + detail)
    ensures !Opens(sourceType, Malformed(detail), secrets, connect)
  {
  }

  /** Parameters the resolver rejects, or a driver that fails, give the connect error and no open connection. */
  lemma ConnectFailureAnswer(sourceType: string, params: Fields, secrets: Secrets, connect: Driver)
    requires var r := ResolveConnection(sourceType, params, secrets(GetOr(params, "secret_name", JNull), sourceType));
      r.Rejected? || (r.Request? && connect(r.request).None?)
    ensures AnalysisOutput(sourceType, Parsed(JObj(params)), secrets, connect) == ErrorObject(ConnectFailureMessage(sourceType))
    ensures !Opens(sourceType, Parsed(JObj(params)), secrets, connect)
  {
  }

  /**
   * Once connected, a count result carrying `error` becomes an error-only
   * object (its partial counts dropped), and any other count result is
   * returned as it is; the counter is given the `database` and `schema`
   * fields of the parameters.
   */
  lemma CountOutcome(sourceType: string, params: Fields, secrets: Secrets, connect: Driver)
    requires Opens(sourceType, Parsed(JObj(params)), secrets, connect)
    ensures var catalog := ConnectStage(sourceType, Parsed(JObj(params)), secrets, connect).catalog;
      var counted := CountObjects(Some(catalog), sourceType, GetOr(params, "database", JNull), GetOr(params, "schema", JNull));
      var output := AnalysisOutput(sourceType, Parsed(JObj(params)), secrets, connect);
      && (counted.error.Some? ==> output == JObj([("error", JStr(CountErrorPrefix + counted.error.value))]))
      && (counted.error.None? ==> output == counted.ToJson() && Get(output.fields, "total_objects").Some?)
  {
    var catalog := ConnectStage(sourceType, Parsed(JObj(params)), secrets, connect).catalog;
    var counted := CountObjects(Some(catalog), sourceType, GetOr(params, "database", JNull), GetOr(params, "schema", JNull));
    ResultShape(counted);
  }

  /** Every answer of the procedure is a JSON object; it carries `error` on every path that does not reach a clean count. */
  lemma AnswerIsObject(sourceType: string, connectionText: Parsed, secrets: Secrets, connect: Driver)
    ensures AnalysisOutput(sourceType, connectionText, secrets, connect).JObj?
    ensures !Opens(sourceType, connectionText, secrets, connect) ==>
      HasKey(AnalysisOutput(sourceType, connectionText, secrets, connect).fields, "error")
  {
    var output := AnalysisOutput(sourceType, connectionText, secrets, connect);
    if !Opens(sourceType, connectionText, secrets, connect) {
      assert Get(output.fields, "error").Some?;
    }
  }
}

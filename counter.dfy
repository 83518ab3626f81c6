/**
 * `fetch_object_counts`: the catalog queries of each source kind, the
 * running totals and the per-schema summary. The open connection is a
 * `Catalog` whose queries are oracles that answer a number (or a list of
 * schema names) or raise; the SQL text of the queries is not modelled, only
 * which counter each answer feeds.
 */
module ObjectCounter {
  import opened Wrappers
  import opened Text
  import opened Json

  datatype Field = Tables | Views | Procedures | Functions

  /** A counts record, `{"tables": …, "views": …, "procedures": …, "functions": …}`. */
  datatype Tally = Tally(tables: nat, views: nat, procedures: nat, functions: nat)
  {
    function Get(f: Field): nat
    {
      match f
      case Tables => tables
      case Views => views
      case Procedures => procedures
      case Functions => functions
    }

    /** `counts[f] = v` */
    function With(f: Field, v: nat): (r: Tally)
      ensures r.Get(f) == v
      ensures forall g :: g != f ==> r.Get(g) == Get(g)
    {
      match f
      case Tables => this.(tables := v)
      case Views => this.(views := v)
      case Procedures => this.(procedures := v)
      case Functions => this.(functions := v)
    }

    function Plus(other: Tally): (r: Tally)
      ensures forall f :: r.Get(f) == Get(f) + other.Get(f)
    {
      Tally(tables + other.tables, views + other.views, procedures + other.procedures, functions + other.functions)
    }

    function ToJson(): Fields
    {
      [("tables", JInt(tables)), ("views", JInt(views)), ("procedures", JInt(procedures)),
       ("functions", JInt(functions))]
    }
  }

  const Zero: Tally := Tally(0, 0, 0, 0)

  /** What the counter answers when it is given no connection at all. */
  const MockTally: Tally := Tally(10, 5, 2, 3)

  /** One entry of `schemas_summary`: `{"name": …, **counts}`. */
  datatype SummaryEntry = SummaryEntry(name: Json, counts: Tally)

  /** The dict `fetch_object_counts` returns. */
  datatype CountResult = CountResult(totals: Tally, summary: seq<SummaryEntry>, error: Option<string>)
  {
    function ToJson(): Json
    {
      var entries := seq(|summary|, i requires 0 <= i < |summary| =>
        JObj([("name", summary[i].name)] + summary[i].counts.ToJson()));
      JObj([("total_objects", JObj(totals.ToJson())), ("schemas_summary", JArr(entries))]
        + (if error.Some? then [("error", JStr(error.value))] else []))
    }
  }

  /** The field-wise sum of the summary entries. */
  function SumOf(summary: seq<SummaryEntry>): Tally
  {
    if |summary| == 0 then Zero else SumOf(summary[..|summary| - 1]).Plus(summary[|summary| - 1].counts)
  }

  datatype Reply<T> = Answer(value: T) | Raised(message: string)

  /** Who a count query is about: a schema, database or owner by name, or a Snowflake catalog with an optional schema. */
  datatype Target = Named(name: string) | Scoped(catalog: string, schema: Option<string>)

  /** The Oracle current-schema lookup: a value (possibly NULL), a driver error, which is swallowed, or any other failure. */
  datatype SchemaReply = Current(schema: Option<string>) | OracleError(message: string) | Failure(message: string)

  /** An open connection, as far as counting goes. */
  datatype Catalog = Catalog(
    cursorFailure: Option<string>,                    // `connection.cursor()` raising
    listSchemas: Option<string> -> Reply<seq<string>>, // the PostgreSQL schema listing, optionally filtered to one name
    count: (Target, Field) -> Reply<nat>,              // one `SELECT COUNT(*)` and its `fetchone()[0]`
    currentSchema: SchemaReply)

  const PostgresOrder: seq<Field> := [Tables, Views, Functions, Procedures]
  const TeradataOrder: seq<Field> := [Tables, Views, Procedures, Functions]
  const DatabricksOrder: seq<Field> := [Tables, Views, Functions, Procedures]
  const OracleOrder: seq<Field> := [Tables, Views, Procedures, Functions]
  const SnowflakeOrder: seq<Field> := [Tables, Views, Procedures, Functions]

  const TeradataMissing: string := "Database/Schema name is required for Teradata."
  const DatabricksMissing: string := "Schema (Database) name is required for Databricks."
  const OracleMissing: string := "Schema name required for Oracle object counting and could not be derived."
  const SnowflakeMissing: string := "Database (Catalog) name required for Snowflake."

  function NotImplemented(dbType: string): string
  {
    "Object counting not implemented for " + dbType + "."
  }

  /** The `AttributeError` of calling a string method on a value that is not a string. */
  function NoAttribute(value: Json, attribute: string): string
  {
    "'" + TypeName(value) + "' object has no attribute '" + attribute + "'"
  }

  // ---------------------------------------------------------------------
  // Specification
  // ---------------------------------------------------------------------

  /**
   * The queries of `order`, each storing its answer into its field of
   * `counts`, until one raises: the counts reached and the message, if any.
   */
  function Run(catalog: Catalog, target: Target, order: seq<Field>, counts: Tally): (Tally, Option<string>)
    decreases |order|
  {
    if |order| == 0 then (counts, None)
    else
      match catalog.count(target, order[0])
      case Raised(m) => (counts, Some(m))
      case Answer(v) => Run(catalog, target, order[1..], counts.With(order[0], v))
  }

  /** The counts of one target when all four queries answer: each field holds its own query's answer. */
  function Answers(catalog: Catalog, target: Target): Option<Tally>
  {
    match (catalog.count(target, Tables), catalog.count(target, Views),
           catalog.count(target, Procedures), catalog.count(target, Functions))
    case (Answer(t), Answer(v), Answer(p), Answer(f)) => Some(Tally(t, v, p, f))
    case _ => None
  }

  /** The schemas of `names` in order, up to the first one whose queries raise. */
  function PostgresScan(catalog: Catalog, names: seq<string>, aggregate: bool): CountResult
  {
    if |names| == 0 then CountResult(Zero, [], None)
    else
      var earlier := PostgresScan(catalog, names[..|names| - 1], aggregate);
      if earlier.error.Some? then earlier
      else
        var name := names[|names| - 1];
        var (schemaCounts, failure) := Run(catalog, Named(name), PostgresOrder, Zero);
        if failure.Some? then earlier.(error := failure)
        else
          CountResult(if aggregate then earlier.totals.Plus(schemaCounts) else schemaCounts,
                      earlier.summary + [SummaryEntry(JStr(name), schemaCounts)], None)
  }

  function PostgresCounts(catalog: Catalog, schema: Option<string>): CountResult
  {
    match catalog.listSchemas(if schema.Some? then Some(Lower(schema.value)) else None)
    case Raised(m) => CountResult(Zero, [], Some(m))
    case Answer(names) =>
      if |names| == 0 then CountResult(Zero, [], None)
      else PostgresScan(catalog, names, schema.None? || |names| > 1)
  }

  /** One target counted field by field; the summary gets its entry only once all four answered. */
  function SingleTarget(catalog: Catalog, target: Target, name: Json, order: seq<Field>): CountResult
  {
    var (counts, failure) := Run(catalog, target, order, Zero);
    CountResult(counts, if failure.None? then [SummaryEntry(name, counts)] else [], failure)
  }

  /** The Oracle owner: the given schema, else the current schema; both upper-cased. */
  function OracleOwner(catalog: Catalog, schema: Option<string>): Result<Option<string>, string>
  {
    if schema.Some? then Ok(Some(Upper(schema.value)))
    else
      match catalog.currentSchema
      case OracleError(_) => Ok(None)
      case Failure(m) => Err(m)
      case Current(s) => Ok(if s.Some? && s.value != "" then Some(Upper(s.value)) else None)
  }

  function SnowflakeSummaryName(catalog: string, schema: Option<string>): string
  {
    catalog + if schema.Some? then "." + schema.value else " (all schemas)"
  }

  /** `fetch_object_counts`, as a function of the connection and the names. */
  function CountObjects(connection: Option<Catalog>, dbType: string, dbName: Json, schemaName: Json): CountResult
  {
    if connection.None? then CountResult(MockTally, [], None)
    else
      var catalog := connection.value;
      if catalog.cursorFailure.Some? then CountResult(Zero, [], catalog.cursorFailure)
      else if Truthy(schemaName) && !schemaName.JStr? then CountResult(Zero, [], Some(NoAttribute(schemaName, "upper")))
      else
        var schema: Option<string> := if Truthy(schemaName) then Some(schemaName.s) else None;
        var fallback := if Truthy(schemaName) then schemaName else dbName;
        if dbType == "postgresql" then PostgresCounts(catalog, schema)
        else if dbType == "teradata" then
          if !Truthy(fallback) then CountResult(Zero, [], Some(TeradataMissing))
          else SingleTarget(catalog, Named(PyStr(fallback)), fallback, TeradataOrder)
        else if dbType == "databricks" then
          if !Truthy(fallback) then CountResult(Zero, [], Some(DatabricksMissing))
          else SingleTarget(catalog, Named(PyStr(fallback)), fallback, DatabricksOrder)
        else if dbType == "oracle" then
          match OracleOwner(catalog, schema)
          case Err(m) => CountResult(Zero, [], Some(m))
          case Ok(None) => CountResult(Zero, [], Some(OracleMissing))
          case Ok(Some(owner)) => SingleTarget(catalog, Named(owner), JStr(owner), OracleOrder)
        else if dbType == "snowflake" then
          if !Truthy(dbName) then CountResult(Zero, [], Some(SnowflakeMissing))
          else
            var upperSchema := if schema.Some? then Some(Upper(schema.value)) else None;
            SingleTarget(catalog, Scoped(PyStr(dbName), upperSchema),
                         JStr(SnowflakeSummaryName(PyStr(dbName), upperSchema)), SnowflakeOrder)
        else CountResult(Zero, [], Some(NotImplemented(dbType)))
  }

  // ---------------------------------------------------------------------
  // The imperative counter
  // ---------------------------------------------------------------------

  /** The four count queries of one target, each storing its answer before the next is issued. */
  method RunQueries(catalog: Catalog, target: Target, order: seq<Field>, start: Tally)
    returns (counts: Tally, failure: Option<string>)
    ensures (counts, failure) == Run(catalog, target, order, start)
  {
    counts := start;
    var k := 0;
    while k < |order|
      invariant 0 <= k <= |order|
      invariant Run(catalog, target, order, start) == Run(catalog, target, order[k..], counts)
    {
      assert order[k..][1..] == order[k + 1..];
      var reply := catalog.count(target, order[k]);
      if reply.Raised? {
        return counts, Some(reply.message);
      }
      counts := counts.With(order[k], reply.value);
      k := k + 1;
    }
    failure := None;
  }

  /** The PostgreSQL branch: list the schemas, then count them one by one into the totals and the summary. */
  method ScanPostgres(catalog: Catalog, schema: Option<string>) returns (result: CountResult)
    ensures result == PostgresCounts(catalog, schema)
  {
    var counts := Zero;
    var summary: seq<SummaryEntry> := [];
    var listing := catalog.listSchemas(if schema.Some? then Some(Lower(schema.value)) else None);
    if listing.Raised? {
      return CountResult(counts, summary, Some(listing.message));
    }
    var names := listing.value;
    if |names| == 0 {
      return CountResult(counts, summary, None);
    }
    var aggregate := schema.None? || |names| > 1;
    var i := 0;
    assert names[..0] == [];
    while i < |names|
      invariant 0 <= i <= |names|
      invariant PostgresScan(catalog, names[..i], aggregate) == CountResult(counts, summary, None)
    {
      assert names[..i + 1][..i] == names[..i];
      var schemaCounts, failure := RunQueries(catalog, Named(names[i]), PostgresOrder, Zero);
      if failure.Some? {
        PostgresScanStops(catalog, names, aggregate, i + 1);
        return CountResult(counts, summary, failure);
      }
      summary := summary + [SummaryEntry(JStr(names[i]), schemaCounts)];
      if aggregate {
        counts := counts.Plus(schemaCounts);
      } else {
        counts := schemaCounts;
      }
      i := i + 1;
    }
    assert names[..i] == names;
    result := CountResult(counts, summary, None);
  }

  /** The Teradata, Databricks, Oracle and Snowflake branches once the target is known. */
  method CountTarget(catalog: Catalog, target: Target, name: Json, order: seq<Field>) returns (result: CountResult)
    ensures result == SingleTarget(catalog, target, name, order)
  {
    var counts, failure := RunQueries(catalog, target, order, Zero);
    if failure.Some? {
      return CountResult(counts, [], failure);
    }
    result := CountResult(counts, [SummaryEntry(name, counts)], None);
  }

  /** The Oracle owner, with the current-schema lookup and its `oracledb.Error` handler. */
  method DeriveOracleOwner(catalog: Catalog, schema: Option<string>) returns (owner: Result<Option<string>, string>)
    ensures owner == OracleOwner(catalog, schema)
  {
    var target: Option<string> := if schema.Some? then Some(Upper(schema.value)) else None;
    if target.None? {
      match catalog.currentSchema {
        case OracleError(_) =>
        case Failure(m) =>
          return Err(m);
        case Current(s) =>
          if s.Some? && s.value != "" {
            target := Some(Upper(s.value));
          }
      }
    }
    owner := Ok(target);
  }

  /**
   * `fetch_object_counts`: the mock answer without a connection; else the
   * counts of the kind's catalog, with `error` set by a missing name, an
   * unsupported kind or any query that raises.
   */
  method FetchObjectCounts(connection: Option<Catalog>, dbType: string, dbName: Json, schemaName: Json)
    returns (result: CountResult)
    ensures result == CountObjects(connection, dbType, dbName, schemaName)
  {
    if connection.None? {
      return CountResult(MockTally, [], None);
    }
    var catalog := connection.value;
    if catalog.cursorFailure.Some? {
      return CountResult(Zero, [], catalog.cursorFailure);
    }
    if Truthy(schemaName) && !schemaName.JStr? {
      return CountResult(Zero, [], Some(NoAttribute(schemaName, "upper")));
    }
    var schema: Option<string> := if Truthy(schemaName) then Some(schemaName.s) else None;
    var fallback := if Truthy(schemaName) then schemaName else dbName;

    if dbType == "postgresql" {
      result := ScanPostgres(catalog, schema);
    } else if dbType == "teradata" {
      if !Truthy(fallback) {
        return CountResult(Zero, [], Some(TeradataMissing));
      }
      result := CountTarget(catalog, Named(PyStr(fallback)), fallback, TeradataOrder);
    } else if dbType == "databricks" {
      if !Truthy(fallback) {
        return CountResult(Zero, [], Some(DatabricksMissing));
      }
      result := CountTarget(catalog, Named(PyStr(fallback)), fallback, DatabricksOrder);
    } else if dbType == "oracle" {
      var owner := DeriveOracleOwner(catalog, schema);
      if owner.Err? {
        return CountResult(Zero, [], Some(owner.error));
      }
      if owner.value.None? {
        return CountResult(Zero, [], Some(OracleMissing));
      }
      result := CountTarget(catalog, Named(owner.value.value), JStr(owner.value.value), OracleOrder);
    } else if dbType == "snowflake" {
      if !Truthy(dbName) {
        return CountResult(Zero, [], Some(SnowflakeMissing));
      }
      var upperSchema := if schema.Some? then Some(Upper(schema.value)) else None;
      result := CountTarget(catalog, Scoped(PyStr(dbName), upperSchema),
                            JStr(SnowflakeSummaryName(PyStr(dbName), upperSchema)), SnowflakeOrder);
    } else {
      result := CountResult(Zero, [], Some(NotImplemented(dbType)));
    }
  }

  // ---------------------------------------------------------------------
  // Properties
  // ---------------------------------------------------------------------

  /** Once a schema has raised, the later schemas are not queried. */
  lemma {:induction false} PostgresScanStops(catalog: Catalog, names: seq<string>, aggregate: bool, i: nat)
    requires i <= |names| && PostgresScan(catalog, names[..i], aggregate).error.Some?
    ensures PostgresScan(catalog, names, aggregate) == PostgresScan(catalog, names[..i], aggregate)
    decreases |names| - i
  {
    if i < |names| {
      assert names[..i + 1][..i] == names[..i];
      PostgresScanStops(catalog, names, aggregate, i + 1);
    } else {
      assert names[..i] == names;
    }
  }

  lemma SumOfAppend(summary: seq<SummaryEntry>, entry: SummaryEntry)
    ensures SumOf(summary + [entry]) == SumOf(summary).Plus(entry.counts)
  {
    assert (summary + [entry])[..|summary|] == summary;
  }

  /**
   * The PostgreSQL totals are the field-wise sum of the summary entries
   * after every schema, and so also when a schema raises part-way.
   */
  lemma {:induction false} PostgresTotalsAreSummarySum(catalog: Catalog, names: seq<string>, aggregate: bool)
    requires aggregate || |names| <= 1
    ensures var r := PostgresScan(catalog, names, aggregate); r.totals == SumOf(r.summary)
  {
    if |names| > 0 {
      var front := names[..|names| - 1];
      PostgresTotalsAreSummarySum(catalog, front, aggregate);
      var earlier := PostgresScan(catalog, front, aggregate);
      var (schemaCounts, failure) := Run(catalog, Named(names[|names| - 1]), PostgresOrder, Zero);
      if earlier.error.None? && failure.None? {
        SumOfAppend(earlier.summary, SummaryEntry(JStr(names[|names| - 1]), schemaCounts));
        if !aggregate {
          assert earlier == CountResult(Zero, [], None);
          assert SumOf([]).Plus(schemaCounts) == schemaCounts;
        }
      }
    }
  }

  /** Every PostgreSQL path, listing failures and empty listings included, keeps totals equal to the summary's sum. */
  lemma PostgresTotalsInvariant(catalog: Catalog, dbName: Json, schemaName: Json)
    ensures var r := CountObjects(Some(catalog), "postgresql", dbName, schemaName); r.totals == SumOf(r.summary)
  {
    var schema: Option<string> := if Truthy(schemaName) && schemaName.JStr? then Some(schemaName.s) else None;
    var listing := catalog.listSchemas(if schema.Some? then Some(Lower(schema.value)) else None);
    if listing.Answer? && |listing.value| > 0 {
      PostgresTotalsAreSummarySum(catalog, listing.value, schema.None? || |listing.value| > 1);
    }
  }

  /**
   * The summary has one entry per schema scanned, in listing order, named
   * after it and holding that schema's four answers; with no error every
   * listed schema is there.
   */
  lemma {:induction false} PostgresSummaryFollowsListing(catalog: Catalog, names: seq<string>, aggregate: bool)
    ensures var r := PostgresScan(catalog, names, aggregate);
      && |r.summary| <= |names|
      && (r.error.None? ==> |r.summary| == |names|)
      && forall j :: 0 <= j < |r.summary| ==>
           r.summary[j].name == JStr(names[j]) && Some(r.summary[j].counts) == Answers(catalog, Named(names[j]))
  {
    if |names| > 0 {
      var front := names[..|names| - 1];
      PostgresSummaryFollowsListing(catalog, front, aggregate);
      var name := names[|names| - 1];
      var (schemaCounts, failure) := Run(catalog, Named(name), PostgresOrder, Zero);
      if failure.None? {
        RunAnswers(catalog, Named(name), PostgresOrder);
      }
    }
  }

  /** Query `k` of `order` is the first one that raises. */
  predicate FirstRaiseAt(catalog: Catalog, target: Target, order: seq<Field>, k: nat)
  {
    k < |order| && (forall j :: 0 <= j < k ==> catalog.count(target, order[j]).Answer?)
    && catalog.count(target, order[k]).Raised?
  }

  /** Each of the first `k` queries has stored its answer, and every other field still holds its value in `start`. */
  predicate KeepsEarlier(catalog: Catalog, target: Target, order: seq<Field>, k: nat, start: Tally, counts: Tally)
  {
    k <= |order|
    && (forall j :: 0 <= j < k && catalog.count(target, order[j]).Answer? ==>
          counts.Get(order[j]) == catalog.count(target, order[j]).value)
    && (forall f :: f !in order[..k] ==> counts.Get(f) == start.Get(f))
  }

  /**
   * When query `k` is the first to raise, the run reports that query's
   * message with the answers of the earlier queries stored and every other
   * counter as it was: the partial counts the source returns with `error`.
   */
  lemma {:induction false} RunKeepsEarlier(catalog: Catalog, target: Target, order: seq<Field>, counts: Tally, k: nat)
    requires forall a, b :: 0 <= a < b < |order| ==> order[a] != order[b]
    requires FirstRaiseAt(catalog, target, order, k)
    ensures var (result, failure) := Run(catalog, target, order, counts);
      && failure == Some(catalog.count(target, order[k]).message)
      && KeepsEarlier(catalog, target, order, k, counts, result)
  {
    if k > 0 {
      var rest := order[1..];
      var v := catalog.count(target, order[0]).value;
      var next := counts.With(order[0], v);
      assert FirstRaiseAt(catalog, target, rest, k - 1) by {
        forall j | 0 <= j < k - 1 ensures catalog.count(target, rest[j]).Answer? {
          assert rest[j] == order[j + 1];
        }
      }
      RunKeepsEarlier(catalog, target, rest, next, k - 1);
      var (result, failure) := Run(catalog, target, rest, next);
      assert Run(catalog, target, order, counts) == (result, failure);
      assert order[0] !in rest[..k - 1] by {
        assert rest[..k - 1] == order[1..k];
      }
      forall j | 0 <= j < k && catalog.count(target, order[j]).Answer?
        ensures result.Get(order[j]) == catalog.count(target, order[j]).value
      {
        if j > 0 {
          assert order[j] == rest[j - 1];
        }
      }
      forall f | f !in order[..k] ensures result.Get(f) == counts.Get(f) {
        assert f != order[0] by { assert order[..k][0] == order[0]; }
        assert f !in rest[..k - 1] by {
          assert rest[..k - 1] == order[..k][1..];
        }
      }
    }
  }

  /**
   * Each kind's query order fills each field with its own query's answer,
   * and stops exactly when one query raises, keeping the earlier answers.
   */
  lemma RunAnswers(catalog: Catalog, target: Target, order: seq<Field>)
    requires order == PostgresOrder || order == TeradataOrder
    ensures var (counts, failure) := Run(catalog, target, order, Zero);
      && (failure.None? <==> Answers(catalog, target).Some?)
      && (failure.None? ==> Some(counts) == Answers(catalog, target))
      && (forall k: nat :: FirstRaiseAt(catalog, target, order, k) ==>
            failure == Some(catalog.count(target, order[k]).message)
            && KeepsEarlier(catalog, target, order, k, Zero, counts))
  {
    forall k: nat | FirstRaiseAt(catalog, target, order, k)
      ensures Run(catalog, target, order, Zero).1 == Some(catalog.count(target, order[k]).message)
      ensures KeepsEarlier(catalog, target, order, k, Zero, Run(catalog, target, order, Zero).0)
    {
      RunKeepsEarlier(catalog, target, order, Zero, k);
    }
    assert order[1..][1..][1..][1..] == [];
    if order == PostgresOrder {
      assert order[1..] == [Views, Functions, Procedures];
      assert order[1..][1..] == [Functions, Procedures];
      assert order[1..][1..][1..] == [Procedures];
    } else {
      assert order[1..] == [Views, Procedures, Functions];
      assert order[1..][1..] == [Procedures, Functions];
      assert order[1..][1..][1..] == [Functions];
    }
  }

  /**
   * A single target whose count stopped at its first raising query: no
   * summary entry, that query's message, and the earlier answers kept.
   */
  predicate StoppedAtFirstRaise(catalog: Catalog, target: Target, order: seq<Field>, r: CountResult)
  {
    forall k: nat :: k < |order| && FirstRaiseAt(catalog, target, order, k) ==>
      r.summary == [] && r.error == Some(catalog.count(target, order[k]).message)
      && KeepsEarlier(catalog, target, order, k, Zero, r.totals)
  }

  /**
   * Teradata and Databricks count the schema when one is given, else the
   * database; with neither, zero counts and an error. When the four queries
   * answer, the one summary entry holds exactly the totals.
   */
  lemma SingleTargetKinds(catalog: Catalog, dbType: string, dbName: Json, schemaName: Json)
    requires dbType == "teradata" || dbType == "databricks"
    requires catalog.cursorFailure.None? && (!Truthy(schemaName) || schemaName.JStr?)
    ensures var r := CountObjects(Some(catalog), dbType, dbName, schemaName);
      var target := if Truthy(schemaName) then schemaName else dbName;
      && (!Truthy(target) ==> r.totals == Zero && r.summary == [] && r.error.Some?)
      && (Truthy(target) && r.error.None? ==> r.summary == [SummaryEntry(target, r.totals)])
      && (Truthy(target) && r.error.Some? ==> r.summary == [])
      && (Truthy(target) ==> (r.error.None? <==> Answers(catalog, Named(PyStr(target))).Some?))
      && (Truthy(target) && r.error.None? ==> Some(r.totals) == Answers(catalog, Named(PyStr(target))))
      && (Truthy(target) ==>
            StoppedAtFirstRaise(catalog, Named(PyStr(target)), if dbType == "teradata" then TeradataOrder else DatabricksOrder, r))
  {
    var target := if Truthy(schemaName) then schemaName else dbName;
    RunAnswers(catalog, Named(PyStr(target)), if dbType == "teradata" then TeradataOrder else DatabricksOrder);
  }

  /**
   * Oracle counts the upper-cased schema, else the upper-cased current
   * schema; with neither, zero counts and the derivation error; an exception
   * other than `oracledb.Error` from the lookup ends the count with its message.
   */
  lemma OracleOwnerRule(catalog: Catalog, dbName: Json, schemaName: Json)
    requires catalog.cursorFailure.None? && (!Truthy(schemaName) || schemaName.JStr?)
    ensures var r := CountObjects(Some(catalog), "oracle", dbName, schemaName);
      && (Truthy(schemaName) && r.error.None? ==> r.summary == [SummaryEntry(JStr(Upper(schemaName.s)), r.totals)])
      && (!Truthy(schemaName) && catalog.currentSchema.Current? && catalog.currentSchema.schema.Some?
          && catalog.currentSchema.schema.value != "" && r.error.None?
          ==> r.summary == [SummaryEntry(JStr(Upper(catalog.currentSchema.schema.value)), r.totals)])
      && (!Truthy(schemaName) && (catalog.currentSchema.OracleError? || catalog.currentSchema == Current(None)
                                  || catalog.currentSchema == Current(Some("")))
          ==> r == CountResult(Zero, [], Some(OracleMissing)))
      && (!Truthy(schemaName) && catalog.currentSchema.Failure?
          ==> r == CountResult(Zero, [], Some(catalog.currentSchema.message)))
      && (Truthy(schemaName) ==>
            (r.error.None? <==> Answers(catalog, Named(Upper(schemaName.s))).Some?)
            && (r.error.None? ==> Some(r.totals) == Answers(catalog, Named(Upper(schemaName.s))))
            && StoppedAtFirstRaise(catalog, Named(Upper(schemaName.s)), OracleOrder, r))
      && (!Truthy(schemaName) && catalog.currentSchema.Current? && catalog.currentSchema.schema.Some?
          && catalog.currentSchema.schema.value != "" ==>
            var owner := Upper(catalog.currentSchema.schema.value);
            (r.error.None? <==> Answers(catalog, Named(owner)).Some?)
            && (r.error.None? ==> Some(r.totals) == Answers(catalog, Named(owner)))
            && StoppedAtFirstRaise(catalog, Named(owner), OracleOrder, r))
  {
    if Truthy(schemaName) {
      RunAnswers(catalog, Named(Upper(schemaName.s)), OracleOrder);
    } else if catalog.currentSchema.Current? && catalog.currentSchema.schema.Some? {
      RunAnswers(catalog, Named(Upper(catalog.currentSchema.schema.value)), OracleOrder);
    }
  }

  /** Snowflake names its entry `catalog.SCHEMA` or `catalog (all schemas)`; without a catalog, zero counts and an error. */
  lemma SnowflakeSummaryRule(catalog: Catalog, dbName: Json, schemaName: Json)
    requires catalog.cursorFailure.None? && (!Truthy(schemaName) || schemaName.JStr?)
    ensures var r := CountObjects(Some(catalog), "snowflake", dbName, schemaName);
      && (!Truthy(dbName) ==> r == CountResult(Zero, [], Some(SnowflakeMissing)))
      && (Truthy(dbName) && r.error.None? && Truthy(schemaName) ==>
            r.summary == [SummaryEntry(JStr(PyStr(dbName) + "." + Upper(schemaName.s)), r.totals)])
      && (Truthy(dbName) && r.error.None? && !Truthy(schemaName) ==>
            r.summary == [SummaryEntry(JStr(PyStr(dbName) + " (all schemas)"), r.totals)])
      && (Truthy(dbName) ==>
            var target := Scoped(PyStr(dbName), if Truthy(schemaName) then Some(Upper(schemaName.s)) else None);
            (r.error.None? <==> Answers(catalog, target).Some?)
            && (r.error.None? ==> Some(r.totals) == Answers(catalog, target))
            && StoppedAtFirstRaise(catalog, target, SnowflakeOrder, r))
  {
    RunAnswers(catalog, Scoped(PyStr(dbName), if Truthy(schemaName) then Some(Upper(schemaName.s)) else None), SnowflakeOrder);
    if Truthy(schemaName) {
      assert SnowflakeSummaryName(PyStr(dbName), Some(Upper(schemaName.s)))
          == PyStr(dbName) + "." + Upper(schemaName.s);
    }
  }

  /** Any kind without a counter gives zero counts and the not-implemented error. */
  lemma UnsupportedKind(catalog: Catalog, dbType: string, dbName: Json, schemaName: Json)
    requires catalog.cursorFailure.None? && (!Truthy(schemaName) || schemaName.JStr?)
    requires dbType !in {"postgresql", "teradata", "databricks", "oracle", "snowflake"}
    ensures CountObjects(Some(catalog), dbType, dbName, schemaName) == CountResult(Zero, [], Some(NotImplemented(dbType)))
  {
  }

  /** The counts dict is always present, and an error is reported exactly when `error` is set. */
  lemma ResultShape(r: CountResult)
    ensures Get(r.ToJson().fields, "total_objects") == Some(JObj(r.totals.ToJson()))
    ensures HasKey(r.ToJson().fields, "error") <==> r.error.Some?
    ensures r.error.Some? ==> Get(r.ToJson().fields, "error") == Some(JStr(r.error.value))
  {
    var fields := r.ToJson().fields;
    assert Keys(fields)[0] == "total_objects" && Keys(fields)[1] == "schemas_summary";
    if r.error.Some? {
      assert Keys(fields) == ["total_objects", "schemas_summary", "error"];
      GetAt(fields, 2);
    } else {
      assert Keys(fields) == ["total_objects", "schemas_summary"];
    }
  }
}

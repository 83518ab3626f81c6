# SnowMigrate migration calculator: a Dafny model

SnowMigrate estimates the effort of migrating a source database (PostgreSQL,
Oracle, Teradata, Databricks or another Snowflake account) to Snowflake. It
works as a pipeline of three Snowpark stored procedures:

1. `analyze_database_sp` connects to the source and counts its tables, views,
   procedures and functions (`db_connector_utils.fetch_object_counts`).
2. `calculate_effort_sp` turns those counts into an estimate. The estimate has
   hours per object type, a complexity class, and lists of risks,
   recommendations and business value.
3. `generate_document_sp` renders a migration document from the estimate. It
   uses two template filters: a fixed-width effort table and a bulleted list.

This project models the logic of each stage in Dafny and proves what the code
promises. The database drivers and the secret store are parameters of the
model. They are abstract oracles that answer a value or fail.

One departure is deliberate: the source hands the Snowflake driver an account
other than the one it validated (see "## Findings"). The analysis stage is
modelled with the corrected account. The as-written resolver is modelled
beside it, and a lemma proves where the two differ.

Modules, one per source file or concern:

| module | file | models |
|---|---|---|
| `Wrappers` | wrappers.dfy | `Option`, `Result` |
| `Text` | text.dfy | the Python string operations used: `upper`, `lower`, `capitalize`, `replace`, `ljust`-style padding, `str(int)`, `int(str)`, `split`, `join` (ASCII only) |
| `Collections` | collections.dfy | list slicing and filtering |
| `Json` | json.dfy | parsed JSON values: dicts as ordered key/value lists, `dict.get`, `{**a, **b}`, truthiness, `isinstance(x, int)`, `str()`/`repr()`, type names |
| `EffortTexts` | effort_texts.dfy | the literal benefit, risk and recommendation texts |
| `EffortCalculator` | effort_calculator.dfy | `effort_calculator_logic.py` |
| `EffortProcedure` | effort_procedure.dfy | `calculate_effort_sp.py` |
| `Document` | document.dfy | the filters and the template context of `generate_document_sp.py` |
| `Connector` | connector.dfy | the validation part of `get_source_db_connection` |
| `ObjectCounter` | counter.dfy | `fetch_object_counts` |
| `Analyze` | analyze.dfy | `analyze_database_sp.py` |
| `Pipeline` | pipeline.dfy | the effort stage's output as input to the document's table filter |

The code has loops in several places, and each is modelled by a method with a
`while` loop or a sequence of updates, proved equal to a specification
function:

- `EffortCalculator.CalculateMigrationEffort` is proved against `MigrationEffort`.
- `EffortCalculator.GenerateRisks` and `GenerateRecommendations` are proved against `Risks` and `Recommendations`.
- `Document.FormatObjectEfforts` and `CollectRows` are proved against `ObjectEffortsTable` and `Rows`.
- `ObjectCounter.FetchObjectCounts`, `ScanPostgres`, `CountTarget`, `DeriveOracleOwner` and `RunQueries` are proved against `CountObjects`, `PostgresCounts`, `SingleTarget`, `OracleOwner` and `Run`.
- `Analyze.AnalyzeDatabase` and `Attempt` are proved against `AnalysisOutput` and `Opens`.

The properties the code promises are lemmas about those functions.

## Model

| member | source | states |
|---|---|---|
| EffortCalculator.EffortsOf | SnowflakeNative_MigrationCalculator/snowpark_logic/common/effort_calculator_logic.py:188-195 | every breakdown entry has a recognised type, `hours_per_object` equal to that type's multiplier, `total_hours == count × hours_per_object`, and a (type, count) pair taken from the input |
| EffortCalculator.HoursAreSumOfEfforts | SnowflakeNative_MigrationCalculator/snowpark_logic/common/effort_calculator_logic.py:188-196 | the estimate's total hours are the sum of the breakdown entries' `total_hours` |
| EffortCalculator.SumTotalsAppend | SnowflakeNative_MigrationCalculator/snowpark_logic/common/effort_calculator_logic.py:196 | summing `total_hours` distributes over concatenation of breakdowns |
| EffortCalculator.RecognisedEntryHasEffort | SnowflakeNative_MigrationCalculator/snowpark_logic/common/effort_calculator_logic.py:189-195 | every input pair whose type has a multiplier gets the entry `(type, {count, multiplier, count × multiplier})` |
| EffortCalculator.UnrecognisedEntryIgnored | SnowflakeNative_MigrationCalculator/snowpark_logic/common/effort_calculator_logic.py:189 | a pair with an unknown type, wherever it sits, changes neither the hours nor the breakdown |
| EffortCalculator.Recognised | SnowflakeNative_MigrationCalculator/snowpark_logic/common/effort_calculator_logic.py:189 | keeps only input pairs whose type has a multiplier |
| EffortCalculator.OnlyRecognisedMatters | SnowflakeNative_MigrationCalculator/snowpark_logic/common/effort_calculator_logic.py:188-196 | hours and breakdown of the input equal those of its recognised pairs alone |
| EffortCalculator.ComplexityOf | SnowflakeNative_MigrationCalculator/snowpark_logic/common/effort_calculator_logic.py:198-202 | High iff hours ≥ 200, Medium iff 100 ≤ hours < 200, Low iff hours < 100; the `Low: 50` threshold plays no part |
| EffortCalculator.ComplexityMonotonic | SnowflakeNative_MigrationCalculator/snowpark_logic/common/effort_calculator_logic.py:198-202 | more hours never give a lower complexity class |
| EffortCalculator.KindRisks | SnowflakeNative_MigrationCalculator/snowpark_logic/common/effort_calculator_logic.py:92-121 | three kind-specific risks for oracle/sqlserver/postgresql/teradata/databricks, none otherwise |
| EffortCalculator.KindRecommendations | SnowflakeNative_MigrationCalculator/snowpark_logic/common/effort_calculator_logic.py:141-170 | three kind-specific recommendations for the same five kinds, none otherwise |
| EffortCalculator.Risks | SnowflakeNative_MigrationCalculator/snowpark_logic/common/effort_calculator_logic.py:82-129 | length 5 + 3·known kind + 3·High, the 5 baseline risks first, then the kind's risks, then the 3 High extras last |
| EffortCalculator.Recommendations | SnowflakeNative_MigrationCalculator/snowpark_logic/common/effort_calculator_logic.py:131-178 | the same length law and layout for recommendations |
| EffortCalculator.GenerateRisks | SnowflakeNative_MigrationCalculator/snowpark_logic/common/effort_calculator_logic.py:82-129 | the `extend`-built list equals `Risks`, whatever the target kind |
| EffortCalculator.GenerateRecommendations | SnowflakeNative_MigrationCalculator/snowpark_logic/common/effort_calculator_logic.py:131-178 | the `extend`-built list equals `Recommendations`, whatever the target kind |
| EffortCalculator.SpecificBenefits | SnowflakeNative_MigrationCalculator/snowpark_logic/common/effort_calculator_logic.py:34-76 | three specific benefits for the six known kinds, two generic ones otherwise |
| EffortCalculator.BusinessValueAdd | SnowflakeNative_MigrationCalculator/snowpark_logic/common/effort_calculator_logic.py:78-80 | the kind's specific benefits followed by the first four common ones; length 7, or 6 for an unknown kind; no duplicates |
| EffortCalculator.CommonBenefitsAreNotSpecific | SnowflakeNative_MigrationCalculator/snowpark_logic/common/effort_calculator_logic.py:78 | no common benefit is among the specific ones, so the filter drops nothing and the combined list has no duplicates |
| EffortCalculator.CalculateMigrationEffort | SnowflakeNative_MigrationCalculator/snowpark_logic/common/effort_calculator_logic.py:180-215 | the loop's result equals `MigrationEffort(source, counts)`, which does not depend on the target kind |
| EffortCalculator.ExampleEstimate | SnowflakeNative_MigrationCalculator/snowpark_logic/common/effort_calculator_logic.py:219-220 | {tables 100, views 50, procedures 20, functions 10} gives 360 hours, High, four breakdown entries |
| EffortCalculator.EmptyCountsEstimate | SnowflakeNative_MigrationCalculator/snowpark_logic/common/effort_calculator_logic.py:185-202 | no counts give 0 hours, Low and an empty breakdown |
| EffortProcedure.ObjectCounts | SnowflakeNative_MigrationCalculator/snowpark_logic/procedures/calculate_effort_sp.py:46-53 | `total_objects` when it is a dict; else the root when its `tables` is an int (bools included); else the missing-counts error; a non-dict payload fails at `.get` with a different message |
| EffortProcedure.CountsOf | SnowflakeNative_MigrationCalculator/snowpark_logic/common/effort_calculator_logic.py:188-190 | the counts are accepted iff every recognised entry holds an int; only recognised entries are kept |
| EffortProcedure.CountsOfIntegers | SnowflakeNative_MigrationCalculator/snowpark_logic/common/effort_calculator_logic.py:188-190 | int counts always pass, leaving exactly the recognised pairs |
| EffortProcedure.AsFields | SnowflakeNative_MigrationCalculator/snowpark_logic/procedures/calculate_effort_sp.py:44-49 | a counts record as a JSON dict, pair by pair |
| EffortProcedure.EffortsJson | SnowflakeNative_MigrationCalculator/snowpark_logic/procedures/calculate_effort_sp.py:68 | the breakdown serialises in order to `{count, hours_per_object, total_hours}` dicts |
| EffortProcedure.CalculateEffortProcedure | SnowflakeNative_MigrationCalculator/snowpark_logic/procedures/calculate_effort_sp.py:25-78 | unparsable JSON gives the "Invalid JSON in analysis_results_json: " error; a shape error gives its message only; otherwise the serialised `MigrationEffort` of the counts, or the unexpected-error text when a count is not an int; the target kind plays no part |
| EffortProcedure.EmptyCountsAccepted | SnowflakeNative_MigrationCalculator/snowpark_logic/procedures/calculate_effort_sp.py:46-61 | an empty `total_objects` dict is accepted and gives 0 hours and Low |
| EffortProcedure.RootCountsUsed | SnowflakeNative_MigrationCalculator/snowpark_logic/procedures/calculate_effort_sp.py:47-50 | a payload of counts without `total_objects`, with `tables` at any position, is itself used as the counts |
| Document.Cell | SnowflakeNative_MigrationCalculator/snowpark_logic/procedures/generate_document_sp.py:28 | `f"{v:<w}"` succeeds iff the value is an int, bool or string, and pads it to the width |
| Document.CellKeepsValue | SnowflakeNative_MigrationCalculator/snowpark_logic/procedures/generate_document_sp.py:28 | a cell starts with the whole value: nothing is truncated |
| Document.ObjectEffortsTable | SnowflakeNative_MigrationCalculator/snowpark_logic/procedures/generate_document_sp.py:20-31 | an empty or non-dict input gives "No specific object efforts available."; no positive-count rows give "No specific object efforts with count > 0 available."; a malformed entry gives its exception |
| Document.RowsStep | SnowflakeNative_MigrationCalculator/snowpark_logic/procedures/generate_document_sp.py:26-28 | one more dict entry adds its row, no row, or the first exception |
| Document.RowsErrorPersists | SnowflakeNative_MigrationCalculator/snowpark_logic/procedures/generate_document_sp.py:26-28 | once an entry raises, later entries do not change the outcome |
| Document.CollectRows | SnowflakeNative_MigrationCalculator/snowpark_logic/procedures/generate_document_sp.py:23-28 | the appending loop's lines are exactly `Rows` of the dict |
| Document.FormatObjectEfforts | SnowflakeNative_MigrationCalculator/snowpark_logic/procedures/generate_document_sp.py:20-31 | the filter equals `ObjectEffortsTable` |
| Document.PositiveEntries | SnowflakeNative_MigrationCalculator/snowpark_logic/procedures/generate_document_sp.py:27 | keeps the dict entries whose count is a positive int, in order |
| Document.RowsArePositiveEntries | SnowflakeNative_MigrationCalculator/snowpark_logic/procedures/generate_document_sp.py:26-28 | one row per positive-count entry, in input order, each the formatted row of that entry |
| Document.NonPositiveEntryHasNoRow | SnowflakeNative_MigrationCalculator/snowpark_logic/procedures/generate_document_sp.py:27 | an entry whose count is an int ≤ 0 gets no row |
| Document.RowLayout | SnowflakeNative_MigrationCalculator/snowpark_logic/procedures/generate_document_sp.py:28 | with short values a row is 62 wide, with bars at 0/14/30/45/61 and the type, count, hours/object and total at 2/16/32/47 |
| Document.TableLines | SnowflakeNative_MigrationCalculator/snowpark_logic/procedures/generate_document_sp.py:24-31 | a non-empty table is the header line, the rule line and the rows joined by newlines, and splitting it on newlines gives the rows back |
| Document.Bullets | SnowflakeNative_MigrationCalculator/snowpark_logic/procedures/generate_document_sp.py:36 | one `"- " + str(item)` line per item, in order |
| Document.FormatList | SnowflakeNative_MigrationCalculator/snowpark_logic/procedures/generate_document_sp.py:33-36 | an empty or non-list input gives "- Not applicable or no specific items provided."; one item gives its single bullet |
| Document.FormatListLines | SnowflakeNative_MigrationCalculator/snowpark_logic/procedures/generate_document_sp.py:36 | splitting the output on newlines gives back exactly one bullet per item, in order |
| Document.ObjectsFound | SnowflakeNative_MigrationCalculator/snowpark_logic/procedures/generate_document_sp.py:68-70 | a truthy `total_objects`; else the root when its `tables` is an int; else the falsy `total_objects` (`{}` when absent) |
| Document.SourceTypeDisplay | SnowflakeNative_MigrationCalculator/snowpark_logic/procedures/generate_document_sp.py:77 | same length, every `_` becomes a space, the first character upper-cased and the rest lower-cased |
| Document.SourceTypeDisplayExample | SnowflakeNative_MigrationCalculator/snowpark_logic/procedures/generate_document_sp.py:77 | "sql_server" is displayed as "Sql server" |
| Document.BaseContextUnique | SnowflakeNative_MigrationCalculator/snowpark_logic/procedures/generate_document_sp.py:75-81 | the six procedure keys are distinct |
| Document.DocumentContext | SnowflakeNative_MigrationCalculator/snowpark_logic/procedures/generate_document_sp.py:61-83 | the first malformed payload gives "Invalid JSON input: " + detail; a context exists iff all three parse and analysis and effort are dicts; it holds every effort key, each key once |
| Document.ContextEffortOverrides | SnowflakeNative_MigrationCalculator/snowpark_logic/procedures/generate_document_sp.py:75-83 | every effort field wins over a same-named procedure key |
| Document.ContextBaseValues | SnowflakeNative_MigrationCalculator/snowpark_logic/procedures/generate_document_sp.py:75-81 | where the effort payload is silent, the context holds the display name, the found objects, the schema summary and the date |
| Pipeline.EffortEntryFormats | SnowflakeNative_MigrationCalculator/snowpark_logic/procedures/generate_document_sp.py:26-28 | a serialised breakdown entry never raises in the table filter, and has a row iff its count is positive |
| Pipeline.EffortRowsSucceed | SnowflakeNative_MigrationCalculator/snowpark_logic/procedures/generate_document_sp.py:26-28 | a serialised breakdown never raises, has at most one row per entry, and no rows when no count is positive |
| Pipeline.EstimateTableRenders | SnowflakeNative_MigrationCalculator/snowpark_logic/procedures/generate_document_sp.py:20-31 | the `object_efforts` of every serialised estimate is present and renders as text |
| Pipeline.ProcedureTableRenders | SnowflakeNative_MigrationCalculator/snowpark_logic/procedures/calculate_effort_sp.py:57-68 | every estimate `calculate_effort_sp` answers renders its effort table |
| Connector.ParsePort | SnowflakeNative_MigrationCalculator/snowpark_logic/common/db_connector_utils.py:188-197 | a falsy port is no port; text is parsed, and text that is not a number is the rejected `ValueError`; a list or dict is the escaping `TypeError` |
| Connector.ResolveConnection | SnowflakeNative_MigrationCalculator/snowpark_logic/common/db_connector_utils.py:183-214 | a driver call is made iff credentials came back, the kind is supported, the port parses and the kind's required fields are truthy; an exception escapes iff the port is a list or dict; the call matches the kind |
| Connector.ResolveConnectionAsWritten | SnowflakeNative_MigrationCalculator/snowpark_logic/common/db_connector_utils.py:183-214 | the validation of the source as written: the same decisions as `ResolveConnection`, with the Snowflake driver given the credentials' `account` whenever that key exists |
| Connector.AccountChoicesAgree | SnowflakeNative_MigrationCalculator/snowpark_logic/common/db_connector_utils.py:318 | the as-written and corrected resolvers make the same decision and the same driver call except for the Snowflake account, and differ only when the credentials hold a falsy `account` |
| Connector.BadPortRejected | SnowflakeNative_MigrationCalculator/snowpark_logic/common/db_connector_utils.py:191-197 | a non-numeric port text stops every kind before any driver call |
| Connector.DefaultPorts | SnowflakeNative_MigrationCalculator/snowpark_logic/common/db_connector_utils.py:223-270 | without a port, PostgreSQL gets 5432, Oracle 1521 and Teradata "1025" |
| Connector.PortTextReadsBack | SnowflakeNative_MigrationCalculator/snowpark_logic/common/db_connector_utils.py:194 | a port given as the decimal text of n reaches PostgreSQL and Oracle as n and Teradata as that text |
| Connector.SnowflakeAccountValidated | SnowflakeNative_MigrationCalculator/snowpark_logic/common/db_connector_utils.py:204-210 | the Snowflake driver is given a truthy account, the one that was validated |
| Connector.SnowflakeAccountAsWrittenMismatch | SnowflakeNative_MigrationCalculator/snowpark_logic/common/db_connector_utils.py:318 | as written, credentials with an empty `account` pass validation on the parameters' account, yet the driver gets the empty one |
| ObjectCounter.Tally.With | SnowflakeNative_MigrationCalculator/snowpark_logic/common/db_connector_utils.py:457-477 | storing a query's answer sets that one counter and leaves the other three |
| ObjectCounter.Tally.Plus | SnowflakeNative_MigrationCalculator/snowpark_logic/common/db_connector_utils.py:441-445 | the field-wise sum of two counts records |
| ObjectCounter.RunQueries | SnowflakeNative_MigrationCalculator/snowpark_logic/common/db_connector_utils.py:418-430 | issuing the queries in order, each storing its answer, stopping at the first that raises, equals `Run` |
| ObjectCounter.RunAnswers | SnowflakeNative_MigrationCalculator/snowpark_logic/common/db_connector_utils.py:418-430 | the kinds' query orders stop iff some query raises, and otherwise fill each counter with its own query's answer; when one raises, the run reports the first raising query's message with the earlier answers kept and the later counters zero |
| ObjectCounter.RunKeepsEarlier | SnowflakeNative_MigrationCalculator/snowpark_logic/common/db_connector_utils.py:457-470 | for any order of distinct queries whose query k is the first to raise, the run reports that query's message, the first k queries' answers are stored, and every other counter keeps its earlier value |
| ObjectCounter.ScanPostgres | SnowflakeNative_MigrationCalculator/snowpark_logic/common/db_connector_utils.py:394-447 | the listing and the schema loop equal `PostgresCounts`: a failing listing gives its error, an empty one zero counts, otherwise the scan |
| ObjectCounter.CountTarget | SnowflakeNative_MigrationCalculator/snowpark_logic/common/db_connector_utils.py:455-489 | one target's queries followed by its single summary entry equal `SingleTarget` |
| ObjectCounter.DeriveOracleOwner | SnowflakeNative_MigrationCalculator/snowpark_logic/common/db_connector_utils.py:534-545 | the owner lookup, with its swallowed `oracledb.Error`, equals `OracleOwner` |
| ObjectCounter.FetchObjectCounts | SnowflakeNative_MigrationCalculator/snowpark_logic/common/db_connector_utils.py:349-635 | the imperative counter equals `CountObjects` on every kind and every error path |
| ObjectCounter.PostgresScanStops | SnowflakeNative_MigrationCalculator/snowpark_logic/common/db_connector_utils.py:629-635 | after a schema raises, the remaining schemas change nothing |
| ObjectCounter.SumOfAppend | SnowflakeNative_MigrationCalculator/snowpark_logic/common/db_connector_utils.py:436-445 | appending an entry adds its counts to the summary's sum |
| ObjectCounter.PostgresTotalsAreSummarySum | SnowflakeNative_MigrationCalculator/snowpark_logic/common/db_connector_utils.py:415-447 | after any prefix of the schemas, including one cut short by an exception, the totals equal the field-wise sum of the summary |
| ObjectCounter.PostgresTotalsInvariant | SnowflakeNative_MigrationCalculator/snowpark_logic/common/db_connector_utils.py:394-447 | on every PostgreSQL path (a failing listing, an empty listing, a scan) the returned totals equal the sum of the summary |
| ObjectCounter.PostgresSummaryFollowsListing | SnowflakeNative_MigrationCalculator/snowpark_logic/common/db_connector_utils.py:415-436 | one summary entry per scanned schema, in listing order, named after it and holding its four answers; all of them when there is no error |
| ObjectCounter.SingleTargetKinds | SnowflakeNative_MigrationCalculator/snowpark_logic/common/db_connector_utils.py:449-528 | Teradata and Databricks count the schema if given, else the database; with neither, zero counts, an empty summary and an error; on success one entry whose counts are the totals, each its own query's answer; when a query raises, no entry, that query's message and the counts taken before it |
| ObjectCounter.OracleOwnerRule | SnowflakeNative_MigrationCalculator/snowpark_logic/common/db_connector_utils.py:531-581 | the owner is the upper-cased schema, else the upper-cased current schema; with neither (a swallowed `oracledb.Error`, no current schema or an empty one), zero counts and the derivation error; any other exception from the lookup ends the count with its message; on success one entry named after the owner, whose totals are that owner's query answers; when a count query raises, no entry, that query's message and the counts taken before it |
| ObjectCounter.SnowflakeSummaryRule | SnowflakeNative_MigrationCalculator/snowpark_logic/common/db_connector_utils.py:583-621 | no catalog gives zero counts and an error; the entry is named "catalog.SCHEMA" (upper-cased) or "catalog (all schemas)" and holds the totals, each its own query's answer; when a query raises, no entry, that query's message and the counts taken before it |
| ObjectCounter.UnsupportedKind | SnowflakeNative_MigrationCalculator/snowpark_logic/common/db_connector_utils.py:622-624 | any other kind gives zero counts, no summary and "Object counting not implemented for <kind>." |
| ObjectCounter.ResultShape | SnowflakeNative_MigrationCalculator/snowpark_logic/common/db_connector_utils.py:627-635 | `total_objects` is always present, and `error` is present iff the result carries one |
| Analyze.Attempt | SnowflakeNative_MigrationCalculator/snowpark_logic/procedures/analyze_database_sp.py:66-96 | the `try` body answers `AnalysisOutput` and hands the `finally` a connection iff one was opened |
| Analyze.AnalyzeDatabase | SnowflakeNative_MigrationCalculator/snowpark_logic/procedures/analyze_database_sp.py:65-102 | the answer is `AnalysisOutput`, which a failing `close` does not change, and the connection is closed exactly once iff one was opened |
| Analyze.InvalidJsonAnswer | SnowflakeNative_MigrationCalculator/snowpark_logic/procedures/analyze_database_sp.py:91-92 | unparsable parameters give "Invalid JSON: " + detail, and no connection is opened |
| Analyze.ConnectFailureAnswer | SnowflakeNative_MigrationCalculator/snowpark_logic/procedures/analyze_database_sp.py:73-87 | rejected parameters or a failing driver give "Failed to connect to source database: <kind>." and no open connection |
| Analyze.CountOutcome | SnowflakeNative_MigrationCalculator/snowpark_logic/procedures/analyze_database_sp.py:68-88 | the counter gets the `database` and `schema` fields; a result with `error` becomes the error-only object "Error fetching object counts: …", dropping its partial counts; any other result is returned as it is |
| Analyze.AnswerIsObject | SnowflakeNative_MigrationCalculator/snowpark_logic/procedures/analyze_database_sp.py:81-96 | every answer is a dict, and every path that opens no connection answers with `error` |
| Text.Capitalize | SnowflakeNative_MigrationCalculator/snowpark_logic/procedures/generate_document_sp.py:28 | `str.capitalize`: same length, first character upper-cased, the rest lower-cased |
| Text.LJust | SnowflakeNative_MigrationCalculator/snowpark_logic/procedures/generate_document_sp.py:28 | `:<w` padding: the value is kept whole and padded with spaces up to the width |
| Text.LeadingSpaceIgnored | SnowflakeNative_MigrationCalculator/snowpark_logic/common/db_connector_utils.py:194 | `int()` reads the same number whatever `str.isspace()` character precedes the text |
| Text.ParseIntOfIntToString | SnowflakeNative_MigrationCalculator/snowpark_logic/common/db_connector_utils.py:194 | `int(str(n)) == n` |
| Json.Get | SnowflakeNative_MigrationCalculator/snowpark_logic/procedures/generate_document_sp.py:68 | `dict.get` answers a value iff the key is present |
| Json.MergeOverrides | SnowflakeNative_MigrationCalculator/snowpark_logic/procedures/generate_document_sp.py:75-83 | in `{**base, **extra}` each key of `extra` maps to `extra`'s value |
| Json.ErrorObject | SnowflakeNative_MigrationCalculator/snowpark_logic/procedures/analyze_database_sp.py:92 | `{"error": message}` |

## Left out

- The drivers (`psycopg2`, `oracledb`, `teradatasql`, the Databricks SQL connector, the Snowflake connector) and their cursors are oracles. `connect` answers a catalog or `None`; each count query answers a natural number or raises. The SQL text of the queries is not modelled, only which counter each answer feeds.
- The text of driver exceptions (`str(e)`) is the oracle's message.
- A count that is not a natural number (`Decimal`, `None`) is not modelled, nor is the `json.dumps` error such a count would cause.
- `_get_secret_credentials` is an opaque provider. It answers a credentials dict, or `None` for the `ValueError` the caller turns into no connection. Credentials that are not a dict are not modelled.
- The JSON parser and serialiser are not modelled. Inputs are already-parsed values (`Parsed` or `Malformed` with the decoder's message). Outputs are JSON values, not text. Floats are not modelled.
- `cursor.close()` raising inside `fetch_object_counts` is not modelled. It is the only way to reach the "Error fetching object counts" handler at analyze_database_sp.py:84-85.
- In `analyze_database_sp`, the `except ValueError` branch (analyze_database_sp.py:93-94) cannot be reached by the modelled code: every `ValueError` below it is caught earlier. It is not modelled.
- A failing `conn.close()` is only logged, so it is not modelled; it changes neither the answer nor the number of closes.
- `print` logging and the `StInfoMock` scaffolding are not modelled.
- Jinja2 rendering, and the "Jinja2 template error" answer, are not modelled. `datetime.now()` is a parameter (`generationDate`).
- `streamlit_app/app.py` is not part of this model. It is UI code.
- Counting for `sqlserver` is not modelled, because the source has no connector or counter branch for it. It reaches only the unsupported paths: no connection, or "Object counting not implemented". The calculator's sqlserver lists are modelled.
- Text.Upper, Text.Lower, Text.Capitalize: only ASCII letters change case. Python's full Unicode case mapping is not modelled.
- Text.ParseInt: `int(str)` is modelled for ASCII digits with an optional sign. The characters `str.isspace()` accepts are stripped from both ends: the ASCII whitespace, the separators `\x1c`–`\x1f`, `\x85`, `\xa0` and the Unicode spaces. Underscore separators and non-ASCII digits are not modelled.
- Json.Repr: `str()` of lists and dicts quotes strings with single quotes but does not escape quotes or backslashes inside them.
- Exception messages of Python's own type errors follow CPython 3.10 and later. Examples: "'list' object has no attribute 'get'" and "int() argument must be a string, a bytes-like object or a real number, not 'list'".
- Connector.ResolveConnection, Analyze.AnalysisOutput: these give the Snowflake driver the account that was validated (the corrected half of the finding below), not what db_connector_utils.py:318 passes. When the credentials hold a falsy `account` the source passes that value, and the parameters' account reaches the driver only in the model. `Connector.AccountChoicesAgree` proves this is the only difference: in every other case `ResolveConnectionAsWritten` gives the same answer.
- Attempt (Analyze.Attempt): its answer is `AnalysisOutput`, so it carries the same corrected Snowflake account. With credentials holding a falsy `account`, a driver that rejects the empty account gives the connect error in the source, while the model counts objects on the parameters' account.
- AnalyzeDatabase (Analyze.AnalyzeDatabase): the same corrected Snowflake account as `Attempt`, for the same reason. Closing once iff a connection was opened is stated in full.
- Connector.ResolveConnection: the source's step-by-step rebinding of `port` and the connection variable is modelled as one function of its inputs. What the source computes is modelled; the order of the rebindings is not.
- Connector.ResolveConnection: `int()` of a bool port is modelled (True is 1). `int()` of a float port is not, since floats are not modelled.
- EffortProcedure.CountsOf: a bool count is read as 0 or 1. Where the source would echo `true` as `object_efforts[t].count`, the model gives 1.
- EffortCalculator.CalculateMigrationEffort: counts are Python ints or bools. The `TypeError` for other count values is modelled in `EffortProcedure.CountsOf`.

## Findings

| source | as written | input that shows it | evidently intended | confidence | as-written member | corrected member |
|---|---|---|---|---|---|---|
| SnowflakeNative_MigrationCalculator/snowpark_logic/common/db_connector_utils.py:318 | the Snowflake driver is given `credentials.get('account', connection_params.get('account'))`, which is the credentials' value whenever that key exists, even an empty one | credentials `{"username": "u", "password": "p", "account": ""}` with parameters `{"account": "acme", "database": "db"}` | pass the account that lines 205-207 validated (the comment at line 324 says it was validated): the credentials' account when truthy, else the parameters' | medium, not executed | Connector.SnowflakeAccountAsWrittenMismatch | Connector.SnowflakeAccountValidated |

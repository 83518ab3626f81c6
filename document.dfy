/**
 * The document stage: the two filters the migration-document template uses
 * (a fixed-width table of per-type effort and a bulleted list), and the
 * context the template is rendered with. Rendering itself is not modelled.
 */
module Document {
  import opened Wrappers
  import opened Text
  import opened Json

  // ---------------------------------------------------------------------
  // The object-efforts table filter
  // ---------------------------------------------------------------------

  const NoEffortsText: string := "No specific object efforts available."
  const NoPositiveEffortsText: string := "No specific object efforts with count > 0 available."
  const TableHeader: string := "| Object Type | Count         | Hours/Object | Total Hours   |"
  const TableRule: string := "|-------------|---------------|--------------|---------------|"

  /** The Python exceptions the table filter can raise on a malformed entry. */
  datatype FilterFailure =
    | DetailsNotDict(typeName: string)     // `details.get` on a value that is not a dict
    | CountNotComparable(typeName: string) // `count > 0` on a value that is not an int
    | CellNotFormattable(typeName: string) // `f"{v:<w}"` on a value that is neither int nor str

  /** `f"{v:<width}"`: an int (or bool, which formats as an int) in decimal, a string as itself. */
  function Cell(v: Json, width: nat): (r: Result<string, FilterFailure>)
    ensures r.Ok? <==> IsPyInt(v) || v.JStr?
    ensures IsPyInt(v) ==> r == Ok(LJust(IntToString(PyIntValue(v)), width))
    ensures v.JStr? ==> r == Ok(LJust(v.s, width))
  {
    if IsPyInt(v) then Ok(LJust(IntToString(PyIntValue(v)), width))
    else if v.JStr? then Ok(LJust(v.s, width))
    else Err(CellNotFormattable(TypeName(v)))
  }

  /** The text of one row; the cells are formatted left to right. */
  function FormatRow(objType: string, details: Fields): Result<string, FilterFailure>
  {
    var count := Cell(GetOr(details, "count", JInt(0)), 13);
    var perObject := Cell(GetOr(details, "hours_per_object", JInt(0)), 12);
    var total := Cell(GetOr(details, "total_hours", JInt(0)), 13);
    if count.Err? then Err(count.error)
    else if perObject.Err? then Err(perObject.error)
    else if total.Err? then Err(total.error)
    else Ok(RowText(Capitalize(objType), count.value, perObject.value, total.value))
  }

  function RowText(objType: string, count: string, perObject: string, total: string): string
  {
    "| " + LJust(objType, 11) + " | " + count + " | " + perObject + " | " + total + " |"
  }

  /** `details.get("count", 0) > 0`, or the exception it raises. */
  function HasPositiveCount(details: Json): Result<bool, FilterFailure>
  {
    if !details.JObj? then Err(DetailsNotDict(TypeName(details)))
    else
      var count := GetOr(details.fields, "count", JInt(0));
      if !IsPyInt(count) then Err(CountNotComparable(TypeName(count)))
      else Ok(PyIntValue(count) > 0)
  }

  /** What one dict entry contributes: no row, one row, or the exception. */
  function EntryRow(entry: (string, Json)): Result<Option<string>, FilterFailure>
  {
    match HasPositiveCount(entry.1)
    case Err(e) => Err(e)
    case Ok(positive) =>
      if !positive then Ok(None)
      else
        match FormatRow(entry.0, entry.1.fields)
        case Err(e) => Err(e)
        case Ok(row) => Ok(Some(row))
  }

  /** The rows of the entries seen so far, or the first exception among them. */
  function Rows(fields: Fields): Result<seq<string>, FilterFailure>
  {
    if |fields| == 0 then Ok([])
    else
      match Rows(fields[..|fields| - 1])
      case Err(e) => Err(e)
      case Ok(rows) =>
        match EntryRow(fields[|fields| - 1])
        case Err(e) => Err(e)
        case Ok(None) => Ok(rows)
        case Ok(Some(row)) => Ok(rows + [row])
  }

  /** `_format_object_efforts_filter`, as a function of its argument. */
  function ObjectEffortsTable(efforts: Json): (r: Result<string, FilterFailure>)
    ensures !Truthy(efforts) || !efforts.JObj? ==> r == Ok(NoEffortsText)
    ensures efforts.JObj? && Rows(efforts.fields) == Ok([]) ==> r == Ok(if efforts.fields == [] then NoEffortsText else NoPositiveEffortsText)
    ensures efforts.JObj? && Rows(efforts.fields).Err? ==> r == Err(Rows(efforts.fields).error)
  {
    if !Truthy(efforts) || !efforts.JObj? then Ok(NoEffortsText)
    else
      match Rows(efforts.fields)
      case Err(e) => Err(e)
      case Ok(rows) =>
        if rows == [] then Ok(NoPositiveEffortsText) else Ok(Join([TableHeader, TableRule] + rows, "\n"))
  }

  lemma RowsStep(fields: Fields, i: nat)
    requires i < |fields|
    ensures Rows(fields[..i + 1]) ==
      match Rows(fields[..i])
      case Err(e) => Err(e)
      case Ok(rows) =>
        match EntryRow(fields[i])
        case Err(e) => Err(e)
        case Ok(None) => Ok(rows)
        case Ok(Some(row)) => Ok(rows + [row])
  {
    assert fields[..i + 1][..i] == fields[..i];
    assert fields[..i + 1][i] == fields[i];
  }

  /** Once an entry has raised, the rest of the dict does not matter. */
  lemma {:induction false} RowsErrorPersists(fields: Fields, i: nat)
    requires i <= |fields| && Rows(fields[..i]).Err?
    ensures Rows(fields) == Rows(fields[..i])
    decreases |fields| - i
  {
    if i < |fields| {
      assert fields[..i + 1][..i] == fields[..i];
      RowsErrorPersists(fields, i + 1);
    } else {
      assert fields[..i] == fields;
    }
  }

  /**
   * The loop of `_format_object_efforts_filter`: one line per entry whose
   * count is positive, in dict order. An entry that makes Python raise ends
   * the loop with that exception.
   */
  method CollectRows(fields: Fields) returns (r: Result<seq<string>, FilterFailure>)
    ensures r == Rows(fields)
  {
    var rows: seq<string> := [];
    var i := 0;
    assert fields[..0] == [];
    while i < |fields|
      invariant 0 <= i <= |fields|
      invariant Rows(fields[..i]) == Ok(rows)
    {
      var entry := fields[i];
      RowsStep(fields, i);
      var positive := HasPositiveCount(entry.1);
      if positive.Err? {
        RowsErrorPersists(fields, i + 1);
        return Err(positive.error);
      }
      if positive.value {
        var row := FormatRow(entry.0, entry.1.fields);
        if row.Err? {
          RowsErrorPersists(fields, i + 1);
          return Err(row.error);
        }
        rows := rows + [row.value];
      }
      i := i + 1;
    }
    assert fields[..i] == fields;
    return Ok(rows);
  }

  /**
   * `_format_object_efforts_filter`: the two header lines, the rows, then
   * the join, with a sentinel text for an empty or non-dict argument and
   * for a table that would have no rows.
   */
  method FormatObjectEfforts(efforts: Json) returns (r: Result<string, FilterFailure>)
    ensures r == ObjectEffortsTable(efforts)
  {
    if !Truthy(efforts) || !efforts.JObj? {
      return Ok(NoEffortsText);
    }
    var lines := [TableHeader, TableRule];
    var rows := CollectRows(efforts.fields);
    if rows.Err? {
      return Err(rows.error);
    }
    lines := lines + rows.value;
    if |lines| == 2 {
      return Ok(NoPositiveEffortsText);
    }
    return Ok(Join(lines, "\n"));
  }

  // Reference definition: the rows are the positive-count entries, filtered first and formatted after.

  predicate IsPositiveEntry(entry: (string, Json))
  {
    HasPositiveCount(entry.1) == Ok(true)
  }

  function PositiveEntries(fields: Fields): (r: Fields)
    ensures forall j :: 0 <= j < |r| ==> IsPositiveEntry(r[j]) && r[j] in fields
  {
    if |fields| == 0 then []
    else
      var front := PositiveEntries(fields[..|fields| - 1]);
      assert forall e :: e in fields[..|fields| - 1] ==> e in fields;
      if IsPositiveEntry(fields[|fields| - 1]) then front + [fields[|fields| - 1]] else front
  }

  /** One row per positive-count entry, in dict order, each formatted by `FormatRow`. */
  lemma {:induction false} RowsArePositiveEntries(fields: Fields, rows: seq<string>)
    requires Rows(fields) == Ok(rows)
    ensures |rows| == |PositiveEntries(fields)|
    ensures forall j :: 0 <= j < |rows| ==>
      FormatRow(PositiveEntries(fields)[j].0, PositiveEntries(fields)[j].1.fields) == Ok(rows[j])
  {
    if |fields| > 0 {
      var front := fields[..|fields| - 1];
      var last := fields[|fields| - 1];
      var frontRows := Rows(front).value;
      RowsArePositiveEntries(front, frontRows);
      if IsPositiveEntry(last) {
        assert rows == frontRows + [FormatRow(last.0, last.1.fields).value];
      } else {
        assert rows == frontRows;
      }
    }
  }

  /** An entry whose count is zero or negative gives no row. */
  lemma NonPositiveEntryHasNoRow(entry: (string, Json))
    requires entry.1.JObj? && IsPyInt(GetOr(entry.1.fields, "count", JInt(0)))
    requires PyIntValue(GetOr(entry.1.fields, "count", JInt(0))) <= 0
    ensures EntryRow(entry) == Ok(None)
  {
  }

  /**
   * When every cell fits its width the row is 62 characters with the five
   * bars at fixed columns; a longer value widens its cell instead of being cut.
   */
  lemma RowLayout(objType: string, count: string, perObject: string, total: string)
    requires |objType| <= 11 && |count| <= 13 && |perObject| <= 12 && |total| <= 13
    ensures var row := RowText(objType, LJust(count, 13), LJust(perObject, 12), LJust(total, 13));
      && |row| == 62
      && row[0] == '|' && row[14] == '|' && row[30] == '|' && row[45] == '|' && row[61] == '|'
      && row[2..2 + |objType|] == objType && row[16..16 + |count|] == count
      && row[32..32 + |perObject|] == perObject && row[47..47 + |total|] == total
  {
    var a := LJust(objType, 11);
    var b := LJust(count, 13);
    var c := LJust(perObject, 12);
    var d := LJust(total, 13);
    var p1 := "| " + a + " | ";
    var p2 := p1 + b + " | ";
    var p3 := p2 + c + " | ";
    var row := p3 + d + " |";
    assert |p1| == 16 && |p2| == 32 && |p3| == 47 && |row| == 62;
    assert row[..47] == p3 && p3[..32] == p2 && p2[..16] == p1;
    assert p1[2..13] == a;
    assert p2[16..29] == b;
    assert p3[32..44] == c;
    assert row[47..60] == d;
  }

  /** Every formatted cell keeps the whole value: nothing is truncated. */
  lemma CellKeepsValue(v: Json, width: nat)
    requires v.JStr?
    ensures Cell(v, width).Ok? && Cell(v, width).value[..|v.s|] == v.s
  {
  }

  /**
   * A table with rows is the header line, the rule line and then the rows,
   * one per line when no row holds a line break.
   */
  lemma TableLines(efforts: Json, rows: seq<string>)
    requires efforts.JObj? && Rows(efforts.fields) == Ok(rows) && rows != []
    ensures ObjectEffortsTable(efforts) == Ok(TableHeader + "\n" + TableRule + "\n" + Join(rows, "\n"))
    ensures (forall i, j :: 0 <= i < |rows| && 0 <= j < |rows[i]| ==> rows[i][j] != '\n') ==>
      Split(Join(rows, "\n"), '\n') == rows
  {
    var lines := [TableHeader, TableRule] + rows;
    assert lines[1..] == [TableRule] + rows && lines[1..][1..] == rows;
    assert Join(lines[1..], "\n") == TableRule + "\n" + Join(rows, "\n");
    assert Join(lines, "\n") == TableHeader + "\n" + Join(lines[1..], "\n");
    assert TableHeader + "\n" + (TableRule + "\n" + Join(rows, "\n"))
        == TableHeader + "\n" + TableRule + "\n" + Join(rows, "\n");
    assert ObjectEffortsTable(efforts) == Ok(Join(lines, "\n"));
    if forall i, j :: 0 <= i < |rows| && 0 <= j < |rows[i]| ==> rows[i][j] != '\n' {
      SplitJoin(rows, '\n');
    }
  }

  // ---------------------------------------------------------------------
  // The list filter
  // ---------------------------------------------------------------------

  const NoItemsText: string := "- Not applicable or no specific items provided."

  /** `f"- {item}"` for every item. */
  function Bullets(items: seq<Json>): (r: seq<string>)
    ensures |r| == |items| && forall i :: 0 <= i < |items| ==> r[i] == "- " + PyStr(items[i])
  {
    seq(|items|, i requires 0 <= i < |items| => "- " + PyStr(items[i]))
  }

  /** `_format_list_filter` */
  function FormatList(items: Json): (r: string)
    ensures !Truthy(items) || !items.JArr? ==> r == NoItemsText
    ensures items.JArr? && |items.items| == 1 ==> r == "- " + PyStr(items.items[0])
  {
    if !Truthy(items) || !items.JArr? then NoItemsText else Join(Bullets(items.items), "\n")
  }

  /** A non-empty list gives one `- item` line per item, in order, when no item holds a line break. */
  lemma FormatListLines(items: seq<Json>)
    requires items != []
    requires forall i, j :: 0 <= i < |items| && 0 <= j < |PyStr(items[i])| ==> PyStr(items[i])[j] != '\n'
    ensures var lines := Split(FormatList(JArr(items)), '\n');
      |lines| == |items| && forall i :: 0 <= i < |items| ==> lines[i] == "- " + PyStr(items[i])
  {
    var bullets := Bullets(items);
    forall i, j | 0 <= i < |bullets| && 0 <= j < |bullets[i]| ensures bullets[i][j] != '\n' {
      if j >= 2 {
        assert bullets[i][j] == PyStr(items[i])[j - 2];
      }
    }
    SplitJoin(bullets, '\n');
  }

  // ---------------------------------------------------------------------
  // The template context
  // ---------------------------------------------------------------------

  /**
   * The object counts shown in the document: `total_objects` when it is
   * truthy, else the whole analysis when its `tables` is an int, else
   * `total_objects` as it stands (`{}` when absent).
   */
  function ObjectsFound(analysis: Fields): (r: Json)
    ensures var found := GetOr(analysis, "total_objects", JObj([]));
      var tablesIsInt := Get(analysis, "tables").Some? && IsPyInt(Get(analysis, "tables").value);
      && (Truthy(found) ==> r == found)
      && (!Truthy(found) && tablesIsInt ==> r == JObj(analysis))
      && (!Truthy(found) && !tablesIsInt ==> r == found && !Truthy(r))
    ensures !HasKey(analysis, "total_objects") && !HasKey(analysis, "tables") ==> r == JObj([])
  {
    var found := GetOr(analysis, "total_objects", JObj([]));
    var tables := Get(analysis, "tables");
    if !Truthy(found) && tables.Some? && IsPyInt(tables.value) then JObj(analysis) else found
  }

  /** `source_db_type.replace("_", " ").capitalize()` */
  function SourceTypeDisplay(sourceType: string): (r: string)
    ensures |r| == |sourceType|
    ensures |r| > 0 ==> r[0] == UpperChar(if sourceType[0] == '_' then ' ' else sourceType[0])
    ensures forall i :: 0 < i < |r| ==> r[i] == if sourceType[i] == '_' then ' ' else LowerChar(sourceType[i])
    ensures forall i :: 0 <= i < |r| ==> r[i] != '_'
    ensures forall i :: 0 < i < |r| ==> !IsUpperLetter(r[i])
  {
    Capitalize(ReplaceChar(sourceType, '_', ' '))
  }

  lemma SourceTypeDisplayExample()
    ensures SourceTypeDisplay("sql_server") == "Sql server"
  {
  }

  /** The keys the procedure sets before merging the effort fields over them. */
  function BaseContext(sourceType: string, generationDate: string, connectionDetails: Json, analysis: Fields): Fields
  {
    [("source_type", JStr(sourceType)),
     ("source_type_display", JStr(SourceTypeDisplay(sourceType))),
     ("generation_date", JStr(generationDate)),
     ("connection_details", connectionDetails),
     ("objects", ObjectsFound(analysis)),
     ("all_schemas_summary", GetOr(analysis, "schemas_summary", JArr([])))]
  }

  lemma BaseContextUnique(sourceType: string, generationDate: string, connectionDetails: Json, analysis: Fields)
    ensures UniqueKeys(BaseContext(sourceType, generationDate, connectionDetails, analysis))
  {
  }

  const InvalidJsonPrefix: string := "Invalid JSON input: "
  const UnexpectedPrefix: string := "An unexpected error occurred in generate_document_sp: "

  /**
   * The context `generate_document_sp` renders the template with, or the
   * `error` text it answers with. The three payloads are parsed in order;
   * the analysis must be a dict (it is read with `.get`) and so must the
   * effort payload (it is spread with `**`). The clock reading is a
   * parameter.
   */
  function DocumentContext(effortText: Parsed, analysisText: Parsed, sourceType: string,
                           connectionText: Parsed, generationDate: string): (r: Result<Fields, string>)
    ensures effortText.Malformed? ==> r == Err(InvalidJsonPrefix + effortText.detail)
    ensures effortText.Parsed? && analysisText.Malformed? ==> r == Err(InvalidJsonPrefix + analysisText.detail)
    ensures effortText.Parsed? && analysisText.Parsed? && connectionText.Malformed? ==>
      r == Err(InvalidJsonPrefix + connectionText.detail)
    ensures r.Ok? <==> (effortText.Parsed? && analysisText.Parsed? && connectionText.Parsed?
      && analysisText.value.JObj? && effortText.value.JObj?)
    ensures r.Ok? ==> forall k :: HasKey(effortText.value.fields, k) ==> HasKey(r.value, k)
    ensures r.Ok? ==> UniqueKeys(r.value)
  {
    if effortText.Malformed? then Err(InvalidJsonPrefix + effortText.detail)
    else if analysisText.Malformed? then Err(InvalidJsonPrefix + analysisText.detail)
    else if connectionText.Malformed? then Err(InvalidJsonPrefix + connectionText.detail)
    else
      var analysis := analysisText.value;
      var effort := effortText.value;
      if !analysis.JObj? then
        Err(UnexpectedPrefix + "'" + TypeName(analysis) + "' object has no attribute 'get'")
      else if !effort.JObj? then
        Err(UnexpectedPrefix + "'" + TypeName(effort) + "' object is not a mapping")
      else
        var base := BaseContext(sourceType, generationDate, connectionText.value, analysis.fields);
        BaseContextUnique(sourceType, generationDate, connectionText.value, analysis.fields);
        Ok(Merge(base, effort.fields))
  }

  /** Every effort field overrides the earlier key of the same name. */
  lemma ContextEffortOverrides(effortText: Parsed, analysisText: Parsed, sourceType: string,
                               connectionText: Parsed, generationDate: string, i: nat)
    requires DocumentContext(effortText, analysisText, sourceType, connectionText, generationDate).Ok?
    requires UniqueKeys(effortText.value.fields) && i < |effortText.value.fields|
    ensures Get(DocumentContext(effortText, analysisText, sourceType, connectionText, generationDate).value,
                effortText.value.fields[i].0) == Some(effortText.value.fields[i].1)
  {
    var base := BaseContext(sourceType, generationDate, connectionText.value, analysisText.value.fields);
    MergeOverrides(base, effortText.value.fields, i);
  }

  /** Where the effort payload is silent, the context holds the procedure's own values. */
  lemma ContextBaseValues(effortText: Parsed, analysisText: Parsed, sourceType: string,
                          connectionText: Parsed, generationDate: string)
    requires DocumentContext(effortText, analysisText, sourceType, connectionText, generationDate).Ok?
    ensures var ctx := DocumentContext(effortText, analysisText, sourceType, connectionText, generationDate).value;
      var effort := effortText.value.fields;
      var analysis := analysisText.value.fields;
      && (!HasKey(effort, "source_type_display") ==> Get(ctx, "source_type_display") == Some(JStr(SourceTypeDisplay(sourceType))))
      && (!HasKey(effort, "objects") ==> Get(ctx, "objects") == Some(ObjectsFound(analysis)))
      && (!HasKey(effort, "all_schemas_summary") ==> Get(ctx, "all_schemas_summary") == Some(GetOr(analysis, "schemas_summary", JArr([]))))
      && (!HasKey(effort, "generation_date") ==> Get(ctx, "generation_date") == Some(JStr(generationDate)))
  {
    var base := BaseContext(sourceType, generationDate, connectionText.value, analysisText.value.fields);
    BaseContextUnique(sourceType, generationDate, connectionText.value, analysisText.value.fields);
    GetAt(base, 1);
    GetAt(base, 2);
    GetAt(base, 4);
    GetAt(base, 5);
  }
}

/**
 * The effort stage as a stored procedure: it parses the analysis payload,
 * picks the object counts out of it, runs the effort calculator and answers
 * with the estimate, or with an `error` object.
 */
module EffortProcedure {
  import opened Wrappers
  import opened Json
  import opened EffortCalculator

  const MissingCountsMessage: string :=
    "Invalid analysis_results_json: 'total_objects' key with object counts dictionary is missing or not a dict."
  const InvalidJsonPrefix: string := "Invalid JSON in analysis_results_json: "
  const UnexpectedPrefix: string := "An unexpected error occurred in calculate_effort_sp: "

  /**
   * The object counts of the analysis payload: `total_objects` when it is a
   * dict (even an empty one), else the payload itself when its `tables` is
   * an int (a bool counts as one), else the `ValueError` message. A payload
   * that is not a dict fails at `.get`.
   */
  function ObjectCounts(analysis: Json): (r: Result<Fields, string>)
    ensures analysis.JObj? && Get(analysis.fields, "total_objects").Some? && Get(analysis.fields, "total_objects").value.JObj?
      ==> r == Ok(Get(analysis.fields, "total_objects").value.fields)
    ensures analysis.JObj? && !(Get(analysis.fields, "total_objects").Some? && Get(analysis.fields, "total_objects").value.JObj?)
      ==> r == if Get(analysis.fields, "tables").Some? && IsPyInt(Get(analysis.fields, "tables").value)
               then Ok(analysis.fields) else Err(MissingCountsMessage)
    ensures !analysis.JObj? ==> r.Err? && r.error != MissingCountsMessage
  {
    if !analysis.JObj? then Err(UnexpectedPrefix + "'" + TypeName(analysis) + "' object has no attribute 'get'")
    else
      var counts := Get(analysis.fields, "total_objects");
      if counts.Some? && counts.value.JObj? then Ok(counts.value.fields)
      else
        var tables := Get(analysis.fields, "tables");
        if tables.Some? && IsPyInt(tables.value) then Ok(analysis.fields)
        else Err(MissingCountsMessage)
  }

  /** The `TypeError` Python raises when the calculator multiplies and adds a count that is not an int. */
  function ArithmeticError(count: Json): string
  {
    if count.JStr? || count.JArr? then "unsupported operand type(s) for +=: 'int' and '" + TypeName(count) + "'"
    else "unsupported operand type(s) for *: '" + TypeName(count) + "' and 'int'"
  }

  /**
   * The counts the calculator reads: the recognised entries with their
   * integer values, or the error the first recognised non-int count raises.
   * Unrecognised entries are never read, whatever they hold.
   */
  function CountsOf(fields: Fields): (r: Result<Counts, string>)
    ensures r.Ok? <==> forall i :: 0 <= i < |fields| && fields[i].0 in EffortMultipliers ==> IsPyInt(fields[i].1)
    ensures r.Ok? ==> |r.value| <= |fields| && forall j :: 0 <= j < |r.value| ==> r.value[j].0 in EffortMultipliers
  {
    if |fields| == 0 then Ok([])
    else
      var front := fields[..|fields| - 1];
      var last := fields[|fields| - 1];
      var rest := CountsOf(front);
      assert forall i :: 0 <= i < |front| ==> front[i] == fields[i];
      if rest.Err? then rest
      else if last.0 !in EffortMultipliers then rest
      else if !IsPyInt(last.1) then Err(ArithmeticError(last.1))
      else Ok(rest.value + [(last.0, PyIntValue(last.1))])
  }

  /** A dict of plain integer counts reads as itself. */
  lemma {:induction false} CountsOfIntegers(objects: Counts)
    ensures CountsOf(AsFields(objects)) == Ok(Recognised(objects))
  {
    if |objects| > 0 {
      var front := objects[..|objects| - 1];
      CountsOfIntegers(front);
      assert AsFields(objects)[..|objects| - 1] == AsFields(front);
    }
  }

  function AsFields(objects: Counts): (r: Fields)
    ensures |r| == |objects| && forall i :: 0 <= i < |objects| ==> r[i] == (objects[i].0, JInt(objects[i].1))
  {
    seq(|objects|, i requires 0 <= i < |objects| => (objects[i].0, JInt(objects[i].1)))
  }

  function StringsJson(items: seq<string>): Json
  {
    JArr(seq(|items|, i requires 0 <= i < |items| => JStr(items[i])))
  }

  function EffortJson(effort: ObjectEffort): Json
  {
    JObj([("count", JInt(effort.count)), ("hours_per_object", JInt(effort.hoursPerObject)),
          ("total_hours", JInt(effort.totalHours))])
  }

  function EffortsJson(efforts: seq<(string, ObjectEffort)>): (r: Fields)
    ensures |r| == |efforts| && forall i :: 0 <= i < |efforts| ==> r[i] == (efforts[i].0, EffortJson(efforts[i].1))
  {
    seq(|efforts|, i requires 0 <= i < |efforts| => (efforts[i].0, EffortJson(efforts[i].1)))
  }

  /** The estimate as the procedure serialises it. */
  function EstimateJson(e: EffortEstimate): Json
  {
    JObj([("total_hours", JInt(e.totalHours)),
          ("complexity", JStr(e.complexity.Name())),
          ("object_efforts", JObj(EffortsJson(e.objectEfforts))),
          ("risks", StringsJson(e.risks)),
          ("recommendations", StringsJson(e.recommendations)),
          ("business_value_add", StringsJson(e.businessValueAdd))])
  }

  /**
   * `calculate_effort_sp`. The target kind defaults to `snowflake` and, as
   * the contract shows, has no part in the answer.
   */
  function CalculateEffortProcedure(sourceType: string, analysisText: Parsed, targetType: string := "snowflake"): (r: Json)
    ensures analysisText.Malformed? ==> r == ErrorObject(InvalidJsonPrefix + analysisText.detail)
    ensures analysisText.Parsed? && ObjectCounts(analysisText.value).Err? ==> r == ErrorObject(ObjectCounts(analysisText.value).error)
    ensures analysisText.Parsed? && ObjectCounts(analysisText.value).Ok? ==>
      var counts := CountsOf(ObjectCounts(analysisText.value).value);
      r == if counts.Ok? then EstimateJson(MigrationEffort(sourceType, counts.value))
           else ErrorObject(UnexpectedPrefix + counts.error)
  {
    if analysisText.Malformed? then ErrorObject(InvalidJsonPrefix + analysisText.detail)
    else
      match ObjectCounts(analysisText.value)
      case Err(message) => ErrorObject(message)
      case Ok(fields) =>
        match CountsOf(fields)
        case Err(message) => ErrorObject(UnexpectedPrefix + message)
        case Ok(counts) => EstimateJson(MigrationEffort(sourceType, counts))
  }

  /** An empty `total_objects` dict is accepted: no hours, a Low estimate. */
  lemma EmptyCountsAccepted(sourceType: string, rest: Fields)
    ensures var analysis := JObj([("total_objects", JObj([]))] + rest);
      var r := CalculateEffortProcedure(sourceType, Parsed(analysis));
      Get(r.fields, "total_hours") == Some(JInt(0)) && Get(r.fields, "complexity") == Some(JStr("Low"))
  {
    var analysis := JObj([("total_objects", JObj([]))] + rest);
    assert Get(analysis.fields, "total_objects") == Some(JObj([]));
  }

  /** A payload that is itself the counts, with `tables` anywhere among them, gives the estimate of those counts. */
  lemma RootCountsUsed(sourceType: string, objects: Counts)
    requires exists i :: 0 <= i < |objects| && objects[i].0 == "tables"
    requires forall i :: 0 <= i < |objects| ==> objects[i].0 != "total_objects"
    ensures CalculateEffortProcedure(sourceType, Parsed(JObj(AsFields(objects))))
         == EstimateJson(MigrationEffort(sourceType, objects))
  {
    var fields := AsFields(objects);
    var t :| 0 <= t < |objects| && objects[t].0 == "tables";
    assert Keys(fields)[t] == "tables";
    assert !HasKey(fields, "total_objects");
    GetStored(fields, "tables");
    var i :| 0 <= i < |fields| && fields[i] == ("tables", Get(fields, "tables").value);
    assert Get(fields, "tables") == Some(JInt(objects[i].1));
    assert ObjectCounts(JObj(fields)) == Ok(fields);
    CountsOfIntegers(objects);
    OnlyRecognisedMatters(objects);
    assert MigrationEffort(sourceType, Recognised(objects)) == MigrationEffort(sourceType, objects);
  }
}

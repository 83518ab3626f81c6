/**
 * How the effort stage's output meets the document stage's table filter:
 * the `object_efforts` dict the effort procedure serialises always renders.
 */
module Pipeline {
  import opened Wrappers
  import opened Json
  import opened EffortCalculator
  import opened EffortProcedure
  import opened Document

  /** One serialised effort entry has an int count and formats into a row (or no row) without an exception. */
  lemma EffortEntryFormats(entry: (string, ObjectEffort))
    ensures EntryRow((entry.0, EffortJson(entry.1))).Ok?
    ensures EntryRow((entry.0, EffortJson(entry.1))).value.Some? <==> entry.1.count > 0
  {
    var f := EffortJson(entry.1).fields;
    assert f[1..] == [("hours_per_object", JInt(entry.1.hoursPerObject)), ("total_hours", JInt(entry.1.totalHours))];
    assert f[1..][1..] == [("total_hours", JInt(entry.1.totalHours))];
    assert "count" != "total_hours" && "hours_per_object" != "total_hours" && "count" != "hours_per_object";
    assert Get(f[1..][1..], "total_hours") == Some(JInt(entry.1.totalHours));
    assert Get(f[1..], "total_hours") == Some(JInt(entry.1.totalHours));
    assert Get(f[1..], "hours_per_object") == Some(JInt(entry.1.hoursPerObject));
  }

  /** The rows of a serialised breakdown never hit an exception: at most one row per entry, none when no count is positive. */
  lemma {:induction false} EffortRowsSucceed(efforts: seq<(string, ObjectEffort)>)
    ensures Rows(EffortsJson(efforts)).Ok?
    ensures |Rows(EffortsJson(efforts)).value| <= |efforts|
    ensures (forall i :: 0 <= i < |efforts| ==> efforts[i].1.count <= 0) ==> Rows(EffortsJson(efforts)) == Ok([])
  {
    if |efforts| > 0 {
      var n := |efforts|;
      assert EffortsJson(efforts)[..n - 1] == EffortsJson(efforts[..n - 1]);
      EffortRowsSucceed(efforts[..n - 1]);
      EffortEntryFormats(efforts[n - 1]);
    }
  }

  /**
   * Whatever the estimate, the table filter applied to the `object_efforts`
   * of its serialised form gives text, never an exception.
   */
  lemma EstimateTableRenders(e: EffortEstimate)
    ensures Get(EstimateJson(e).fields, "object_efforts") == Some(JObj(EffortsJson(e.objectEfforts)))
    ensures ObjectEffortsTable(JObj(EffortsJson(e.objectEfforts))).Ok?
  {
    var f := EstimateJson(e).fields;
    var breakdown := JObj(EffortsJson(e.objectEfforts));
    assert f[1..][1..][0] == ("object_efforts", breakdown);
    assert "total_hours" != "object_efforts" && "complexity" != "object_efforts";
    assert Get(f[1..][1..], "object_efforts") == Some(breakdown);
    assert Get(f[1..], "object_efforts") == Some(breakdown);
    EffortRowsSucceed(e.objectEfforts);
  }

  /** So the document built from any effort-procedure answer that is an estimate renders its table. */
  lemma ProcedureTableRenders(sourceType: string, analysisText: Parsed)
    requires analysisText.Parsed? && ObjectCounts(analysisText.value).Ok?
    requires CountsOf(ObjectCounts(analysisText.value).value).Ok?
    ensures var output := CalculateEffortProcedure(sourceType, analysisText);
      && Get(output.fields, "object_efforts").Some?
      && ObjectEffortsTable(Get(output.fields, "object_efforts").value).Ok?
  {
    EstimateTableRenders(MigrationEffort(sourceType, CountsOf(ObjectCounts(analysisText.value).value).value));
  }
}

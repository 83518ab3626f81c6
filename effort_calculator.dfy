/**
 * The effort calculator: object counts and a source kind in, an effort
 * estimate out. Each recognised object type costs a fixed number of hours
 * per object; the sum is classified Low, Medium or High; and the risks,
 * recommendations and business-value points are assembled from fixed texts.
 */
module EffortCalculator {
  import opened Collections
  import opened EffortTexts

  /** Hours of work per object, for the object types the calculator recognises. */
  const EffortMultipliers: map<string, nat> :=
    map["tables" := 2, "views" := 1, "procedures" := 4, "functions" := 3]

  /** Declared beside the other two thresholds but never consulted. */
  const LowThreshold: int := 50
  const MediumThreshold: int := 100
  const HighThreshold: int := 200

  datatype Complexity = Low | Medium | High
  {
    /** The text the estimate carries under `complexity`. */
    function Name(): string
    {
      match this
      case Low => "Low"
      case Medium => "Medium"
      case High => "High"
    }

    function Rank(): nat
    {
      match this
      case Low => 0
      case Medium => 1
      case High => 2
    }
  }

  /** The object counts a caller passes in: a dict from object type to count. */
  type Counts = seq<(string, int)>

  datatype ObjectEffort = ObjectEffort(count: int, hoursPerObject: nat, totalHours: int)

  datatype EffortEstimate = EffortEstimate(
    totalHours: int,
    complexity: Complexity,
    objectEfforts: seq<(string, ObjectEffort)>,
    risks: seq<string>,
    recommendations: seq<string>,
    businessValueAdd: seq<string>)

  // ---------------------------------------------------------------------
  // Hours and per-type efforts, as functions of the counts
  // ---------------------------------------------------------------------

  /** What one `(type, count)` pair adds to the total: nothing for an unrecognised type. */
  function EntryHours(entry: (string, int)): int
  {
    if entry.0 in EffortMultipliers then entry.1 * EffortMultipliers[entry.0] else 0
  }

  /** The sum of `count × multiplier` over the recognised entries. */
  function HoursOf(objects: Counts): int
  {
    if |objects| == 0 then 0 else HoursOf(objects[..|objects| - 1]) + EntryHours(objects[|objects| - 1])
  }

  /** The per-type breakdown: one entry per recognised type, in input order. */
  function EffortsOf(objects: Counts): (efforts: seq<(string, ObjectEffort)>)
    ensures |efforts| <= |objects|
    ensures forall j :: 0 <= j < |efforts| ==>
      && efforts[j].0 in EffortMultipliers
      && efforts[j].1.hoursPerObject == EffortMultipliers[efforts[j].0]
      && efforts[j].1.totalHours == efforts[j].1.count * efforts[j].1.hoursPerObject
      && (efforts[j].0, efforts[j].1.count) in objects
  {
    if |objects| == 0 then []
    else
      var last := objects[|objects| - 1];
      var front := EffortsOf(objects[..|objects| - 1]);
      assert forall p :: p in objects[..|objects| - 1] ==> p in objects;
      if last.0 in EffortMultipliers then
        var m := EffortMultipliers[last.0];
        front + [(last.0, ObjectEffort(last.1, m, last.1 * m))]
      else front
  }

  /** The sum of the entries' `total_hours`. */
  function SumTotals(efforts: seq<(string, ObjectEffort)>): int
  {
    if |efforts| == 0 then 0 else SumTotals(efforts[..|efforts| - 1]) + efforts[|efforts| - 1].1.totalHours
  }

  lemma SumTotalsAppend(efforts: seq<(string, ObjectEffort)>, more: seq<(string, ObjectEffort)>)
    ensures SumTotals(efforts + more) == SumTotals(efforts) + SumTotals(more)
    decreases |more|
  {
    if |more| == 0 {
      assert efforts + more == efforts;
    } else {
      assert (efforts + more)[..|efforts + more| - 1] == efforts + more[..|more| - 1];
      assert (efforts + more)[|efforts + more| - 1] == more[|more| - 1];
      SumTotalsAppend(efforts, more[..|more| - 1]);
    }
  }

  /** The estimate's `total_hours` is the sum of the per-type `total_hours`. */
  lemma {:induction false} HoursAreSumOfEfforts(objects: Counts)
    ensures HoursOf(objects) == SumTotals(EffortsOf(objects))
  {
    if |objects| > 0 {
      var front := objects[..|objects| - 1];
      HoursAreSumOfEfforts(front);
      var last := objects[|objects| - 1];
      if last.0 in EffortMultipliers {
        var m := EffortMultipliers[last.0];
        SumTotalsAppend(EffortsOf(front), [(last.0, ObjectEffort(last.1, m, last.1 * m))]);
        assert SumTotals([(last.0, ObjectEffort(last.1, m, last.1 * m))]) == last.1 * m;
      }
    }
  }

  /** Every recognised input entry has its per-type effort entry. */
  lemma {:induction false} RecognisedEntryHasEffort(objects: Counts, i: nat)
    requires i < |objects| && objects[i].0 in EffortMultipliers
    ensures var m := EffortMultipliers[objects[i].0];
      (objects[i].0, ObjectEffort(objects[i].1, m, objects[i].1 * m)) in EffortsOf(objects)
  {
    var front := objects[..|objects| - 1];
    if i < |objects| - 1 {
      assert front[i] == objects[i];
      RecognisedEntryHasEffort(front, i);
    }
  }

  /** An entry of an unrecognised type adds no hours and no effort entry, wherever it sits. */
  lemma {:induction false} UnrecognisedEntryIgnored(before: Counts, entry: (string, int), after: Counts)
    requires entry.0 !in EffortMultipliers
    ensures HoursOf(before + [entry] + after) == HoursOf(before + after)
    ensures EffortsOf(before + [entry] + after) == EffortsOf(before + after)
    decreases |after|
  {
    if |after| == 0 {
      assert before + [entry] + after == before + [entry];
      assert (before + [entry])[..|before|] == before;
      assert before + after == before;
    } else {
      var init := after[..|after| - 1];
      UnrecognisedEntryIgnored(before, entry, init);
      var x := before + [entry] + after;
      var y := before + after;
      assert x[..|x| - 1] == before + [entry] + init;
      assert y[..|y| - 1] == before + init;
      assert x[|x| - 1] == after[|after| - 1] == y[|y| - 1];
    }
  }

  /** The entries of a recognised type, in input order. */
  function Recognised(objects: Counts): (r: Counts)
    ensures |r| <= |objects|
    ensures forall j :: 0 <= j < |r| ==> r[j].0 in EffortMultipliers && r[j] in objects
  {
    if |objects| == 0 then []
    else
      var front := Recognised(objects[..|objects| - 1]);
      assert forall p :: p in objects[..|objects| - 1] ==> p in objects;
      if objects[|objects| - 1].0 in EffortMultipliers then front + [objects[|objects| - 1]] else front
  }

  /** Only the recognised entries matter: dropping the others changes neither hours nor breakdown. */
  lemma {:induction false} OnlyRecognisedMatters(objects: Counts)
    ensures HoursOf(Recognised(objects)) == HoursOf(objects)
    ensures EffortsOf(Recognised(objects)) == EffortsOf(objects)
  {
    if |objects| > 0 {
      var front := objects[..|objects| - 1];
      var last := objects[|objects| - 1];
      OnlyRecognisedMatters(front);
      if last.0 in EffortMultipliers {
        var r := Recognised(front) + [last];
        assert r[..|r| - 1] == Recognised(front);
      }
    }
  }

  // ---------------------------------------------------------------------
  // Complexity
  // ---------------------------------------------------------------------

  /** The step function over the total hours, tried from High down. */
  function ComplexityOf(totalHours: int): (c: Complexity)
    ensures c == High <==> totalHours >= 200
    ensures c == Medium <==> 100 <= totalHours < 200
    ensures c == Low <==> totalHours < 100
  {
    if totalHours >= HighThreshold then High
    else if totalHours >= MediumThreshold then Medium
    else Low
  }

  /** More hours never give a lower tier. */
  lemma ComplexityMonotonic(h1: int, h2: int)
    requires h1 <= h2
    ensures ComplexityOf(h1).Rank() <= ComplexityOf(h2).Rank()
  {
  }

  // ---------------------------------------------------------------------
  // Risks, recommendations and business value
  // ---------------------------------------------------------------------

  /** The source kinds with their own risks and recommendations. */
  predicate HasKindRisks(sourceType: string)
  {
    sourceType == "oracle" || sourceType == "sqlserver" || sourceType == "postgresql"
    || sourceType == "teradata" || sourceType == "databricks"
  }

  function KindRisks(sourceType: string): (r: seq<string>)
    ensures |r| == if HasKindRisks(sourceType) then 3 else 0
  {
    if sourceType == "oracle" then OracleRisks
    else if sourceType == "sqlserver" then SqlServerRisks
    else if sourceType == "postgresql" then PostgresRisks
    else if sourceType == "teradata" then TeradataRisks
    else if sourceType == "databricks" then DatabricksRisks
    else []
  }

  function KindRecommendations(sourceType: string): (r: seq<string>)
    ensures |r| == if HasKindRisks(sourceType) then 3 else 0
  {
    if sourceType == "oracle" then OracleRecommendations
    else if sourceType == "sqlserver" then SqlServerRecommendations
    else if sourceType == "postgresql" then PostgresRecommendations
    else if sourceType == "teradata" then TeradataRecommendations
    else if sourceType == "databricks" then DatabricksRecommendations
    else []
  }

  /**
   * The risks: the five baseline ones, then the three of the source kind
   * when it has some, then the three High extras when the tier is High.
   */
  function Risks(sourceType: string, complexity: Complexity): (r: seq<string>)
    ensures |r| == 5 + (if HasKindRisks(sourceType) then 3 else 0) + (if complexity == High then 3 else 0)
    ensures r[..5] == BaselineRisks
    ensures r[5..5 + |KindRisks(sourceType)|] == KindRisks(sourceType)
    ensures complexity == High ==> r[|r| - 3..] == HighComplexityRisks
  {
    BaselineRisks + KindRisks(sourceType) + (if complexity == High then HighComplexityRisks else [])
  }

  /** The recommendations, laid out like the risks. */
  function Recommendations(sourceType: string, complexity: Complexity): (r: seq<string>)
    ensures |r| == 5 + (if HasKindRisks(sourceType) then 3 else 0) + (if complexity == High then 3 else 0)
    ensures r[..5] == BaselineRecommendations
    ensures r[5..5 + |KindRecommendations(sourceType)|] == KindRecommendations(sourceType)
    ensures complexity == High ==> r[|r| - 3..] == HighComplexityRecommendations
  {
    BaselineRecommendations + KindRecommendations(sourceType)
      + (if complexity == High then HighComplexityRecommendations else [])
  }

  /** `generate_risks`: the baseline list, extended in place. */
  method GenerateRisks(sourceType: string, targetType: string, complexity: Complexity) returns (risks: seq<string>)
    ensures risks == Risks(sourceType, complexity)
  {
    risks := BaselineRisks;
    if sourceType == "oracle" {
      risks := risks + OracleRisks;
    } else if sourceType == "sqlserver" {
      risks := risks + SqlServerRisks;
    } else if sourceType == "postgresql" {
      risks := risks + PostgresRisks;
    } else if sourceType == "teradata" {
      risks := risks + TeradataRisks;
    } else if sourceType == "databricks" {
      risks := risks + DatabricksRisks;
    }
    if complexity == High {
      risks := risks + HighComplexityRisks;
    }
  }

  /** `generate_recommendations`: the baseline list, extended in place. */
  method GenerateRecommendations(sourceType: string, targetType: string, complexity: Complexity)
    returns (recommendations: seq<string>)
    ensures recommendations == Recommendations(sourceType, complexity)
  {
    recommendations := BaselineRecommendations;
    if sourceType == "oracle" {
      recommendations := recommendations + OracleRecommendations;
    } else if sourceType == "sqlserver" {
      recommendations := recommendations + SqlServerRecommendations;
    } else if sourceType == "postgresql" {
      recommendations := recommendations + PostgresRecommendations;
    } else if sourceType == "teradata" {
      recommendations := recommendations + TeradataRecommendations;
    } else if sourceType == "databricks" {
      recommendations := recommendations + DatabricksRecommendations;
    }
    if complexity == High {
      recommendations := recommendations + HighComplexityRecommendations;
    }
  }

  /** The source kinds with their own business-value points. */
  predicate HasKindBenefits(sourceType: string)
  {
    HasKindRisks(sourceType) || sourceType == "snowflake"
  }

  function SpecificBenefits(sourceType: string): (r: seq<string>)
    ensures |r| == if HasKindBenefits(sourceType) then 3 else 2
  {
    if sourceType == "oracle" then OracleBenefits
    else if sourceType == "sqlserver" then SqlServerBenefits
    else if sourceType == "postgresql" then PostgresBenefits
    else if sourceType == "teradata" then TeradataBenefits
    else if sourceType == "databricks" then DatabricksBenefits
    else if sourceType == "snowflake" then SnowflakeBenefits
    else GenericBenefits
  }

  /**
   * `generate_business_value_add`: at most three source-specific points,
   * then at most four of the common ones that are not among them. No
   * common point repeats a specific one, so the result is the specific
   * points followed by the first four common ones.
   */
  function BusinessValueAdd(sourceType: string): (r: seq<string>)
    ensures |r| == if HasKindBenefits(sourceType) then 7 else 6
    ensures r == SpecificBenefits(sourceType) + CommonBenefits[..4]
    ensures NoDuplicates(r)
  {
    var specific := SpecificBenefits(sourceType);
    CommonBenefitsAreNotSpecific(sourceType);
    WithoutDisjoint(CommonBenefits, specific);
    Take(specific, 3) + Take(Without(CommonBenefits, specific), 4)
  }

  /** None of the common points repeats a source-specific one, and no list repeats itself. */
  lemma CommonBenefitsAreNotSpecific(sourceType: string)
    ensures forall i :: 0 <= i < |CommonBenefits| ==> CommonBenefits[i] !in SpecificBenefits(sourceType)
    ensures NoDuplicates(SpecificBenefits(sourceType) + CommonBenefits[..4])
  {
  }

  // ---------------------------------------------------------------------
  // The whole estimate
  // ---------------------------------------------------------------------

  /** `calculate_migration_effort`, as a function of the source kind and the counts alone. */
  function MigrationEffort(sourceType: string, objects: Counts): EffortEstimate
  {
    var hours := HoursOf(objects);
    var complexity := ComplexityOf(hours);
    EffortEstimate(hours, complexity, EffortsOf(objects),
      Risks(sourceType, complexity), Recommendations(sourceType, complexity), BusinessValueAdd(sourceType))
  }

  /**
   * `calculate_migration_effort`: one pass over the counts accumulating the
   * hours and the per-type entries. The input is a dict, so an inserted key
   * is always new and the insertion appends. The target kind is accepted
   * and plays no part in the result.
   */
  method CalculateMigrationEffort(sourceType: string, targetType: string, objects: Counts)
    returns (estimate: EffortEstimate)
    ensures estimate == MigrationEffort(sourceType, objects)
  {
    var objectEfforts: seq<(string, ObjectEffort)> := [];
    var totalHours := 0;
    var i := 0;
    while i < |objects|
      invariant 0 <= i <= |objects|
      invariant totalHours == HoursOf(objects[..i])
      invariant objectEfforts == EffortsOf(objects[..i])
    {
      var (objType, count) := objects[i];
      assert objects[..i + 1][..i] == objects[..i];
      if objType in EffortMultipliers {
        var effort := count * EffortMultipliers[objType];
        objectEfforts := objectEfforts + [(objType, ObjectEffort(count, EffortMultipliers[objType], effort))];
        totalHours := totalHours + effort;
      }
      i := i + 1;
    }
    assert objects[..i] == objects;

    var complexity := Low;
    if totalHours >= HighThreshold {
      complexity := High;
    } else if totalHours >= MediumThreshold {
      complexity := Medium;
    }

    var risks := GenerateRisks(sourceType, targetType, complexity);
    var recommendations := GenerateRecommendations(sourceType, targetType, complexity);
    estimate := EffortEstimate(totalHours, complexity, objectEfforts, risks, recommendations,
      BusinessValueAdd(sourceType));
  }

  /** The worked example: 100 tables, 50 views, 20 procedures and 10 functions are 360 hours, High. */
  lemma ExampleEstimate()
    ensures var objects := [("tables", 100), ("views", 50), ("procedures", 20), ("functions", 10)];
      HoursOf(objects) == 360 && ComplexityOf(HoursOf(objects)) == High && |EffortsOf(objects)| == 4
  {
    var objects := [("tables", 100), ("views", 50), ("procedures", 20), ("functions", 10)];
    assert objects[..3] == [("tables", 100), ("views", 50), ("procedures", 20)];
    assert objects[..3][..2] == [("tables", 100), ("views", 50)];
    assert objects[..3][..2][..1] == [("tables", 100)];
    assert HoursOf([("tables", 100)]) == 200 && |EffortsOf([("tables", 100)])| == 1;
    assert HoursOf(objects[..2]) == 250 && |EffortsOf(objects[..2])| == 2;
    assert HoursOf(objects[..3]) == 330 && |EffortsOf(objects[..3])| == 3;
  }

  /** No counts at all: nothing to migrate, a Low estimate. */
  lemma EmptyCountsEstimate(sourceType: string)
    ensures var e := MigrationEffort(sourceType, []);
      e.totalHours == 0 && e.complexity == Low && e.objectEfforts == []
  {
  }
}

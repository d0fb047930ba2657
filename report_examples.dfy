/**
  Scenarios for the coverage builder. Their inputs are the line facts implied
  by the measures ReportParserTest expects (one SetHits per line with 1 for
  covered and 0 for not covered, one SetConditions per line with branches),
  and their ensures state those measures. Further scenarios show refusal,
  the table switch and what a negative hit count does to the covered-line
  count.
 */
module ReportExamples {
  import opened LineMaps
  import opened CoverageMeasures

  /** A file with no line facts yields no measure. */
  method EmptyFile() returns (measures: seq<Measure>)
    ensures measures == []
  {
    var builder := new CustomCoverageMeasuresBuilder.Create();
    measures := builder.CreateMeasures();
  }

  /** Lines 2 (not covered), 3 and 5 (covered), no branches. */
  method FileWithoutBranch() returns (measures: seq<Measure>)
    ensures measures == [
      Measure(Metric(Default, LinesToCover), Count(3)),
      Measure(Metric(Default, UncoveredLines), Count(1)),
      Measure(Metric(Default, CoverageLineHitsData), LineData(map[2 := 0, 3 := 1, 5 := 1]))]
  {
    var builder := new CustomCoverageMeasuresBuilder.Create();
    var b := builder.SetHits(2, 0);
    assert builder.hitsByLine == map[2 := 0] && builder.totalCoveredLines == 0;
    b := builder.SetHits(3, 1);
    assert builder.hitsByLine == map[2 := 0, 3 := 1] && builder.totalCoveredLines == 1;
    b := builder.SetHits(5, 1);
    assert |builder.hitsByLine| == 3 by {
      assert builder.hitsByLine.Keys == {2, 3, 5};
    }
    assert builder.hitsByLine == map[2 := 0, 3 := 1, 5 := 1] && builder.totalCoveredLines == 2;
    assert builder.conditionsByLine == map[] && builder.metrics == Default;
    measures := builder.CreateMeasures();
    assert measures == measures[..3];
  }

  /** Lines 3 and 4, both covered, with 8 branches (7 covered) and 2 branches (none covered). */
  method FileWithBranches() returns (measures: seq<Measure>)
    ensures measures == [
      Measure(Metric(Default, LinesToCover), Count(2)),
      Measure(Metric(Default, UncoveredLines), Count(0)),
      Measure(Metric(Default, CoverageLineHitsData), LineData(map[3 := 1, 4 := 1])),
      Measure(Metric(Default, ConditionsToCover), Count(10)),
      Measure(Metric(Default, UncoveredConditions), Count(3)),
      Measure(Metric(Default, ConditionsByLine), LineData(map[3 := 8, 4 := 2])),
      Measure(Metric(Default, CoveredConditionsByLine), LineData(map[3 := 7, 4 := 0]))]
  {
    var builder := BranchesBuilder();
    measures := builder.CreateMeasures();
    assert |measures| == 7;
    assert measures[..3] == [
      Measure(Metric(Default, LinesToCover), Count(2)),
      Measure(Metric(Default, UncoveredLines), Count(0)),
      Measure(Metric(Default, CoverageLineHitsData), LineData(map[3 := 1, 4 := 1]))];
    assert measures[3..] == [
      Measure(Metric(Default, ConditionsToCover), Count(10)),
      Measure(Metric(Default, UncoveredConditions), Count(3)),
      Measure(Metric(Default, ConditionsByLine), LineData(map[3 := 8, 4 := 2])),
      Measure(Metric(Default, CoveredConditionsByLine), LineData(map[3 := 7, 4 := 0]))];
    assert measures == measures[..3] + measures[3..];
  }

  /** The builder state after the lines of the file with branches. */
  method BranchesBuilder() returns (builder: CustomCoverageMeasuresBuilder)
    ensures fresh(builder) && builder.Valid() && builder.metrics == Default
    ensures builder.hitsByLine == map[3 := 1, 4 := 1] && builder.totalCoveredLines == 2
    ensures builder.conditionsByLine == map[3 := 8, 4 := 2] && builder.coveredConditionsByLine == map[3 := 7, 4 := 0]
    ensures builder.totalConditions == 10 && builder.totalCoveredConditions == 7
    ensures |builder.hitsByLine| == 2
  {
    builder := new CustomCoverageMeasuresBuilder.Create();
    var b := builder.SetHits(3, 1);
    assert builder.hitsByLine == map[3 := 1] && builder.totalCoveredLines == 1;
    var c := builder.SetConditions(3, 8, 7);
    assert builder.conditionsByLine == map[3 := 8] && builder.coveredConditionsByLine == map[3 := 7];
    assert builder.totalConditions == 8 && builder.totalCoveredConditions == 7;
    b := builder.SetHits(4, 1);
    assert builder.hitsByLine == map[3 := 1, 4 := 1] && builder.totalCoveredLines == 2;
    c := builder.SetConditions(4, 2, 0);
    assert |builder.hitsByLine| == 2 by {
      assert builder.hitsByLine.Keys == {3, 4};
    }
  }

  /** Two branch facts for one line with different totals: the second is
      refused and the first one's state stays as it was. */
  method ConflictingBranchTotals() returns (refused: bool, conditions: map<int, int>, covered: map<int, int>,
                                             total: int, coveredTotal: int)
    ensures refused
    ensures conditions == map[3 := 8] && covered == map[3 := 7]
    ensures total == 8 && coveredTotal == 7
  {
    var builder := new CustomCoverageMeasuresBuilder.Create();
    var c := builder.SetConditions(3, 8, 7);
    c := builder.SetConditions(3, 2, 1);
    refused := c == null;
    conditions, covered := builder.GetConditionsByLine(), builder.GetCoveredConditionsByLine();
    total, coveredTotal := builder.GetConditions(), builder.GetCoveredConditions();
  }

  /** Repeated branch facts with one total: the covered count is the largest
      seen and the covered total rises only by what a new maximum adds. */
  method RepeatedBranchFacts() returns (covered: map<int, int>, coveredTotal: int)
    ensures covered == map[3 := 5] && coveredTotal == 5
  {
    var builder := new CustomCoverageMeasuresBuilder.Create();
    var c := builder.SetConditions(3, 8, 2);
    assert builder.coveredConditionsByLine == map[3 := 2] && builder.totalCoveredConditions == 2;
    c := builder.SetConditions(3, 8, 5);
    assert builder.coveredConditionsByLine == map[3 := 5] && builder.totalCoveredConditions == 5;
    c := builder.SetConditions(3, 8, 4);
    covered, coveredTotal := builder.GetCoveredConditionsByLine(), builder.GetCoveredConditions();
  }

  /** The integration-test table, once chosen, is kept by a later SetIT(false). */
  method IntegrationTestFile() returns (measures: seq<Measure>)
    ensures measures == [
      Measure(Metric(IntegrationTest, LinesToCover), Count(1)),
      Measure(Metric(IntegrationTest, UncoveredLines), Count(0)),
      Measure(Metric(IntegrationTest, CoverageLineHitsData), LineData(map[1 := 1]))]
  {
    var builder := new CustomCoverageMeasuresBuilder.Create();
    var b := builder.SetIT(true);
    b := builder.SetHits(1, 1);
    b := builder.SetIT(false);
    assert builder.hitsByLine == map[1 := 1] && builder.totalCoveredLines == 1;
    assert builder.conditionsByLine == map[] && builder.metrics == IntegrationTest;
    measures := builder.CreateMeasures();
    assert measures == measures[..3];
  }

  /** A negative hit count followed by a positive one leaves the line covered
      but uncounted: the covered-line count is exact only for non-negative hits. */
  method NegativeHitsMiscount() returns (coveredLines: int, hits: map<int, int>)
    ensures coveredLines == 0 && hits == map[7 := 1]
    ensures |CoveredLines(hits)| == 1
  {
    var builder := new CustomCoverageMeasuresBuilder.Create();
    var b := builder.SetHits(7, -1);
    b := builder.SetHits(7, 1);
    coveredLines, hits := builder.GetCoveredLines(), builder.GetHitsByLine();
    assert CoveredLines(hits) == {7};
  }
}

/**
  The per-file coverage aggregator: it merges line hits and per-line branch
  counts reported for one source file into three line-keyed maps and three
  running totals, and turns them into the measures saved for that file.
 */
module CoverageMeasures {
  import opened LineMaps

  /** The two metric tables: ordinary coverage or integration-test coverage. */
  datatype Family = Default | IntegrationTest

  /** The seven metrics a builder can emit, before a table is chosen. */
  datatype MetricKind =
    | LinesToCover
    | UncoveredLines
    | CoverageLineHitsData
    | ConditionsToCover
    | UncoveredConditions
    | CoveredConditionsByLine
    | ConditionsByLine

  /** The metric a kind is mapped to in one of the two tables. */
  datatype Metric = Metric(family: Family, kind: MetricKind)

  /** A measure carries either a number or a per-line data map (ascending by line). */
  datatype Payload = Count(value: int) | LineData(data: map<int, int>)

  datatype Measure = Measure(metric: Metric, payload: Payload)

  /** A branch count for a line that already has a different branch total. */
  predicate Conflicts(conditionsByLine: map<int, int>, line: int, conditions: int)
  {
    conditions > 0 && line in conditionsByLine && conditionsByLine[line] != conditions
  }

  /** What an accepted branch fact does to the two branch maps (the line's
      total is recorded, its covered count max-merged): the maps keep the same
      lines and positive totals, the sums move by exactly what the line gains,
      a known line's covered count never drops, and covered counts stay
      within their totals when the new fact lies within its own. */
  lemma BranchMerge(conditions: map<int, int>, covered: map<int, int>, line: int, total: int, coveredNow: int)
    requires conditions.Keys == covered.Keys
    requires Positive(conditions)
    requires total > 0 && !Conflicts(conditions, line, total)
    ensures conditions[line := total].Keys == MaxMerge(covered, line, coveredNow).Keys
    ensures Positive(conditions[line := total])
    ensures Sum(conditions[line := total]) == Sum(conditions) + (if line in conditions then 0 else total)
    ensures Sum(MaxMerge(covered, line, coveredNow))
         == Sum(covered) + MaxMerge(covered, line, coveredNow)[line] - (if line in covered then covered[line] else 0)
    ensures line in covered ==> MaxMerge(covered, line, coveredNow)[line] >= covered[line]
    ensures Bounded(covered, conditions) && 0 <= coveredNow <= total ==>
      Bounded(MaxMerge(covered, line, coveredNow), conditions[line := total])
  {
    SumUpdate(conditions, line, total);
    SumUpdate(covered, line, MaxMerge(covered, line, coveredNow)[line]);
    if line in conditions {
      assert conditions[line := total] == conditions;
    }
    if Bounded(covered, conditions) && 0 <= coveredNow <= total {
      BoundedMerge(covered, conditions, line, total, coveredNow);
    }
  }

  class CustomCoverageMeasuresBuilder {
    var totalCoveredLines: int
    var totalConditions: int
    var totalCoveredConditions: int
    var hitsByLine: map<int, int>
    var conditionsByLine: map<int, int>
    var coveredConditionsByLine: map<int, int>
    var metrics: Family

    /** What every builder keeps, whatever its callers pass in: the branch
        totals are the sums of the branch maps, both branch maps cover the same
        lines, every recorded branch total is positive, and the covered-line
        count never exceeds the number of lines with positive hits. */
    ghost predicate Valid()
      reads this
    {
      && 0 <= totalCoveredLines <= |CoveredLines(hitsByLine)|
      && conditionsByLine.Keys == coveredConditionsByLine.Keys
      && Positive(conditionsByLine)
      && totalConditions == Sum(conditionsByLine)
      && totalCoveredConditions == Sum(coveredConditionsByLine)
    }

    /** As long as no negative hit count was ever recorded, the covered-line
        count is exactly the number of lines with positive hits. */
    ghost predicate LinesConsistent()
      reads this
    {
      NonNegative(hitsByLine) && totalCoveredLines == |CoveredLines(hitsByLine)|
    }

    /** As long as every branch fact had 0 <= covered <= total, each line's
        covered branches lie between zero and its branch total. */
    ghost predicate ConditionsBounded()
      reads this
    {
      Bounded(coveredConditionsByLine, conditionsByLine)
    }

    /** An empty builder targeting the ordinary metric table. */
    constructor Create()
      ensures Valid() && LinesConsistent() && ConditionsBounded()
      ensures hitsByLine == map[] && conditionsByLine == map[] && coveredConditionsByLine == map[]
      ensures totalCoveredLines == 0 && totalConditions == 0 && totalCoveredConditions == 0
      ensures metrics == Default
    {
      totalCoveredLines, totalConditions, totalCoveredConditions := 0, 0, 0;
      hitsByLine, conditionsByLine, coveredConditionsByLine := map[], map[], map[];
      metrics := Default;
    }

    /** Records a hit count for a line by max-merge; the covered-line count
        rises by one when the line goes from unknown or zero hits to positive. */
    method SetHits(lineId: int, hits: int) returns (r: CustomCoverageMeasuresBuilder)
      requires Valid()
      modifies this
      ensures r == this && Valid()
      ensures hitsByLine == MaxMerge(old(hitsByLine), lineId, hits)
      ensures totalCoveredLines == old(totalCoveredLines) + (if BecomesCovered(old(hitsByLine), lineId, hits) then 1 else 0)
      ensures old(LinesConsistent()) && hits >= 0 ==> LinesConsistent()
      ensures old(ConditionsBounded()) ==> ConditionsBounded()
      ensures conditionsByLine == old(conditionsByLine) && coveredConditionsByLine == old(coveredConditionsByLine)
      ensures totalConditions == old(totalConditions) && totalCoveredConditions == old(totalCoveredConditions)
      ensures metrics == old(metrics)
    {
      CoveredLinesMerge(hitsByLine, lineId, hits);
      if lineId in hitsByLine {
        var oldValue := hitsByLine[lineId];
        hitsByLine := hitsByLine[lineId := Max(oldValue, hits)];
        if oldValue == 0 && hits > 0 {
          totalCoveredLines := totalCoveredLines + 1;
        }
      } else {
        hitsByLine := hitsByLine[lineId := hits];
        if hits > 0 {
          totalCoveredLines := totalCoveredLines + 1;
        }
      }
      r := this;
    }

    /** Records the branch total and covered branches of a line. A total of
        zero or less is ignored. A line already known with another total is
        refused (null) and nothing changes. Otherwise the covered count is
        max-merged and the running totals move by exactly what the maps gain. */
    method SetConditions(lineId: int, conditions: int, coveredConditions: int) returns (r: CustomCoverageMeasuresBuilder?)
      requires Valid()
      modifies this
      ensures Valid()
      ensures r == null <==> Conflicts(old(conditionsByLine), lineId, conditions)
      ensures r != null ==> r == this
      ensures hitsByLine == old(hitsByLine) && totalCoveredLines == old(totalCoveredLines) && metrics == old(metrics)
      ensures conditions <= 0 || r == null ==>
        && conditionsByLine == old(conditionsByLine)
        && coveredConditionsByLine == old(coveredConditionsByLine)
        && totalConditions == old(totalConditions)
        && totalCoveredConditions == old(totalCoveredConditions)
      ensures conditions > 0 && r != null ==>
        && conditionsByLine == old(conditionsByLine)[lineId := conditions]
        && coveredConditionsByLine == MaxMerge(old(coveredConditionsByLine), lineId, coveredConditions)
        && totalConditions == old(totalConditions) + (if lineId in old(conditionsByLine) then 0 else conditions)
        && totalCoveredConditions == old(totalCoveredConditions) + coveredConditionsByLine[lineId]
                                     - (if lineId in old(coveredConditionsByLine) then old(coveredConditionsByLine)[lineId] else 0)
      ensures lineId in old(coveredConditionsByLine) ==> totalCoveredConditions >= old(totalCoveredConditions)
      ensures old(LinesConsistent()) ==> LinesConsistent()
      ensures old(ConditionsBounded()) && (conditions > 0 ==> 0 <= coveredConditions <= conditions) ==> ConditionsBounded()
    {
      if conditions > 0 {
        var coveredNewValue: int;
        var totalCoveredDiff: int;
        if lineId in conditionsByLine {
          if conditions != conditionsByLine[lineId] {
            return null;
          }
          BranchMerge(conditionsByLine, coveredConditionsByLine, lineId, conditions, coveredConditions);
          var oldValue := coveredConditionsByLine[lineId];
          coveredNewValue := Max(oldValue, coveredConditions);
          AbsGainOfMax(oldValue, coveredConditions);
          totalCoveredDiff := Abs(oldValue - coveredNewValue);
        } else {
          BranchMerge(conditionsByLine, coveredConditionsByLine, lineId, conditions, coveredConditions);
          totalConditions := totalConditions + conditions;
          totalCoveredDiff := coveredConditions;
          conditionsByLine := conditionsByLine[lineId := conditions];
          coveredNewValue := coveredConditions;
        }
        coveredConditionsByLine := coveredConditionsByLine[lineId := coveredNewValue];
        totalCoveredConditions := totalCoveredConditions + totalCoveredDiff;
      }
      r := this;
    }

    /** The number of lines counted as covered. */
    function GetCoveredLines(): (n: int)
      reads this
      requires Valid()
      ensures 0 <= n <= GetLinesToCover()
      ensures LinesConsistent() ==> n == |CoveredLines(hitsByLine)|
    {
      totalCoveredLines
    }

    /** The number of distinct lines that received a hit count. */
    function GetLinesToCover(): (n: int)
      reads this
      ensures n == |hitsByLine.Keys|
      ensures n == 0 <==> hitsByLine == map[]
    {
      |hitsByLine|
    }

    /** The number of branches over all lines; positive exactly when some
        line has branches recorded. */
    function GetConditions(): (n: int)
      reads this
      requires Valid()
      ensures n == Sum(conditionsByLine)
      ensures n >= |conditionsByLine|
      ensures n > 0 <==> conditionsByLine != map[]
    {
      SumOfPositives(conditionsByLine);
      totalConditions
    }

    /** The number of covered branches over all lines. */
    function GetCoveredConditions(): (n: int)
      reads this
      requires Valid()
      ensures n == Sum(coveredConditionsByLine)
      ensures ConditionsBounded() ==> 0 <= n <= GetConditions()
    {
      assert ConditionsBounded() ==> 0 <= totalCoveredConditions <= totalConditions by {
        if ConditionsBounded() {
          SumWithin(coveredConditionsByLine, conditionsByLine);
        }
      }
      totalCoveredConditions
    }

    /** The hit count of every recorded line. */
    function GetHitsByLine(): (hits: map<int, int>)
      reads this
      requires Valid()
      ensures |hits| == GetLinesToCover()
      ensures |CoveredLines(hits)| >= GetCoveredLines()
      ensures LinesConsistent() ==> |CoveredLines(hits)| == GetCoveredLines()
    {
      hitsByLine
    }

    /** The branch total of every line with branches. */
    function GetConditionsByLine(): (conditions: map<int, int>)
      reads this
      requires Valid()
      ensures Sum(conditions) == GetConditions()
      ensures forall l :: l in conditions ==> conditions[l] > 0
      ensures conditions.Keys == coveredConditionsByLine.Keys
    {
      conditionsByLine
    }

    /** The covered branches of every line with branches. */
    function GetCoveredConditionsByLine(): (covered: map<int, int>)
      reads this
      requires Valid()
      ensures Sum(covered) == GetCoveredConditions()
      ensures covered.Keys == conditionsByLine.Keys
    {
      coveredConditionsByLine
    }

    /** The branch-totals data measure: every line with branches, with its total. */
    function CreateConditionsByLine(): (m: Measure)
      reads this
      requires Valid()
      ensures m.metric == Metric(metrics, ConditionsByLine) && m.payload.LineData?
      ensures Sum(m.payload.data) == totalConditions
      ensures Positive(m.payload.data) && m.payload.data.Keys == coveredConditionsByLine.Keys
    {
      Measure(Metric(metrics, ConditionsByLine), LineData(conditionsByLine))
    }

    /** The covered-branches data measure: every line with branches, with its covered count. */
    function CreateCoveredConditionsByLine(): (m: Measure)
      reads this
      requires Valid()
      ensures m.metric == Metric(metrics, CoveredConditionsByLine) && m.payload.LineData?
      ensures Sum(m.payload.data) == totalCoveredConditions
      ensures m.payload.data.Keys == conditionsByLine.Keys
    {
      Measure(Metric(metrics, CoveredConditionsByLine), LineData(coveredConditionsByLine))
    }

    /** The measures of this file, in the chosen table: the three line
        measures only when some line was recorded, the four branch measures
        only when some line has branches. */
    method CreateMeasures() returns (measures: seq<Measure>)
      requires Valid()
      ensures |measures| == (if hitsByLine != map[] then 3 else 0) + (if conditionsByLine != map[] then 4 else 0)
      ensures forall i :: 0 <= i < |measures| ==> measures[i].metric.family == metrics
      ensures hitsByLine != map[] ==> measures[..3] == [
        Measure(Metric(metrics, LinesToCover), Count(|hitsByLine|)),
        Measure(Metric(metrics, UncoveredLines), Count(|hitsByLine| - totalCoveredLines)),
        Measure(Metric(metrics, CoverageLineHitsData), LineData(hitsByLine))]
      ensures conditionsByLine != map[] ==> measures[|measures| - 4..] == [
        Measure(Metric(metrics, ConditionsToCover), Count(totalConditions)),
        Measure(Metric(metrics, UncoveredConditions), Count(totalConditions - totalCoveredConditions)),
        Measure(Metric(metrics, ConditionsByLine), LineData(conditionsByLine)),
        Measure(Metric(metrics, CoveredConditionsByLine), LineData(coveredConditionsByLine))]
      ensures forall i :: 0 <= i < |measures| && measures[i].payload.Count? && measures[i].metric.kind != UncoveredConditions ==>
        measures[i].payload.value >= 0
      ensures ConditionsBounded() ==> forall i :: 0 <= i < |measures| && measures[i].payload.Count? ==> measures[i].payload.value >= 0
    {
      measures := [];
      if GetLinesToCover() > 0 {
        measures := measures + [Measure(Metric(metrics, LinesToCover), Count(GetLinesToCover()))];
        measures := measures + [Measure(Metric(metrics, UncoveredLines), Count(GetLinesToCover() - GetCoveredLines()))];
        measures := measures + [Measure(Metric(metrics, CoverageLineHitsData), LineData(hitsByLine))];
      }
      if GetConditions() > 0 {
        measures := measures + [Measure(Metric(metrics, ConditionsToCover), Count(GetConditions()))];
        measures := measures + [Measure(Metric(metrics, UncoveredConditions), Count(GetConditions() - GetCoveredConditions()))];
        measures := measures + [CreateConditionsByLine()];
        measures := measures + [CreateCoveredConditionsByLine()];
      }
    }

    /** Switches to the integration-test table when asked to; never switches back. */
    method SetIT(isIT: bool) returns (r: CustomCoverageMeasuresBuilder)
      requires Valid()
      modifies this
      ensures r == this && Valid()
      ensures metrics == (if isIT then IntegrationTest else old(metrics))
      ensures hitsByLine == old(hitsByLine) && conditionsByLine == old(conditionsByLine)
      ensures coveredConditionsByLine == old(coveredConditionsByLine)
      ensures totalCoveredLines == old(totalCoveredLines) && totalConditions == old(totalConditions)
      ensures totalCoveredConditions == old(totalCoveredConditions)
      ensures old(LinesConsistent()) ==> LinesConsistent()
      ensures old(ConditionsBounded()) ==> ConditionsBounded()
    {
      if isIT {
        metrics := IntegrationTest;
      }
      r := this;
    }
  }
}

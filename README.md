# Generic coverage: the per-file measures builder

This project models `CustomCoverageMeasuresBuilder`, the aggregator of the
SonarQube generic coverage plugin. A report parser feeds it, for one source
file, a hit count per line and a branch count per line. The builder merges
these facts and then emits that file's coverage measures.

The builder keeps three line-keyed maps: `hitsByLine`, `conditionsByLine` and
`coveredConditionsByLine`. Beside them it keeps three running totals:
`totalCoveredLines`, `totalConditions` and `totalCoveredConditions`. It also
keeps a metric table, ordinary or integration-test. The model is a Dafny
class with those fields. Its methods update the fields in place, as the Java
methods do.

- `line_maps.dfy` (module `LineMaps`): the max-merge of one value into a line
  map, the sum of a map's values, and the set of lines with positive hits.
  It also holds the lemmas the running totals rest on.
- `measures_builder.dfy` (module `CoverageMeasures`): the metric kinds and
  tables, measures, and the class `CustomCoverageMeasuresBuilder`.
- `report_examples.dfy` (module `ReportExamples`): scenarios for the
  builder. Their inputs are the line facts implied by the measures that
  `ReportParserTest` expects. Each ensures states those measures, or shows
  one edge case.

The class keeps three invariants:

- `Valid()` holds whatever the callers pass in. Each branch total equals the
  sum of its map. Both branch maps have the same lines. Every recorded branch
  total is positive. `0 <= totalCoveredLines <=` the number of lines with
  positive hits.
- `LinesConsistent()`: no hit count is negative, and `totalCoveredLines` is
  exactly the number of lines with positive hits. `SetHits` keeps it when
  `hits >= 0`.
- `ConditionsBounded()`: every line's covered branches lie between 0 and the
  line's branch total. `SetConditions` keeps it when `0 <= covered <= total`.

The Java code checks neither `hits >= 0` nor `covered <= total`. So the model
takes neither as a precondition. Each is a hypothesis of the postcondition
that preserves the matching invariant. `ReportExamples.NegativeHitsMiscount`
shows the miscount: a negative hit count followed by a positive one leaves a
line covered but not counted.

Three further points about the code, which the model follows:

- The code does not enforce that a line's covered branches stay within its
  total. The model proves that bound only under `0 <= covered <= total`.
- The code ignores every branch total `<= 0`, not only a total of 0.
- The running totals are stored beside the maps. `Valid()` and
  `LinesConsistent()` prove that they stay in step with the maps.

## Model

| member | source | states |
|---|---|---|
| `LineMaps.MaxMerge` | src/main/java/org/sonar/plugins/coverage/generic/CustomCoverageMeasuresBuilder.java:71-78 | after a merge the map has the old lines plus the given one and no line is removed; other lines keep their values; a new line takes the value; a known line gets the larger of its old value and the new one |
| `LineMaps.MaxMergeIdempotent` | src/main/java/org/sonar/plugins/coverage/generic/CustomCoverageMeasuresBuilder.java:73 | merging the same hit count twice changes nothing the second time |
| `LineMaps.MaxMergeCommutes` | src/main/java/org/sonar/plugins/coverage/generic/CustomCoverageMeasuresBuilder.java:73 | two hit counts for one line give the same map in either order |
| `LineMaps.AbsGainOfMax` | src/main/java/org/sonar/plugins/coverage/generic/CustomCoverageMeasuresBuilder.java:94-96 | the absolute difference between a covered count and its max-merge is the merged value minus the old one, never negative |
| `LineMaps.CoveredLinesMerge` | src/main/java/org/sonar/plugins/coverage/generic/CustomCoverageMeasuresBuilder.java:71-82 | a hit merge never uncovers a line; when the line was unknown or at zero and the new count is positive, at least one more line is covered; with no negative hits, exactly one more line then and none otherwise |
| `LineMaps.SumUpdate` | src/main/java/org/sonar/plugins/coverage/generic/CustomCoverageMeasuresBuilder.java:98-104 | setting one line's value moves the sum of the map by exactly the difference it makes |
| `LineMaps.BoundedMerge` | src/main/java/org/sonar/plugins/coverage/generic/CustomCoverageMeasuresBuilder.java:94-103 | recording a line's matching total and max-merging a covered count in [0, total] keeps every covered count within its total |
| `LineMaps.SumWithin` | src/main/java/org/sonar/plugins/coverage/generic/CustomCoverageMeasuresBuilder.java:121-123 | when every covered count lies in [0, the line's total], the covered sum lies in [0, the sum of totals] |
| `LineMaps.SumOfPositives` | src/main/java/org/sonar/plugins/coverage/generic/CustomCoverageMeasuresBuilder.java:117-119 | over positive branch totals the sum is at least the number of lines, and positive exactly when some line is recorded |
| `CoverageMeasures.BranchMerge` | src/main/java/org/sonar/plugins/coverage/generic/CustomCoverageMeasuresBuilder.java:90-104 | an accepted branch fact keeps both maps on the same lines with positive totals, moves each sum by exactly what the line gains, never lowers a known line's covered count, and keeps covered counts within totals |
| `CoverageMeasures.CustomCoverageMeasuresBuilder.Create` | src/main/java/org/sonar/plugins/coverage/generic/CustomCoverageMeasuresBuilder.java:60-68 | a new builder has empty maps, zero totals and the ordinary metric table, and satisfies all three invariants |
| `CoverageMeasures.CustomCoverageMeasuresBuilder.SetHits` | src/main/java/org/sonar/plugins/coverage/generic/CustomCoverageMeasuresBuilder.java:70-84 | the hit map becomes its max-merge with the new count; the covered-line count rises by one exactly on a new positive line or a zero-to-positive change; branch state and table unchanged; `Valid` kept, and `LinesConsistent` kept for `hits >= 0` |
| `CoverageMeasures.CustomCoverageMeasuresBuilder.SetConditions` | src/main/java/org/sonar/plugins/coverage/generic/CustomCoverageMeasuresBuilder.java:86-107 | returns null exactly when the line is known with another positive total, changing nothing; a total `<= 0` changes nothing; otherwise the total is recorded, the covered count max-merged, `totalConditions` rises by the total only for a new line, and `totalCoveredConditions` rises by exactly the gain (never negative for a known line); the invariants are kept |
| `CoverageMeasures.CustomCoverageMeasuresBuilder.GetCoveredLines` | src/main/java/org/sonar/plugins/coverage/generic/CustomCoverageMeasuresBuilder.java:109-111 | between 0 and the lines to cover; equals the number of lines with positive hits while hits are non-negative |
| `CoverageMeasures.CustomCoverageMeasuresBuilder.GetLinesToCover` | src/main/java/org/sonar/plugins/coverage/generic/CustomCoverageMeasuresBuilder.java:113-115 | the number of distinct lines that received a hit count; zero exactly when none did |
| `CoverageMeasures.CustomCoverageMeasuresBuilder.GetConditions` | src/main/java/org/sonar/plugins/coverage/generic/CustomCoverageMeasuresBuilder.java:117-119 | the sum of the branch totals by line, at least the number of branch lines, positive exactly when some line has branches |
| `CoverageMeasures.CustomCoverageMeasuresBuilder.GetCoveredConditions` | src/main/java/org/sonar/plugins/coverage/generic/CustomCoverageMeasuresBuilder.java:121-123 | the sum of the covered branches by line; between 0 and the branch total when covered counts are within totals |
| `CoverageMeasures.CustomCoverageMeasuresBuilder.GetHitsByLine` | src/main/java/org/sonar/plugins/coverage/generic/CustomCoverageMeasuresBuilder.java:125-127 | has as many lines as there are lines to cover; at least as many positive lines as the covered-line count, exactly as many while hits are non-negative |
| `CoverageMeasures.CustomCoverageMeasuresBuilder.GetConditionsByLine` | src/main/java/org/sonar/plugins/coverage/generic/CustomCoverageMeasuresBuilder.java:129-131 | its values sum to the branch total, are all positive, and sit on the same lines as the covered-branch map |
| `CoverageMeasures.CustomCoverageMeasuresBuilder.GetCoveredConditionsByLine` | src/main/java/org/sonar/plugins/coverage/generic/CustomCoverageMeasuresBuilder.java:133-135 | its values sum to the covered-branch total, on the same lines as the branch map |
| `CoverageMeasures.CustomCoverageMeasuresBuilder.CreateConditionsByLine` | src/main/java/org/sonar/plugins/coverage/generic/CustomCoverageMeasuresBuilder.java:159-163 | a data measure of the branch-totals metric in the chosen table; its map's values are positive, sum to the branch total, and sit on the lines of the covered-branch map |
| `CoverageMeasures.CustomCoverageMeasuresBuilder.CreateCoveredConditionsByLine` | src/main/java/org/sonar/plugins/coverage/generic/CustomCoverageMeasuresBuilder.java:153-157 | a data measure of the covered-branches metric in the chosen table; its map's values sum to the covered-branch total, on the lines of the branch-totals map |
| `CoverageMeasures.CustomCoverageMeasuresBuilder.CreateMeasures` | src/main/java/org/sonar/plugins/coverage/generic/CustomCoverageMeasuresBuilder.java:137-163 | three line measures (lines to cover, uncovered lines, hit data) exactly when some line was recorded; four branch measures (branches to cover, uncovered branches, both by-line maps) exactly when some line has branches; each in the chosen table and in source order; line counts never negative; all counts non-negative when covered counts are within totals |
| `CoverageMeasures.CustomCoverageMeasuresBuilder.SetIT` | src/main/java/org/sonar/plugins/coverage/generic/CustomCoverageMeasuresBuilder.java:169-174 | `true` selects the integration-test table, `false` keeps the current one; maps and totals unchanged |
| `ReportExamples.EmptyFile` | src/test/java/org/sonar/plugins/coverage/generic/ReportParserTest.java:65-74 | a file with no line facts yields no measure |
| `ReportExamples.FileWithoutBranch` | src/test/java/org/sonar/plugins/coverage/generic/ReportParserTest.java:76-85 | lines 2 (uncovered), 3 and 5 (covered) yield 3 lines to cover, 1 uncovered, hits {2:0, 3:1, 5:1} |
| `ReportExamples.FileWithBranches` | src/test/java/org/sonar/plugins/coverage/generic/ReportParserTest.java:87-99 | lines 3 and 4 with 8/7 and 2/0 branches yield 2 lines, 0 uncovered, 10 branches, 3 uncovered, totals {3:8, 4:2}, covered {3:7, 4:0} |
| `ReportExamples.ConflictingBranchTotals` | src/main/java/org/sonar/plugins/coverage/generic/CustomCoverageMeasuresBuilder.java:90-93 | a second branch fact with another total for line 3 is refused and the first fact's maps and totals remain |
| `ReportExamples.RepeatedBranchFacts` | src/main/java/org/sonar/plugins/coverage/generic/CustomCoverageMeasuresBuilder.java:94-104 | covered counts 2, 5, 4 for one line leave 5 recorded and a covered total of 5 |
| `ReportExamples.IntegrationTestFile` | src/main/java/org/sonar/plugins/coverage/generic/CustomCoverageMeasuresBuilder.java:169-174 | after `SetIT(true)` and a later `SetIT(false)` every measure targets the integration-test table |
| `ReportExamples.NegativeHitsMiscount` | src/main/java/org/sonar/plugins/coverage/generic/CustomCoverageMeasuresBuilder.java:71-76 | hits -1 then 1 on one line leave the line covered but the covered-line count at 0 |

## Left out

- The report parser, `ResourceLocator` and `GenericCoverageSensor` are not part of this model. They do XML reading, settings lookups, path resolution, logging and exception wrapping. `ReportExamples` feeds the builder the facts that the parser's tests describe.
- `KeyValueFormat.format` is a foreign library. A data measure's payload is the line map itself; its integer keys give the ascending line order the serialised string follows.
- Measure values are `double` in the source and integers here. `PersistenceMode.DATABASE` on data measures is not modelled. The concrete `CoreMetrics` constants become a table tag crossed with a metric kind.
- Java `int` overflow of the running totals is not modelled; all integers are unbounded.
- The getters return unmodifiable views in the source. Dafny maps are values, so a caller can never change the builder through them. The model's getters also return snapshots. In the source, a view obtained earlier is live: through aliasing it shows later `setHits` and `setConditions` updates. The model does not capture that aliasing.
- GetLinesToCover: states that the result is the number of distinct lines in `hitsByLine`, not of lines ever passed to `SetHits`, because the model keeps no call history. `SetHits` adds exactly its line to that set and never removes one, which gives the history reading and "never decreases".

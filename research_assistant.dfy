/**
 * The research assistant: it processes queries one at a time, appending one
 * record per query to its completed tasks and one value to its performance
 * history, and reports analytics over everything processed so far.
 */
module ResearchAssistant {
  import opened ResearchTasks
  import opened AgentTeams

  /** One processed query as the assistant stores it. */
  datatype CompletedTask = CompletedTask(
    task: ResearchTask,
    analysis: ComplexityAnalysis,
    teamConfig: TeamConfig,
    performance: real,
    success: bool)

  /** A task succeeds when its actual performance exceeds this value. */
  const SuccessThreshold: real := 0.7

  /**
   * The actual performance of a task: its predicted performance shifted by
   * the drawn execution variance, clamped to [0, 1].
   */
  function ActualPerformance(estimated: real, variance: real): (p: real)
    ensures 0.0 <= p <= 1.0
    ensures 0.0 <= estimated <= 1.0 && 0.0 <= variance ==> estimated <= p <= estimated + variance
    ensures 0.0 <= estimated <= 1.0 && variance <= 0.0 ==> estimated + variance <= p <= estimated
  {
    var shifted := estimated + variance;
    var capped := if shifted < 1.0 then shifted else 1.0;
    if capped > 0.0 then capped else 0.0
  }

  /** The analytics report. */
  datatype Analytics =
    | NoTasksCompleted
    | Report(
        totalTasks: nat,
        successRate: real,
        averagePerformance: real,
        complexityPerformance: map<Tier, real>,
        teamPatternPerformance: seq<(Pattern, real)>,
        bestPerformingPattern: Pattern)

  // ---------------------------------------------------------------------------
  // Specification of the analytics

  function PatternOf(t: CompletedTask): Pattern
  {
    t.teamConfig.collaborationPattern
  }

  /** Number of tasks flagged successful. */
  function SuccessCount(tasks: seq<CompletedTask>): (n: nat)
    ensures n <= |tasks|
  {
    if tasks == [] then 0
    else SuccessCount(tasks[..|tasks| - 1]) + (if tasks[|tasks| - 1].success then 1 else 0)
  }

  /** All tasks succeeded exactly when the count is the number of tasks, none exactly when it is zero. */
  lemma {:induction false} SuccessCountExtremes(tasks: seq<CompletedTask>)
    ensures SuccessCount(tasks) == |tasks| <==> forall i :: 0 <= i < |tasks| ==> tasks[i].success
    ensures SuccessCount(tasks) == 0 <==> forall i :: 0 <= i < |tasks| ==> !tasks[i].success
    decreases |tasks|
  {
    if tasks != [] {
      var prefix := tasks[..|tasks| - 1];
      assert forall i :: 0 <= i < |prefix| ==> prefix[i] == tasks[i];
      SuccessCountExtremes(prefix);
    }
  }

  /** Python's `sum` over a list of floats. */
  function Sum(xs: seq<real>): real
  {
    if xs == [] then 0.0 else Sum(xs[..|xs| - 1]) + xs[|xs| - 1]
  }

  /** The mean of a list, 0.0 for an empty list. */
  function Mean(xs: seq<real>): real
  {
    if xs == [] then 0.0 else Sum(xs) / |xs| as real
  }

  /** The performances of the tasks of one complexity tier, in processing order. */
  function TierPerformances(tasks: seq<CompletedTask>, tier: Tier): (r: seq<real>)
    ensures |r| <= |tasks|
  {
    if tasks == [] then []
    else
      var last := tasks[|tasks| - 1];
      TierPerformances(tasks[..|tasks| - 1], tier) + (if last.analysis.complexity == tier then [last.performance] else [])
  }

  /** A tier's group is empty exactly when no task has that tier, and holds only performances of tasks. */
  lemma {:induction false} TierPerformancesFacts(tasks: seq<CompletedTask>, tier: Tier)
    ensures TierPerformances(tasks, tier) == [] <==> forall i :: 0 <= i < |tasks| ==> tasks[i].analysis.complexity != tier
    ensures forall x :: x in TierPerformances(tasks, tier) ==> exists i :: 0 <= i < |tasks| && tasks[i].performance == x
    decreases |tasks|
  {
    if tasks != [] {
      var prefix := tasks[..|tasks| - 1];
      assert forall i :: 0 <= i < |prefix| ==> prefix[i] == tasks[i];
      TierPerformancesFacts(prefix, tier);
    }
  }

  /** The performances of the tasks whose team used `pattern`, in processing order. */
  function PatternPerformances(tasks: seq<CompletedTask>, pattern: Pattern): (r: seq<real>)
    ensures |r| <= |tasks|
  {
    if tasks == [] then []
    else
      var last := tasks[|tasks| - 1];
      PatternPerformances(tasks[..|tasks| - 1], pattern) + (if PatternOf(last) == pattern then [last.performance] else [])
  }

  /** A pattern's group is empty exactly when no task used the pattern, and holds only performances of tasks. */
  lemma {:induction false} PatternPerformancesFacts(tasks: seq<CompletedTask>, pattern: Pattern)
    ensures PatternPerformances(tasks, pattern) == [] <==> !Used(tasks, pattern)
    ensures forall x :: x in PatternPerformances(tasks, pattern) ==> exists i :: 0 <= i < |tasks| && tasks[i].performance == x
    decreases |tasks|
  {
    if tasks != [] {
      var prefix := tasks[..|tasks| - 1];
      assert forall i :: 0 <= i < |prefix| ==> prefix[i] == tasks[i];
      PatternPerformancesFacts(prefix, pattern);
      if PatternOf(tasks[|tasks| - 1]) == pattern {
        assert Used(tasks, pattern);
      }
    }
  }

  /** A pattern is used by some task. */
  predicate Used(tasks: seq<CompletedTask>, pattern: Pattern)
  {
    exists i :: 0 <= i < |tasks| && PatternOf(tasks[i]) == pattern
  }

  /** The index of the first task that used `pattern`. */
  function FirstUse(tasks: seq<CompletedTask>, pattern: Pattern): (k: nat)
    requires Used(tasks, pattern)
    ensures k < |tasks| && PatternOf(tasks[k]) == pattern
  {
    var prefix := tasks[..|tasks| - 1];
    assert forall i :: 0 <= i < |prefix| ==> prefix[i] == tasks[i];
    if Used(prefix, pattern) then FirstUse(prefix, pattern) else |tasks| - 1
  }

  /** No task before the first use used the pattern. */
  lemma {:induction false} FirstUseIsFirst(tasks: seq<CompletedTask>, pattern: Pattern)
    requires Used(tasks, pattern)
    ensures forall j :: 0 <= j < FirstUse(tasks, pattern) ==> PatternOf(tasks[j]) != pattern
    decreases |tasks|
  {
    var prefix := tasks[..|tasks| - 1];
    assert forall i :: 0 <= i < |prefix| ==> prefix[i] == tasks[i];
    if Used(prefix, pattern) {
      FirstUseIsFirst(prefix, pattern);
    }
  }

  /**
   * The patterns in the order a dictionary keyed by pattern first receives
   * them: each used pattern exactly once, ordered by first use.
   */
  function PatternsInOrder(tasks: seq<CompletedTask>): (order: seq<Pattern>)
    ensures forall p :: p in order <==> Used(tasks, p)
    ensures forall a, b :: 0 <= a < b < |order| ==> order[a] != order[b]
    ensures tasks != [] ==> order != []
  {
    if tasks == [] then []
    else
      var prefix := tasks[..|tasks| - 1];
      var last := PatternOf(tasks[|tasks| - 1]);
      assert forall i :: 0 <= i < |prefix| ==> prefix[i] == tasks[i];
      var earlier := PatternsInOrder(prefix);
      assert Used(tasks, last);
      if last in earlier then earlier else earlier + [last]
  }

  /** The patterns are listed in order of their first use. */
  lemma {:induction false} PatternsByFirstUse(tasks: seq<CompletedTask>)
    ensures forall a, b {:trigger FirstUse(tasks, PatternsInOrder(tasks)[a]), FirstUse(tasks, PatternsInOrder(tasks)[b])} ::
      0 <= a < b < |PatternsInOrder(tasks)| ==> FirstUse(tasks, PatternsInOrder(tasks)[a]) < FirstUse(tasks, PatternsInOrder(tasks)[b])
    decreases |tasks|
  {
    if tasks != [] {
      var prefix := tasks[..|tasks| - 1];
      var last := PatternOf(tasks[|tasks| - 1]);
      assert forall i :: 0 <= i < |prefix| ==> prefix[i] == tasks[i];
      PatternsByFirstUse(prefix);
      var earlier := PatternsInOrder(prefix);
      var order := PatternsInOrder(tasks);
      forall a, b | 0 <= a < b < |order|
        ensures FirstUse(tasks, order[a]) < FirstUse(tasks, order[b])
      {
        assert order[a] == earlier[a] && Used(prefix, earlier[a]);
        assert FirstUse(tasks, order[a]) == FirstUse(prefix, earlier[a]) < |prefix|;
        if b < |earlier| {
          assert order[b] == earlier[b] && Used(prefix, earlier[b]);
          assert FirstUse(tasks, order[b]) == FirstUse(prefix, earlier[b]);
          assert FirstUse(prefix, earlier[a]) < FirstUse(prefix, earlier[b]);
        } else {
          assert order[b] == last && !Used(prefix, last);
          assert FirstUse(tasks, order[b]) == |prefix|;
        }
      }
    }
  }

  /** Helper: the average performance per pattern, in the order of `order` (the report is stated by `PatternReport`). */
  function PatternAverages(order: seq<Pattern>, tasks: seq<CompletedTask>): (r: seq<(Pattern, real)>)
    ensures |r| == |order|
    ensures forall k :: 0 <= k < |order| ==> r[k] == (order[k], Mean(PatternPerformances(tasks, order[k])))
  {
    seq(|order|, k requires 0 <= k < |order| => (order[k], Mean(PatternPerformances(tasks, order[k]))))
  }

  /**
   * The position Python's `max(items, key=value)` picks: a maximal value,
   * and the first one among equal maxima.
   */
  function BestIndex(averages: seq<(Pattern, real)>): (k: nat)
    requires averages != []
    ensures k < |averages|
    ensures forall j :: 0 <= j < |averages| ==> averages[j].1 <= averages[k].1
    ensures forall j :: 0 <= j < k ==> averages[j].1 < averages[k].1
  {
    if |averages| == 1 then 0
    else
      var prefix := averages[..|averages| - 1];
      assert forall j :: 0 <= j < |prefix| ==> prefix[j] == averages[j];
      var best := BestIndex(prefix);
      if averages[|averages| - 1].1 > averages[best].1 then |averages| - 1 else best
  }

  /** The fraction of tasks flagged successful. */
  function SuccessRate(tasks: seq<CompletedTask>): real
    requires tasks != []
  {
    SuccessCount(tasks) as real / |tasks| as real
  }

  /** Helper: the average performance of each tier (its bounds and empty-tier value are stated by `AveragesBounds`). */
  function TierAverages(tasks: seq<CompletedTask>): (averages: map<Tier, real>)
    ensures averages.Keys == {Low, Medium, High}
    ensures forall t :: t in averages ==> averages[t] == Mean(TierPerformances(tasks, t))
  {
    map[Low := Mean(TierPerformances(tasks, Low)),
        Medium := Mean(TierPerformances(tasks, Medium)),
        High := Mean(TierPerformances(tasks, High))]
  }

  /** The average performance of each pattern, in order of first use. */
  function PatternReportOf(tasks: seq<CompletedTask>): seq<(Pattern, real)>
  {
    PatternAverages(PatternsInOrder(tasks), tasks)
  }

  /** The pattern Python's `max` picks from the per-pattern averages. */
  function BestPattern(tasks: seq<CompletedTask>): Pattern
    requires tasks != []
  {
    var averages := PatternReportOf(tasks);
    averages[BestIndex(averages)].0
  }

  /** The analytics over a task list and the matching performance history. */
  function AnalyticsOf(tasks: seq<CompletedTask>, history: seq<real>): Analytics
    requires |history| == |tasks|
  {
    if tasks == [] then NoTasksCompleted
    else Report(|tasks|, SuccessRate(tasks), Mean(history), TierAverages(tasks), PatternReportOf(tasks), BestPattern(tasks))
  }

  /** The history holds each task's performance, in [0, 1], and each success flag says performance > 0.7. */
  ghost predicate Consistent(tasks: seq<CompletedTask>, history: seq<real>)
  {
    |tasks| == |history| &&
    forall i :: 0 <= i < |tasks| ==>
      history[i] == tasks[i].performance &&
      0.0 <= tasks[i].performance <= 1.0 &&
      (tasks[i].success <==> tasks[i].performance > SuccessThreshold)
  }

  // ---------------------------------------------------------------------------
  // The assistant object

  class AdvancedResearchAssistant {
    var completedTasks: seq<CompletedTask>
    var performanceHistory: seq<real>

    ghost predicate Valid()
      reads this
    {
      Consistent(completedTasks, performanceHistory)
    }

    constructor ()
      ensures Valid() && completedTasks == [] && performanceHistory == []
    {
      completedTasks := [];
      performanceHistory := [];
    }

    /**
     * Classifies a query, forms its team, simulates the execution with the
     * drawn variance and records exactly one completed task and one
     * performance value.
     */
    method ProcessResearchQuery(query: string, domain: string, variance: real) returns (result: CompletedTask)
      requires Valid()
      modifies this
      ensures Valid()
      ensures completedTasks == old(completedTasks) + [result]
      ensures performanceHistory == old(performanceHistory) + [result.performance]
      ensures result.analysis == AnalyzeComplexity(query)
      ensures result.task == NewTask(query, domain)
      ensures result.teamConfig ==
        TeamConfig(TeamSelection(result.analysis.complexity, result.analysis.skills, result.analysis.agentCount),
                   FormationStrategy(result.analysis.complexity, result.analysis.skills),
                   CollaborationPattern(result.teamConfig.agents),
                   PredictedPerformance(result.teamConfig.agents, result.analysis.skills))
      ensures result.performance == ActualPerformance(result.teamConfig.estimatedPerformance, variance)
      ensures result.success <==> result.performance > SuccessThreshold
    {
      var task := NewTask(query, domain);
      var analysis := AnalyzeComplexity(task.query);
      var team := new AgentTeam(task);
      var teamConfig := team.FormTeam(analysis);
      var performance := ActualPerformance(teamConfig.estimatedPerformance, variance);
      result := CompletedTask(task, analysis, teamConfig, performance, performance > SuccessThreshold);
      completedTasks := completedTasks + [result];
      performanceHistory := performanceHistory + [performance];
    }

    /** Reports the analytics over every task processed so far. */
    method GetPerformanceAnalytics() returns (report: Analytics)
      requires Valid()
      ensures report == AnalyticsOf(completedTasks, performanceHistory)
      ensures report == NoTasksCompleted <==> completedTasks == []
      ensures report.Report? ==> report.totalTasks == |completedTasks|
    {
      if completedTasks == [] {
        return NoTasksCompleted;
      }
      var tasks := completedTasks;
      var totalTasks := |tasks|;
      var successRate := SuccessCount(tasks) as real / totalTasks as real;
      var averagePerformance := Sum(performanceHistory) / |performanceHistory| as real;
      var complexityStats := GroupByTier(tasks);
      var complexityAverages := map[
        Low := Mean(complexityStats[Low]),
        Medium := Mean(complexityStats[Medium]),
        High := Mean(complexityStats[High])];
      var order, teamPatterns := GroupByPattern(tasks);
      var patternAverages := AveragePerPattern(tasks, order, teamPatterns);
      var best := patternAverages[BestIndex(patternAverages)].0;
      report := Report(totalTasks, successRate, averagePerformance, complexityAverages, patternAverages, best);
    }
  }

  /** The performances grouped by complexity tier, each group in processing order. */
  method GroupByTier(tasks: seq<CompletedTask>) returns (stats: map<Tier, seq<real>>)
    ensures Low in stats && Medium in stats && High in stats
    ensures forall t :: t in stats ==> stats[t] == TierPerformances(tasks, t)
  {
    stats := map[Low := [], Medium := [], High := []];
    assert tasks[..0] == [];
    for i := 0 to |tasks|
      invariant Low in stats && Medium in stats && High in stats
      invariant forall t :: t in stats ==> stats[t] == TierPerformances(tasks[..i], t)
    {
      var complexity := tasks[i].analysis.complexity;
      TierStep(tasks, i);
      stats := stats[complexity := stats[complexity] + [tasks[i].performance]];
    }
    assert tasks[..|tasks|] == tasks;
  }

  /** Taking one more task appends its performance to the group of its tier. */
  lemma TierStep(tasks: seq<CompletedTask>, i: nat)
    requires i < |tasks|
    ensures forall t ::
      TierPerformances(tasks[..i + 1], t) == TierPerformances(tasks[..i], t) + (if tasks[i].analysis.complexity == t then [tasks[i].performance] else [])
  {
    assert tasks[..i + 1][..i] == tasks[..i];
  }

  /**
   * Taking one more task appends its pattern to the order when the pattern
   * is new, and its performance to the group of its pattern.
   */
  lemma PatternStep(tasks: seq<CompletedTask>, i: nat)
    requires i < |tasks|
    ensures var before := PatternsInOrder(tasks[..i]);
      PatternsInOrder(tasks[..i + 1]) == if PatternOf(tasks[i]) in before then before else before + [PatternOf(tasks[i])]
    ensures forall p ::
      PatternPerformances(tasks[..i + 1], p) == PatternPerformances(tasks[..i], p) + (if PatternOf(tasks[i]) == p then [tasks[i].performance] else [])
  {
    assert tasks[..i + 1][..i] == tasks[..i];
  }

  /**
   * The performances grouped by collaboration pattern, as a dictionary that
   * receives each pattern on its first use: `order` lists its keys in
   * insertion order.
   */
  method GroupByPattern(tasks: seq<CompletedTask>) returns (order: seq<Pattern>, groups: map<Pattern, seq<real>>)
    ensures order == PatternsInOrder(tasks)
    ensures forall p :: p in groups <==> p in order
    ensures forall p :: p in groups ==> groups[p] == PatternPerformances(tasks, p)
  {
    order := [];
    groups := map[];
    for i := 0 to |tasks|
      invariant order == PatternsInOrder(tasks[..i])
      invariant forall p :: p in groups <==> p in order
      invariant forall p :: p in groups ==> groups[p] == PatternPerformances(tasks[..i], p)
    {
      var pattern := PatternOf(tasks[i]);
      PatternStep(tasks, i);
      if pattern !in groups {
        PatternPerformancesFacts(tasks[..i], pattern);
        order := order + [pattern];
        groups := groups[pattern := []];
      }
      groups := groups[pattern := groups[pattern] + [tasks[i].performance]];
    }
    assert tasks[..|tasks|] == tasks;
  }

  /** The average of each pattern's group, in insertion order. */
  method AveragePerPattern(tasks: seq<CompletedTask>, order: seq<Pattern>, groups: map<Pattern, seq<real>>)
    returns (averages: seq<(Pattern, real)>)
    requires forall p :: p in order ==> Used(tasks, p)
    requires forall p :: p in order ==> p in groups && groups[p] == PatternPerformances(tasks, p)
    ensures averages == PatternAverages(order, tasks)
  {
    averages := [];
    for k := 0 to |order|
      invariant |averages| == k
      invariant forall j :: 0 <= j < k ==> averages[j] == (order[j], Mean(PatternPerformances(tasks, order[j])))
    {
      var performances := groups[order[k]];
      PatternPerformancesFacts(tasks, order[k]);
      averages := averages + [(order[k], Sum(performances) / |performances| as real)];
    }
  }

  // ---------------------------------------------------------------------------
  // Properties of the analytics

  /** A sum of values in [0, 1] lies in [0, length]. */
  lemma {:induction false} SumBounds(xs: seq<real>)
    requires forall i :: 0 <= i < |xs| ==> 0.0 <= xs[i] <= 1.0
    ensures 0.0 <= Sum(xs) <= |xs| as real
    decreases |xs|
  {
    if xs != [] {
      var prefix := xs[..|xs| - 1];
      assert forall i :: 0 <= i < |prefix| ==> prefix[i] == xs[i];
      SumBounds(prefix);
    }
  }

  /** A mean of values in [0, 1] lies in [0, 1]. */
  lemma MeanBounds(xs: seq<real>)
    requires forall i :: 0 <= i < |xs| ==> 0.0 <= xs[i] <= 1.0
    ensures 0.0 <= Mean(xs) <= 1.0
  {
    SumBounds(xs);
  }

  /** Values drawn from a consistent history lie in [0, 1]. */
  lemma GroupBounds(tasks: seq<CompletedTask>, history: seq<real>, xs: seq<real>)
    requires Consistent(tasks, history)
    requires forall x :: x in xs ==> exists i :: 0 <= i < |tasks| && tasks[i].performance == x
    ensures 0.0 <= Mean(xs) <= 1.0
  {
    assert forall k :: 0 <= k < |xs| ==> xs[k] in xs;
    MeanBounds(xs);
  }

  /** A count over a positive total it does not exceed lies in [0, 1], and is 1 or 0 exactly at the extremes. */
  lemma CountRatio(count: nat, total: nat)
    requires 0 < total && count <= total
    ensures 0.0 <= count as real / total as real <= 1.0
    ensures count as real / total as real == 1.0 <==> count == total
    ensures count as real / total as real == 0.0 <==> count == 0
  {
    var ratio := count as real / total as real;
    assert ratio * total as real == count as real;
  }

  /**
   * The success rate lies in [0, 1]; it is 1.0 exactly when every task
   * exceeded 0.7 and 0.0 exactly when none did.
   */
  lemma SuccessRateBounds(tasks: seq<CompletedTask>, history: seq<real>)
    requires Consistent(tasks, history) && tasks != []
    ensures 0.0 <= SuccessRate(tasks) <= 1.0
    ensures SuccessRate(tasks) == 1.0 <==> forall i :: 0 <= i < |tasks| ==> tasks[i].performance > SuccessThreshold
    ensures SuccessRate(tasks) == 0.0 <==> forall i :: 0 <= i < |tasks| ==> tasks[i].performance <= SuccessThreshold
  {
    SuccessCountExtremes(tasks);
    CountRatio(SuccessCount(tasks), |tasks|);
  }

  /**
   * The averages of the report: the overall average lies in [0, 1], and
   * there is one average per tier, in [0, 1] and 0.0 for a tier without
   * tasks.
   */
  lemma AveragesBounds(tasks: seq<CompletedTask>, history: seq<real>)
    requires Consistent(tasks, history)
    ensures 0.0 <= Mean(history) <= 1.0
    ensures TierAverages(tasks).Keys == {Low, Medium, High}
    ensures forall t :: t in TierAverages(tasks) ==> 0.0 <= TierAverages(tasks)[t] <= 1.0
    ensures forall t :: t in TierAverages(tasks) && (forall i :: 0 <= i < |tasks| ==> tasks[i].analysis.complexity != t) ==>
      TierAverages(tasks)[t] == 0.0
  {
    MeanBounds(history);
    forall t | t in TierAverages(tasks)
      ensures 0.0 <= TierAverages(tasks)[t] <= 1.0
      ensures (forall i :: 0 <= i < |tasks| ==> tasks[i].analysis.complexity != t) ==> TierAverages(tasks)[t] == 0.0
    {
      TierPerformancesFacts(tasks, t);
      GroupBounds(tasks, history, TierPerformances(tasks, t));
    }
  }

  /**
   * The per-pattern averages: one entry for each pattern some task used and
   * for no other, ordered by first use, each the mean of that pattern's
   * performances.
   */
  lemma PatternReport(tasks: seq<CompletedTask>)
    ensures forall p :: Used(tasks, p) <==> exists k :: 0 <= k < |PatternReportOf(tasks)| && PatternReportOf(tasks)[k].0 == p
    ensures forall a, b :: 0 <= a < b < |PatternReportOf(tasks)| ==>
      FirstUse(tasks, PatternReportOf(tasks)[a].0) < FirstUse(tasks, PatternReportOf(tasks)[b].0)
    ensures forall k :: 0 <= k < |PatternReportOf(tasks)| ==>
      PatternReportOf(tasks)[k].1 == Mean(PatternPerformances(tasks, PatternReportOf(tasks)[k].0))
  {
    var order := PatternsInOrder(tasks);
    var averages := PatternReportOf(tasks);
    PatternsByFirstUse(tasks);
    forall p | Used(tasks, p)
      ensures exists k :: 0 <= k < |averages| && averages[k].0 == p
    {
      var k :| 0 <= k < |order| && order[k] == p;
      assert averages[k].0 == p;
    }
  }

  /**
   * The best pattern is a used pattern whose average no other pattern
   * exceeds, and every pattern first used before it has a strictly smaller
   * average: among equal maxima the first-inserted one wins.
   */
  lemma BestPatternIsFirstMaximal(tasks: seq<CompletedTask>)
    requires tasks != []
    ensures Used(tasks, BestPattern(tasks))
    ensures forall p :: Used(tasks, p) ==>
      Mean(PatternPerformances(tasks, p)) <= Mean(PatternPerformances(tasks, BestPattern(tasks)))
    ensures forall p :: Used(tasks, p) && FirstUse(tasks, p) < FirstUse(tasks, BestPattern(tasks)) ==>
      Mean(PatternPerformances(tasks, p)) < Mean(PatternPerformances(tasks, BestPattern(tasks)))
  {
    var order := PatternsInOrder(tasks);
    var b := BestIndex(PatternReportOf(tasks));
    assert BestPattern(tasks) == order[b];
    PatternsByFirstUse(tasks);
    forall p | Used(tasks, p)
      ensures Mean(PatternPerformances(tasks, p)) <= Mean(PatternPerformances(tasks, BestPattern(tasks)))
      ensures FirstUse(tasks, p) < FirstUse(tasks, BestPattern(tasks)) ==>
        Mean(PatternPerformances(tasks, p)) < Mean(PatternPerformances(tasks, BestPattern(tasks)))
    {
      BestIsMaximal(tasks, p);
      if FirstUse(tasks, p) < FirstUse(tasks, BestPattern(tasks)) {
        EarlierIsSmaller(tasks, p);
      }
    }
  }

  /** The index of a used pattern in the first-use order. */
  lemma OrderIndex(tasks: seq<CompletedTask>, p: Pattern) returns (k: nat)
    requires Used(tasks, p)
    ensures k < |PatternsInOrder(tasks)| && PatternsInOrder(tasks)[k] == p
  {
    assert p in PatternsInOrder(tasks);
    k :| 0 <= k < |PatternsInOrder(tasks)| && PatternsInOrder(tasks)[k] == p;
  }

  /** The report entry of a used pattern holds its average, and so does the best entry. */
  lemma ReportEntries(tasks: seq<CompletedTask>, p: Pattern) returns (k: nat, b: nat)
    requires tasks != [] && Used(tasks, p)
    ensures k < |PatternsInOrder(tasks)| && PatternsInOrder(tasks)[k] == p
    ensures b == BestIndex(PatternReportOf(tasks)) && BestPattern(tasks) == PatternsInOrder(tasks)[b]
    ensures PatternReportOf(tasks)[k].1 == Mean(PatternPerformances(tasks, p))
    ensures PatternReportOf(tasks)[b].1 == Mean(PatternPerformances(tasks, BestPattern(tasks)))
  {
    k := OrderIndex(tasks, p);
    b := BestIndex(PatternReportOf(tasks));
  }

  /** No used pattern has a larger average than the best one. */
  lemma BestIsMaximal(tasks: seq<CompletedTask>, p: Pattern)
    requires tasks != [] && Used(tasks, p)
    ensures Mean(PatternPerformances(tasks, p)) <= Mean(PatternPerformances(tasks, BestPattern(tasks)))
  {
    var k, b := ReportEntries(tasks, p);
  }

  /** A used pattern first used before the best one has a strictly smaller average. */
  lemma EarlierIsSmaller(tasks: seq<CompletedTask>, p: Pattern)
    requires tasks != [] && Used(tasks, p)
    requires FirstUse(tasks, p) < FirstUse(tasks, BestPattern(tasks))
    ensures Mean(PatternPerformances(tasks, p)) < Mean(PatternPerformances(tasks, BestPattern(tasks)))
  {
    var k, b := ReportEntries(tasks, p);
    OrderFollowsFirstUse(tasks, k, b);
  }

  /** A pattern first used earlier comes earlier in the first-use order. */
  lemma OrderFollowsFirstUse(tasks: seq<CompletedTask>, a: nat, b: nat)
    requires a < |PatternsInOrder(tasks)| && b < |PatternsInOrder(tasks)|
    requires FirstUse(tasks, PatternsInOrder(tasks)[a]) < FirstUse(tasks, PatternsInOrder(tasks)[b])
    ensures a < b
  {
    if b < a {
      EarlierInOrder(tasks, b, a);
    }
  }

  /** Patterns earlier in the first-use order were first used earlier. */
  lemma EarlierInOrder(tasks: seq<CompletedTask>, a: nat, b: nat)
    requires a < b < |PatternsInOrder(tasks)|
    ensures FirstUse(tasks, PatternsInOrder(tasks)[a]) < FirstUse(tasks, PatternsInOrder(tasks)[b])
  {
    PatternsByFirstUse(tasks);
  }

  /** Two records, one high-tier at 0.9 with hub-and-spoke and one low-tier at 0.5 with the sequential pattern. */
  predicate TwoRecordHistory(first: CompletedTask, second: CompletedTask)
  {
    first.analysis.complexity == High && PatternOf(first) == HubAndSpoke && first.performance == 0.9 && first.success &&
    second.analysis.complexity == Low && PatternOf(second) == Sequential && second.performance == 0.5 && !second.success
  }

  /** For the two records, half succeed and the average is 0.7. */
  lemma TwoRecordRates(first: CompletedTask, second: CompletedTask)
    requires TwoRecordHistory(first, second)
    ensures SuccessRate([first, second]) == 0.5
    ensures Mean([first.performance, second.performance]) == 0.7
  {
    assert [first, second][..1] == [first];
    assert [first][..0] == [];
    assert SuccessCount([first]) == 1;
    assert Sum([0.9, 0.5]) == 1.4 by {
      assert [0.9, 0.5][..1] == [0.9];
      assert [0.9][..0] == [];
    }
  }

  /** The mean of a single value is that value. */
  lemma MeanOfOne(x: real)
    ensures Mean([x]) == x
  {
    assert [x][..0] == [];
    assert Sum([x]) == x;
  }

  /** For the two records, the medium tier, which has none, averages 0.0. */
  lemma TwoRecordTiers(first: CompletedTask, second: CompletedTask)
    requires TwoRecordHistory(first, second)
    ensures TierAverages([first, second]) == map[Low := 0.5, Medium := 0.0, High := 0.9]
  {
    var tasks := [first, second];
    assert tasks[..1] == [first];
    assert [first][..0] == [];
    assert TierPerformances(tasks, Medium) == [];
    assert TierPerformances(tasks, Low) == [0.5];
    assert TierPerformances(tasks, High) == [0.9];
    MeanOfOne(0.5);
    MeanOfOne(0.9);
  }

  /** Two tasks with different patterns list both, in order. */
  lemma TwoPatternsInOrder(first: CompletedTask, second: CompletedTask)
    requires PatternOf(first) != PatternOf(second)
    ensures PatternsInOrder([first, second]) == [PatternOf(first), PatternOf(second)]
  {
    assert [first, second][..1] == [first];
    assert [first][..0] == [];
    assert PatternsInOrder([first]) == [PatternOf(first)];
  }

  /** For the two records, each pattern's group holds its one performance. */
  lemma TwoRecordGroups(first: CompletedTask, second: CompletedTask)
    requires TwoRecordHistory(first, second)
    ensures PatternPerformances([first, second], HubAndSpoke) == [0.9]
    ensures PatternPerformances([first, second], Sequential) == [0.5]
  {
    assert [first, second][..1] == [first];
    assert [first][..0] == [];
  }

  /** For the two records, hub-and-spoke is listed first and performs best. */
  lemma TwoRecordPatterns(first: CompletedTask, second: CompletedTask)
    requires TwoRecordHistory(first, second)
    ensures PatternReportOf([first, second]) == [(HubAndSpoke, 0.9), (Sequential, 0.5)]
    ensures BestPattern([first, second]) == HubAndSpoke
  {
    TwoPatternsInOrder(first, second);
    TwoRecordGroups(first, second);
    MeanOfOne(0.9);
    MeanOfOne(0.5);
    var report := PatternReportOf([first, second]);
    assert report[0] == (HubAndSpoke, 0.9) && report[1] == (Sequential, 0.5);
    assert report[..1] == [(HubAndSpoke, 0.9)];
  }
}

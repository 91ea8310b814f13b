/**
 * The creative swarm: forms a team of creative agents from the
 * specialization pool of a project type, and analyses the contributions
 * of one iteration and of a whole session. The sample of specializations
 * is given as the pool positions it picked.
 */
module CreativeSwarms {
  import opened Text
  import opened CreativeAgents
  import opened CreativeProjects
  import opened Tallies

  const StoryPool: seq<string> :=
    ["idea_generator", "story_writer", "style_enhancer", "critic_reviewer", "structure_organizer"]
  const ConceptDesignPool: seq<string> :=
    ["concept_developer", "idea_generator", "critic_reviewer", "style_enhancer", "structure_organizer"]
  const ProblemSolvingPool: seq<string> :=
    ["idea_generator", "concept_developer", "critic_reviewer", "structure_organizer"]

  /** The specializations a project type draws from; an unknown type uses the story pool. */
  function SpecializationPool(projectType: string): seq<string>
  {
    if projectType == "concept_design" then ConceptDesignPool
    else if projectType == "problem_solving" then ProblemSolvingPool
    else StoryPool
  }

  /** No element occurs twice. */
  predicate Distinct<T(==)>(s: seq<T>)
  {
    forall i, j :: 0 <= i < j < |s| ==> s[i] != s[j]
  }

  /** Every pool is made of known specializations, none of them twice; unknown project types get the story pool. */
  lemma PoolsAreSpecializations(projectType: string)
    ensures var pool := SpecializationPool(projectType);
      Distinct(pool) && 0 < |pool| <= 5 && (forall i :: 0 <= i < |pool| ==> pool[i] in Specializations)
    ensures projectType !in {"story", "concept_design", "problem_solving"} ==> SpecializationPool(projectType) == StoryPool
  {
  }

  /** `picks` is what sampling `count` of `n` items without replacement selects: `count` distinct positions below `n`. */
  predicate SampleOf(picks: seq<nat>, n: nat, count: nat)
  {
    |picks| == count && (forall i :: 0 <= i < |picks| ==> picks[i] < n) && Distinct(picks)
  }

  /** The number of agents a team gets: the requested size, but no more than the pool holds. */
  function TeamCount(teamSize: nat, poolSize: nat): (count: nat)
    ensures count <= teamSize && count <= poolSize
    ensures count == teamSize || count == poolSize
  {
    if teamSize < poolSize then teamSize else poolSize
  }

  /** The name of the agent at team position `i`, counting from 1. */
  function AgentName(i: nat): string
  {
    "Agent_" + NatToString(i + 1)
  }

  /** Distinct positions into a duplicate-free sequence select distinct elements. */
  lemma {:induction false} DistinctPicks(pool: seq<string>, picks: seq<nat>)
    requires Distinct(pool) && SampleOf(picks, |pool|, |picks|)
    ensures forall i, j :: 0 <= i < j < |picks| ==> pool[picks[i]] != pool[picks[j]]
  {
    forall i, j | 0 <= i < j < |picks|
      ensures pool[picks[i]] != pool[picks[j]]
    {
      assert picks[i] != picks[j];
      if picks[i] < picks[j] {
        assert pool[picks[i]] != pool[picks[j]];
      } else {
        assert pool[picks[j]] != pool[picks[i]];
      }
    }
  }

  // ---------------------------------------------------------------------------
  // Iteration analysis

  /** Helper: the contribution types, in order (their counts are stated by `TypeCounts`). */
  function Kinds(cs: seq<Contribution>): (kinds: seq<ContributionKind>)
    ensures |kinds| == |cs| && forall i :: 0 <= i < |cs| ==> kinds[i] == cs[i].kind
  {
    seq(|cs|, i requires 0 <= i < |cs| => cs[i].kind)
  }

  /** The counts of the six contribution types add up to the number of contributions. */
  lemma {:induction false} KindCountsSum(kinds: seq<ContributionKind>)
    ensures multiset(kinds)[Ideas] + multiset(kinds)[StorySegment] + multiset(kinds)[Concept]
      + multiset(kinds)[Critique] + multiset(kinds)[StyleEnhancement] + multiset(kinds)[Structure] == |kinds|
    decreases |kinds|
  {
    if kinds != [] {
      var prefix := kinds[..|kinds| - 1];
      KindCountsSum(prefix);
      var last := kinds[|kinds| - 1];
      assert kinds == prefix + [last];
      var before, after := multiset(prefix), multiset(kinds);
      assert after == before + multiset{last};
      assert after[Ideas] == before[Ideas] + (if last == Ideas then 1 else 0);
      assert after[StorySegment] == before[StorySegment] + (if last == StorySegment then 1 else 0);
      assert after[Concept] == before[Concept] + (if last == Concept then 1 else 0);
      assert after[Critique] == before[Critique] + (if last == Critique then 1 else 0);
      assert after[StyleEnhancement] == before[StyleEnhancement] + (if last == StyleEnhancement then 1 else 0);
      assert after[Structure] == before[Structure] + (if last == Structure then 1 else 0);
    }
  }

  datatype IterationAnalysis = IterationAnalysis(
    contributionTypes: map<ContributionKind, nat>,
    averageCreativity: real,
    diversityScore: real,
    totalContributions: nat)

  /** The creativity level of a contribution, 0 when it carries none. */
  function LevelOf(c: Contribution): real
  {
    if c.creativityLevel.Some? then c.creativityLevel.value else 0.0
  }

  /** The sum of the creativity levels present among the first `n` contributions. */
  function CreativitySum(cs: seq<Contribution>, n: nat): real
    requires n <= |cs|
  {
    if n == 0 then 0.0 else CreativitySum(cs, n - 1) + LevelOf(cs[n - 1])
  }

  /** The number of contributions among the first `n` that carry a creativity level. */
  function CreativityCount(cs: seq<Contribution>, n: nat): (count: nat)
    requires n <= |cs|
    ensures count <= n
    ensures count == 0 <==> forall i :: 0 <= i < n ==> cs[i].creativityLevel.None?
  {
    if n == 0 then 0
    else CreativityCount(cs, n - 1) + (if cs[n - 1].creativityLevel.Some? then 1 else 0)
  }

  /** The mean creativity level, 0 when no contribution carries one. */
  function AverageCreativity(cs: seq<Contribution>): real
  {
    var count := CreativityCount(cs, |cs|);
    if count > 0 then CreativitySum(cs, |cs|) / count as real else 0.0
  }

  /** The analysis of one iteration's contributions. */
  function IterationAnalysisOf(cs: seq<Contribution>): IterationAnalysis
  {
    var types := Tally(Kinds(cs));
    IterationAnalysis(
      types,
      AverageCreativity(cs),
      if cs != [] then |types.Keys| as real / |cs| as real else 0.0,
      |cs|)
  }

  /** The creativity levels present add up to at most their number when each lies in [0, 1]. */
  lemma {:induction false} CreativitySumBounds(cs: seq<Contribution>, n: nat)
    requires n <= |cs| && forall i :: 0 <= i < |cs| ==> ScoresInUnit(cs[i])
    ensures 0.0 <= CreativitySum(cs, n) <= CreativityCount(cs, n) as real
  {
    if n > 0 {
      CreativitySumBounds(cs, n - 1);
      assert ScoresInUnit(cs[n - 1]);
    }
  }

  /**
   * The type counts of an iteration analysis: exactly the types that occur
   * have an entry, each counted as often as it occurs, and the counts add
   * up to the number of contributions.
   */
  lemma TypeCounts(cs: seq<Contribution>)
    ensures var types := IterationAnalysisOf(cs).contributionTypes;
      (forall k :: k in types <==> k in Kinds(cs)) &&
      (forall k :: k in types ==> types[k] == multiset(Kinds(cs))[k]) &&
      multiset(Kinds(cs))[Ideas] + multiset(Kinds(cs))[StorySegment] + multiset(Kinds(cs))[Concept]
        + multiset(Kinds(cs))[Critique] + multiset(Kinds(cs))[StyleEnhancement] + multiset(Kinds(cs))[Structure] == |cs|
  {
    TallyCounts(Kinds(cs));
    KindCountsSum(Kinds(cs));
  }

  /** The diversity score is 0 exactly for no contributions and otherwise lies in (0, 1]. */
  lemma DiversityBounds(cs: seq<Contribution>)
    ensures var d := IterationAnalysisOf(cs).diversityScore;
      (d == 0.0 <==> cs == []) && (cs != [] ==> 0.0 < d <= 1.0)
  {
    TallyKeysBound(Kinds(cs));
    if cs != [] {
      RatioInUnit(|Tally(Kinds(cs)).Keys|, |cs|);
    }
  }

  /**
   * The average creativity is 0 when no contribution carries a creativity
   * level, and lies in [0, 1] when every level present does.
   */
  lemma AverageCreativityBounds(cs: seq<Contribution>)
    ensures (forall i :: 0 <= i < |cs| ==> cs[i].creativityLevel.None?) ==> AverageCreativity(cs) == 0.0
    ensures (forall i :: 0 <= i < |cs| ==> ScoresInUnit(cs[i])) ==> 0.0 <= AverageCreativity(cs) <= 1.0
  {
    if forall i :: 0 <= i < |cs| ==> ScoresInUnit(cs[i]) {
      CreativitySumBounds(cs, |cs|);
      if CreativityCount(cs, |cs|) > 0 {
        MeanInUnit(CreativitySum(cs, |cs|), CreativityCount(cs, |cs|));
      }
    }
  }

  /** A total of at most `count` scores, each in [0, 1], averages to a value in [0, 1]. */
  lemma MeanInUnit(total: real, count: nat)
    requires 0 < count && 0.0 <= total <= count as real
    ensures 0.0 <= total / count as real <= 1.0
  {
    var m := count as real;
    assert total / m * m == total;
  }

  // ---------------------------------------------------------------------------
  // Session analysis

  datatype SessionAnalysis = SessionAnalysis(
    creativityImprovement: real,
    coherenceImprovement: real,
    participationBalance: real,
    finalQualityAverage: real,
    successScore: real,
    totalContributions: nat,
    collaborationEffectiveness: real)

  /** The contributions of the first `n` iterations, iteration by iteration. */
  function FlattenFirst(iterations: seq<seq<Contribution>>, n: nat): seq<Contribution>
    requires n <= |iterations|
  {
    if n == 0 then [] else FlattenFirst(iterations, n - 1) + iterations[n - 1]
  }

  /** All contributions of a session. */
  function Flatten(iterations: seq<seq<Contribution>>): seq<Contribution>
  {
    FlattenFirst(iterations, |iterations|)
  }

  /** Helper: the contributing agents, in order (their balance is stated by `ParticipationBalanceProperties`). */
  function Agents(cs: seq<Contribution>): (agents: seq<string>)
    ensures |agents| == |cs| && forall i :: 0 <= i < |cs| ==> agents[i] == cs[i].agent
  {
    seq(|cs|, i requires 0 <= i < |cs| => cs[i].agent)
  }

  /** Fewest contributions of an agent over most contributions of an agent; 1.0 when nobody contributed. */
  function ParticipationBalance(all: seq<Contribution>): real
  {
    Balance(Agents(all))
  }

  /** The change of a metric from the first snapshot to the last; 0 with fewer than two snapshots. */
  function Improvement(qualityEvolution: seq<map<Metric, real>>, metric: Metric): real
    requires forall k :: 0 <= k < |qualityEvolution| ==> metric in qualityEvolution[k]
  {
    if |qualityEvolution| > 1 then qualityEvolution[|qualityEvolution| - 1][metric] - qualityEvolution[0][metric]
    else 0.0
  }

  /** The mean of the four project metrics. */
  function QualityAverage(metrics: map<Metric, real>): real
    requires AllMetrics <= metrics.Keys
  {
    (metrics[Creativity] + metrics[Coherence] + metrics[Originality] + metrics[Engagement]) / 4.0
  }

  /** Quality counts 0.6, improvement 0.3 and participation balance 0.1. */
  function SuccessScore(finalQuality: real, improvement: real, balance: real): real
  {
    finalQuality * 0.6 + improvement * 0.3 + balance * 0.1
  }

  /** The analysis of a session from its iterations, its quality snapshots and the project's final metrics. */
  function SessionAnalysisOf(iterations: seq<seq<Contribution>>, qualityEvolution: seq<map<Metric, real>>,
                             finalMetrics: map<Metric, real>): SessionAnalysis
    requires forall k :: 0 <= k < |qualityEvolution| ==> AllMetrics <= qualityEvolution[k].Keys
    requires finalMetrics.Keys == AllMetrics
  {
    var creativity := Improvement(qualityEvolution, Creativity);
    var coherence := Improvement(qualityEvolution, Coherence);
    var all := Flatten(iterations);
    var balance := ParticipationBalance(all);
    var finalQuality := QualityAverage(finalMetrics);
    var success := SuccessScore(finalQuality, (creativity + coherence) / 2.0, balance);
    SessionAnalysis(creativity, coherence, balance, finalQuality, success, |all|,
      if success < 1.0 then success else 1.0)
  }

  /**
   * The participation balance lies in (0, 1]; it is 1.0 when nobody
   * contributed, and otherwise exactly when every contributing agent
   * contributed equally often.
   */
  lemma ParticipationBalanceProperties(all: seq<Contribution>)
    ensures 0.0 < ParticipationBalance(all) <= 1.0
    ensures all == [] ==> ParticipationBalance(all) == 1.0
    ensures var counts := Tally(Agents(all));
      ParticipationBalance(all) == 1.0 <==> forall a, b :: a in counts && b in counts ==> counts[a] == counts[b]
  {
    BalanceProperties(Agents(all));
  }

  /**
   * The session totals: improvements are 0 with fewer than two snapshots,
   * the balance lies in (0, 1], the effectiveness never exceeds 1.0 nor
   * the success score. When the final metrics and every snapshot lie in
   * [0, 1], the final quality lies in [0, 1], the success score does not
   * exceed 1.0, and the effectiveness is the success score itself.
   */
  lemma SessionAnalysisBounds(iterations: seq<seq<Contribution>>, qualityEvolution: seq<map<Metric, real>>,
                              finalMetrics: map<Metric, real>)
    requires forall k :: 0 <= k < |qualityEvolution| ==> AllMetrics <= qualityEvolution[k].Keys
    requires finalMetrics.Keys == AllMetrics
    ensures var a := SessionAnalysisOf(iterations, qualityEvolution, finalMetrics);
      a.totalContributions == |Flatten(iterations)| &&
      (|qualityEvolution| <= 1 ==> a.creativityImprovement == 0.0 && a.coherenceImprovement == 0.0) &&
      0.0 < a.participationBalance <= 1.0 &&
      (Flatten(iterations) == [] ==> a.participationBalance == 1.0) &&
      a.collaborationEffectiveness <= 1.0 &&
      a.collaborationEffectiveness <= a.successScore &&
      (MetricsInUnit(finalMetrics) && (forall k :: 0 <= k < |qualityEvolution| ==> MetricsInUnit(qualityEvolution[k])) ==>
        0.0 <= a.finalQualityAverage <= 1.0 && a.successScore <= 1.0 && a.collaborationEffectiveness == a.successScore)
  {
    BalanceProperties(Agents(Flatten(iterations)));
    if MetricsInUnit(finalMetrics) && (forall k :: 0 <= k < |qualityEvolution| ==> MetricsInUnit(qualityEvolution[k])) {
      if |qualityEvolution| > 1 {
        assert MetricsInUnit(qualityEvolution[0]);
        assert MetricsInUnit(qualityEvolution[|qualityEvolution| - 1]);
      }
    }
  }

  // ---------------------------------------------------------------------------
  // The swarm

  class CreativeSwarm {
    var agents: seq<CreativeAgent>

    constructor ()
      ensures agents == []
    {
      agents := [];
    }

    /**
     * Forms a team for the project type: the agents `Agent_1`, `Agent_2`, ...
     * take the pool specializations at the sampled positions, as many as the
     * team size allows, with fresh, empty histories and drawn scores; the
     * team replaces the swarm's agents.
     */
    method FormCreativeTeam(projectType: string, teamSize: nat, picks: seq<nat>, scoreUnits: seq<real>)
      returns (team: seq<CreativeAgent>)
      requires SampleOf(picks, |SpecializationPool(projectType)|, TeamCount(teamSize, |SpecializationPool(projectType)|))
      requires |scoreUnits| == |picks| && forall i :: 0 <= i < |scoreUnits| ==> 0.0 <= scoreUnits[i] < 1.0
      modifies this
      ensures agents == team
      ensures |team| == TeamCount(teamSize, |SpecializationPool(projectType)|)
      ensures forall i :: 0 <= i < |team| ==>
        fresh(team[i]) && team[i].agentType == AgentName(i) &&
        team[i].specialization == SpecializationPool(projectType)[picks[i]] &&
        team[i].creativityScore == Uniform(0.7, 1.0, scoreUnits[i]) && team[i].contributionHistory == []
      ensures forall i, j :: 0 <= i < j < |team| ==> team[i].specialization != team[j].specialization
    {
      var pool := SpecializationPool(projectType);
      PoolsAreSpecializations(projectType);
      DistinctPicks(pool, picks);
      team := [];
      var i := 0;
      while i < |picks|
        invariant 0 <= i <= |picks| && |team| == i
        invariant forall j :: 0 <= j < i ==>
          fresh(team[j]) && team[j].agentType == AgentName(j) && team[j].specialization == pool[picks[j]] &&
          team[j].creativityScore == Uniform(0.7, 1.0, scoreUnits[j]) && team[j].contributionHistory == []
      {
        var agent := new CreativeAgent(AgentName(i), pool[picks[i]], scoreUnits[i]);
        team := team + [agent];
        i := i + 1;
      }
      agents := team;
    }

    /** Tallies the types and averages the creativity levels of one iteration's contributions. */
    static method AnalyzeIteration(contributions: seq<Contribution>) returns (analysis: IterationAnalysis)
      ensures analysis == IterationAnalysisOf(contributions)
    {
      var contributionTypes := CountOccurrences(Kinds(contributions));
      var totalCreativity, contributionCount := SumCreativity(contributions);
      var avgCreativity := if contributionCount > 0 then totalCreativity / contributionCount as real else 0.0;
      var diversity := if |contributions| > 0 then |contributionTypes.Keys| as real / |contributions| as real else 0.0;
      analysis := IterationAnalysis(contributionTypes, avgCreativity, diversity, |contributions|);
    }

    /** Sums the creativity levels present and counts the contributions carrying one. */
    static method SumCreativity(contributions: seq<Contribution>) returns (totalCreativity: real, contributionCount: nat)
      ensures totalCreativity == CreativitySum(contributions, |contributions|)
      ensures contributionCount == CreativityCount(contributions, |contributions|)
    {
      totalCreativity, contributionCount := 0.0, 0;
      var i := 0;
      while i < |contributions|
        invariant 0 <= i <= |contributions|
        invariant totalCreativity == CreativitySum(contributions, i)
        invariant contributionCount == CreativityCount(contributions, i)
      {
        if contributions[i].creativityLevel.Some? {
          totalCreativity := totalCreativity + contributions[i].creativityLevel.value;
          contributionCount := contributionCount + 1;
        }
        i := i + 1;
      }
    }

    /** Computes improvements, participation balance, final quality and effectiveness of a session. */
    static method AnalyzeSession(iterations: seq<seq<Contribution>>, qualityEvolution: seq<map<Metric, real>>,
                                 finalMetrics: map<Metric, real>) returns (analysis: SessionAnalysis)
      requires forall k :: 0 <= k < |qualityEvolution| ==> AllMetrics <= qualityEvolution[k].Keys
      requires finalMetrics.Keys == AllMetrics
      ensures analysis == SessionAnalysisOf(iterations, qualityEvolution, finalMetrics)
    {
      var creativityImprovement, coherenceImprovement := 0.0, 0.0;
      if |qualityEvolution| > 1 {
        creativityImprovement := qualityEvolution[|qualityEvolution| - 1][Creativity] - qualityEvolution[0][Creativity];
        coherenceImprovement := qualityEvolution[|qualityEvolution| - 1][Coherence] - qualityEvolution[0][Coherence];
      }
      var allContributions := CollectContributions(iterations);
      var agents := Agents(allContributions);
      var agentParticipation := CountOccurrences(agents);
      var participationBalance := BalanceOf(agents, agentParticipation);
      var finalQuality := (finalMetrics[Creativity] + finalMetrics[Coherence]
        + finalMetrics[Originality] + finalMetrics[Engagement]) / 4.0;
      var improvementScore := (creativityImprovement + coherenceImprovement) / 2.0;
      var successScore := finalQuality * 0.6 + improvementScore * 0.3 + participationBalance * 0.1;
      assert creativityImprovement == Improvement(qualityEvolution, Creativity);
      assert coherenceImprovement == Improvement(qualityEvolution, Coherence);
      assert participationBalance == ParticipationBalance(allContributions);
      assert successScore == SuccessScore(QualityAverage(finalMetrics), improvementScore, participationBalance);
      analysis := SessionAnalysis(creativityImprovement, coherenceImprovement, participationBalance,
        finalQuality, successScore, |allContributions|, if successScore < 1.0 then successScore else 1.0);
    }

    /** Concatenates the contributions of every iteration. */
    static method CollectContributions(iterations: seq<seq<Contribution>>) returns (all: seq<Contribution>)
      ensures all == Flatten(iterations)
    {
      all := [];
      var i := 0;
      while i < |iterations|
        invariant 0 <= i <= |iterations|
        invariant all == FlattenFirst(iterations, i)
      {
        all := all + iterations[i];
        i := i + 1;
      }
    }
  }
}

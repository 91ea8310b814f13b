/**
 * Team formation for a research task: the capability catalog, the
 * selection of agent types (a coordinator first, one specialist per skill in
 * catalog order, a forced deep reasoner for high-complexity tasks, coordinator
 * padding, truncation), the strategy and collaboration-pattern rules and the
 * predicted performance of a team.
 */
module AgentTeams {
  import opened Wrappers
  import opened ResearchTasks

  /** The agent types of the capability catalog. */
  datatype AgentType = IO | TOT | WEB | CODE | CREATIVE | CRITIC

  /** The name an agent type carries in team listings and graph configurations. */
  function TypeName(a: AgentType): string
  {
    match a
    case IO => "IO"
    case TOT => "TOT"
    case WEB => "WEB"
    case CODE => "CODE"
    case CREATIVE => "CREATIVE"
    case CRITIC => "CRITIC"
  }

  /** The capability catalog used to pick specialists, in its iteration order. */
  const Capabilities: seq<(AgentType, seq<Skill>)> := [
    (IO, [Research, GeneralReasoning, Synthesis]),
    (TOT, [Analysis, DeepReasoning, Planning]),
    (WEB, [WebSearch, InformationGathering, FactChecking]),
    (CODE, [Coding, TechnicalAnalysis, AlgorithmDesign]),
    (CREATIVE, [Creativity, Brainstorming, Design]),
    (CRITIC, [Evaluation, QualityCheck, Verification])
  ]

  /** The separate, narrower skill map used only to predict performance. */
  function MappedSkills(a: AgentType): seq<Skill>
  {
    match a
    case IO => [Research, Synthesis]
    case TOT => [Analysis, DeepReasoning]
    case WEB => [WebSearch, InformationGathering]
    case CODE => [Coding, TechnicalAnalysis]
    case CREATIVE => [Creativity, Design]
    case CRITIC => [Evaluation, Verification]
  }

  /** Formation strategy labels. */
  datatype Strategy = HierarchicalSpecialization | SkillBasedClustering | DeepCollaboration | SimpleParallel

  /** Collaboration pattern labels. */
  datatype Pattern = Sequential | HubAndSpoke | FullyConnected | Pipeline

  /** What forming a team reports. */
  datatype TeamConfig = TeamConfig(
    agents: seq<AgentType>,
    formationStrategy: Strategy,
    collaborationPattern: Pattern,
    estimatedPerformance: real)

  // ---------------------------------------------------------------------------
  // Specification of the selection

  /**
   * The first catalog entry, in catalog order, that lists `skill` and is not
   * selected yet; None when every entry listing it is already selected.
   */
  function FirstProvider(catalog: seq<(AgentType, seq<Skill>)>, skill: Skill, selected: seq<AgentType>): (r: Option<AgentType>)
    ensures r.Some? ==> r.value !in selected
    ensures r.Some? ==>
      exists k :: 0 <= k < |catalog| && catalog[k].0 == r.value && skill in catalog[k].1 &&
                  forall j :: 0 <= j < k ==> skill !in catalog[j].1 || catalog[j].0 in selected
    ensures r.None? ==> forall k :: 0 <= k < |catalog| && skill in catalog[k].1 ==> catalog[k].0 in selected
  {
    if catalog == [] then None
    else if skill in catalog[0].1 && catalog[0].0 !in selected then Some(catalog[0].0)
    else
      assert forall k :: 0 < k < |catalog| ==> catalog[1..][k - 1] == catalog[k];
      FirstProvider(catalog[1..], skill, selected)
  }

  /** The selection after the catalog scan for one skill. */
  function WithProvider(skill: Skill, selected: seq<AgentType>): seq<AgentType>
  {
    match FirstProvider(Capabilities, skill, selected)
    case Some(a) => selected + [a]
    case None => selected
  }

  /** The selection after scanning the catalog for each skill in turn. */
  function AddSpecialists(skills: seq<Skill>, selected: seq<AgentType>): seq<AgentType>
    decreases |skills|
  {
    if skills == [] then selected else AddSpecialists(skills[1..], WithProvider(skills[0], selected))
  }

  /** A high-complexity selection gets a TOT agent if it has none. */
  function WithDeepReasoner(complexity: Tier, selected: seq<AgentType>): seq<AgentType>
  {
    if complexity == High && TOT !in selected then selected + [TOT] else selected
  }

  /** IO agents appended until the selection has `count` agents. */
  function PadWithCoordinators(selected: seq<AgentType>, count: nat): seq<AgentType>
  {
    if |selected| < count then selected + seq(count - |selected|, _ => IO) else selected
  }

  /** One more IO agent extends the coordinator padding by one. */
  lemma CoordinatorStep(formed: seq<AgentType>, padding: nat)
    ensures formed + seq(padding, _ => IO) + [IO] == formed + seq(padding + 1, _ => IO)
  {
  }

  /** The team `form_team` selects: scan, force, pad, then keep the first `count`. */
  function TeamSelection(complexity: Tier, skills: seq<Skill>, count: nat): (team: seq<AgentType>)
    ensures |team| == count
  {
    PadWithCoordinators(WithDeepReasoner(complexity, AddSpecialists(skills, [IO])), count)[..count]
  }

  /** No agent type other than IO occurs twice. */
  predicate NoRepeatedSpecialist(team: seq<AgentType>)
  {
    forall i, j :: 0 <= i < j < |team| && team[i] == team[j] ==> team[i] == IO
  }

  /**
   * The collaboration pattern of a team: sequential for at most two agents,
   * hub-and-spoke around a deep reasoner, fully connected for four or more
   * agents without one, and a pipeline for exactly three without one.
   */
  function CollaborationPattern(agents: seq<AgentType>): (p: Pattern)
    ensures p == Sequential <==> |agents| <= 2
    ensures p == HubAndSpoke <==> 2 < |agents| && TOT in agents
    ensures p == FullyConnected <==> 4 <= |agents| && TOT !in agents
    ensures p == Pipeline <==> |agents| == 3 && TOT !in agents
  {
    if |agents| <= 2 then Sequential
    else if TOT in agents then HubAndSpoke
    else if |agents| >= 4 then FullyConnected
    else Pipeline
  }

  /**
   * The formation strategy for a tier and skill list: hierarchical for a
   * high-tier task with more than three skills, skill clustering for any
   * other task with more than two, deep collaboration for a high-tier task
   * with at most two, and simple parallel work otherwise.
   */
  function FormationStrategy(complexity: Tier, skills: seq<Skill>): (s: Strategy)
    ensures s == HierarchicalSpecialization <==> complexity == High && 3 < |skills|
    ensures s == SkillBasedClustering <==> 2 < |skills| && !(complexity == High && 3 < |skills|)
    ensures s == DeepCollaboration <==> complexity == High && |skills| <= 2
    ensures s == SimpleParallel <==> complexity != High && |skills| <= 2
  {
    if complexity == High && |skills| > 3 then HierarchicalSpecialization
    else if |skills| > 2 then SkillBasedClustering
    else if complexity == High then DeepCollaboration
    else SimpleParallel
  }

  /** Some agent of the team has `skill` in the performance skill map. */
  predicate Covered(skill: Skill, agents: seq<AgentType>)
  {
    exists a :: a in agents && skill in MappedSkills(a)
  }

  /** How many entries of `skills` some agent of the team covers (each entry at most once). */
  function Coverage(skills: seq<Skill>, agents: seq<AgentType>): (n: nat)
    ensures n <= |skills|
  {
    if skills == [] then 0
    else Coverage(skills[..|skills| - 1], agents) + (if Covered(skills[|skills| - 1], agents) then 1 else 0)
  }

  /** Python's `max(n, 1)` for a length. */
  function AtLeastOne(n: nat): (r: nat)
    ensures 1 <= r
  {
    if n > 1 then n else 1
  }

  /** The performance predicted for a team: 0.6 plus a coverage bonus and a size bonus, at most 1.0. */
  function PredictedPerformance(agents: seq<AgentType>, skills: seq<Skill>): (p: real)
    ensures 0.6 <= p <= 1.0
  {
    var skillBonus := Coverage(skills, agents) as real / AtLeastOne(|skills|) as real * 0.3;
    var sizeRatio := |agents| as real / 4.0;
    var sizeBonus := (if sizeRatio < 1.0 then sizeRatio else 1.0) * 0.1;
    var total := 0.6 + skillBonus + sizeBonus;
    if total < 1.0 then total else 1.0
  }

  // ---------------------------------------------------------------------------
  // The team object

  class AgentTeam {
    const task: ResearchTask
    var agents: seq<AgentType>
    /** None stands for the empty label the object starts with. */
    var formationStrategy: Option<Strategy>
    var collaborationPattern: Option<Pattern>

    constructor (task: ResearchTask)
      ensures this.task == task
      ensures agents == [] && formationStrategy == None && collaborationPattern == None
    {
      this.task := task;
      agents := [];
      formationStrategy := None;
      collaborationPattern := None;
    }

    /** Forms the team for an analysis and records it, with its strategy and pattern, in this object. */
    method FormTeam(analysis: ComplexityAnalysis) returns (config: TeamConfig)
      modifies this
      ensures agents == TeamSelection(analysis.complexity, analysis.skills, analysis.agentCount)
      ensures formationStrategy == Some(FormationStrategy(analysis.complexity, analysis.skills))
      ensures collaborationPattern == Some(CollaborationPattern(agents))
      ensures config == TeamConfig(agents, FormationStrategy(analysis.complexity, analysis.skills),
                                   CollaborationPattern(agents), PredictedPerformance(agents, analysis.skills))
    {
      var complexity, skills, agentCount := analysis.complexity, analysis.skills, analysis.agentCount;

      var selected := [IO];
      for i := 0 to |skills|
        invariant AddSpecialists(skills[i..], selected) == AddSpecialists(skills, [IO])
      {
        selected := ScanCatalog(skills[i], selected);
        assert skills[i..][1..] == skills[i + 1..];
      }

      if complexity == High && TOT !in selected {
        selected := selected + [TOT];
      }

      ghost var formed := selected;
      ghost var padding := 0;
      while |selected| < agentCount
        invariant |selected| == |formed| + padding
        invariant padding == 0 || |selected| <= agentCount
        invariant selected == formed + seq(padding, _ => IO)
      {
        CoordinatorStep(formed, padding);
        selected := selected + [IO];
        padding := padding + 1;
      }
      assert selected == PadWithCoordinators(formed, agentCount);
      selected := selected[..agentCount];

      agents := selected;
      formationStrategy := Some(FormationStrategy(complexity, skills));
      collaborationPattern := Some(CollaborationPattern(selected));
      var performance := EstimatePerformance(selected, skills);
      config := TeamConfig(selected, formationStrategy.value, collaborationPattern.value, performance);
    }

    /** One pass over the catalog for `skill`: the first entry that lists it and is not selected yet joins. */
    static method ScanCatalog(skill: Skill, selected: seq<AgentType>) returns (result: seq<AgentType>)
      ensures result == WithProvider(skill, selected)
    {
      result := selected;
      var k := 0;
      while k < |Capabilities|
        invariant 0 <= k <= |Capabilities|
        invariant FirstProvider(Capabilities[k..], skill, selected) == FirstProvider(Capabilities, skill, selected)
      {
        var (agentType, capabilities) := Capabilities[k];
        if skill in capabilities && agentType !in selected {
          result := selected + [agentType];
          return;
        }
        assert Capabilities[k..][1..] == Capabilities[k + 1..];
        k := k + 1;
      }
    }

    /** Predicts the performance of a team by counting the skills its agents cover. */
    method EstimatePerformance(agents: seq<AgentType>, skills: seq<Skill>) returns (performance: real)
      ensures performance == PredictedPerformance(agents, skills)
      ensures 0.6 <= performance <= 1.0
    {
      var coverage: nat := 0;
      for i := 0 to |skills|
        invariant coverage == Coverage(skills[..i], agents)
      {
        var j := 0;
        while j < |agents|
          invariant 0 <= j <= |agents|
          invariant forall k :: 0 <= k < j ==> skills[i] !in MappedSkills(agents[k])
          invariant coverage == Coverage(skills[..i], agents)
        {
          if skills[i] in MappedSkills(agents[j]) {
            coverage := coverage + 1;
            break;
          }
          j := j + 1;
        }
        assert skills[..i + 1][..i] == skills[..i];
      }
      assert skills[..|skills|] == skills;
      var skillBonus := coverage as real / AtLeastOne(|skills|) as real * 0.3;
      var sizeRatio := |agents| as real / 4.0;
      var sizeBonus := (if sizeRatio < 1.0 then sizeRatio else 1.0) * 0.1;
      performance := 0.6 + skillBonus + sizeBonus;
      if performance > 1.0 {
        performance := 1.0;
      }
    }
  }

  // ---------------------------------------------------------------------------
  // Properties of the selection

  /** The catalog scan keeps the earlier selection as a prefix and never repeats a specialist. */
  lemma {:induction false} AddSpecialistsExtends(skills: seq<Skill>, selected: seq<AgentType>)
    ensures selected <= AddSpecialists(skills, selected)
    ensures NoRepeatedSpecialist(selected) ==> NoRepeatedSpecialist(AddSpecialists(skills, selected))
    decreases |skills|
  {
    if skills != [] {
      var next := WithProvider(skills[0], selected);
      AddSpecialistsExtends(skills[1..], next);
      assert selected <= next;
    }
  }

  /**
   * The formed team has exactly the requested number of agents, starts with
   * the IO coordinator whenever it is not empty, and has no agent type other
   * than IO twice.
   */
  lemma TeamSelectionShape(complexity: Tier, skills: seq<Skill>, count: nat)
    ensures |TeamSelection(complexity, skills, count)| == count
    ensures count >= 1 ==> TeamSelection(complexity, skills, count)[0] == IO
    ensures NoRepeatedSpecialist(TeamSelection(complexity, skills, count))
  {
    var scanned := AddSpecialists(skills, [IO]);
    AddSpecialistsExtends(skills, [IO]);
    var forced := WithDeepReasoner(complexity, scanned);
    assert NoRepeatedSpecialist(forced);
    var padded := PadWithCoordinators(forced, count);
    assert NoRepeatedSpecialist(padded);
    assert padded[0] == IO;
  }

  /** The skill list without research and synthesis, the skills only IO offers. */
  function WithoutCoordinatorSkills(skills: seq<Skill>): (r: seq<Skill>)
    ensures |r| <= |skills|
  {
    if skills == [] then []
    else if skills[0] == Research || skills[0] == Synthesis then WithoutCoordinatorSkills(skills[1..])
    else [skills[0]] + WithoutCoordinatorSkills(skills[1..])
  }

  /** Once IO is selected, the skills research and synthesis never add an agent. */
  lemma {:induction false} CoordinatorSkillsAddNoAgent(skills: seq<Skill>, selected: seq<AgentType>)
    requires IO in selected
    ensures AddSpecialists(skills, selected) == AddSpecialists(WithoutCoordinatorSkills(skills), selected)
    decreases |skills|
  {
    if skills != [] {
      var next := WithProvider(skills[0], selected);
      if skills[0] == Research || skills[0] == Synthesis {
        assert next == selected;
        CoordinatorSkillsAddNoAgent(skills[1..], selected);
      } else {
        assert IO in next;
        CoordinatorSkillsAddNoAgent(skills[1..], next);
        var rest := WithoutCoordinatorSkills(skills[1..]);
        assert WithoutCoordinatorSkills(skills) == [skills[0]] + rest;
        assert ([skills[0]] + rest)[1..] == rest;
      }
    }
  }

  /** Scanning the catalog for analysis always leaves TOT selected. */
  lemma AnalysisSelectsDeepReasoner(selected: seq<AgentType>)
    ensures TOT in WithProvider(Analysis, selected)
  {
    match FirstProvider(Capabilities, Analysis, selected)
    case Some(a) =>
      var k :| 0 <= k < |Capabilities| && Capabilities[k].0 == a && Analysis in Capabilities[k].1;
      assert k == 1;
    case None =>
      assert Analysis in Capabilities[1].1;
  }

  /** A skill list mentioning analysis always yields a selection with TOT. */
  lemma {:induction false} AnalysisSkillSelectsDeepReasoner(skills: seq<Skill>, selected: seq<AgentType>)
    requires Analysis in skills
    ensures TOT in AddSpecialists(skills, selected)
    decreases |skills|
  {
    var next := WithProvider(skills[0], selected);
    if skills[0] == Analysis {
      AnalysisSelectsDeepReasoner(selected);
      AddSpecialistsExtends(skills[1..], next);
      var i :| 0 <= i < |next| && next[i] == TOT;
      assert AddSpecialists(skills[1..], next)[i] == TOT;
    } else {
      AnalysisSkillSelectsDeepReasoner(skills[1..], next);
    }
  }

  /** Number of entries of `skills` that belong to `kinds`. */
  function CountIn(skills: seq<Skill>, kinds: set<Skill>): (n: nat)
    ensures n <= |skills|
  {
    if skills == [] then 0 else (if skills[0] in kinds then 1 else 0) + CountIn(skills[1..], kinds)
  }

  /**
   * With IO selected, each classifier skill adds at most one agent, and only
   * analysis, coding and creativity can add one.
   */
  lemma {:induction false} SpecialistGrowth(skills: seq<Skill>, selected: seq<AgentType>)
    requires IO in selected
    requires forall s :: s in skills ==> DiscoveryRank(s) < 5
    ensures |AddSpecialists(skills, selected)| <= |selected| + CountIn(skills, {Analysis, Coding, Creativity})
    decreases |skills|
  {
    if skills != [] {
      var kinds := {Analysis, Coding, Creativity};
      var next := WithProvider(skills[0], selected);
      if skills[0] == Research || skills[0] == Synthesis {
        assert next == selected;
        assert skills[0] !in kinds;
      } else {
        assert DiscoveryRank(skills[0]) < 5;
        assert skills[0] in kinds;
        assert |next| <= |selected| + 1;
      }
      assert CountIn(skills, kinds) == (if skills[0] in kinds then 1 else 0) + CountIn(skills[1..], kinds);
      assert IO in next;
      SpecialistGrowth(skills[1..], next);
    }
  }

  /** The classifier skill of a discovery rank. */
  function SkillOfRank(r: nat): (s: Skill)
    requires r < 5
    ensures DiscoveryRank(s) == r
  {
    [Research, Analysis, Coding, Synthesis, Creativity][r]
  }

  /** How many classifier skills of rank at least `r` belong to `kinds`. */
  function RankBound(kinds: set<Skill>, r: nat): nat
    decreases 5 - r
  {
    if r >= 5 then 0 else (if SkillOfRank(r) in kinds then 1 else 0) + RankBound(kinds, r + 1)
  }

  lemma {:induction false} RankBoundMonotone(kinds: set<Skill>, r: nat, r': nat)
    requires r <= r'
    ensures RankBound(kinds, r') <= RankBound(kinds, r)
    decreases r' - r
  {
    if r < r' {
      RankBoundMonotone(kinds, r + 1, r');
    }
  }

  /** A ranked skill list holds at most as many members of `kinds` as there are ranks for them. */
  lemma {:induction false} RankedCount(skills: seq<Skill>, kinds: set<Skill>, r: nat)
    requires RankedSkills(skills)
    requires forall s :: s in skills ==> r <= DiscoveryRank(s)
    ensures CountIn(skills, kinds) <= RankBound(kinds, r)
    decreases |skills|
  {
    if skills != [] {
      var r0 := DiscoveryRank(skills[0]);
      assert SkillOfRank(r0) == skills[0] by {
        assert DiscoveryRank(SkillOfRank(r0)) == r0;
      }
      forall s | s in skills[1..]
        ensures r0 + 1 <= DiscoveryRank(s)
      {
        var j :| 0 <= j < |skills[1..]| && skills[1..][j] == s;
        assert skills[j + 1] == s;
      }
      RankedCount(skills[1..], kinds, r0 + 1);
      RankBoundMonotone(kinds, r, r0);
    }
  }

  lemma {:induction false} CountWithout(skills: seq<Skill>, kinds: set<Skill>, absent: Skill)
    requires absent !in skills
    ensures CountIn(skills, kinds) == CountIn(skills, kinds - {absent})
    decreases |skills|
  {
    if skills != [] {
      CountWithout(skills[1..], kinds, absent);
    }
  }

  lemma RankBoundsOfSpecialistSkills()
    ensures RankBound({Analysis, Coding, Creativity}, 0) == 3
    ensures RankBound({Coding, Creativity}, 0) == 2
  {
    assert RankBound({Analysis, Coding, Creativity}, 4) == 1;
    assert RankBound({Coding, Creativity}, 4) == 1;
  }

  /**
   * A high-complexity team formed from ranked classifier skills keeps TOT
   * whenever at least four agents are asked for: at most four agents
   * precede the padding.
   */
  lemma HighTierTeamHasDeepReasoner(skills: seq<Skill>, count: nat)
    requires RankedSkills(skills) && 4 <= count
    ensures TOT in TeamSelection(High, skills, count)
  {
    var scanned := AddSpecialists(skills, [IO]);
    SpecialistGrowth(skills, [IO]);
    RankBoundsOfSpecialistSkills();
    var kinds := {Analysis, Coding, Creativity};
    var forced := WithDeepReasoner(High, scanned);
    if Analysis in skills {
      AnalysisSkillSelectsDeepReasoner(skills, [IO]);
      RankedCount(skills, kinds, 0);
      assert forced == scanned;
    } else {
      CountWithout(skills, kinds, Analysis);
      assert kinds - {Analysis} == {Coding, Creativity};
      RankedCount(skills, kinds - {Analysis}, 0);
    }
    assert |forced| <= 4 && TOT in forced;
    var i :| 0 <= i < |forced| && forced[i] == TOT;
    var padded := PadWithCoordinators(forced, count);
    assert padded[i] == TOT;
    assert TeamSelection(High, skills, count)[i] == TOT;
  }

  /**
   * For every query the classifier rates high, the TOT agent survives the
   * trim, because a high-complexity task asks for at least four agents.
   */
  lemma HighTierKeepsDeepReasoner(query: string)
    ensures var a := AnalyzeComplexity(query);
      a.complexity == High ==> TOT in TeamSelection(a.complexity, a.skills, a.agentCount)
  {
    var a := AnalyzeComplexity(query);
    if a.complexity == High {
      HighTierTeamHasDeepReasoner(a.skills, a.agentCount);
    }
  }

  /**
   * The pattern of a classified query's team: sequential exactly for a
   * low-complexity query with at most one skill, and hub-and-spoke for every
   * high-complexity query.
   */
  lemma PlannedPattern(query: string)
    ensures var a := AnalyzeComplexity(query);
      var pattern := CollaborationPattern(TeamSelection(a.complexity, a.skills, a.agentCount));
      (pattern == Sequential <==> a.complexity == Low && |a.skills| <= 1) &&
      (a.complexity == High ==> pattern == HubAndSpoke)
  {
    HighTierKeepsDeepReasoner(query);
  }

  /**
   * The strategy label agrees with the team actually formed for a query:
   * hierarchical specialization gets six agents, the two high-complexity
   * strategies always include TOT, skill-based clustering at least three
   * agents, and simple parallel is never used for a high-complexity task.
   */
  lemma StrategyAgreesWithTeam(query: string)
    ensures var a := AnalyzeComplexity(query);
      var strategy := FormationStrategy(a.complexity, a.skills);
      var team := TeamSelection(a.complexity, a.skills, a.agentCount);
      (strategy == HierarchicalSpecialization ==> |team| == 6 && TOT in team) &&
      (strategy == DeepCollaboration ==> TOT in team && CollaborationPattern(team) == HubAndSpoke) &&
      (strategy == SkillBasedClustering ==> |team| >= 3) &&
      (strategy == SimpleParallel ==> a.complexity != High)
  {
    HighTierKeepsDeepReasoner(query);
  }

  lemma RatioAtMostOne(c: real, n: real)
    requires 0.0 <= c <= n && 0.0 < n
    ensures c / n <= 1.0
    ensures c / n == 1.0 <==> c == n
  {
    assert c / n * n == c;
  }

  /**
   * The 1.0 cap of the prediction never binds, and the prediction is exactly
   * 1.0 when, and only when, there are skills, every skill is covered by the
   * performance skill map, and the team has at least four agents.
   */
  lemma PerfectPrediction(agents: seq<AgentType>, skills: seq<Skill>)
    ensures var coverageBonus := Coverage(skills, agents) as real / AtLeastOne(|skills|) as real * 0.3;
      var sizeRatio := |agents| as real / 4.0;
      PredictedPerformance(agents, skills) == 0.6 + coverageBonus + (if sizeRatio < 1.0 then sizeRatio else 1.0) * 0.1
    ensures PredictedPerformance(agents, skills) == 1.0 <==>
      skills != [] && Coverage(skills, agents) == |skills| && |agents| >= 4
  {
    RatioAtMostOne(Coverage(skills, agents) as real, AtLeastOne(|skills|) as real);
  }
}

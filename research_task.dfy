/**
 * The research task and its complexity analysis: keyword-substring tiering
 * with a fixed priority (high before medium before low), keyword skill
 * extraction, and the time and team-size estimates derived from them.
 */
module ResearchTasks {
  import opened Text

  /** Complexity tier of a task. */
  datatype Tier = Low | Medium | High

  /**
   * Every skill name that the classifier produces or that a capability
   * catalog lists. The first five are the ones the classifier can produce.
   */
  datatype Skill =
    | Research | Analysis | Coding | Synthesis | Creativity
    | GeneralReasoning | DeepReasoning | Planning
    | WebSearch | InformationGathering | FactChecking
    | TechnicalAnalysis | AlgorithmDesign
    | Brainstorming | Design
    | Evaluation | QualityCheck | Verification

  /** Position of a skill in the classifier's fixed discovery order; 5 for the others. */
  function DiscoveryRank(s: Skill): nat
  {
    match s
    case Research => 0
    case Analysis => 1
    case Coding => 2
    case Synthesis => 3
    case Creativity => 4
    case _ => 5
  }

  const HighIndicators: seq<string> :=
    ["compare", "analyze", "evaluate", "synthesize", "integrate", "comprehensive"]
  const MediumIndicators: seq<string> :=
    ["explain", "describe", "summarize", "overview", "review"]
  const LowIndicators: seq<string> :=
    ["what", "when", "where", "who", "define", "list"]

  /**
   * The score of one tier: how many of its indicator words occur in the
   * text, each word counted at most once. Only its positivity matters.
   */
  function IndicatorScore(indicators: seq<string>, text: string): (n: nat)
    ensures n <= |indicators|
    ensures n > 0 <==> AnyOccurs(indicators, text)
  {
    if indicators == [] then 0
    else
      var rest := IndicatorScore(indicators[1..], text);
      assert forall k :: 0 <= k < |indicators| - 1 ==> indicators[1..][k] == indicators[k + 1];
      assert AnyOccurs(indicators[1..], text) ==> AnyOccurs(indicators, text);
      (if Contains(text, indicators[0]) then 1 else 0) + rest
  }

  /**
   * The tier of an already lower-cased query. The scores of the three tiers
   * are computed and resolved by priority: high if any high indicator
   * occurs, whatever else occurs; else medium if any medium indicator
   * occurs; else low. The size of a score never decides.
   */
  function TierOf(queryLower: string): (t: Tier)
    ensures t == High <==> AnyOccurs(HighIndicators, queryLower)
    ensures t == Medium <==> !AnyOccurs(HighIndicators, queryLower) && AnyOccurs(MediumIndicators, queryLower)
    ensures t == Low <==> !AnyOccurs(HighIndicators, queryLower) && !AnyOccurs(MediumIndicators, queryLower)
  {
    var high := IndicatorScore(HighIndicators, queryLower);
    var medium := IndicatorScore(MediumIndicators, queryLower);
    var _ := IndicatorScore(LowIndicators, queryLower);
    if high > 0 then High else if medium > 0 then Medium else Low
  }

  /** The skill keyword table, in the order the classifier tests it. */
  const SkillKeywords: seq<(Skill, seq<string>)> := [
    (Research, ["search", "find", "research"]),
    (Analysis, ["analyze", "analysis", "compare"]),
    (Coding, ["code", "program", "algorithm"]),
    (Synthesis, ["synthesize", "combine", "integrate"]),
    (Creativity, ["creative", "design", "innovative"])
  ]

  /** The skills of `table` (in table order) one of whose keywords occurs in `text`. */
  function SkillsFrom(table: seq<(Skill, seq<string>)>, text: string): seq<Skill>
  {
    if table == [] then []
    else (if AnyOccurs(table[0].1, text) then [table[0].0] else []) + SkillsFrom(table[1..], text)
  }

  /** A skill list ordered strictly by discovery rank, within the classifier's five skills. */
  predicate RankedSkills(skills: seq<Skill>)
  {
    (forall i :: 0 <= i < |skills| ==> DiscoveryRank(skills[i]) < 5) &&
    (forall i, j :: 0 <= i < j < |skills| ==> DiscoveryRank(skills[i]) < DiscoveryRank(skills[j]))
  }

  /** A suffix of the keyword table yields ranked skills whose ranks are at least that of its first row. */
  lemma {:induction false} SkillsFromRanked(k: nat, text: string)
    requires k <= |SkillKeywords|
    ensures RankedSkills(SkillsFrom(SkillKeywords[k..], text))
    ensures forall s :: s in SkillsFrom(SkillKeywords[k..], text) ==> k <= DiscoveryRank(s)
    ensures forall s :: s in SkillsFrom(SkillKeywords[k..], text) <==>
      exists j :: k <= j < |SkillKeywords| && SkillKeywords[j].0 == s && AnyOccurs(SkillKeywords[j].1, text)
    decreases |SkillKeywords| - k
  {
    if k < |SkillKeywords| {
      SkillsFromRanked(k + 1, text);
      assert SkillKeywords[k..][1..] == SkillKeywords[k + 1..];
      assert DiscoveryRank(SkillKeywords[k].0) == k;
    }
  }

  /**
   * The skills a lower-cased query requires: each of research, analysis,
   * coding, synthesis and creativity at most once, in that order, present
   * exactly when one of its keywords occurs; none when no keyword occurs.
   */
  function RequiredSkills(queryLower: string): (skills: seq<Skill>)
    ensures RankedSkills(skills)
    ensures |skills| <= 5
    ensures forall s :: s in skills <==>
      exists j :: 0 <= j < |SkillKeywords| && SkillKeywords[j].0 == s && AnyOccurs(SkillKeywords[j].1, queryLower)
    ensures skills == [] <==> forall j :: 0 <= j < |SkillKeywords| ==> !AnyOccurs(SkillKeywords[j].1, queryLower)
  {
    SkillsFromRanked(0, queryLower);
    var skills := SkillsFrom(SkillKeywords, queryLower);
    RankedLength(skills);
    assert forall j :: 0 <= j < |SkillKeywords| && AnyOccurs(SkillKeywords[j].1, queryLower) ==>
      SkillKeywords[j].0 in skills;
    assert skills != [] ==> skills[0] in skills;
    skills
  }

  /** A ranked skill list has at most five entries. */
  lemma {:induction false} RankedLength(skills: seq<Skill>)
    requires RankedSkills(skills)
    ensures |skills| <= 5
    ensures skills != [] ==> 5 - DiscoveryRank(skills[0]) >= |skills|
    decreases |skills|
  {
    if skills != [] {
      RankedLength(skills[1..]);
      if |skills| > 1 {
        assert DiscoveryRank(skills[0]) < DiscoveryRank(skills[1]);
      }
    }
  }

  /** Estimated completion time, in seconds, of a task of the given tier. */
  function EstimateTime(complexity: Tier): (seconds: nat)
    ensures 60 <= seconds <= 600
  {
    match complexity
    case Low => 60
    case Medium => 180
    case High => 600
  }

  /** Base team size of a tier. */
  function BaseAgentCount(complexity: Tier): nat
  {
    match complexity
    case Low => 2
    case Medium => 3
    case High => 4
  }

  /** Recommended team size: the tier's base plus one per two skills, capped at six. */
  function EstimateAgentCount(complexity: Tier, skills: seq<Skill>): (n: nat)
    ensures 2 <= n <= 6
    ensures BaseAgentCount(complexity) <= n
    ensures n <= BaseAgentCount(complexity) + |skills| / 2
    ensures n < 6 ==> n == BaseAgentCount(complexity) + |skills| / 2
    ensures n == 6 <==> 6 <= BaseAgentCount(complexity) + |skills| / 2
  {
    var wanted := BaseAgentCount(complexity) + |skills| / 2;
    if wanted < 6 then wanted else 6
  }

  /** A research task as received; `complexity` keeps the constructor's default. */
  datatype ResearchTask = ResearchTask(
    query: string,
    domain: string,
    complexity: string,
    requiredSkills: seq<Skill>,
    timeLimit: int)

  /** A new task with the constructor's defaults for complexity, skills and time limit. */
  function NewTask(query: string, domain: string): (t: ResearchTask)
    ensures t.query == query && t.domain == domain && t.requiredSkills == []
  {
    ResearchTask(query, domain, "medium", [], 300)
  }

  /** What the complexity analysis of a task reports. */
  datatype ComplexityAnalysis = ComplexityAnalysis(complexity: Tier, skills: seq<Skill>, estimatedTime: nat, agentCount: nat)

  /** The complexity analysis of a query, on its lower-cased text. */
  function AnalyzeComplexity(query: string): (a: ComplexityAnalysis)
    ensures a.complexity == TierOf(Lower(query))
    ensures a.skills == RequiredSkills(Lower(query))
    ensures a.estimatedTime == EstimateTime(a.complexity)
    ensures a.agentCount == EstimateAgentCount(a.complexity, a.skills)
    ensures RankedSkills(a.skills) && 2 <= a.agentCount <= 6
  {
    var queryLower := Lower(query);
    var complexity := TierOf(queryLower);
    var skills := RequiredSkills(queryLower);
    ComplexityAnalysis(complexity, skills, EstimateTime(complexity), EstimateAgentCount(complexity, skills))
  }
}

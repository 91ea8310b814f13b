/**
 * The deterministic logic of the comprehensive demo: the mock language
 * model's prompt dispatch, the demo graph statistics, the optimization
 * convergence trace, and the research team and execution tables.
 */
module ComprehensiveDemo {
  import opened Wrappers
  import opened Text

  // ---------------------------------------------------------------------------
  // Mock language model

  /** The five canned responses of the mock model. */
  datatype ResponseKind = Reasoning | Coding | ResearchFindings | Creative | Final

  function ResponseText(kind: ResponseKind): string
  {
    match kind
    case Reasoning => "Based on my analysis, I need to break this down into logical steps..."
    case Coding => "```python\ndef solve_problem():\n    # Implementation here\n    return result\n```"
    case ResearchFindings => "After researching the topic, I found the following key information..."
    case Creative => "Here's a creative approach to this challenge..."
    case Final => "Combining all agent outputs, the final answer is..."
  }

  /**
   * The response kind for a lower-cased prompt: the first of coding,
   * research, creative and reasoning one of whose two words occurs, else
   * the final answer.
   */
  function ResponseKindOf(promptLower: string): (kind: ResponseKind)
    ensures kind == Coding <==> Contains(promptLower, "code") || Contains(promptLower, "python")
    ensures kind == Final <==>
      !Contains(promptLower, "code") && !Contains(promptLower, "python") &&
      !Contains(promptLower, "research") && !Contains(promptLower, "search") &&
      !Contains(promptLower, "creative") && !Contains(promptLower, "story") &&
      !Contains(promptLower, "reason") && !Contains(promptLower, "analysis")
  {
    if Contains(promptLower, "code") || Contains(promptLower, "python") then Coding
    else if Contains(promptLower, "research") || Contains(promptLower, "search") then ResearchFindings
    else if Contains(promptLower, "creative") || Contains(promptLower, "story") then Creative
    else if Contains(promptLower, "reason") || Contains(promptLower, "analysis") then Reasoning
    else Final
  }

  /** The lower-cased prompt contains one of two trigger words. */
  predicate Mentions(prompt: string, word: string, other: string)
  {
    Contains(Lower(prompt), word) || Contains(Lower(prompt), other)
  }

  /**
   * The mock model's answer to a prompt, matched case-insensitively: the
   * coding answer when the prompt mentions code or python, otherwise the
   * research findings for research or search, otherwise the creative answer
   * for creative or story, otherwise the reasoning answer for reason or
   * analysis, and the final answer when it mentions none of the eight words.
   */
  function Agenerate(prompt: string): (response: string)
    ensures Mentions(prompt, "code", "python") ==> response == ResponseText(Coding)
    ensures !Mentions(prompt, "code", "python") && Mentions(prompt, "research", "search") ==>
      response == ResponseText(ResearchFindings)
    ensures (!Mentions(prompt, "code", "python") && !Mentions(prompt, "research", "search") &&
             Mentions(prompt, "creative", "story")) ==> response == ResponseText(Creative)
    ensures (!Mentions(prompt, "code", "python") && !Mentions(prompt, "research", "search") &&
             !Mentions(prompt, "creative", "story") && Mentions(prompt, "reason", "analysis")) ==>
      response == ResponseText(Reasoning)
    ensures (!Mentions(prompt, "code", "python") && !Mentions(prompt, "research", "search") &&
             !Mentions(prompt, "creative", "story") && !Mentions(prompt, "reason", "analysis")) ==>
      response == ResponseText(Final)
  {
    var promptLower := Lower(prompt);
    var kind := ResponseKindOf(promptLower);
    assert kind == Coding <==> Mentions(prompt, "code", "python");
    assert kind == Final <==>
      !Mentions(prompt, "code", "python") && !Mentions(prompt, "research", "search") &&
      !Mentions(prompt, "creative", "story") && !Mentions(prompt, "reason", "analysis");
    ResponseText(kind)
  }

  /** The dispatch written as data: trigger words and the kind they select, by priority. */
  const ResponseRules: seq<(seq<string>, ResponseKind)> := [
    (["code", "python"], Coding),
    (["research", "search"], ResearchFindings),
    (["creative", "story"], Creative),
    (["reason", "analysis"], Reasoning)
  ]

  /** The kind of the first rule one of whose words occurs, the final answer if none does. */
  function FirstMatchingRule(rules: seq<(seq<string>, ResponseKind)>, text: string): ResponseKind
  {
    if rules == [] then Final
    else if AnyOccurs(rules[0].0, text) then rules[0].1
    else FirstMatchingRule(rules[1..], text)
  }

  /** The branch chain of the mock model is the first-match reading of the rule table. */
  lemma DispatchFollowsRules(promptLower: string)
    ensures ResponseKindOf(promptLower) == FirstMatchingRule(ResponseRules, promptLower)
  {
    var text := promptLower;
    AnyOfTwo("code", "python", text);
    AnyOfTwo("research", "search", text);
    AnyOfTwo("creative", "story", text);
    AnyOfTwo("reason", "analysis", text);
    var last := [(["reason", "analysis"], Reasoning)];
    assert last[1..] == [];
    assert FirstMatchingRule(last, text) == if AnyOccurs(["reason", "analysis"], text) then Reasoning else Final;
    var fromCreative := [(["creative", "story"], Creative)] + last;
    assert fromCreative[1..] == last;
    var fromResearch := [(["research", "search"], ResearchFindings)] + fromCreative;
    assert fromResearch[1..] == fromCreative;
    assert ResponseRules == [(["code", "python"], Coding)] + fromResearch;
    assert ResponseRules[1..] == fromResearch;
    assert FirstMatchingRule(fromCreative, text) ==
      if AnyOccurs(["creative", "story"], text) then Creative else FirstMatchingRule(last, text);
    assert FirstMatchingRule(fromResearch, text) ==
      if AnyOccurs(["research", "search"], text) then ResearchFindings else FirstMatchingRule(fromCreative, text);
    assert FirstMatchingRule(ResponseRules, text) ==
      if AnyOccurs(["code", "python"], text) then Coding else FirstMatchingRule(fromResearch, text);
  }

  /** A prompt mentioning code or python, in any letter case, gets the coding answer whatever else it says. */
  lemma CodingTakesPriority(before: string, word: string, after: string)
    requires Lower(word) == "code" || Lower(word) == "python"
    ensures Agenerate(before + word + after) == ResponseText(Coding)
  {
    LowerAppend(before + word, after);
    LowerAppend(before, word);
    ContainsMiddle(Lower(before), Lower(word), Lower(after));
  }

  // ---------------------------------------------------------------------------
  // Demo graph statistics

  /** The statistics of a demo team graph. */
  datatype DemoGraph = DemoGraph(nodes: nat, edges: int, connectivity: real, agentTypes: seq<string>)

  /**
   * The demo graph of a team under a connection label. The sequential and
   * hub labels divide by the number of possible pairs, which fails (None)
   * for a team of at most one agent; an unknown label claims one edge per
   * agent and connectivity 0.5.
   */
  function CreateDemoGraph(agents: seq<string>, connections: string): (g: Option<DemoGraph>)
    ensures g.None? <==> (connections == "sequential" || connections == "hub") && |agents| <= 1
    ensures g.Some? ==> g.value.nodes == |agents| && g.value.agentTypes == agents
    ensures g.Some? && (connections == "sequential" || connections == "hub") ==>
      g.value.edges == |agents| - 1 && g.value.connectivity == 2.0 / |agents| as real &&
      0.0 < g.value.connectivity <= 1.0
    ensures connections == "full" ==>
      g.Some? && g.value.connectivity == 1.0 && g.value.edges == |agents| * (|agents| - 1) / 2
    ensures connections !in {"sequential", "full", "hub"} ==>
      g == Some(DemoGraph(|agents|, |agents|, 0.5, agents))
  {
    var n := |agents|;
    if connections == "sequential" then
      if n <= 1 then None
      else
        var edges := n - 1;
        Some(DemoGraph(n, edges, PathRatio(n), agents))
    else if connections == "full" then
      Some(DemoGraph(n, n * (n - 1) / 2, 1.0, agents))
    else if connections == "hub" then
      if n <= 1 then None
      else
        var edges := n - 1;
        Some(DemoGraph(n, edges, PathRatio(n), agents))
    else
      Some(DemoGraph(n, n, 0.5, agents))
  }

  /** `(n - 1) / (n * (n - 1) / 2)` for a team of n >= 2 agents: two over n. */
  function PathRatio(n: nat): (ratio: real)
    requires 2 <= n
    ensures ratio == 2.0 / n as real
    ensures 0.0 < ratio <= 1.0
  {
    var edges := (n - 1) as real;
    var pairs := (n * (n - 1)) as real / 2.0;
    assert pairs == n as real * edges / 2.0;
    edges / pairs
  }

  // ---------------------------------------------------------------------------
  // Optimization convergence

  /** One optimization step: close 15% of the gap plus 0.01, never past the target. */
  function Step(current: real, target: real): (next: real)
    ensures next <= target
    ensures current <= target ==> current <= next
  {
    var improvement := (target - current) * 0.15 + 0.01;
    var raised := current + improvement;
    if raised < target then raised else target
  }

  /** Close enough: at least 95% of the target. */
  predicate Converged(current: real, target: real)
  {
    current >= target * 0.95
  }

  /**
   * The values appended by at most `steps` further iterations from
   * `current`: each iteration appends one step, and iteration stops after
   * the first value that has converged.
   */
  function TraceFrom(current: real, target: real, steps: nat): seq<real>
    decreases steps
  {
    if steps == 0 then []
    else
      var next := Step(current, target);
      [next] + (if Converged(next, target) then [] else TraceFrom(next, target, steps - 1))
  }

  /** The trace of ten iterations at most, starting with the initial value. */
  function OptimizationTrace(initial: real, target: real): seq<real>
  {
    [initial] + TraceFrom(initial, target, 10)
  }

  /** Runs the optimization loop and returns its performance history. */
  method SimulateOptimization(initial: real, target: real) returns (performanceHistory: seq<real>)
    ensures performanceHistory == OptimizationTrace(initial, target)
  {
    ghost var trace := OptimizationTrace(initial, target);
    performanceHistory := [initial];
    var current := initial;
    for i := 0 to 10
      invariant performanceHistory + TraceFrom(current, target, 10 - i) == trace
    {
      ghost var before := performanceHistory;
      ghost var rest := TraceFrom(current, target, 10 - i);
      ghost var previous := current;
      var improvement := (target - current) * 0.15 + 0.01;
      var raised := current + improvement;
      TraceFromUnfold(current, target, 10 - i);
      current := if raised < target then raised else target;
      assert current == Step(previous, target);
      performanceHistory := performanceHistory + [current];
      if current >= target * 0.95 {
        assert rest == [current];
        return;
      }
      ghost var later := TraceFrom(current, target, 10 - (i + 1));
      assert rest == [current] + later;
      assert before + ([current] + later) == (before + [current]) + later;
    }
  }

  /** One iteration of the trace: the next step, then the rest unless that step converged. */
  lemma TraceFromUnfold(current: real, target: real, steps: nat)
    requires 0 < steps
    ensures TraceFrom(current, target, steps) ==
      [Step(current, target)] + (if Converged(Step(current, target), target) then [] else TraceFrom(Step(current, target), target, steps - 1))
  {
  }

  /** Every appended value is at most the target; the appended values number between one and `steps`. */
  lemma {:induction false} TraceFromShape(current: real, target: real, steps: nat)
    requires 1 <= steps
    ensures 1 <= |TraceFrom(current, target, steps)| <= steps
    ensures forall k :: 0 <= k < |TraceFrom(current, target, steps)| ==> TraceFrom(current, target, steps)[k] <= target
    decreases steps
  {
    var next := Step(current, target);
    if !Converged(next, target) && 1 < steps {
      TraceFromShape(next, target, steps - 1);
    }
  }

  /**
   * Starting at or below the target, the trace never decreases.
   */
  lemma {:induction false} TraceFromIncreasing(current: real, target: real, steps: nat)
    requires current <= target
    ensures forall k :: 0 <= k < |TraceFrom(current, target, steps)| ==>
      current <= TraceFrom(current, target, steps)[k]
    ensures forall j, k :: 0 <= j < k < |TraceFrom(current, target, steps)| ==>
      TraceFrom(current, target, steps)[j] <= TraceFrom(current, target, steps)[k]
    decreases steps
  {
    if 0 < steps {
      var next := Step(current, target);
      if !Converged(next, target) {
        TraceFromIncreasing(next, target, steps - 1);
      }
    }
  }

  /**
   * The stopping rule: every appended value but the last is below 95% of
   * the target, and the last is at or above it unless all `steps`
   * iterations ran.
   */
  lemma {:induction false} TraceFromStops(current: real, target: real, steps: nat)
    ensures forall k :: 0 <= k < |TraceFrom(current, target, steps)| - 1 ==>
      !Converged(TraceFrom(current, target, steps)[k], target)
    ensures 0 < |TraceFrom(current, target, steps)| < steps ==>
      Converged(TraceFrom(current, target, steps)[|TraceFrom(current, target, steps)| - 1], target)
    decreases steps
  {
    if 0 < steps {
      var next := Step(current, target);
      if !Converged(next, target) {
        TraceFromStops(next, target, steps - 1);
        var rest := TraceFrom(next, target, steps - 1);
        assert TraceFrom(current, target, steps) == [next] + rest;
      }
    }
  }

  /**
   * The whole trace: it starts with the initial value, has 2 to 11
   * entries, never exceeds the target after the first, never decreases when
   * it starts at or below the target, stops at the first value at or above
   * 95% of the target, and reaches it unless the ten iterations ran out.
   */
  lemma OptimizationTraceProperties(initial: real, target: real)
    ensures var trace := OptimizationTrace(initial, target);
      trace[0] == initial && 2 <= |trace| <= 11 &&
      (forall k :: 1 <= k < |trace| ==> trace[k] <= target) &&
      (initial <= target ==> forall j, k :: 0 <= j < k < |trace| ==> trace[j] <= trace[k]) &&
      (forall k :: 1 <= k < |trace| - 1 ==> !Converged(trace[k], target)) &&
      (|trace| < 11 ==> Converged(trace[|trace| - 1], target))
  {
    var rest := TraceFrom(initial, target, 10);
    TraceFromShape(initial, target, 10);
    TraceFromStops(initial, target, 10);
    if initial <= target {
      TraceFromIncreasing(initial, target, 10);
    }
  }

  /**
   * Starting at or above a non-negative target, the single iteration
   * jumps to the target and stops: the trace is the initial value and the
   * target, never the initial value alone.
   */
  lemma TraceAtOrAboveTarget(initial: real, target: real)
    requires 0.0 <= target <= initial
    ensures OptimizationTrace(initial, target) == [initial, target]
  {
    assert Step(initial, target) == target;
  }

  /** From 0.65 towards 0.85 the trace converges after six steps, at about 0.816 >= 0.8075. */
  lemma TraceFromBaseline()
    ensures |OptimizationTrace(0.65, 0.85)| == 7
    ensures OptimizationTrace(0.65, 0.85)[6] >= 0.8075
  {
    var t := 0.85;
    var c1 := Step(0.65, t);
    assert c1 == 0.69;
    var c2 := Step(c1, t);
    assert c2 == 0.724;
    var c3 := Step(c2, t);
    assert c3 == 0.7529;
    var c4 := Step(c3, t);
    assert c4 == 0.777465;
    var c5 := Step(c4, t);
    assert c5 == 0.79834525;
    var c6 := Step(c5, t);
    assert c6 == 0.8160934625;
    assert TraceFrom(c5, t, 5) == [c6];
    assert TraceFrom(c4, t, 6) == [c5, c6];
    assert TraceFrom(c3, t, 7) == [c4, c5, c6];
    assert TraceFrom(c2, t, 8) == [c3, c4, c5, c6];
    assert TraceFrom(c1, t, 9) == [c2, c3, c4, c5, c6];
    assert TraceFrom(0.65, t, 10) == [c1, c2, c3, c4, c5, c6];
  }

  // ---------------------------------------------------------------------------
  // Research team and execution tables

  /** The two agent types a research team is built from, named "IO" and "TOT". */
  datatype TeamAgent = IO | TOT

  /** A research team: its size, agent types and the skills it was formed for. */
  datatype ResearchTeam = ResearchTeam(size: nat, types: seq<TeamAgent>, skillsCovered: seq<string>)

  /** Team size by complexity label: 2 for "low", 3 for "medium", 4 for anything else. */
  function TeamSize(complexity: string): (size: nat)
    ensures 2 <= size <= 4
  {
    if complexity == "low" then 2 else if complexity == "medium" then 3 else 4
  }

  /** The agent types the skills call for: IO for research, TOT for analysis, IO for synthesis. */
  function SkillAgentTypes(skills: seq<string>): (types: seq<TeamAgent>)
    ensures |types| <= 3
    ensures TOT in types <==> "analysis" in skills
    ensures forall k :: 0 <= k < |types| && types[k] == TOT ==> k <= 1
    ensures forall k :: 0 <= k < |types| ==> types[k] == IO || types[k] == TOT
  {
    (if "research" in skills then [IO] else []) +
    (if "analysis" in skills then [TOT] else []) +
    (if "synthesis" in skills then [IO] else [])
  }

  /** `types` followed by IO agents up to `size` entries, when it is shorter. */
  function PadWithIO(types: seq<TeamAgent>, size: nat): (padded: seq<TeamAgent>)
    ensures |padded| == if |types| < size then size else |types|
    ensures padded[..|types|] == types
    ensures forall k :: |types| <= k < |padded| ==> padded[k] == IO
  {
    if |types| < size then types + seq(size - |types|, _ => IO) else types
  }

  /** One more IO agent extends the padding by one. */
  lemma PaddingStep(called: seq<TeamAgent>, padding: nat)
    ensures called + seq(padding, _ => IO) + [IO] == called + seq(padding + 1, _ => IO)
  {
  }

  /** The research team a query of the given complexity and skills receives. */
  function ResearchTeamOf(complexity: string, skills: seq<string>): ResearchTeam
  {
    var size := TeamSize(complexity);
    ResearchTeam(size, PadWithIO(SkillAgentTypes(skills), size)[..size], skills)
  }

  /** Forms the research team: skill-called agents, then IO padding, then the cut to the team size. */
  method FormResearchTeam(complexity: string, skills: seq<string>) returns (team: ResearchTeam)
    ensures team == ResearchTeamOf(complexity, skills)
  {
    var teamSize := if complexity == "low" then 2 else if complexity == "medium" then 3 else 4;
    var agentTypes: seq<TeamAgent> := [];
    if "research" in skills {
      agentTypes := agentTypes + [IO];
    }
    if "analysis" in skills {
      agentTypes := agentTypes + [TOT];
    }
    if "synthesis" in skills {
      agentTypes := agentTypes + [IO];
    }
    ghost var called := agentTypes;
    assert called == SkillAgentTypes(skills);
    assert teamSize == TeamSize(complexity);
    ghost var padding := 0;
    while |agentTypes| < teamSize
      invariant |agentTypes| == |called| + padding
      invariant padding == 0 || |agentTypes| <= teamSize
      invariant agentTypes == called + seq(padding, _ => IO)
      decreases teamSize - |agentTypes|
    {
      PaddingStep(called, padding);
      agentTypes := agentTypes + [IO];
      padding := padding + 1;
    }
    assert agentTypes == PadWithIO(called, teamSize);
    team := ResearchTeam(teamSize, agentTypes[..teamSize], skills);
  }

  /**
   * The research team has exactly its size in agents, all IO or TOT; it
   * includes TOT exactly when analysis is among the skills (the cut never
   * removes it), and every agent past the skill-called ones is IO.
   */
  lemma ResearchTeamShape(complexity: string, skills: seq<string>)
    ensures var team := ResearchTeamOf(complexity, skills);
      team.size == TeamSize(complexity) && |team.types| == team.size &&
      (forall k :: 0 <= k < |team.types| ==> team.types[k] == IO || team.types[k] == TOT) &&
      (TOT in team.types <==> "analysis" in skills) &&
      (forall k :: |SkillAgentTypes(skills)| <= k < |team.types| ==> team.types[k] == IO)
  {
    var size := TeamSize(complexity);
    var called := SkillAgentTypes(skills);
    var padded := PadWithIO(called, size);
    var types := padded[..size];
    assert forall k :: 0 <= k < |called| ==> padded[k] == called[k];
    if "analysis" in skills {
      var k :| 0 <= k < |called| && called[k] == TOT;
      assert types[k] == TOT;
    }
  }

  /** The simulated outcome of a research execution. */
  datatype ExecutionResult = ExecutionResult(duration: real, sources: nat, quality: string, completeness: real)

  /**
   * Duration and source count by complexity label: 1.5 time units and 3
   * sources for "low", 3.0 and 7 for "medium", and the high-tier 5.0 and 12
   * for any other label; quality and completeness do not depend on the label.
   */
  function SimulateResearchExecution(complexity: string): (r: ExecutionResult)
    ensures 1.5 <= r.duration <= 5.0 && 3 <= r.sources <= 12
    ensures r.duration == 1.5 <==> complexity == "low"
    ensures r.sources == 7 <==> complexity == "medium"
    ensures complexity !in {"low", "medium"} ==> r.duration == 5.0 && r.sources == 12
    ensures r.quality == "high" && r.completeness == 0.9
  {
    if complexity == "low" then ExecutionResult(1.5, 3, "high", 0.9)
    else if complexity == "medium" then ExecutionResult(3.0, 7, "high", 0.9)
    else ExecutionResult(5.0, 12, "high", 0.9)
  }

  /**
   * A consistency relation between two independent tables of the demo (the
   * team sizes and the execution results), not a promise the demo makes:
   * a label with a larger team takes strictly longer and consults strictly
   * more sources, and labels with equal teams get equal results.
   */
  lemma ExecutionGrowsWithTeam(a: string, b: string)
    ensures TeamSize(a) < TeamSize(b) ==>
      SimulateResearchExecution(a).duration < SimulateResearchExecution(b).duration &&
      SimulateResearchExecution(a).sources < SimulateResearchExecution(b).sources
    ensures TeamSize(a) == TeamSize(b) ==> SimulateResearchExecution(a) == SimulateResearchExecution(b)
  {
  }
}

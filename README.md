# GPTSwarm demos: task-to-team-to-graph pipeline

This project models the decision logic of the GPTSwarm demo scripts in
Dafny and proves properties of that model.

- **Research assistant** (`demos/research_assistant_demo.py`).
  - A query is classified into a complexity tier by keyword-substring matching. Priority is high, then medium, then low.
  - The skills it needs are extracted, and a time estimate and a team size are derived from them.
  - An `AgentTeam` scans a capability catalog for specialists. It forces a TOT agent for high-complexity tasks, pads with IO coordinators and truncates to the planned size.
  - The team is labelled with a formation strategy and a collaboration pattern, and its performance is predicted.
  - `AdvancedResearchAssistant` records every processed query in two lists that grow in lock-step. Its analytics report covers the success rate, the average per complexity tier and per collaboration pattern, and the best pattern.
- **Comprehensive demo** (`demos/comprehensive_demo.py`).
  - The mock language model dispatches on the prompt.
  - The demo graph statistics are computed in closed form.
  - The optimization loop converges geometrically towards a target.
  - A research team is formed by padding.
  - Execution durations are looked up in a table.
- **Interactive visualizer** (`demos/interactive_visualizer.py`).
  - The graph data: one node per agent, and edges for the sequential, full and hub patterns, numbered in creation order.
  - Connectivity statistics, agent colours and the output file name.
- **Creative collaboration** (`demos/creative_collaboration_demo.py`).
  - Creative agents dispatch on their specialization and keep a contribution history.
  - A creative project appends contributions, builds its content and blends quality metrics.
  - The swarm forms a team from a specialization pool.
  - The swarm analyses one iteration and a whole session.

## Modelling choices

- Python floats are Dafny `real`, so rounding is not modelled.
- Python's `str.lower()` lowers ASCII letters only.
- `in` on strings is contiguous-substring search (`Text.Contains`).
- Every random draw is a parameter of the operation that draws it, never reproduced:
  - the execution variance;
  - the engagement boost;
  - the sampled pool positions;
  - the creativity scores;
  - the generator picks.
  `CreativeAgents.Uniform` maps a drawn unit value into the interval `random.uniform` draws from.
- The skill names the classifier and the capability catalogs use are an enumeration (`ResearchTasks.Skill`). The same holds for the tiers, agent types, strategies, patterns, contribution types and quality metrics.
- The objects whose fields the source updates in place are classes whose methods carry `modifies this`:
  - `AgentTeam`, `AdvancedResearchAssistant`, `CreativeAgent`, `CreativeProject`, `CreativeSwarm`.
- Loops become methods with invariants, each proved equal to a specification function. Properties are then proved about that function:
  - the catalog scan and padding of `form_team`;
  - the grouping loops of the analytics;
  - the optimization loop;
  - the padding loop of `form_research_team`;
  - the node and edge loops of the visualizer;
  - the counters of the creative analyses.
- Where the source divides by zero (`create_demo_graph` with at most one agent under the sequential or hub label), the model returns `None` instead of a result.

Behaviour of the code the model keeps as written:

- `simulate_optimization` always runs at least one iteration. When the initial value is already at or above the target, the trace is `[initial, target]`.
- `create_demo_graph` raises a division by zero for at most one agent under the sequential and hub labels.
- For an unknown connection label, `create_demo_graph` claims one edge per agent and connectivity 0.5. The visualizer draws no edge and reports connectivity 0. Both are modelled, and the disagreement is proved (`InteractiveVisualizer.DemoStatisticsDisagreeOnUnknownLabel`).
- For the full label with at most one agent, `create_demo_graph` reports connectivity 1.0, while the visualizer reports 0. Both count no edge, and the disagreement is proved (`InteractiveVisualizer.DemoStatisticsDisagreeOnSmallFullTeam`).

## Model

| member | source | states |
|---|---|---|
| ResearchTasks.IndicatorScore | demos/research_assistant_demo.py:49-52 | A tier's score counts each of its indicator words at most once, and it is positive exactly when one of them occurs in the query |
| ResearchTasks.TierOf | demos/research_assistant_demo.py:54-60 | Tier is high iff a high indicator occurs, whatever else occurs. It is medium iff no high and some medium indicator occurs, and low iff neither occurs; raw counts never decide |
| ResearchTasks.SkillsFromRanked | demos/research_assistant_demo.py:62-73 | Each suffix of the keyword table yields skills in strictly increasing discovery order, each present exactly when one of its keywords occurs |
| ResearchTasks.RequiredSkills | demos/research_assistant_demo.py:62-73 | Skills form a duplicate-free, order-preserving subsequence of research, analysis, coding, synthesis, creativity (at most 5). A skill is present iff one of its keywords occurs, and the list is empty iff no keyword occurs |
| ResearchTasks.RankedLength | demos/research_assistant_demo.py:62-73 | A skill list in discovery order has at most five entries |
| ResearchTasks.EstimateTime | demos/research_assistant_demo.py:82-89 | The estimated time lies in [60, 600] seconds |
| ResearchTasks.EstimateAgentCount | demos/research_assistant_demo.py:91-95 | Team size is min(base + skills/2, 6): never above base + skills/2, equal to it below the cap, 6 exactly when base + skills/2 reaches 6, never below the tier's base, and always in [2, 6] |
| ResearchTasks.NewTask | demos/research_assistant_demo.py:24-35 | A new task keeps its query and domain and starts with no required skills |
| ResearchTasks.AnalyzeComplexity | demos/research_assistant_demo.py:37-80 | The analysis reports the tier and the skills of the lower-cased query, with the time and team size derived from them. The skills are ranked and the team size lies in [2, 6] |
| AgentTeams.FirstProvider | demos/research_assistant_demo.py:130-134 | The catalog scan for a skill picks the first entry in catalog order that lists the skill and is not selected: every earlier entry either lacks the skill or is already selected. It picks nothing only when every entry listing the skill is already selected |
| AgentTeams.FormationStrategy | demos/research_assistant_demo.py:158-168 | Hierarchical iff high tier with more than three skills; skill clustering iff more than two skills otherwise; deep collaboration iff high tier with at most two skills; simple parallel iff not high tier with at most two skills |
| AgentTeams.CollaborationPattern | demos/research_assistant_demo.py:170-180 | Sequential iff at most two agents; hub-and-spoke iff more than two agents including TOT; fully connected iff at least four agents without TOT; pipeline iff exactly three agents without TOT |
| AgentTeams.TeamSelection | demos/research_assistant_demo.py:123-145 | The selected team has exactly the requested number of agents |
| AgentTeams.Coverage | demos/research_assistant_demo.py:193-198 | Skill coverage counts each skill at most once |
| AgentTeams.AtLeastOne | demos/research_assistant_demo.py:201 | The divisor of the coverage ratio is at least 1 |
| AgentTeams.PredictedPerformance | demos/research_assistant_demo.py:182-205 | Predicted performance always lies in [0.6, 1.0] |
| AgentTeams.AgentTeam.constructor | demos/research_assistant_demo.py:100-104 | A new team has its task, no agents and empty strategy and pattern labels |
| AgentTeams.AgentTeam.FormTeam | demos/research_assistant_demo.py:106-156 | The team stored in the object and returned is the scan-force-pad-truncate selection. The stored strategy and pattern are those of the rule tables, and the prediction is that of the performance estimate |
| AgentTeams.AgentTeam.ScanCatalog | demos/research_assistant_demo.py:130-134 | The inner loop over the catalog adds exactly the first unselected provider of the skill, if any |
| AgentTeams.AgentTeam.EstimatePerformance | demos/research_assistant_demo.py:182-205 | The coverage loop computes the predicted performance, which lies in [0.6, 1.0] |
| AgentTeams.AddSpecialistsExtends | demos/research_assistant_demo.py:129-134 | The specialist scan keeps the earlier selection as a prefix and never adds a non-IO agent twice |
| AgentTeams.TeamSelectionShape | demos/research_assistant_demo.py:114-145 | The team has exactly the requested size, starts with IO whenever it is non-empty, and repeats no non-IO type |
| AgentTeams.WithoutCoordinatorSkills | demos/research_assistant_demo.py:115 | Dropping research and synthesis never lengthens a skill list |
| AgentTeams.CoordinatorSkillsAddNoAgent | demos/research_assistant_demo.py:114-134 | Once IO is selected, the skills research and synthesis never add an agent |
| AgentTeams.AnalysisSelectsDeepReasoner | demos/research_assistant_demo.py:114-134 | Scanning for analysis always leaves TOT selected |
| AgentTeams.AnalysisSkillSelectsDeepReasoner | demos/research_assistant_demo.py:129-134 | A skill list containing analysis always yields a selection containing TOT |
| AgentTeams.CountIn | demos/research_assistant_demo.py:129-134 | A count of skills in a class never exceeds the length of the list |
| AgentTeams.SpecialistGrowth | demos/research_assistant_demo.py:114-134 | With IO selected, only analysis, coding and creativity can add an agent, at most one each |
| AgentTeams.SkillOfRank | demos/research_assistant_demo.py:62-73 | Every discovery rank below 5 belongs to a classifier skill |
| AgentTeams.RankBoundMonotone | demos/research_assistant_demo.py:62-73 | Fewer ranks leave room for fewer skills of a class |
| AgentTeams.RankedCount | demos/research_assistant_demo.py:62-73 | A ranked skill list holds at most as many skills of a class as there are ranks for them |
| AgentTeams.CountWithout | demos/research_assistant_demo.py:62-73 | A skill absent from the list does not change a count |
| AgentTeams.RankBoundsOfSpecialistSkills | demos/research_assistant_demo.py:62-73 | Three classifier skills (analysis, coding, creativity) can add a specialist; two of them are not analysis |
| AgentTeams.HighTierTeamHasDeepReasoner | demos/research_assistant_demo.py:136-145 | A high-complexity team of at least four agents formed from ranked skills keeps TOT after truncation |
| AgentTeams.HighTierKeepsDeepReasoner | demos/research_assistant_demo.py:37-145 | For every query classified high, the formed team contains TOT |
| AgentTeams.PlannedPattern | demos/research_assistant_demo.py:170-180 | A classified query's team is sequential exactly for a low-tier query with at most one skill, and hub-and-spoke for every high-tier query |
| AgentTeams.StrategyAgreesWithTeam | demos/research_assistant_demo.py:158-168 | The strategy label agrees with the team formed: six agents with TOT for hierarchical specialization, TOT and hub-and-spoke for deep collaboration, and at least three agents for skill-based clustering. Simple parallel is never used for high tier |
| AgentTeams.RatioAtMostOne | demos/research_assistant_demo.py:200 | A part over a positive whole it does not exceed is at most 1, and equals 1 exactly when they agree |
| AgentTeams.PerfectPrediction | demos/research_assistant_demo.py:199-205 | The 1.0 cap never binds. The prediction is 1.0 iff there are skills, all are covered and the team has at least four agents |
| ResearchAssistant.ActualPerformance | demos/research_assistant_demo.py:303-305 | Actual performance is clamped to [0, 1] and moves from the prediction in the direction of the variance, by at most its size |
| ResearchAssistant.SuccessCount | demos/research_assistant_demo.py:322 | The number of successes never exceeds the number of tasks |
| ResearchAssistant.SuccessCountExtremes | demos/research_assistant_demo.py:322 | The success count equals the number of tasks iff all succeeded, and is zero iff none did |
| ResearchAssistant.TierPerformances | demos/research_assistant_demo.py:328-333 | A tier's group is never longer than the task list |
| ResearchAssistant.TierPerformancesFacts | demos/research_assistant_demo.py:328-333 | A tier's group is empty iff no task has that tier, and holds only task performances |
| ResearchAssistant.PatternPerformances | demos/research_assistant_demo.py:342-348 | A pattern's group is never longer than the task list |
| ResearchAssistant.PatternPerformancesFacts | demos/research_assistant_demo.py:342-348 | A pattern's group is empty iff no task used the pattern, and holds only task performances |
| ResearchAssistant.FirstUse | demos/research_assistant_demo.py:344-346 | The first use of a used pattern is a task with that pattern |
| ResearchAssistant.FirstUseIsFirst | demos/research_assistant_demo.py:344-346 | No earlier task used the pattern |
| ResearchAssistant.PatternsInOrder | demos/research_assistant_demo.py:342-348 | The dictionary's keys are exactly the used patterns, none twice, and non-empty for a non-empty history |
| ResearchAssistant.PatternsByFirstUse | demos/research_assistant_demo.py:342-348 | The keys come in order of first use (dictionary insertion order) |
| ResearchAssistant.BestIndex | demos/research_assistant_demo.py:360 | `max` with a key picks a maximal average, and the first among equal maxima |
| ResearchAssistant.AdvancedResearchAssistant.constructor | demos/research_assistant_demo.py:210-213 | A new assistant has empty task and performance lists |
| ResearchAssistant.AdvancedResearchAssistant.ProcessResearchQuery | demos/research_assistant_demo.py:215-264 | Each query appends exactly one record and one performance, keeping the lists in lock-step. The record carries the new task for the query and domain and the query's analysis. Its team configuration is the whole formed configuration: selection, formation strategy, collaboration pattern and predicted performance. It also carries the clamped performance, with success iff performance > 0.7 |
| ResearchAssistant.AdvancedResearchAssistant.GetPerformanceAnalytics | demos/research_assistant_demo.py:315-361 | The report is the analytics of the recorded history: the no-data message iff nothing was processed, otherwise one that counts every task |
| ResearchAssistant.GroupByTier | demos/research_assistant_demo.py:328-333 | The grouping loop puts each tier's performances, in processing order, under that tier |
| ResearchAssistant.GroupByPattern | demos/research_assistant_demo.py:342-348 | The grouping loop inserts each pattern on first use and collects its performances in processing order |
| ResearchAssistant.AveragePerPattern | demos/research_assistant_demo.py:350-352 | The averaging loop yields each pattern's mean, in insertion order |
| ResearchAssistant.SumBounds | demos/research_assistant_demo.py:324 | A sum of values in [0, 1] lies in [0, length] |
| ResearchAssistant.MeanBounds | demos/research_assistant_demo.py:324 | A mean of values in [0, 1] lies in [0, 1] |
| ResearchAssistant.GroupBounds | demos/research_assistant_demo.py:335-352 | A group drawn from a consistent history averages in [0, 1] |
| ResearchAssistant.CountRatio | demos/research_assistant_demo.py:322-323 | A count over a total it does not exceed lies in [0, 1], and is 1 or 0 exactly at the extremes |
| ResearchAssistant.SuccessRateBounds | demos/research_assistant_demo.py:321-323 | The success rate lies in [0, 1]. It is 1.0 iff every task exceeded 0.7 and 0.0 iff none did |
| ResearchAssistant.AveragesBounds | demos/research_assistant_demo.py:324-340 | The overall and per-tier averages lie in [0, 1], and a tier without tasks averages 0.0 |
| ResearchAssistant.PatternReport | demos/research_assistant_demo.py:342-352 | The per-pattern report has exactly the used patterns, in first-use order, each with the mean of its performances |
| ResearchAssistant.BestIsMaximal | demos/research_assistant_demo.py:360 | No used pattern averages more than the best pattern |
| ResearchAssistant.EarlierIsSmaller | demos/research_assistant_demo.py:360 | A used pattern first used before the best one averages strictly less, since `max` keeps the first of equal maxima |
| ResearchAssistant.OrderFollowsFirstUse | demos/research_assistant_demo.py:350-352 | A pattern first used earlier comes earlier in the averages dictionary's insertion order |
| ResearchAssistant.BestPatternIsFirstMaximal | demos/research_assistant_demo.py:360 | The best pattern is used and has a maximal average. Every pattern first used before it averages strictly less, so among ties the first-inserted wins |
| ResearchAssistant.TwoRecordRates | demos/research_assistant_demo.py:321-324 | A high-tier record at 0.9 and a low-tier record at 0.5 give success rate 0.5 and average 0.7 |
| ResearchAssistant.MeanOfOne | demos/research_assistant_demo.py:324 | The mean of one value is that value |
| ResearchAssistant.TwoRecordTiers | demos/research_assistant_demo.py:328-340 | For those two records, the tier averages are low 0.5, medium 0.0 and high 0.9 |
| ResearchAssistant.TwoPatternsInOrder | demos/research_assistant_demo.py:342-348 | Two records with different patterns list both patterns, in record order |
| ResearchAssistant.TwoRecordGroups | demos/research_assistant_demo.py:342-348 | For the two records, each pattern's group holds its one performance |
| ResearchAssistant.TwoRecordPatterns | demos/research_assistant_demo.py:342-360 | For the two records, hub-and-spoke is reported first at 0.9 and is the best pattern |
| ComprehensiveDemo.ResponseKindOf | demos/comprehensive_demo.py:40-51 | Coding iff code or python occurs. The final answer iff none of the eight trigger words occurs |
| ComprehensiveDemo.Agenerate | demos/comprehensive_demo.py:40-51 | Matching case-insensitively, the coding answer when the prompt mentions code or python. Otherwise the research answer for research/search, then the creative answer for creative/story, then the reasoning answer for reason/analysis. The final answer when none of the eight words occurs |
| ComprehensiveDemo.DispatchFollowsRules | demos/comprehensive_demo.py:40-51 | The branch chain is the first-match reading of the priority table: coding, research, creative, reasoning, final |
| ComprehensiveDemo.CodingTakesPriority | demos/comprehensive_demo.py:42-43 | A prompt containing code or python in any letter case gets the coding answer, whatever else it contains |
| ComprehensiveDemo.CreateDemoGraph | demos/comprehensive_demo.py:408-431 | Nodes equal the number of agents. Full has n(n-1)/2 edges and connectivity 1.0; sequential and hub have n-1 edges and connectivity 2/n, failing iff n <= 1. Other labels have n edges and connectivity 0.5 |
| ComprehensiveDemo.PathRatio | demos/comprehensive_demo.py:413-421 | (n-1) / (n(n-1)/2) is 2/n, which lies in (0, 1] for n >= 2 |
| ComprehensiveDemo.Step | demos/comprehensive_demo.py:443-444 | A step never passes the target and never decreases a value at or below the target |
| ComprehensiveDemo.SimulateOptimization | demos/comprehensive_demo.py:433-451 | The loop returns the optimization trace |
| ComprehensiveDemo.TraceFromUnfold | demos/comprehensive_demo.py:442-449 | One iteration appends a step, then continues only if it has not converged |
| ComprehensiveDemo.TraceFromShape | demos/comprehensive_demo.py:442-449 | The iterations append between one and the allowed number of values, each at most the target |
| ComprehensiveDemo.TraceFromIncreasing | demos/comprehensive_demo.py:443-445 | From at or below the target, the appended values never decrease |
| ComprehensiveDemo.TraceFromStops | demos/comprehensive_demo.py:448-449 | Every appended value but the last is below 95% of target, and the last converged unless the iterations ran out |
| ComprehensiveDemo.OptimizationTraceProperties | demos/comprehensive_demo.py:433-451 | The trace starts with the initial value, has 2 to 11 entries and never exceeds the target after the first. It is non-decreasing from initial <= target and stops at the first value >= 95% of target |
| ComprehensiveDemo.TraceAtOrAboveTarget | demos/comprehensive_demo.py:442-449 | Starting at or above a non-negative target, the trace is exactly [initial, target] |
| ComprehensiveDemo.TraceFromBaseline | demos/comprehensive_demo.py:433-451 | From 0.65 towards 0.85, the trace has 7 entries and ends at or above 0.8075 |
| ComprehensiveDemo.TeamSize | demos/comprehensive_demo.py:458-463 | Team size is 2, 3 or 4 |
| ComprehensiveDemo.SkillAgentTypes | demos/comprehensive_demo.py:466-472 | At most three types are called, all IO or TOT. TOT is called iff analysis is a skill, and never after position 1 |
| ComprehensiveDemo.PadWithIO | demos/comprehensive_demo.py:475-476 | Padding keeps the called types as a prefix and adds IO up to the team size |
| ComprehensiveDemo.FormResearchTeam | demos/comprehensive_demo.py:453-482 | The padding loop and cut produce the specified research team |
| ComprehensiveDemo.ResearchTeamShape | demos/comprehensive_demo.py:453-482 | The team has exactly its size in agents, all IO or TOT. It includes TOT iff analysis is a skill, and agents past the called ones are IO |
| ComprehensiveDemo.SimulateResearchExecution | demos/comprehensive_demo.py:484-506 | Duration 1.5 iff the label is "low" and 7 sources iff "medium". Any other label gets the high-tier 5.0 and 12. Durations lie in [1.5, 5.0] and sources in [3, 12], and quality "high" and completeness 0.9 are constant |
| ComprehensiveDemo.ExecutionGrowsWithTeam | demos/comprehensive_demo.py:458-497 | A consistency relation derived from two separate tables of the demo, not a promise of the demo itself: a label with a larger team takes strictly longer and finds strictly more sources, and equal teams get equal results |
| InteractiveVisualizer.AgentColor | demos/interactive_visualizer.py:103-112 | The default colour #DDA0DD is given exactly to types outside the palette |
| InteractiveVisualizer.PaletteDistinguishesTypes | demos/interactive_visualizer.py:103-112 | Different palette types get different colours |
| InteractiveVisualizer.GraphFileName | demos/interactive_visualizer.py:30 | The file name is "graph_", then the name lower-cased with spaces as underscores, then ".html" |
| InteractiveVisualizer.BuildNodes | demos/interactive_visualizer.py:44-52 | The node loop yields one node per agent, node i being the specified node of agent i |
| InteractiveVisualizer.GenerateGraphData | demos/interactive_visualizer.py:38-101 | The node loop, the edge loops and the statistics produce the specified graph data |
| InteractiveVisualizer.SequentialEdges | demos/interactive_visualizer.py:58-67 | The loop numbers the consecutive pairs with a running edge id |
| InteractiveVisualizer.FullEdges | demos/interactive_visualizer.py:69-79 | The nested loop numbers every pair i < j, row by row, with a running edge id |
| InteractiveVisualizer.HubEdges | demos/interactive_visualizer.py:81-91 | The loop numbers the pairs from node 0 with a running edge id |
| InteractiveVisualizer.PairsBeforeMembers | demos/interactive_visualizer.py:69-79 | The first rows hold exactly the pairs i < j < n of those rows |
| InteractiveVisualizer.PairsBeforeOrdered | demos/interactive_visualizer.py:69-79 | The pairs come in strictly increasing row-major order |
| InteractiveVisualizer.PairsBeforeCount | demos/interactive_visualizer.py:69-79 | The first r rows hold r(2n-r-1)/2 pairs |
| InteractiveVisualizer.PairsBeforeShape | demos/interactive_visualizer.py:69-79 | The first rows hold exactly their pairs, each once in row-major order, and r(2n-r-1)/2 of them |
| InteractiveVisualizer.RowMajorDistinct | demos/interactive_visualizer.py:69-79 | Pairs in increasing row-major order are pairwise distinct |
| InteractiveVisualizer.GraphNodes | demos/interactive_visualizer.py:44-98 | There is one node per agent. Node i has id i, label "{type}_{i}", the agent's colour and size 20 iff TOT; the stats count the nodes and the edges |
| InteractiveVisualizer.GraphEdgesWellFormed | demos/interactive_visualizer.py:55-91 | Edge ids are 0..k-1 in creation order and every edge runs from a lower to a higher node |
| InteractiveVisualizer.SequentialGraph | demos/interactive_visualizer.py:58-67 | The sequential label gives max(n-1, 0) edges, edge k from node k to node k+1 |
| InteractiveVisualizer.HubGraph | demos/interactive_visualizer.py:81-91 | The hub label gives max(n-1, 0) edges, edge k from node 0 to node k+1 |
| InteractiveVisualizer.FullGraph | demos/interactive_visualizer.py:69-99 | The full label gives n(n-1)/2 edges, one for each pair i < j and none twice, with connectivity 1.0 from two nodes on |
| InteractiveVisualizer.FullConnectivity | demos/interactive_visualizer.py:99 | All pairs of at least two nodes give connectivity 1.0 |
| InteractiveVisualizer.AllPairsRatio | demos/interactive_visualizer.py:99 | n(n-1)/2 edges over n(n-1)/2 possible pairs is 1.0 |
| InteractiveVisualizer.FullPairsCount | demos/interactive_visualizer.py:69-79 | n nodes have n(n-1)/2 pairs |
| InteractiveVisualizer.FullEdgesCover | demos/interactive_visualizer.py:69-79 | Every pair i < j < n has an edge |
| InteractiveVisualizer.FullEdgesDistinct | demos/interactive_visualizer.py:69-79 | No two full edges join the same two nodes |
| InteractiveVisualizer.UnknownLabelGraph | demos/interactive_visualizer.py:58-99 | An unknown label yields no edges and connectivity 0 |
| InteractiveVisualizer.SmallTeamConnectivity | demos/interactive_visualizer.py:99 | Fewer than two agents give no edges and connectivity 0 under any label |
| InteractiveVisualizer.DemoStatisticsMatchGraph | demos/interactive_visualizer.py:38-101 | For the known labels and at least two agents, the demo's closed-form counts equal the drawn graph's nodes, edges and connectivity |
| InteractiveVisualizer.DemoStatisticsDisagreeOnUnknownLabel | demos/interactive_visualizer.py:58-91 | For an unknown label, the demo claims one edge per agent and connectivity 0.5, while the visualizer draws none |
| InteractiveVisualizer.DemoStatisticsDisagreeOnSmallFullTeam | demos/comprehensive_demo.py:416-418 | For the full label and at most one agent, the demo claims connectivity 1.0 while the visualizer reports 0; both count no edge |
| CreativeAgents.Uniform | demos/creative_collaboration_demo.py:27 | A uniform draw lies within its bounds |
| CreativeAgents.GeneratedContribution | demos/creative_collaboration_demo.py:50-104 | A contribution has its generator's type, iteration and agent. Creativity is in [0.6, 0.9] iff ideas; flow in [0.7, 0.95] and a tone iff story; innovation in [0.5, 0.8] iff concept |
| CreativeAgents.GeneratorDispatch | demos/creative_collaboration_demo.py:35-44 | Unknown specializations fall back to the ideas generator, and distinct known ones select distinct generators |
| CreativeAgents.CreativeAgent.constructor | demos/creative_collaboration_demo.py:24-28 | A new agent has an empty history and a creativity score in [0.7, 1.0] |
| CreativeAgents.CreativeAgent.GenerateContribution | demos/creative_collaboration_demo.py:30-48 | The result is the specialization's generator output, and the history grows by exactly that one element |
| CreativeProjects.CreativeProject.constructor | demos/creative_collaboration_demo.py:166-181 | A new project has no contributions, empty content and all four metrics at 0.0 |
| CreativeProjects.CreativeProject.AddContribution | demos/creative_collaboration_demo.py:183-187 | Exactly one contribution is appended, earlier ones unchanged, and content and metrics are updated. Metrics stay in [0, 1] when the scores are |
| CreativeProjects.CreativeProject.UpdateContent | demos/creative_collaboration_demo.py:189-194 | Story segments append content plus a space, and ideas prepend "Theme: {content}. ". Other types leave the content unchanged |
| CreativeProjects.CreativeProject.UpdateQualityMetrics | demos/creative_collaboration_demo.py:196-223 | The metrics become the blended and boosted metrics, and nothing else changes |
| CreativeProjects.ContentKeepsEarlier | demos/creative_collaboration_demo.py:189-194 | Earlier content survives: a prefix after a story segment, a suffix after ideas, unchanged otherwise |
| CreativeProjects.BlendBetween | demos/creative_collaboration_demo.py:198-216 | A blend lies between the old value and the score, so it stays in [0, 1] |
| CreativeProjects.MetricsAfterContribution | demos/creative_collaboration_demo.py:196-223 | A present score blends as 0.7·old + 0.3·new, and an absent one leaves its metric unchanged. Engagement never exceeds 1.0 and does not decrease with a tone |
| CreativeProjects.MetricsStayInUnit | demos/creative_collaboration_demo.py:196-223 | Metrics in [0, 1] stay in [0, 1] after a contribution with scores in [0, 1] |
| CreativeSwarms.PoolsAreSpecializations | demos/creative_collaboration_demo.py:237-253 | Every pool holds known specializations without repetition, and unknown project types get the story pool |
| CreativeSwarms.TeamCount | demos/creative_collaboration_demo.py:257-260 | The team has min(team size, pool size) agents |
| CreativeSwarms.DistinctPicks | demos/creative_collaboration_demo.py:257-260 | A sample without replacement from a duplicate-free pool selects distinct specializations |
| CreativeSwarms.CreativeSwarm.constructor | demos/creative_collaboration_demo.py:228-231 | A new swarm has no agents |
| CreativeSwarms.CreativeSwarm.FormCreativeTeam | demos/creative_collaboration_demo.py:233-267 | The team replaces the swarm's agents and has min(team size, pool size) fresh agents Agent_1, Agent_2, … holding distinct pool specializations |
| CreativeSwarms.KindCountsSum | demos/creative_collaboration_demo.py:349-351 | The six type counts add up to the number of contributions |
| CreativeSwarms.CreativityCount | demos/creative_collaboration_demo.py:353-355 | The count of creativity levels is at most the number of contributions, and 0 iff none carries one |
| CreativeSwarms.CreativitySumBounds | demos/creative_collaboration_demo.py:353-355 | Creativity levels in [0, 1] sum to at most their count |
| CreativeSwarms.TypeCounts | demos/creative_collaboration_demo.py:345-351 | Exactly the occurring types have entries, each counted as often as it occurs, and the counts sum to the length |
| CreativeSwarms.DiversityBounds | demos/creative_collaboration_demo.py:362 | Diversity is 0 iff there are no contributions, and otherwise lies in (0, 1] |
| CreativeSwarms.AverageCreativityBounds | demos/creative_collaboration_demo.py:357 | Average creativity is 0 when no level is present, and in [0, 1] when every level is |
| CreativeSwarms.MeanInUnit | demos/creative_collaboration_demo.py:357 | A total of at most n unit scores averages in [0, 1] |
| CreativeSwarms.ParticipationBalanceProperties | demos/creative_collaboration_demo.py:390-398 | Balance lies in (0, 1]. It is 1.0 with no contributions, and otherwise exactly when all contributing agents contributed equally often |
| CreativeSwarms.SessionAnalysisBounds | demos/creative_collaboration_demo.py:366-416 | Improvements are 0 with fewer than two snapshots, and effectiveness is at most 1.0 and at most the success score. With metrics in [0, 1], quality is in [0, 1] and effectiveness equals the success score |
| CreativeSwarms.CreativeSwarm.AnalyzeIteration | demos/creative_collaboration_demo.py:342-364 | The counting loops produce the specified iteration analysis |
| CreativeSwarms.CreativeSwarm.SumCreativity | demos/creative_collaboration_demo.py:353-355 | The loop sums the creativity levels present and counts the contributions carrying one |
| CreativeSwarms.CreativeSwarm.AnalyzeSession | demos/creative_collaboration_demo.py:366-416 | The loops produce the specified session analysis |
| CreativeSwarms.CreativeSwarm.CollectContributions | demos/creative_collaboration_demo.py:386-388 | The loop concatenates every iteration's contributions in order |
| Tallies.TallyCounts | demos/creative_collaboration_demo.py:349-393 | The tally has a key exactly for each occurring element, with its number of occurrences |
| Tallies.TallyKeysBound | demos/creative_collaboration_demo.py:362 | A tally has at least one key for a non-empty list, and never more keys than elements |
| Tallies.CountOccurrences | demos/creative_collaboration_demo.py:349-393 | The `get(k, 0) + 1` loop computes the tally |
| Tallies.MinMaxCountBounds | demos/creative_collaboration_demo.py:395-398 | The least and greatest counts bound every count and are attained |
| Tallies.CountsBetween | demos/creative_collaboration_demo.py:395-398 | Every count of a tally lies between its least and greatest, and the least is at least 1 |
| Tallies.RatioInUnit | demos/creative_collaboration_demo.py:395-398 | A positive count over a count it does not exceed lies in (0, 1], and is 1 iff they agree |
| Tallies.BalanceProperties | demos/creative_collaboration_demo.py:395-398 | min/max of the counts lies in (0, 1], is 1.0 for no elements, and otherwise is 1.0 iff all counts agree |
| Tallies.BalanceOf | demos/creative_collaboration_demo.py:395-398 | The one-pass min/max loop computes the balance |
| Text.Lower | demos/research_assistant_demo.py:46 | Lower-casing keeps the length, lowers each letter and leaves no upper-case ASCII letter |
| Text.ContainsMiddle | demos/research_assistant_demo.py:49-73 | A string contains each of its contiguous blocks |
| Text.AnyOfTwo | demos/comprehensive_demo.py:42-49 | `any` over two words is the disjunction of the two substring tests |
| Text.LowerAppend | demos/comprehensive_demo.py:42 | Lower-casing distributes over concatenation |
| Text.NatToString | demos/interactive_visualizer.py:47 | The decimal rendering of an index is a non-empty string of digits whose decimal value is the index, with no leading zero except for 0 itself |
| Text.ReplaceChar | demos/interactive_visualizer.py:30 | Replacing a character keeps the length. Every other character stays in place and every occurrence becomes the replacement. No occurrence remains when the two characters differ, and a string without the character is unchanged |

## Left out

- HTML and JavaScript generation and file writing (demos/interactive_visualizer.py:114-462, 464-695). The output directory and the write in `create_interactive_graph` are left out too; only its file name is modelled.
- Console printing, demo narration and summary tallies throughout the demos. demos/master_demo.py is orchestration only and is not part of this model.
- `asyncio.sleep` and the async structure. Async methods are ordinary sequential methods.
- The `run_*` demo drivers and `CreativeSwarm.run_creative_session`, including its shuffle. These are orchestration around the modelled operations.
- Timestamps (`created_at`). The fields `active_teams`, `projects` and `collaboration_history`, which the modelled operations never read, are also left out.
- `_execute_research` (demos/research_assistant_demo.py:266-313): phase times, source counts and quality scores are random and are not modelled. Only the clamp of the final performance is, as `ActualPerformance`, with the variance as a parameter. A processed record keeps the analysis, the team configuration, the performance and the success flag.
- Random choices and scores are parameters; their distribution is not modelled. The generators' scores that no project or analysis reads are not kept in a contribution, and nor are the "context" arguments the generators ignore.
- `simulate_swarm_execution` and `simulate_creative_collaboration` of the comprehensive demo, whose results are fixed dictionaries or random draws.
- `str.lower()` lowers ASCII letters only; other Unicode case mappings are not modelled.
- Floats are exact reals. Rounding and the `:.1%` formatting are not modelled.
- The default branches for a complexity label outside low, medium and high in `_estimate_time` and `_estimate_agent_count` are not modelled. The tier is an enumeration of the three labels the classifier produces.
- ComprehensiveDemo.CreateDemoGraph: returns `None` where the source raises a division by zero (sequential or hub with at most one agent).
- CreativeSwarms.CreativeSwarm.FormCreativeTeam: `team_size` is a `nat`, so a negative team size (which `random.sample` rejects) is not modelled.
- CreativeSwarms.SessionAnalysisOf: its final metrics are the project's four quality metrics. A metrics dictionary with other keys is not modelled, since a project never has one.
- CreativeSwarms.CreativeSwarm.AnalyzeIteration: the tally and the creativity sum are computed in two passes where the source uses one loop. Each pass is proved equal to the same specification function.

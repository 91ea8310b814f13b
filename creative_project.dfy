/**
 * A creative project: the contributions it received, the content they
 * built and four quality metrics. Story segments extend the content,
 * ideas prefix it with a theme; scores blend into their metric with
 * weight 0.3, and an emotional tone raises engagement up to 1.0.
 */
module CreativeProjects {
  import opened Wrappers
  import opened Text
  import opened CreativeAgents

  /** The four quality metrics every project tracks, keyed `creativity`, `coherence`, `originality` and `engagement`. */
  datatype Metric = Creativity | Coherence | Originality | Engagement

  const AllMetrics: set<Metric> := {Creativity, Coherence, Originality, Engagement}

  /** How much one contribution moves a metric. */
  const ContributionWeight: real := 0.3

  /** The content after a contribution: story segments append, ideas prefix a theme, the rest change nothing. */
  function ContentAfter(content: string, c: Contribution): string
  {
    if c.kind == StorySegment then content + c.content + " "
    else if c.kind == Ideas then "Theme: " + c.content + ". " + content
    else content
  }

  /** A metric moved towards a new score: 70% of the old value plus 30% of the score. */
  function Blend(current: real, score: real): real
  {
    current * (1.0 - ContributionWeight) + score * ContributionWeight
  }

  /** Blends `score` into metric `name` when the score is present. */
  function BlendInto(metrics: map<Metric, real>, name: Metric, score: Option<real>): map<Metric, real>
    requires name in metrics
  {
    if score.Some? then metrics[name := Blend(metrics[name], score.value)] else metrics
  }

  /** Engagement raised by the drawn boost, capped at 1.0, when the contribution carries an emotional tone. */
  function EngagementAfter(engagement: real, c: Contribution, boost: real): real
  {
    if c.emotionalTone.Some? then
      var raised := engagement + boost;
      if raised < 1.0 then raised else 1.0
    else engagement
  }

  /** The metrics after a contribution. */
  function MetricsAfter(metrics: map<Metric, real>, c: Contribution, boost: real): map<Metric, real>
    requires AllMetrics <= metrics.Keys
  {
    var m1 := BlendInto(metrics, Creativity, c.creativityLevel);
    var m2 := BlendInto(m1, Coherence, c.narrativeFlow);
    var m3 := BlendInto(m2, Originality, c.innovationLevel);
    m3[Engagement := EngagementAfter(m3[Engagement], c, boost)]
  }

  /** Every metric lies in [0, 1]. */
  predicate MetricsInUnit(metrics: map<Metric, real>)
  {
    forall name :: name in metrics ==> 0.0 <= metrics[name] <= 1.0
  }

  class CreativeProject {
    const projectType: string
    const theme: string
    const targetLength: int
    var contributions: seq<Contribution>
    var currentContent: string
    var qualityMetrics: map<Metric, real>

    ghost predicate Valid()
      reads this
    {
      qualityMetrics.Keys == AllMetrics
    }

    /** A new project: no contributions, empty content, every metric at 0.0. */
    constructor (projectType: string, theme: string, targetLength: int)
      ensures Valid() && MetricsInUnit(qualityMetrics)
      ensures this.projectType == projectType && this.theme == theme && this.targetLength == targetLength
      ensures contributions == [] && currentContent == ""
      ensures forall name :: name in qualityMetrics ==> qualityMetrics[name] == 0.0
    {
      this.projectType := projectType;
      this.theme := theme;
      this.targetLength := targetLength;
      contributions := [];
      currentContent := "";
      qualityMetrics := map[Creativity := 0.0, Coherence := 0.0, Originality := 0.0, Engagement := 0.0];
    }

    /**
     * Records a contribution, updates the content and the metrics. The
     * engagement boost is drawn from [0.1, 0.3] by scaling `boostUnit`.
     */
    method AddContribution(contribution: Contribution, boostUnit: real)
      requires Valid() && 0.0 <= boostUnit < 1.0
      modifies this
      ensures Valid()
      ensures contributions == old(contributions) + [contribution]
      ensures currentContent == ContentAfter(old(currentContent), contribution)
      ensures qualityMetrics == MetricsAfter(old(qualityMetrics), contribution, Uniform(0.1, 0.3, boostUnit))
      ensures old(MetricsInUnit(qualityMetrics)) && ScoresInUnit(contribution) ==> MetricsInUnit(qualityMetrics)
    {
      ghost var before := qualityMetrics;
      contributions := contributions + [contribution];
      UpdateContent(contribution);
      UpdateQualityMetrics(contribution, boostUnit);
      if MetricsInUnit(before) && ScoresInUnit(contribution) {
        MetricsStayInUnit(before, contribution, Uniform(0.1, 0.3, boostUnit));
      }
    }

    method UpdateContent(contribution: Contribution)
      modifies this
      ensures currentContent == ContentAfter(old(currentContent), contribution)
      ensures contributions == old(contributions) && qualityMetrics == old(qualityMetrics)
    {
      if contribution.kind == StorySegment {
        currentContent := currentContent + contribution.content + " ";
      } else if contribution.kind == Ideas {
        currentContent := "Theme: " + contribution.content + ". " + currentContent;
      }
    }

    method UpdateQualityMetrics(contribution: Contribution, boostUnit: real)
      requires Valid() && 0.0 <= boostUnit < 1.0
      modifies this
      ensures Valid()
      ensures qualityMetrics == MetricsAfter(old(qualityMetrics), contribution, Uniform(0.1, 0.3, boostUnit))
      ensures contributions == old(contributions) && currentContent == old(currentContent)
    {
      ghost var m0 := qualityMetrics;
      var contributionWeight := 0.3;
      if contribution.creativityLevel.Some? {
        qualityMetrics := qualityMetrics[Creativity :=
          qualityMetrics[Creativity] * (1.0 - contributionWeight) + contribution.creativityLevel.value * contributionWeight];
      }
      ghost var m1 := BlendInto(m0, Creativity, contribution.creativityLevel);
      assert qualityMetrics == m1;
      if contribution.narrativeFlow.Some? {
        qualityMetrics := qualityMetrics[Coherence :=
          qualityMetrics[Coherence] * (1.0 - contributionWeight) + contribution.narrativeFlow.value * contributionWeight];
      }
      ghost var m2 := BlendInto(m1, Coherence, contribution.narrativeFlow);
      assert qualityMetrics == m2;
      if contribution.innovationLevel.Some? {
        qualityMetrics := qualityMetrics[Originality :=
          qualityMetrics[Originality] * (1.0 - contributionWeight) + contribution.innovationLevel.value * contributionWeight];
      }
      assert qualityMetrics == BlendInto(m2, Originality, contribution.innovationLevel);
      if contribution.emotionalTone.Some? {
        var engagementBoost := Uniform(0.1, 0.3, boostUnit);
        var raised := qualityMetrics[Engagement] + engagementBoost;
        qualityMetrics := qualityMetrics[Engagement := if raised < 1.0 then raised else 1.0];
      }
    }
  }

  // ---------------------------------------------------------------------------
  // Properties

  /**
   * The earlier content survives every contribution: a story segment keeps
   * it as a prefix, an idea as a suffix, and any other type leaves it
   * unchanged.
   */
  lemma ContentKeepsEarlier(content: string, c: Contribution)
    ensures Contains(ContentAfter(content, c), content)
    ensures c.kind == StorySegment ==> ContentAfter(content, c)[..|content|] == content
    ensures c.kind == Ideas ==> ContentAfter(content, c)[|ContentAfter(content, c)| - |content|..] == content
    ensures c.kind !in {StorySegment, Ideas} ==> ContentAfter(content, c) == content
  {
    if c.kind == StorySegment {
      ContainsMiddle([], content, c.content + " ");
      assert [] + content + (c.content + " ") == ContentAfter(content, c);
    } else if c.kind == Ideas {
      ContainsMiddle("Theme: " + c.content + ". ", content, []);
      assert ("Theme: " + c.content + ". ") + content + [] == ContentAfter(content, c);
    } else {
      ContainsMiddle([], content, []);
      assert [] + content + [] == content;
    }
  }

  /** A blend lies between the old value and the score, so it stays in [0, 1] when both are. */
  lemma BlendBetween(current: real, score: real)
    ensures current <= score ==> current <= Blend(current, score) <= score
    ensures score <= current ==> score <= Blend(current, score) <= current
    ensures 0.0 <= current <= 1.0 && 0.0 <= score <= 1.0 ==> 0.0 <= Blend(current, score) <= 1.0
  {
  }

  /**
   * A contribution blends each present score into its metric and leaves a
   * metric whose score is absent unchanged; with a tone, engagement is
   * raised by the boost up to 1.0 and never above it.
   */
  lemma MetricsAfterContribution(metrics: map<Metric, real>, c: Contribution, boost: real)
    requires AllMetrics <= metrics.Keys
    ensures var m := MetricsAfter(metrics, c, boost);
      m.Keys == metrics.Keys &&
      m[Creativity] == (if c.creativityLevel.Some? then Blend(metrics[Creativity], c.creativityLevel.value) else metrics[Creativity]) &&
      m[Coherence] == (if c.narrativeFlow.Some? then Blend(metrics[Coherence], c.narrativeFlow.value) else metrics[Coherence]) &&
      m[Originality] == (if c.innovationLevel.Some? then Blend(metrics[Originality], c.innovationLevel.value) else metrics[Originality]) &&
      (c.emotionalTone.None? ==> m[Engagement] == metrics[Engagement]) &&
      (c.emotionalTone.Some? ==> m[Engagement] <= 1.0) &&
      (c.emotionalTone.Some? && 0.0 <= boost && metrics[Engagement] <= 1.0 ==> metrics[Engagement] <= m[Engagement])
  {
  }

  /** Metrics in [0, 1] stay in [0, 1] after a contribution whose scores are in [0, 1], for a non-negative boost. */
  lemma MetricsStayInUnit(metrics: map<Metric, real>, c: Contribution, boost: real)
    requires AllMetrics <= metrics.Keys
    requires MetricsInUnit(metrics) && ScoresInUnit(c) && 0.0 <= boost
    ensures MetricsInUnit(MetricsAfter(metrics, c, boost))
  {
    var m1 := BlendInto(metrics, Creativity, c.creativityLevel);
    if c.creativityLevel.Some? {
      BlendBetween(metrics[Creativity], c.creativityLevel.value);
    }
    var m2 := BlendInto(m1, Coherence, c.narrativeFlow);
    if c.narrativeFlow.Some? {
      BlendBetween(m1[Coherence], c.narrativeFlow.value);
    }
    var m3 := BlendInto(m2, Originality, c.innovationLevel);
    if c.innovationLevel.Some? {
      BlendBetween(m2[Originality], c.innovationLevel.value);
    }
  }
}

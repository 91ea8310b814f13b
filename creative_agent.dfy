/**
 * Creative agents and their contributions. An agent's specialization
 * selects one of six generators, unknown specializations falling back to
 * the ideas generator; every generated contribution is appended to the
 * agent's history. The random choices and scores a generator draws are
 * given as a `Draw`.
 */
module CreativeAgents {
  import opened Wrappers

  /** The type of a contribution, one per generator. */
  datatype ContributionKind = Ideas | StorySegment | Concept | Critique | StyleEnhancement | Structure

  /** The type name a contribution carries. */
  function KindName(kind: ContributionKind): string
  {
    match kind
    case Ideas => "ideas"
    case StorySegment => "story_segment"
    case Concept => "concept"
    case Critique => "critique"
    case StyleEnhancement => "style_enhancement"
    case Structure => "structure"
  }

  /**
   * A contribution. Of the scores a generator attaches, only those that a
   * project or an analysis reads are kept: the creativity level of ideas,
   * the narrative flow and emotional tone of story segments and the
   * innovation level of concepts.
   */
  datatype Contribution = Contribution(
    kind: ContributionKind,
    content: string,
    creativityLevel: Option<real>,
    narrativeFlow: Option<real>,
    innovationLevel: Option<real>,
    emotionalTone: Option<string>,
    iteration: int,
    agent: string)

  /**
   * The random values one generation draws: the index of the chosen text,
   * the index of the chosen emotional tone, and a value in [0, 1) that a
   * uniform score is scaled from.
   */
  datatype Draw = Draw(pick: nat, tonePick: nat, unit: real)

  predicate ValidDraw(d: Draw)
  {
    d.pick < 5 && d.tonePick < 4 && 0.0 <= d.unit < 1.0
  }

  /** Python's `random.uniform(lo, hi)` for the drawn unit value. */
  function Uniform(lo: real, hi: real, unit: real): (x: real)
    requires lo <= hi && 0.0 <= unit <= 1.0
    ensures lo <= x <= hi
  {
    var width := hi - lo;
    assert 0.0 <= width * unit;
    assert width * unit <= width by {
      assert width - width * unit == width * (1.0 - unit);
      assert 0.0 <= width * (1.0 - unit);
    }
    lo + width * unit
  }

  const IdeaTexts: seq<string> := [
    "AI consciousness emerging through collective learning",
    "Time-traveling researcher documenting future societies",
    "Symbiotic relationship between humans and AI entities",
    "Quantum computing breakthrough enabling mind uploading",
    "AI artists creating impossible geometric masterpieces"]

  const StoryTexts: seq<string> := [
    "In the bustling research lab, Dr. Chen stared at the screen in amazement...",
    "The AI collective hummed with unusual activity, patterns emerging that no one had programmed...",
    "As the quantum processor reached critical temperature, reality itself seemed to shimmer...",
    "The collaboration between human and artificial minds had produced something unprecedented...",
    "In that moment of discovery, the boundaries between creator and creation dissolved..."]

  const Tones: seq<string> := ["wonder", "excitement", "mystery", "hope"]

  const ConceptTexts: seq<string> := [
    "Swarm Intelligence Evolution",
    "Collective Consciousness Networks",
    "Emergent Creativity Patterns",
    "Human-AI Symbiosis",
    "Distributed Problem Solving"]

  const CritiqueTexts: seq<string> := [
    "The concept shows promise but needs more emotional depth",
    "Strong technical foundation, could benefit from human perspective",
    "Creative approach, though the narrative flow could be smoother",
    "Innovative idea that would resonate well with the audience",
    "Well-structured but could explore more unconventional angles"]

  const StyleTexts: seq<string> := [
    "Add metaphorical language to deepen impact",
    "Incorporate sensory details for vivid imagery",
    "Use parallel structure for rhythmic flow",
    "Employ symbolic elements to convey deeper meaning",
    "Balance technical precision with poetic expression"]

  const StructureTexts: seq<string> := [
    "Three-act narrative progression with rising tension",
    "Circular structure connecting ending to beginning",
    "Parallel storylines that converge at climax",
    "Episodic structure with thematic connections",
    "Nested narrative with multiple perspectives"]

  /** The generator a specialization selects; unknown specializations use the ideas generator. */
  function GeneratorFor(specialization: string): ContributionKind
  {
    if specialization == "idea_generator" then Ideas
    else if specialization == "story_writer" then StorySegment
    else if specialization == "concept_developer" then Concept
    else if specialization == "critic_reviewer" then Critique
    else if specialization == "style_enhancer" then StyleEnhancement
    else if specialization == "structure_organizer" then Structure
    else Ideas
  }

  /** The contribution the generator of `kind` produces for the draw. */
  function Generate(kind: ContributionKind, iteration: int, agent: string, d: Draw): Contribution
    requires ValidDraw(d)
  {
    match kind
    case Ideas =>
      Contribution(Ideas, IdeaTexts[d.pick], Some(Uniform(0.6, 0.9, d.unit)), None, None, None, iteration, agent)
    case StorySegment =>
      Contribution(StorySegment, StoryTexts[d.pick], None, Some(Uniform(0.7, 0.95, d.unit)), None, Some(Tones[d.tonePick]), iteration, agent)
    case Concept =>
      Contribution(Concept, ConceptTexts[d.pick], None, None, Some(Uniform(0.5, 0.8, d.unit)), None, iteration, agent)
    case Critique =>
      Contribution(Critique, CritiqueTexts[d.pick], None, None, None, None, iteration, agent)
    case StyleEnhancement =>
      Contribution(StyleEnhancement, StyleTexts[d.pick], None, None, None, None, iteration, agent)
    case Structure =>
      Contribution(Structure, StructureTexts[d.pick], None, None, None, None, iteration, agent)
  }

  /** A score lies in [0, 1] whenever it is present. */
  predicate InUnit(score: Option<real>)
  {
    score.Some? ==> 0.0 <= score.value <= 1.0
  }

  /** Every score a project reads lies in [0, 1]. */
  predicate ScoresInUnit(c: Contribution)
  {
    InUnit(c.creativityLevel) && InUnit(c.narrativeFlow) && InUnit(c.innovationLevel)
  }

  /**
   * What a generated contribution carries: the type of the specialization's
   * generator, the iteration and the agent; a creativity level in
   * [0.6, 0.9] exactly for ideas, a narrative flow in [0.7, 0.95] and an
   * emotional tone exactly for story segments, an innovation level in
   * [0.5, 0.8] exactly for concepts.
   */
  lemma GeneratedContribution(specialization: string, iteration: int, agent: string, d: Draw)
    requires ValidDraw(d)
    ensures var c := Generate(GeneratorFor(specialization), iteration, agent, d);
      c.kind == GeneratorFor(specialization) && c.iteration == iteration && c.agent == agent &&
      (c.creativityLevel.Some? <==> c.kind == Ideas) &&
      (c.creativityLevel.Some? ==> 0.6 <= c.creativityLevel.value <= 0.9) &&
      (c.narrativeFlow.Some? <==> c.kind == StorySegment) &&
      (c.narrativeFlow.Some? ==> 0.7 <= c.narrativeFlow.value <= 0.95) &&
      (c.emotionalTone.Some? <==> c.kind == StorySegment) &&
      (c.innovationLevel.Some? <==> c.kind == Concept) &&
      (c.innovationLevel.Some? ==> 0.5 <= c.innovationLevel.value <= 0.8) &&
      ScoresInUnit(c)
  {
  }

  /** The six known specializations. */
  const Specializations: set<string> := {
    "idea_generator", "story_writer", "concept_developer",
    "critic_reviewer", "style_enhancer", "structure_organizer"}

  /** Each known specialization has its own generator; every other one gets the ideas generator. */
  lemma GeneratorDispatch(a: string, b: string)
    ensures a !in Specializations ==> GeneratorFor(a) == Ideas
    ensures a in Specializations && b in Specializations && a != b ==> GeneratorFor(a) != GeneratorFor(b)
  {
  }

  /** A creative agent: its type name, specialization, creativity score and contribution history. */
  class CreativeAgent {
    const agentType: string
    const specialization: string
    const creativityScore: real
    var contributionHistory: seq<Contribution>

    /** A new agent with an empty history and a creativity score drawn in [0.7, 1.0]. */
    constructor (agentType: string, specialization: string, scoreUnit: real)
      requires 0.0 <= scoreUnit < 1.0
      ensures this.agentType == agentType && this.specialization == specialization
      ensures this.creativityScore == Uniform(0.7, 1.0, scoreUnit)
      ensures 0.7 <= this.creativityScore <= 1.0
      ensures contributionHistory == []
    {
      this.agentType := agentType;
      this.specialization := specialization;
      this.creativityScore := Uniform(0.7, 1.0, scoreUnit);
      contributionHistory := [];
    }

    /** Generates with the specialization's generator and records the result as the last history entry. */
    method GenerateContribution(iteration: int, d: Draw) returns (contribution: Contribution)
      requires ValidDraw(d)
      modifies this
      ensures contribution == Generate(GeneratorFor(specialization), iteration, agentType, d)
      ensures contributionHistory == old(contributionHistory) + [contribution]
    {
      var generator := GeneratorFor(specialization);
      contribution := Generate(generator, iteration, agentType, d);
      contributionHistory := contributionHistory + [contribution];
    }
  }
}

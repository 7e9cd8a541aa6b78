// The agent configuration record: its fields and defaults, how a raw `agent` mapping becomes
// one, which template file it names, and how it fills that template.

module Configuration {
  import opened Wrappers
  import opened Text
  import opened Sections
  import opened Template

  /**
    A path below the configuration package directory. Paths are kept symbolic: `Child(p, n)`
    is `p / n`.
   */
  datatype Path = ConfigDir | Child(parent: Path, name: string)

  const DEFAULT_PROMPT_NAME: string := "francisco_prompt.txt"
  const DEFAULT_CONFIG_FILE: Path := Child(ConfigDir, "francisco.yaml")
  const DEFAULT_PROMPT_FILE: Path := Child(ConfigDir, DEFAULT_PROMPT_NAME)
  const DEFAULT_MODEL: string := "gpt-5-mini"
  const DEFAULT_MAX_ITERATIONS: int := 10

  /** The ten slot names the configuration supplies to its prompt template. */
  const SLOT_NAMES: set<string> := {
    "name", "description", "core_objectives", "personality", "capabilities",
    "self_replication_strategy", "working_principles", "interaction_guidelines",
    "success_metrics", "limitations_and_boundaries"
  }

  /** `AgentConfig`: the complete configuration of one agent. */
  datatype AgentConfig = AgentConfig(
    name: string,
    description: string,
    promptFile: string,
    model: string,
    maxIterations: int,
    personality: Personality,
    coreObjectives: CoreObjectives,
    capabilities: Capabilities,
    strategy: Strategy,
    workingPrinciples: WorkingPrinciples,
    interactionGuidelines: InteractionGuidelines,
    successMetrics: SuccessMetrics,
    limitationsAndBoundaries: LimitationsAndBoundaries)
  {
    /**
      The template file: the package's default prompt file for the default name, the named
      file in the configuration directory otherwise. Both branches name the same file.
     */
    function TemplatePath(): (p: Path)
      ensures p == Child(ConfigDir, promptFile)
      ensures p == DEFAULT_PROMPT_FILE <==> promptFile == DEFAULT_PROMPT_NAME
    {
      if promptFile != DEFAULT_PROMPT_NAME then Child(ConfigDir, promptFile) else DEFAULT_PROMPT_FILE
    }

    /** The keyword arguments `__str__` passes to `format`. */
    function SlotValues(): map<string, string>
    {
      SlotMap(name, description, coreObjectives.Markup(), personality.Markup(), capabilities.Markup(),
        strategy.Markup(), workingPrinciples.Markup(), interactionGuidelines.Markup(),
        successMetrics.Markup(), limitationsAndBoundaries.Markup())
    }

    /** `AgentConfig.__str__` over the already-read template text. */
    function Str(template: Template): Result<string, FormatError>
    {
      Format(template, SlotValues())
    }
  }

  /** The ten slot values, keyed by slot name. */
  function SlotMap(name: string, description: string, coreObjectives: string, personality: string,
                   capabilities: string, strategy: string, workingPrinciples: string,
                   interactionGuidelines: string, successMetrics: string,
                   limitationsAndBoundaries: string): (m: map<string, string>)
    ensures m.Keys == SLOT_NAMES
    ensures && m["name"] == name && m["description"] == description
            && m["core_objectives"] == coreObjectives && m["personality"] == personality
            && m["capabilities"] == capabilities && m["self_replication_strategy"] == strategy
            && m["working_principles"] == workingPrinciples
            && m["interaction_guidelines"] == interactionGuidelines
            && m["success_metrics"] == successMetrics
            && m["limitations_and_boundaries"] == limitationsAndBoundaries
  {
    map[
      "name" := name,
      "description" := description,
      "core_objectives" := coreObjectives,
      "personality" := personality,
      "capabilities" := capabilities,
      "self_replication_strategy" := strategy,
      "working_principles" := workingPrinciples,
      "interaction_guidelines" := interactionGuidelines,
      "success_metrics" := successMetrics,
      "limitations_and_boundaries" := limitationsAndBoundaries
    ]
  }

  /** A template renders exactly when each of its slots is one of the ten names. */
  lemma StrSucceedsIff(c: AgentConfig, t: Template)
    ensures c.Str(t).Success? <==> forall i :: 0 <= i < |t| && t[i].Slot? ==> t[i].name in SLOT_NAMES
    ensures c.Str(t).Failure? ==>
      exists i :: FirstUnknown(t, c.SlotValues(), i) && t[i].name !in SLOT_NAMES
        && c.Str(t).error == KeyError(t[i].name)
  {
  }

  /**
    Each of the ten slots is filled, in its own place, with its own value: the name, the
    description, or its section's text.
   */
  lemma StrFillsSlots(c: AgentConfig, t: Template, i: nat)
    requires c.Str(t).Success? && i < |t| && t[i].Slot?
    ensures c.Str(t[..i]).Success? && c.Str(t[i + 1..]).Success?
    ensures var pre, out, post := c.Str(t[..i]).value, c.Str(t).value, c.Str(t[i + 1..]).value;
      && (t[i].name == "name" ==> out == pre + c.name + post)
      && (t[i].name == "description" ==> out == pre + c.description + post)
      && (t[i].name == "personality" ==> out == pre + c.personality.Markup() + post)
      && (t[i].name == "core_objectives" ==> out == pre + c.coreObjectives.Markup() + post)
      && (t[i].name == "capabilities" ==> out == pre + c.capabilities.Markup() + post)
      && (t[i].name == "self_replication_strategy" ==> out == pre + c.strategy.Markup() + post)
      && (t[i].name == "working_principles" ==> out == pre + c.workingPrinciples.Markup() + post)
      && (t[i].name == "interaction_guidelines" ==> out == pre + c.interactionGuidelines.Markup() + post)
      && (t[i].name == "success_metrics" ==> out == pre + c.successMetrics.Markup() + post)
      && (t[i].name == "limitations_and_boundaries" ==> out == pre + c.limitationsAndBoundaries.Markup() + post)
  {
    FormatSplit(t, c.SlotValues(), i);
  }

  /** Literal text of the template is copied unchanged. */
  lemma StrKeepsLiterals(c: AgentConfig, t: Template, i: nat)
    requires c.Str(t).Success? && i < |t| && t[i].Lit?
    ensures Contains(c.Str(t).value, t[i].text)
  {
    FormatShows(t, c.SlotValues(), i);
  }

  // ---------------------------------------------------------------------------
  // Building a configuration from the `agent` mapping of the configuration file
  // ---------------------------------------------------------------------------

  /** The `agent` mapping as read: a key that is absent is `None`. Other keys are ignored. */
  datatype RawAgent = RawAgent(
    name: Option<string>,
    description: Option<string>,
    promptFile: Option<string>,
    model: Option<string>,
    maxIterations: Option<int>,
    personality: Option<Personality>,
    coreObjectives: Option<CoreObjectives>,
    capabilities: Option<Capabilities>,
    strategy: Option<Strategy>,
    workingPrinciples: Option<WorkingPrinciples>,
    interactionGuidelines: Option<InteractionGuidelines>,
    successMetrics: Option<SuccessMetrics>,
    limitationsAndBoundaries: Option<LimitationsAndBoundaries>)

  /** An empty mapping. */
  const EMPTY_AGENT: RawAgent :=
    RawAgent(None, None, None, None, None, None, None, None, None, None, None, None, None)

  /** Validation fails by listing the required fields that are missing, in declaration order. */
  datatype ConfigError = MissingFields(fields: seq<string>)

  /** The names of the required fields absent from `raw`. */
  function Missing(raw: RawAgent): seq<string>
  {
    (if raw.name.None? then ["name"] else []) + (if raw.description.None? then ["description"] else [])
  }

  /**
    `AgentConfig(**agent_data)`: `name` and `description` are required; every other field
    falls back to its default, the sections to empty ones.
   */
  function Validate(raw: RawAgent): (r: Result<AgentConfig, ConfigError>)
    ensures r.Success? <==> raw.name.Some? && raw.description.Some?
    ensures r.Failure? ==> r.error.fields != [] && (forall f :: f in r.error.fields ==> f in {"name", "description"})
    ensures r.Success? ==> (r.value.name, r.value.description) == (raw.name.value, raw.description.value)
    ensures r.Success? && raw.promptFile.None? ==> r.value.promptFile == DEFAULT_PROMPT_NAME
    ensures r.Success? && raw.model.None? ==> r.value.model == DEFAULT_MODEL
    ensures r.Success? && raw.maxIterations.None? ==> r.value.maxIterations == DEFAULT_MAX_ITERATIONS
    ensures r.Success? && raw.promptFile.Some? ==> r.value.promptFile == raw.promptFile.value
    ensures r.Success? && raw.model.Some? ==> r.value.model == raw.model.value
    ensures r.Success? && raw.maxIterations.Some? ==> r.value.maxIterations == raw.maxIterations.value
    ensures r.Success? ==>
      && (raw.personality.Some? ==> r.value.personality == raw.personality.value)
      && (raw.coreObjectives.Some? ==> r.value.coreObjectives == raw.coreObjectives.value)
      && (raw.capabilities.Some? ==> r.value.capabilities == raw.capabilities.value)
      && (raw.strategy.Some? ==> r.value.strategy == raw.strategy.value)
      && (raw.workingPrinciples.Some? ==> r.value.workingPrinciples == raw.workingPrinciples.value)
      && (raw.interactionGuidelines.Some? ==> r.value.interactionGuidelines == raw.interactionGuidelines.value)
      && (raw.successMetrics.Some? ==> r.value.successMetrics == raw.successMetrics.value)
      && (raw.limitationsAndBoundaries.Some? ==>
            r.value.limitationsAndBoundaries == raw.limitationsAndBoundaries.value)
    ensures r.Success? ==>
      && (raw.personality.None? ==> r.value.personality == Personality([], []))
      && (raw.coreObjectives.None? ==> r.value.coreObjectives == CoreObjectives([], []))
      && (raw.capabilities.None? ==> r.value.capabilities == Capabilities([], [], []))
      && (raw.strategy.None? ==> r.value.strategy == Strategy("", map[], [], []))
      && (raw.workingPrinciples.None? ==> r.value.workingPrinciples == WorkingPrinciples([], [], []))
      && (raw.interactionGuidelines.None? ==> r.value.interactionGuidelines == InteractionGuidelines([], []))
      && (raw.successMetrics.None? ==> r.value.successMetrics == SuccessMetrics([]))
      && (raw.limitationsAndBoundaries.None? ==> r.value.limitationsAndBoundaries == LimitationsAndBoundaries([]))
  {
    if Missing(raw) != [] then Failure(MissingFields(Missing(raw)))
    else
      Success(AgentConfig(
        raw.name.value,
        raw.description.value,
        raw.promptFile.GetOr(DEFAULT_PROMPT_NAME),
        raw.model.GetOr(DEFAULT_MODEL),
        raw.maxIterations.GetOr(DEFAULT_MAX_ITERATIONS),
        raw.personality.GetOr(Personality([], [])),
        raw.coreObjectives.GetOr(CoreObjectives([], [])),
        raw.capabilities.GetOr(Capabilities([], [], [])),
        raw.strategy.GetOr(Strategy("", map[], [], [])),
        raw.workingPrinciples.GetOr(WorkingPrinciples([], [], [])),
        raw.interactionGuidelines.GetOr(InteractionGuidelines([], [])),
        raw.successMetrics.GetOr(SuccessMetrics([])),
        raw.limitationsAndBoundaries.GetOr(LimitationsAndBoundaries([]))))
  }

  /** A missing name or description is reported by name; both are reported when both are missing. */
  lemma ValidateReportsMissing(raw: RawAgent)
    ensures raw.name.None? && raw.description.None? ==>
      Validate(raw) == Failure(MissingFields(["name", "description"]))
    ensures raw.name.None? && raw.description.Some? ==> Validate(raw) == Failure(MissingFields(["name"]))
    ensures raw.name.Some? && raw.description.None? ==>
      Validate(raw) == Failure(MissingFields(["description"]))
  {
    assert ["name"] + ["description"] == ["name", "description"];
    assert ["name"] + [] == ["name"];
    assert [] + ["description"] == ["description"];
  }

  /** Each section missing from the mapping is empty, so it renders as nothing, whatever the other sections hold. */
  lemma ValidateDefaultsAreBlank(raw: RawAgent)
    ensures var r := Validate(raw);
      && (r.Success? && raw.personality.None? ==> r.value.personality.Markup() == "")
      && (r.Success? && raw.coreObjectives.None? ==> r.value.coreObjectives.Markup() == "")
      && (r.Success? && raw.capabilities.None? ==> r.value.capabilities.Markup() == "")
      && (r.Success? && raw.strategy.None? ==> r.value.strategy.Markup() == "")
      && (r.Success? && raw.workingPrinciples.None? ==> r.value.workingPrinciples.Markup() == "")
      && (r.Success? && raw.interactionGuidelines.None? ==> r.value.interactionGuidelines.Markup() == "")
      && (r.Success? && raw.successMetrics.None? ==> r.value.successMetrics.Markup() == "")
      && (r.Success? && raw.limitationsAndBoundaries.None? ==> r.value.limitationsAndBoundaries.Markup() == "")
  {
    if Validate(raw).Success? {
      var c := Validate(raw).value;
      PersonalityShape(c.personality);
      CoreObjectivesShape(c.coreObjectives);
      CapabilitiesShape(c.capabilities);
      StrategyShape(c.strategy);
      WorkingPrinciplesShape(c.workingPrinciples);
      InteractionGuidelinesShape(c.interactionGuidelines);
    }
  }
}

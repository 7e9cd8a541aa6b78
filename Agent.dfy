// The invocation wrapper: building an agent from its configuration and a credential, and
// turning one request into exactly one reply string.

module Agent {
  import opened Wrappers
  import opened Text
  import opened Template
  import opened Configuration

  // ---------------------------------------------------------------------------
  // Construction
  // ---------------------------------------------------------------------------

  /** The configuration file as parsed: a mapping that may or may not hold an `agent` key, or anything
      else (a missing or unreadable file, a document that is not a mapping). */
  datatype Document = Mapping(agent: Option<RawAgent>) | Unusable

  /** Why construction stops. */
  datatype InitError =
    | ConfigUnusable
    | ConfigInvalid(cause: ConfigError)
    | MissingApiKey
    | TemplateNotFound(path: Path)
    | TemplateKeyError(key: string)

  const MISSING_KEY_MESSAGE: string :=
    "OpenAI API key is required. Set OPENAI_API_KEY environment variable or pass api_key parameter."

  /** `_load_config`: the `agent` mapping, an absent one read as empty, validated. */
  function LoadConfig(doc: Document): (r: Result<AgentConfig, InitError>)
    ensures doc.Unusable? ==> r == Failure(ConfigUnusable)
    ensures doc.Mapping? && doc.agent.None? ==> r == Failure(ConfigInvalid(MissingFields(["name", "description"])))
    ensures doc.Mapping? && doc.agent.Some? ==>
      r == Validate(doc.agent.value).MapFailure((e: ConfigError) => ConfigInvalid(e))
  {
    match doc
    case Unusable => Failure(ConfigUnusable)
    case Mapping(agent) =>
      var agentData := agent.GetOr(EMPTY_AGENT);
      ValidateReportsMissing(agentData);
      match Validate(agentData)
      case Failure(e) => Failure(ConfigInvalid(e))
      case Success(config) => Success(config)
  }

  /** Python truthiness of an optional string. */
  predicate Truthy(s: Option<string>)
  {
    s.Some? && s.value != ""
  }

  /**
    `api_key or os.getenv("OPENAI_API_KEY")`, followed by the `not self.api_key` test: the
    credential kept, or `None` when construction must fail.
   */
  function ResolveApiKey(explicit: Option<string>, env: Option<string>): (key: Option<string>)
    ensures key.Some? <==> Truthy(explicit) || Truthy(env)
    ensures key.Some? ==> key.value != ""
    ensures Truthy(explicit) ==> key == explicit
    ensures !Truthy(explicit) && Truthy(env) ==> key == env
  {
    var apiKey := if Truthy(explicit) then explicit else env;
    if Truthy(apiKey) then apiKey else None
  }

  /** The slot values `_build_system_prompt` builds, separately from `AgentConfig.__str__`. */
  function TemplateData(config: AgentConfig): map<string, string>
  {
    map[
      "name" := config.name,
      "description" := config.description,
      "core_objectives" := config.coreObjectives.Markup(),
      "personality" := config.personality.Markup(),
      "capabilities" := config.capabilities.Markup(),
      "self_replication_strategy" := config.strategy.Markup(),
      "working_principles" := config.workingPrinciples.Markup(),
      "interaction_guidelines" := config.interactionGuidelines.Markup(),
      "success_metrics" := config.successMetrics.Markup(),
      "limitations_and_boundaries" := config.limitationsAndBoundaries.Markup()
    ]
  }

  /**
    `_build_system_prompt`: the configured template file, looked up among the files that
    exist, filled with the ten slot values.
   */
  function SystemPrompt(config: AgentConfig, templates: map<Path, Template>): (r: Result<string, InitError>)
    ensures config.TemplatePath() !in templates ==> r == Failure(TemplateNotFound(config.TemplatePath()))
  {
    var path := config.TemplatePath();
    if path !in templates then Failure(TemplateNotFound(path))
    else
      match Format(templates[path], TemplateData(config))
      case Failure(KeyError(key)) => Failure(TemplateKeyError(key))
      case Success(prompt) => Success(prompt)
  }

  /** The system prompt is the configuration's own `__str__` of the same template. */
  lemma SystemPromptIsStr(config: AgentConfig, templates: map<Path, Template>)
    requires config.TemplatePath() in templates
    ensures config.Str(templates[config.TemplatePath()]).Success? <==>
      SystemPrompt(config, templates).Success?
    ensures SystemPrompt(config, templates).Success? ==>
      SystemPrompt(config, templates).value == config.Str(templates[config.TemplatePath()]).value
    ensures SystemPrompt(config, templates).Failure? ==>
      SystemPrompt(config, templates).error == TemplateKeyError(config.Str(templates[config.TemplatePath()]).error.key)
  {
    assert TemplateData(config) == config.SlotValues();
  }

  /** What the runtime agent is created with. */
  datatype AgentHandle = AgentHandle(name: string, instructions: string, model: string)

  /** Everything construction settles: the configuration, the credential, the runtime agent. */
  datatype Settings = Settings(config: AgentConfig, apiKey: string, agent: AgentHandle)

  /**
    `FranciscoAgent.__init__` as a function of its inputs: the configuration is loaded first,
    then the credential is resolved, and only then is the prompt built and the agent made.
   */
  function Setup(doc: Document, explicitKey: Option<string>, envKey: Option<string>,
                 templates: map<Path, Template>): (r: Result<Settings, InitError>)
    ensures LoadConfig(doc).Failure? ==> r == Failure(LoadConfig(doc).error)
    ensures LoadConfig(doc).Success? && !Truthy(explicitKey) && !Truthy(envKey) ==> r == Failure(MissingApiKey)
    ensures r.Success? ==>
      && Some(r.value.apiKey) == ResolveApiKey(explicitKey, envKey)
      && Success(r.value.config) == LoadConfig(doc)
      && r.value.agent.name == r.value.config.name
      && r.value.agent.model == r.value.config.model
      && Success(r.value.agent.instructions) == SystemPrompt(r.value.config, templates)
    ensures LoadConfig(doc).Success? && ResolveApiKey(explicitKey, envKey).Some? ==>
      && (r.Success? <==> SystemPrompt(LoadConfig(doc).value, templates).Success?)
      && (SystemPrompt(LoadConfig(doc).value, templates).Failure? ==>
            r == Failure(SystemPrompt(LoadConfig(doc).value, templates).error))
  {
    var config :- LoadConfig(doc);
    var apiKey := ResolveApiKey(explicitKey, envKey);
    if apiKey.None? then Failure(MissingApiKey)
    else
      var instructions :- SystemPrompt(config, templates);
      Success(Settings(config, apiKey.value, AgentHandle(config.name, instructions, config.model)))
  }

  /** A missing credential is reported even when the template could not be found or filled. */
  lemma MissingKeyBeforeTemplate(doc: Document, explicitKey: Option<string>, envKey: Option<string>,
                                 templates: map<Path, Template>)
    requires LoadConfig(doc).Success? && ResolveApiKey(explicitKey, envKey).None?
    ensures Setup(doc, explicitKey, envKey, templates) == Failure(MissingApiKey)
    ensures Setup(doc, explicitKey, envKey, map[]) == Failure(MissingApiKey)
  {
  }

  /** An explicit credential that is the empty string gives way to the environment's. */
  lemma EmptyExplicitKeyFallsThrough(envKey: Option<string>)
    ensures ResolveApiKey(Some(""), envKey) == ResolveApiKey(None, envKey)
    ensures Truthy(envKey) ==> ResolveApiKey(Some(""), envKey) == envKey
  {
  }

  // ---------------------------------------------------------------------------
  // Invocation
  // ---------------------------------------------------------------------------

  /** A `context` dictionary: its number of entries decides its truthiness; its `repr` is host text. */
  datatype Context = Context(size: nat, repr: string)

  /** One call of the runtime: the agent, the dispatched input and the turn limit. */
  datatype Request = Request(agent: AgentHandle, input: string, maxTurns: int)

  /** What the runtime did: finished with an output (possibly absent), or raised an exception. */
  datatype Outcome = Completed(finalOutput: Option<string>) | Raised(message: string)

  const CONTEXT_PREFIX: string := "Additional context: "
  const APOLOGY: string := "I apologize, but I couldn't generate a response. Please try again."
  const ERROR_PREFIX: string := "I encountered an error while processing your request: "

  /** A context that is present and not empty. */
  predicate HasContext(context: Option<Context>)
  {
    context.Some? && context.value.size > 0
  }

  /** The input sent to the runtime: the user's input, after a context paragraph when there is one. */
  function PreparedInput(userInput: string, context: Option<Context>): (s: string)
    ensures EndsWith(s, userInput)
    ensures !HasContext(context) ==> s == userInput
    ensures HasContext(context) ==>
      && StartsWith(s, CONTEXT_PREFIX + context.value.repr + "\n\n")
      && |s| == |CONTEXT_PREFIX| + |context.value.repr| + 2 + |userInput|
  {
    if HasContext(context) then
      var contextStr := CONTEXT_PREFIX + context.value.repr + "\n\n";
      assert (contextStr + userInput)[..|contextStr|] == contextStr;
      assert (contextStr + userInput)[|contextStr|..] == userInput;
      contextStr + userInput
    else userInput
  }

  /** With a context, the dispatched input names it after the prefix; the user's input follows unchanged. */
  lemma PreparedInputShowsContext(userInput: string, context: Option<Context>)
    requires HasContext(context)
    ensures Contains(PreparedInput(userInput, context), CONTEXT_PREFIX + context.value.repr)
    ensures Contains(PreparedInput(userInput, context), userInput)
  {
    var s := PreparedInput(userInput, context);
    var shown := CONTEXT_PREFIX + context.value.repr;
    assert OccursAt(s, shown, 0) by {
      assert s[..|shown|] == shown;
    }
    assert OccursAt(s, userInput, |s| - |userInput|);
  }

  /** The reply for one outcome: the output if it is non-empty, the apology if not, the error text for an exception. */
  function Normalize(outcome: Outcome): (reply: string)
    ensures reply != ""
    ensures outcome.Completed? && Truthy(outcome.finalOutput) ==> reply == outcome.finalOutput.value
    ensures outcome.Completed? && !Truthy(outcome.finalOutput) ==> reply == APOLOGY
    ensures outcome.Raised? ==> StartsWith(reply, ERROR_PREFIX) && reply[|ERROR_PREFIX|..] == outcome.message
  {
    match outcome
    case Completed(finalOutput) => if Truthy(finalOutput) then finalOutput.value else APOLOGY
    case Raised(message) =>
      assert (ERROR_PREFIX + message)[..|ERROR_PREFIX|] == ERROR_PREFIX;
      ERROR_PREFIX + message
  }

  /** `FranciscoAgent`: its fields are set once, by construction. */
  class FranciscoAgent {
    const config: AgentConfig
    const apiKey: string
    const agent: AgentHandle

    constructor(settings: Settings)
      ensures config == settings.config && apiKey == settings.apiKey && agent == settings.agent
    {
      config := settings.config;
      apiKey := settings.apiKey;
      agent := settings.agent;
    }

    /** `FranciscoAgent(config_path, api_key)`, with the file system and environment read beforehand. */
    static method Create(doc: Document, explicitKey: Option<string>, envKey: Option<string>,
                         templates: map<Path, Template>) returns (r: Result<FranciscoAgent, InitError>)
      ensures r.Success? <==>
        && LoadConfig(doc).Success? && ResolveApiKey(explicitKey, envKey).Some?
        && SystemPrompt(LoadConfig(doc).value, templates).Success?
      ensures r.Failure? <==> Setup(doc, explicitKey, envKey, templates).Failure?
      ensures r.Failure? ==> r.error == Setup(doc, explicitKey, envKey, templates).error
      ensures r.Success? ==>
        && fresh(r.value)
        && Settings(r.value.config, r.value.apiKey, r.value.agent) == Setup(doc, explicitKey, envKey, templates).value
    {
      var config :- LoadConfig(doc);
      var apiKey := ResolveApiKey(explicitKey, envKey);
      if apiKey.None? {
        return Failure(MissingApiKey);
      }
      var instructions :- SystemPrompt(config, templates);
      var agent := new FranciscoAgent(Settings(config, apiKey.value, AgentHandle(config.name, instructions, config.model)));
      return Success(agent);
    }

    /** The request the agent dispatches for one input. */
    function RequestFor(userInput: string, context: Option<Context>): (request: Request)
      ensures request.agent == agent && request.maxTurns == config.maxIterations
      ensures request.input == PreparedInput(userInput, context)
    {
      Request(agent, PreparedInput(userInput, context), config.maxIterations)
    }

    /** `invoke`: the runtime is a function from the request to its outcome. */
    method Invoke(userInput: string, context: Option<Context>, run: Request -> Outcome)
      returns (reply: string, request: Request)
      ensures request == RequestFor(userInput, context)
      ensures reply == Normalize(run(request)) && reply != ""
    {
      var fullInput := userInput;
      if HasContext(context) {
        var contextStr := CONTEXT_PREFIX + context.value.repr + "\n\n";
        fullInput := contextStr + userInput;
      }
      request := Request(agent, fullInput, config.maxIterations);
      var result := run(request);
      match result
      case Raised(message) =>
        reply := ERROR_PREFIX + message;
      case Completed(finalOutput) =>
        reply := if Truthy(finalOutput) then finalOutput.value else APOLOGY;
    }

    /** `invoke_sync`: the same preparation and the same mapping, on the synchronous runtime. */
    method InvokeSync(userInput: string, context: Option<Context>, runSync: Request -> Outcome)
      returns (reply: string, request: Request)
      ensures request == RequestFor(userInput, context)
      ensures reply == Normalize(runSync(request)) && reply != ""
    {
      var fullInput := userInput;
      if HasContext(context) {
        fullInput := CONTEXT_PREFIX + context.value.repr + "\n\n" + userInput;
      }
      request := Request(agent, fullInput, config.maxIterations);
      reply := Normalize(runSync(request));
    }

    /** `str(agent)`: the configured name, a colon and a space, the description. */
    function ToString(): (s: string)
      ensures |s| == |config.name| + 2 + |config.description|
      ensures s[..|config.name|] == config.name
      ensures s[|config.name|..|config.name| + 2] == ": "
      ensures s[|config.name| + 2..] == config.description
    {
      config.name + ": " + config.description
    }
  }
}

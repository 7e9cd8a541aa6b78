# Francisco agent configuration and invocation, in Dafny

This project models the core of the Francisco agent. The core is the part of the system that turns a YAML agent configuration into a system prompt, and one user request into one reply string.

- **`Sections`** models the eight configuration sections and their `__str__` renderings: personality, core objectives, capabilities, self-replication strategy, working principles, interaction guidelines, success metrics, and limitations and boundaries.
  - Every section that builds its text from parts has a `Render` method. It follows the source step by step: a local `parts` list grows by conditional appends and is then joined.
  - Each `Render` is proved equal to a declarative `Markup` function.
  - Lemmas about `Markup` state what the rendering promises: when the text is empty, its tag frame, which entries appear, and the order of the sub-blocks.
  - The generic facts behind all of this are proved once, over a list of `Field`s: bullet filtering, tag wrapping and joining.
- **`Template`** models a prompt template as pre-parsed pieces, `Lit(text)` or `Slot(name)`.
  - `Format` fills the pieces left to right, the way `str.format` fills keyword arguments.
  - It fails with `KeyError` on the leftmost slot that has no value.
- **`Configuration`** models `AgentConfig`.
  - It holds the fields and their defaults, and the choice of template file.
  - It holds the ten slot values that `__str__` supplies to the template.
  - It validates a raw `agent` mapping: `name` and `description` are required, and every other field falls back to its default.
- **`Agent`** models `_load_config`, credential resolution, `_build_system_prompt` and construction, specified by the function `Setup`. It also holds the class `FranciscoAgent`:
  - its three read-only fields, set by `Create`;
  - input preparation;
  - result and error normalisation, in `invoke` and `invoke_sync`;
  - `__str__`.
- **`Text`** and **`Wrappers`** are support modules:
  - `Text` holds `join`, prefix and suffix tests, substring containment and order, and their lemmas.
  - `Wrappers` holds `Option` and `Result`.

Effects become inputs:
- The parsed configuration file is a `Document`.
- The explicit and environment credentials are two `Option<string>` values.
- The template files that exist are a `map<Path, Template>`.
- The agents runtime is a function from a `Request` to an `Outcome`.
- A context dictionary is its entry count (which decides Python truthiness) together with its `repr` text.
- Paths are symbolic: `Child(ConfigDir, name)` stands for `CONFIG_DIR / name`.

Four behaviours of the code a reader might not expect; the model follows the code:
- Only the empty string is dropped from a bullet list. An entry made of blanks is kept, because the filter is Python truthiness.
- A wrapped section whose lists are non-empty but hold only empty strings renders its bare outer tags, for example `<capabilities>\n</capabilities>`. It does not render `""`. The emptiness test looks at the lists, not their entries (`CapabilitiesShape` and the other `…Shape` lemmas).
- `name` and `description` must be present, but may be empty strings.
- `max_iterations` is not checked to be positive.

## Model

| member | source | states |
|---|---|---|
| Sections.BulletLinesKept | src/francisco/agent_models.py:36 | A bullet list has one line per non-empty entry, and only those lines. Line `a` is `"- "` plus the entry at the a-th kept index. The kept indices are strictly increasing, so input order is preserved. Whitespace-only entries count as non-empty. |
| Sections.Kept | src/francisco/agent_models.py:64 | The kept indices are exactly the positions of the non-empty entries, in increasing order. |
| Sections.BulletsEmptyIff | src/francisco/agent_models.py:213-214 | The bullet text is empty if and only if the list has no non-empty entry. |
| Sections.BulletsMention | src/francisco/agent_models.py:130 | Every non-empty entry appears in the bullet text as `"- " + entry`. |
| Sections.BulletsIgnoreEmpty | src/francisco/agent_models.py:158 | Inserting an empty entry anywhere leaves the bullet text unchanged. |
| Sections.Personality.Render | src/francisco/agent_models.py:28-45 | The append-and-join rendering equals `Markup`: each sub-block that has something to show, with the two joined by a blank line and no outer tag. |
| Sections.PersonalityShape | src/francisco/agent_models.py:30-45 | The text is empty if and only if neither list has a non-empty entry. It starts with the traits block when there is one. With only a traits block, it is that block. With only a style block, it is that block. With both, it is traits, a blank line, then style. |
| Sections.PersonalityShowsBlock | src/francisco/agent_models.py:35-43 | Each sub-block that has content appears in the text. |
| Sections.PersonalityMentions | src/francisco/agent_models.py:35-43 | Every non-empty trait and style entry appears as a bullet line. |
| Sections.Capabilities.Render | src/francisco/agent_models.py:55-81 | The append-and-join rendering equals `Markup`, the outer-tagged join of the sub-blocks that have content. |
| Sections.CapabilitiesShape | src/francisco/agent_models.py:57-81 | The text is empty if and only if all three lists are empty. Otherwise it starts with `<capabilities>` and a newline, and ends with `</capabilities>`. With non-empty lists of only empty strings it is exactly the two tags. |
| Sections.CapabilitiesMentions | src/francisco/agent_models.py:63-78 | Every non-empty entry of every list appears as a bullet line. |
| Sections.CapabilitiesOrder | src/francisco/agent_models.py:60-81 | The sub-blocks appear in field-declaration order, whatever the data. |
| Sections.Strategy.Render | src/francisco/agent_models.py:92-113 | The append-and-join rendering equals `Markup`, with `approach` as a verbatim sub-block. |
| Sections.StrategyShape | src/francisco/agent_models.py:94-113 | The text is empty if and only if `approach` is empty and both lists are empty. Otherwise it is framed by `self_replication_strategy` tags. With no shown content it is the bare tags. |
| Sections.StrategyApproach | src/francisco/agent_models.py:99-100 | A non-empty approach appears unbulleted inside `<approach>` tags. |
| Sections.StrategyMentions | src/francisco/agent_models.py:102-110 | Every non-empty target and standard appears as a bullet line. |
| Sections.StrategyOrder | src/francisco/agent_models.py:97-113 | Approach, targets and standards appear in declaration order. |
| Sections.StrategyIgnoresPhases | src/francisco/agent_models.py:88 | Replacing `phases` never changes the text. |
| Sections.CoreObjectives.Render | src/francisco/agent_models.py:122-140 | The append-and-join rendering equals `Markup`. |
| Sections.CoreObjectivesShape | src/francisco/agent_models.py:124-140 | The text is empty if and only if both lists are empty. Otherwise it is framed by `core_objectives` tags, which are bare when nothing has content. |
| Sections.CoreObjectivesMentions | src/francisco/agent_models.py:129-137 | Every non-empty goal appears as a bullet line. |
| Sections.CoreObjectivesOrder | src/francisco/agent_models.py:127-140 | Primary goals come before secondary goals. |
| Sections.WorkingPrinciples.Render | src/francisco/agent_models.py:150-173 | The append-and-join rendering equals `Markup`. |
| Sections.WorkingPrinciplesShape | src/francisco/agent_models.py:152-173 | The text is empty if and only if all three lists are empty. Otherwise it is framed by `working_principles` tags, which are bare when nothing has content. |
| Sections.WorkingPrinciplesMentions | src/francisco/agent_models.py:157-170 | Every non-empty principle appears as a bullet line. |
| Sections.WorkingPrinciplesOrder | src/francisco/agent_models.py:155-173 | The sub-blocks appear in declaration order. |
| Sections.InteractionGuidelines.Render | src/francisco/agent_models.py:182-200 | The append-and-join rendering equals `Markup`. |
| Sections.InteractionGuidelinesShape | src/francisco/agent_models.py:184-200 | The text is empty if and only if both lists are empty. Otherwise it is framed by `interaction_guidelines` tags, which are bare when nothing has content. |
| Sections.InteractionGuidelinesMentions | src/francisco/agent_models.py:189-197 | Every non-empty guideline appears as a bullet line. |
| Sections.InteractionGuidelinesOrder | src/francisco/agent_models.py:187-200 | `when_invoked` comes before `communication`. |
| Sections.SuccessMetrics.Markup | src/francisco/agent_models.py:208-216 | The text is empty if and only if no metric is non-empty, including a list of only empty strings. Otherwise it is the single `success_metrics` block. |
| Sections.LimitationsAndBoundaries.Markup | src/francisco/agent_models.py:224-232 | The same, for `limitations_and_boundaries`. |
| Sections.SingleListMentions | src/francisco/agent_models.py:213-215 | Every non-empty metric and limitation appears as a bullet line. |
| Sections.SectionShape | src/francisco/agent_models.py:57-61 | For any wrapped section: empty exactly when no field is given, otherwise framed by its outer tag. |
| Sections.SectionOrder | src/francisco/agent_models.py:60-81 | For any wrapped section, sub-blocks follow field order. |
| Template.Format | src/francisco/agent_models.py:254-265 | Filling succeeds if and only if every slot has a value. On failure the error names the leftmost slot without one. |
| Template.FormatAppend | src/francisco/agent_models.py:254 | Filling a concatenation of templates concatenates the fillings. |
| Template.FormatSplit | src/francisco/agent_models.py:255-264 | Once filled, the output is the filling of the pieces before piece `i`, then that piece's literal text or slot value, then the filling of the pieces after it. |
| Template.FormatShows | src/francisco/agent_models.py:255-264 | Once filled, every literal and every slot's value appears in the output. |
| Template.FormatLocal | src/francisco/agent_models.py:254 | Only the values of the template's own slots affect the result. |
| Configuration.AgentConfig.TemplatePath | src/francisco/agent_models.py:280 | The template file is always `CONFIG_DIR / prompt_file`. Symbolically, it is the default prompt file exactly when `prompt_file` is the default name (paths are not normalised, see Left out). |
| Configuration.SlotMap | src/francisco/agent_models.py:255-264 | Exactly the ten slot names are supplied, each bound to its own value. |
| Configuration.StrSucceedsIff | src/francisco/agent_models.py:252-265 | `__str__` succeeds if and only if every slot of the template is one of the ten names. Otherwise it raises `KeyError` for the first unknown slot. |
| Configuration.StrFillsSlots | src/francisco/agent_models.py:255-264 | Each of the ten slots is filled in its own place with its own value: the output is the filling of the pieces before the slot, then the name, the description, or its section's rendering, then the filling of the pieces after it. |
| Configuration.StrKeepsLiterals | src/francisco/agent_models.py:254 | Template text outside slots is kept. |
| Configuration.Validate | src/francisco/agent_models.py:238-250 | A configuration is built if and only if `name` and `description` are present. Given fields are kept, and absent ones take their defaults: `francisco_prompt.txt`, `gpt-5-mini`, 10, and for each absent section the section with all lists empty (and an empty `approach` and `phases`). |
| Configuration.ValidateReportsMissing | src/francisco/agent_models.py:238-239 | The missing required fields are reported by name, in declaration order. |
| Configuration.ValidateDefaultsAreBlank | src/francisco/agent_models.py:243-250 | Each absent section renders as `""`, whichever other sections are given. |
| Agent.LoadConfig | src/francisco/agent.py:59-68 | An unusable file fails. A missing `agent` key is read as an empty mapping, and so reports both required fields. The `agent` mapping is validated otherwise. |
| Agent.ResolveApiKey | src/francisco/agent.py:34-36 | A credential is kept if and only if the explicit or the environment value is non-empty. A non-empty explicit value wins. The kept value is never empty. |
| Agent.EmptyExplicitKeyFallsThrough | src/francisco/agent.py:34 | An explicit empty string behaves as no explicit key. |
| Agent.SystemPrompt | src/francisco/agent.py:70-94 | When the configured template file does not exist, the error names that path. |
| Agent.SystemPromptIsStr | src/francisco/agent.py:80-94 | `_build_system_prompt` gives the same text, or the same `KeyError`, as `AgentConfig.__str__` on the same template. |
| Agent.Setup | src/francisco/agent.py:31-46 | Configuration errors come first, then the missing credential. When the configuration loads and a credential resolves, construction succeeds exactly when the system prompt is built, and otherwise fails with the prompt's error. On success the agent is bound to the configured name and model, and its instructions are the system prompt. |
| Agent.MissingKeyBeforeTemplate | src/francisco/agent.py:34-46 | A missing credential is reported whatever the template files are, so no agent is built. |
| Agent.FranciscoAgent.Create | src/francisco/agent.py:18-48 | Construction succeeds exactly when the configuration loads, a credential resolves and the system prompt is built; it fails exactly as `Setup` does. Otherwise the new object's fields are the settled configuration, credential and agent. |
| Agent.PreparedInput | src/francisco/agent.py:110-113 | The user's input unchanged without a truthy context. Otherwise it is prefixed by `Additional context: `, the context's repr and a blank line. |
| Agent.PreparedInputShowsContext | tests/test_agent.py:211-213 | With a context, the dispatched input contains the prefix followed by the repr, and the user's input. |
| Agent.Normalize | src/francisco/agent.py:122-129 | The reply is never empty. A non-empty output is returned as is, an empty or absent one gives the fixed apology, and an exception gives the fixed error prefix followed by its message. |
| Agent.FranciscoAgent.RequestFor | src/francisco/agent.py:116-120 | The runtime gets the bound agent, the prepared input and `max_turns = max_iterations`. |
| Agent.FranciscoAgent.Invoke | src/francisco/agent.py:96-129 | Dispatches the prepared request and returns the normalised outcome: a non-empty string for every completion and every `Exception` the runtime raises. |
| Agent.FranciscoAgent.InvokeSync | src/francisco/agent.py:131-164 | The same request and the same normalisation as `Invoke`. |
| Agent.FranciscoAgent.ToString | src/francisco/agent.py:167-169 | The name, then `": "`, then the description. |

## Left out

- Reading files is not modelled.
  - The configuration file, the YAML parser and the template file are given as already-parsed values (`Document`, `map<Path, Template>`).
  - The different messages for a missing template and an unreadable one (agent_models.py:282-288) are merged into `TemplateNotFound`.
  - Every failure to open or parse the configuration, including a document that is not a mapping, is one `Unusable` case.
- The default configuration path (agent.py:28-29) is not modelled: construction receives the parsed document. `DEFAULT_CONFIG_FILE` is kept as a constant.
- The write to `os.environ` (agent.py:39) and all logging calls are effects. They are not modelled.
- Pydantic's coercion and validation of field types and of nested section mappings is not modelled. Sections arrive as records, unknown keys are not representable (that is, ignored), and an `agent` value that is not a mapping is not distinguished.
- Error messages are not modelled. Messages carrying the field name and the file path are reduced to the error constructors and their arguments.
- `str.format` details are not modelled: brace escaping, format specifications, and positional or attribute fields. Templates are pre-parsed pieces.
- Python's dict `repr` is not computed. A context carries its `repr` text and its entry count.
- The agents runtime (`Agent`, `Runner.run`, `Runner.run_sync`) is a foreign network call. It is a function parameter, and the async/sync difference is not modelled.
- A final output is modelled as an optional string. Any other type of output is not modelled.
- `str(e)` is the outcome's message.
- `RuntimeConfig` (agent_models.py:12-19) is unused by the core. The CLI, the MCP server and the logger module are not part of this model.
- Agent.SystemPrompt: its own contract only states the missing-file case. Its success and `KeyError` results are stated through `SystemPromptIsStr` and the `Configuration.Str…` lemmas.
- Configuration.AgentConfig.TemplatePath: paths are symbolic and are not normalised. In `pathlib`, `CONFIG_DIR / "./francisco_prompt.txt"` or an absolute path to the default file also equals `DEFAULT_PROMPT_FILE`; the model's "only if" direction holds for the symbolic path only.
- Agent.FranciscoAgent.Invoke: `Raised` stands only for subclasses of `Exception`, which agent.py:127 and 162 catch. `BaseException`s such as `asyncio.CancelledError`, `KeyboardInterrupt` and `SystemExit` propagate out of `invoke`/`invoke_sync`; they are not modelled.
- Agent.FranciscoAgent.InvokeSync: as for `Invoke`, only `Exception` subclasses raised by `run_sync` are modelled as `Raised`.

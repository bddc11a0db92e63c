# ai-threat-model: the threat-detection engine in Dafny

This project models the threat-detection engine of `ai-threat-model`, a tool for
threat-modelling AI systems, and proves properties of the model. The engine takes a
`SystemModel` and returns a list of `Threat`s. A `SystemModel` is a set of typed
components joined by data flows.

The model covers:

- **Domain model** (`models.dfy`, module `Models`): the enums and their string values,
  the component-id validator, the component and flow lookups, the DREAD risk score,
  and the referential-integrity check `ThreatModel.validate`.
- **Shared matcher and threat builders** (`threat_detection.dfy`).
- **Four plugins**:
  - OWASP Top 10 for LLM Applications 2025 (`llm_plugin.dfy`);
  - OWASP Agentic Top 10 2026 (`agentic_plugin.dfy`);
  - multi-agent structural checks (`multi_agent_plugin.dfy`);
  - the PLOT4AI card deck (`plot4ai_models.dfy`, `plot4ai_converter.dfy`, `plot4ai_plugin.dfy`).
  The built-in pattern catalogs are merged with override patterns by id (`catalog.dfy`).
  The common result records are in `plugin_base.dfy`.
- **Registries**:
  - the plugin registry, keyed by system type (`registry.dfy`);
  - the versioned pattern registry (`pattern_registry.dfy`).
- **Pure conversions**:
  - the pattern builders (`pattern_builders.dfy`);
  - the conversion of a vision-analysis response into a `ThreatModel` (`converters.dfy`).
- **Formatting helpers**:
  - the Markdown report and the Mermaid diagram (`reporting.dfy`);
  - the pure helpers behind the terminal threat view (`display.dfy`).

`text.dfy` and `seqs.dfy` hold the string and sequence helpers the rest is written in.
This includes ASCII lower-casing, Python's `strip`, `split`, `join` and substring tests,
and filter, map and flat-map with their lemmas. `wrappers.dfy` holds `Option` and `Result`.

Each source module is one Dafny module. The source has two styles, and the model keeps both:

- **Pure code** (comprehensions, searches, straight-line record construction) becomes functions.
- **Code that builds lists by appending in loops** becomes methods with loops. These are:
  - `validate`;
  - each plugin's `detect_threats`;
  - the deck conversion;
  - the report builders;
  - `_format_affected_items`;
  - the shared-access dictionary of the multi-agent plugin.

  Each method is proved equal to a specification function. The properties the source
  promises are proved as lemmas about those functions.

Where the source keeps state in objects, the model uses Dafny classes whose methods carry
`modifies` clauses:

- the plugin registry's dictionary;
- the pattern registry's three dictionaries;
- each plugin's loaded catalog.

Threat and mitigation ids generated by `uuid4` are an opaque constructor `Uuid`. Timestamps
are a parameter `now`.

The model follows the code as written, also where it does less than its names, comments or tests suggest:

- **The matcher.** `pattern_matches_component` has only two layers:
  - some lower-cased detection phrase is a substring of `name.lower() + " " + type`;
  - the type is in the caller's trigger list.

  The tests import further layers from the same module (`_matches_capabilities`,
  `_matches_context`, `_matches_regex_pattern`; tests/test_plugins/test_threat_detection.py:17-19) and call the
  matcher with a system (tests/test_plugins/test_threat_detection.py:224), and the agentic plugin's comment
  speaks of matching "with system context" (agentic_plugin.py:431). None of these exist in the
  matcher's source. Capabilities, description and trust level are never read
  (`ThreatDetection.MatchIgnoresOtherFields`).
- **Agentic flows.** The agentic plugin flags every unencrypted flow as AGENTIC07,
  whatever the endpoint types. It does not restrict this to flows between two agents.
- **Agentic component types.** An agentic Tool component does not only force AGENTIC02.
  Its type is passed as a trigger type, so it matches every pattern. Agent components
  behave the same way.
- **Multi-agent fan-in.** The shared-resource check counts flows, not distinct agents.
  Two flows from the same agent into one shared component raise MULTI-AGENT-03
  (`MultiAgentPlugin.TwoAccessFlowsFlagged`).
- **Pattern-registry conflicts.** The conflict scan never reports a duplicate id, because
  storage is keyed by id (`PatternRegistry.Registry.ConflictsAreDeprecations`).

Another consequence of the code as written concerns whitespace around component ids.
The vision converter keys its id map by the raw id, but `Component` strips the id. So a
component id with surrounding whitespace keeps a flow that `validate` then reports as
dangling (`Converters.PaddedIdDanglingFlow`). Without such whitespace the converted model
validates cleanly (`Converters.TrimmedIdsValidate`).

## Model

| member | source | states |
|---|---|---|
| Models.ParseSystemType | src/ai_threat_model/core/models.py:16-27 | parsing a string gives the system type whose value it is, and every value parses back to its type |
| Models.ParseFramework | src/ai_threat_model/core/models.py:30-43 | parsing is the inverse of the framework's string value |
| Models.ParseComponentType | src/ai_threat_model/core/models.py:46-72 | parsing is the inverse of the component type's string value |
| Models.ParseClassification | src/ai_threat_model/core/models.py:84-90 | parsing is the inverse of the classification's string value |
| Models.MakeComponent | src/ai_threat_model/core/models.py:130-136 | an id that is empty or all whitespace is refused with "Component ID cannot be empty"; otherwise the id is stored stripped, non-empty and trimmed, other fields as given |
| Models.ComponentDefaults | src/ai_threat_model/core/models.py:126-128 | an accepted component defaults to trust UNTRUSTED, no capabilities and no description |
| Models.MakeComponentIdempotent | src/ai_threat_model/core/models.py:130-136 | validating an already accepted id again yields the same component |
| Models.DataFlowDefaults | src/ai_threat_model/core/models.py:145-149 | a flow defaults to classification INTERNAL and unencrypted |
| Models.SystemModel.GetComponent | src/ai_threat_model/core/models.py:165-167 | none iff no component has the id; otherwise the first component with that id |
| Models.SystemModel.FlowsFrom | src/ai_threat_model/core/models.py:169-171 | exactly the flows with that source, each with its multiplicity in the flow list |
| Models.SystemModel.FlowsTo | src/ai_threat_model/core/models.py:173-175 | exactly the flows with that target, each with its multiplicity in the flow list |
| Models.FlowsFromConcat | src/ai_threat_model/core/models.py:169-171 | the outgoing flows of a concatenated flow list are those of each part, in order |
| Models.RiskScore.Calculate | src/ai_threat_model/core/models.py:188-200 | 0 when no DREAD factor is set |
| Models.Present | src/ai_threat_model/core/models.py:197 | the set factors are exactly the values present among the five |
| Models.CalculateIsMean | src/ai_threat_model/core/models.py:197-200 | with a factor set, the score times the number of set factors is their sum |
| Models.CalculateIgnoresStored | src/ai_threat_model/core/models.py:186-200 | the stored `calculated` field has no influence on the score |
| Models.CalculateInRange | src/ai_threat_model/core/models.py:181-200 | with every factor in 0..10 the score is in 0..10 |
| Models.CalculateBetweenFactors | src/ai_threat_model/core/models.py:197-200 | the score lies between any lower and upper bound of the set factors |
| Models.Validate | src/ai_threat_model/core/models.py:294-312 | the loop over flows and threats returns the specified error list |
| Models.AppendThreatErrors | src/ai_threat_model/core/models.py:307-310 | the loop over threats appends each threat's errors in order |
| Models.AppendAffectedErrors | src/ai_threat_model/core/models.py:308-310 | the loop over one threat's affected components appends one error per unknown id |
| Models.FlowErrorsEmptyIff | src/ai_threat_model/core/models.py:299-304 | no flow error iff every flow's source and target are component ids |
| Models.AffectedErrorsEmptyIff | src/ai_threat_model/core/models.py:308-310 | no error for a threat iff every affected component is a component id |
| Models.ThreatErrorsEmptyIff | src/ai_threat_model/core/models.py:306-310 | no threat error iff every threat's affected components resolve |
| Models.ValidateEmptyIff | src/ai_threat_model/core/models.py:294-312 | validate returns [] iff every flow endpoint and every affected component is a component id |
| Models.FlowErrorsNameOffender | src/ai_threat_model/core/models.py:300-304 | each flow error is the unknown-component message for a dangling id |
| Models.AffectedErrorsNameOffender | src/ai_threat_model/core/models.py:308-310 | each affected-component error is the message for a dangling id of that threat |
| Models.ThreatErrorsNameOffender | src/ai_threat_model/core/models.py:307-310 | each threat error names a threat of the model and a dangling id |
| Models.ValidationErrorNamesOffender | src/ai_threat_model/core/models.py:294-312 | every error string contains an offending id that is not a component id |
| Models.ThreatErrorsIgnoreAffectedFlows | src/ai_threat_model/core/models.py:306-310 | changing a threat's affected data flows does not change the threat errors |
| Models.AffectedErrorsRender | src/ai_threat_model/core/models.py:310 | the error text depends on the threat only through its id |
| Models.ValidateIgnoresAffectedFlows | src/ai_threat_model/core/models.py:294-312 | affected_data_flows are never checked: changing them leaves validate's result unchanged |
| ThreatDetection.KeyMatchesIffContains | src/ai_threat_model/plugins/ai/threat_detection.py:16-17 | the equal-or-substring test on "from->to" is plain substring containment |
| ThreatDetection.FindDataFlowById | src/ai_threat_model/plugins/ai/threat_detection.py:13-19 | none iff no rendered "from->to" contains the id; otherwise the first flow whose rendering contains it |
| ThreatDetection.EmptyIdFindsFirstFlow | src/ai_threat_model/plugins/ai/threat_detection.py:13-19 | the empty id finds the first flow |
| ThreatDetection.SubstringFindsEarlierFlow | src/ai_threat_model/plugins/ai/threat_detection.py:13-19 | "a->b" finds an earlier flow "xa->b" before the exact one |
| ThreatDetection.EndpointName | src/ai_threat_model/plugins/ai/threat_detection.py:43-46 | the component's name when the id resolves, else the raw id |
| ThreatDetection.CheckInsecureDataFlow | src/ai_threat_model/plugins/ai/threat_detection.py:42-56 | a threat iff the flow is unencrypted and confidential or restricted; it has severity HIGH, the given category, framework and title, affected flows ["from->to"], no components, and a description naming both endpoints |
| ThreatDetection.InsecureFlowDescriptionMentions | src/ai_threat_model/plugins/ai/threat_detection.py:52 | the description names the classification and both endpoint names |
| ThreatDetection.AnyPhraseIn | src/ai_threat_model/plugins/ai/threat_detection.py:76-78 | true iff some lower-cased phrase is a substring of the text |
| ThreatDetection.PatternMatchesComponent | src/ai_threat_model/plugins/ai/threat_detection.py:59-84 | true iff some lower-cased detection phrase is in name.lower()+" "+type, or the type is a trigger type |
| ThreatDetection.EmptyPhraseMatchesAll | src/ai_threat_model/plugins/ai/threat_detection.py:76-78 | an empty detection phrase matches every component |
| ThreatDetection.PhraseInNameMatches | src/ai_threat_model/plugins/ai/threat_detection.py:73-78 | a phrase contained in the lower-cased name matches |
| ThreatDetection.MatchIgnoresOtherFields | src/ai_threat_model/plugins/ai/threat_detection.py:73-82 | capabilities, trust level and description never influence the match |
| ThreatDetection.ToMitigation | src/ai_threat_model/plugins/ai/threat_detection.py:105-114 | id and description default to "", implementation and priority are copied, status is PROPOSED |
| ThreatDetection.CreateThreatFromPattern | src/ai_threat_model/plugins/ai/threat_detection.py:87-128 | copies category, framework, title, description, attack vectors and detection phrases; affected components [component.id]; severity from the map or MEDIUM; one PROPOSED mitigation per pattern mitigation, in order |
| PluginBase.ValidationResultDefaults | src/ai_threat_model/plugins/base_plugin.py:37-42 | errors and warnings default to empty |
| PluginBase.Summarize | src/ai_threat_model/plugins/base_plugin.py:115-134 | the analysis holds the given threats, their count and the numbers of components and flows; each plugin's `AnalyzeSystem` passes it that plugin's detected threats |
| Catalog.IndexOfId | src/ai_threat_model/plugins/ai/llm_plugin.py:50-62 | the position of an id in the catalog, none iff the id is absent |
| Catalog.LastWithId | src/ai_threat_model/plugins/ai/llm_plugin.py:56-62 | the last override with an id, none iff no override has it |
| Catalog.PutFacts | src/ai_threat_model/plugins/ai/llm_plugin.py:62 | one dictionary assignment keeps ids distinct, adds the id and replaces the entry with that id |
| Catalog.PutAllFacts | src/ai_threat_model/plugins/ai/llm_plugin.py:55-62 | after all assignments ids stay distinct and each id holds its last assigned pattern or its old entry |
| Catalog.PutAllConcat | src/ai_threat_model/plugins/ai/llm_plugin.py:55-62 | assigning a concatenation is assigning each part in turn |
| Catalog.LastWithIdConcat | src/ai_threat_model/plugins/ai/llm_plugin.py:55-62 | the last pattern with an id in a concatenation comes from the later part when it has one |
| Catalog.MergeFacts | src/ai_threat_model/plugins/ai/llm_plugin.py:46-68 | the merged catalog has distinct ids and all ids of both lists; each entry is the last override with its id, or the built-in when no override has it |
| Catalog.MergeSize | src/ai_threat_model/plugins/ai/llm_plugin.py:46-68 | the catalog size is the number of distinct ids |
| Catalog.PutAllDistinct | src/ai_threat_model/plugins/ai/llm_plugin.py:50 | building the dictionary from distinct patterns gives them back in order |
| Catalog.MergeWithoutOverrides | src/ai_threat_model/plugins/ai/llm_plugin.py:46-68 | without overrides the catalog is the built-in list |
| Catalog.MergeById | src/ai_threat_model/plugins/ai/llm_plugin.py:46-68 | the loading loop computes the merge |
| Catalog.DistinctIdsFromIds | src/ai_threat_model/plugins/ai/llm_plugin.py:50-62 | a catalog whose id list has no duplicates has distinct ids |
| Catalog.PatternsFor | src/ai_threat_model/plugins/ai/llm_plugin.py:443-448 | no framework gives the whole catalog; a framework gives exactly its patterns, each as often as in the catalog and none of another framework |
| Catalog.PatternsForConcat | src/ai_threat_model/plugins/ai/llm_plugin.py:443-448 | the filter keeps catalog order: filtering a concatenation is the concatenation of the filtered parts |
| Catalog.PatternsForSingle | src/ai_threat_model/plugins/ai/llm_plugin.py:448 | a single pattern is kept iff its framework is the one asked for |
| Catalog.PatternsForUniformFramework | src/ai_threat_model/plugins/ai/llm_plugin.py:443-448 | filtering a one-framework catalog by that framework keeps it whole, order preserved |
| LlmPlugin.Builtin.Pattern | src/ai_threat_model/plugins/ai/llm_plugin.py:70-321 | each built-in pattern has its LLMxx id as id and category, and the LLM framework |
| LlmPlugin.BuiltinPatternsFacts | src/ai_threat_model/plugins/ai/llm_plugin.py:70-321 | the ids and categories of built-in patterns are those of their entries, all in the LLM framework |
| LlmPlugin.BuiltinIds | src/ai_threat_model/plugins/ai/llm_plugin.py:74-298 | the built-ins are LLM01..LLM10, distinct, with category equal to id |
| LlmPlugin.DefaultPatternsFacts | src/ai_threat_model/plugins/ai/llm_plugin.py:70-321 | the default catalog's ids are LLM01..LLM10, distinct, all in the LLM framework |
| LlmPlugin.Matches | src/ai_threat_model/plugins/ai/llm_plugin.py:379-392 | an LLM component matches every pattern; any other component matches only by the substring rule |
| LlmPlugin.BuiltinSeverities | src/ai_threat_model/plugins/ai/llm_plugin.py:397-408 | the severity table is LLM01 and LLM06 critical, LLM03, LLM05 and LLM09 medium, the rest high |
| LlmPlugin.UnknownIdIsMedium | src/ai_threat_model/plugins/ai/threat_detection.py:121 | an id outside the table gets MEDIUM |
| LlmPlugin.ThreatFor | src/ai_threat_model/plugins/ai/llm_plugin.py:394-410 | the threat carries the pattern's category, the component id and the table severity |
| LlmPlugin.ComponentThreatsMembership | src/ai_threat_model/plugins/ai/llm_plugin.py:350-360 | a component's threats are exactly those of the matching patterns |
| LlmPlugin.ComponentsThreatsMembership | src/ai_threat_model/plugins/ai/llm_plugin.py:338-341 | the component threats are exactly those of matching component/pattern pairs |
| LlmPlugin.FlowsThreatsMembership | src/ai_threat_model/plugins/ai/llm_plugin.py:343-346 | the flow threats are exactly the insecure-flow threats of the flows |
| LlmPlugin.DetectMembership | src/ai_threat_model/plugins/ai/llm_plugin.py:323-348 | detection yields exactly the matching pairs' threats over the framework's patterns and the insecure-flow threats |
| LlmPlugin.LlmComponentMatchesAll | src/ai_threat_model/plugins/ai/llm_plugin.py:382-392 | an LLM component yields one threat per pattern, in catalog order |
| LlmPlugin.LlmComponentCategories | src/ai_threat_model/plugins/ai/llm_plugin.py:382-392 | the categories of an LLM component's threats are the catalog's, in order |
| LlmPlugin.BuiltinCatalogLlmComponent | src/ai_threat_model/plugins/ai/llm_plugin.py:336-360 | with the built-in catalog an LLM component yields LLM01..LLM10 in order |
| LlmPlugin.FlowThreatsFacts | src/ai_threat_model/plugins/ai/llm_plugin.py:362-377 | one LLM06 threat of severity HIGH naming "from->to" iff the flow is unencrypted and confidential or restricted, else none |
| LlmPlugin.ComponentsThreatsHaveComponents | src/ai_threat_model/plugins/ai/llm_plugin.py:338-341 | component threats have affected components |
| LlmPlugin.FlowsThreatsHaveNoComponents | src/ai_threat_model/plugins/ai/llm_plugin.py:343-346 | flow threats have no affected components |
| LlmPlugin.DetectOrder | src/ai_threat_model/plugins/ai/llm_plugin.py:338-348 | all component threats come before all flow threats |
| LlmPlugin.AnalyzeComponent | src/ai_threat_model/plugins/ai/llm_plugin.py:350-360 | the loop over patterns computes the component's threats |
| LlmPlugin.TypicalTypes | src/ai_threat_model/plugins/ai/llm_plugin.py:412-422 | the typical types are the seven listed |
| LlmPlugin.ValidateComponent | src/ai_threat_model/plugins/ai/llm_plugin.py:424-441 | valid iff the name is non-empty (the only error); a type warning iff the type is not one of the seven; a capability warning iff an LLM has no capabilities |
| LlmPlugin.AppendComponentsThreats | src/ai_threat_model/plugins/ai/llm_plugin.py:339-341 | the component loop appends the component threats |
| LlmPlugin.AppendFlowsThreats | src/ai_threat_model/plugins/ai/llm_plugin.py:344-346 | the flow loop appends the flow threats |
| LlmPlugin.Plugin.GetThreatPatterns | src/ai_threat_model/plugins/ai/llm_plugin.py:443-448 | the catalog filtered by `Catalog.PatternsFor`: no framework gives the catalog; a framework gives exactly its patterns, in catalog order and each as often as in the catalog |
| LlmPlugin.Plugin.constructor | src/ai_threat_model/plugins/ai/llm_plugin.py:46-68 | the loaded catalog is the built-ins merged with the overrides by id |
| LlmPlugin.Plugin.DetectThreats | src/ai_threat_model/plugins/ai/llm_plugin.py:323-348 | detection computes the specified threat list |
| LlmPlugin.Plugin.AnalyzeSystem | src/ai_threat_model/plugins/base_plugin.py:115-134 | the analysis holds exactly the threats this plugin's detection specifies, their number, and the numbers of components and flows |
| AgenticPlugin.Builtin.Pattern | src/ai_threat_model/plugins/ai/agentic_plugin.py:71-327 | each built-in has its AGENTICxx id as id and category, and the agentic framework |
| AgenticPlugin.BuiltinPatternsFacts | src/ai_threat_model/plugins/ai/agentic_plugin.py:71-327 | the ids of built-in patterns are those of their entries, all in the agentic framework |
| AgenticPlugin.BuiltinIds | src/ai_threat_model/plugins/ai/agentic_plugin.py:75-305 | the built-ins are AGENTIC01..AGENTIC10, distinct |
| AgenticPlugin.DefaultPatternsFacts | src/ai_threat_model/plugins/ai/agentic_plugin.py:46-69 | the default catalog's ids are AGENTIC01..AGENTIC10, distinct, all in the agentic framework |
| AgenticPlugin.MatchesAsWritten | src/ai_threat_model/plugins/ai/agentic_plugin.py:418-432 | only a table hit returns true; every other case reaches the four-argument call and raises |
| AgenticPlugin.Matches | src/ai_threat_model/plugins/ai/agentic_plugin.py:418-432 | with the call corrected: an Agent or Tool component matches every pattern, any other only by the substring rule; agrees with the code wherever the code returns |
| AgenticPlugin.BuiltinSeverities | src/ai_threat_model/plugins/ai/agentic_plugin.py:437-448 | AGENTIC01 critical; AGENTIC06, 08 and 10 medium; the rest high |
| AgenticPlugin.ThreatFor | src/ai_threat_model/plugins/ai/agentic_plugin.py:434-450 | the threat carries the pattern's category, the component id, no flows and the table severity |
| AgenticPlugin.ComponentThreatsAsWrittenFacts | src/ai_threat_model/plugins/ai/agentic_plugin.py:361-371 | the component analysis raises iff some pattern reaches the four-argument call, and otherwise equals the corrected one |
| AgenticPlugin.ComponentsThreatsAsWrittenFacts | src/ai_threat_model/plugins/ai/agentic_plugin.py:346-348 | over all components: raises iff some pair reaches the call, else equals the corrected result |
| AgenticPlugin.DetectAsWrittenAgrees | src/ai_threat_model/plugins/ai/agentic_plugin.py:330-359 | detection as written either raises or equals the corrected detection |
| AgenticPlugin.BuiltinIdRaises | src/ai_threat_model/plugins/ai/agentic_plugin.py:421-432 | with the ten built-in ids, every component has a pattern that reaches the four-argument call |
| AgenticPlugin.BuiltinCatalogAsWrittenRaises | src/ai_threat_model/plugins/ai/agentic_plugin.py:330-359 | with the built-in catalog, any system with a component raises |
| AgenticPlugin.FlowThreat | src/ai_threat_model/plugins/ai/agentic_plugin.py:373-394 | a threat iff the flow is unencrypted: AGENTIC07 "Insecure Communication", HIGH, naming "from->to", no components |
| AgenticPlugin.IsolationThreats | src/ai_threat_model/plugins/ai/agentic_plugin.py:396-416 | one MEDIUM AGENTIC06 threat listing the agent ids in order iff there are two or more agents |
| AgenticPlugin.IsolationThreatListsAgents | src/ai_threat_model/plugins/ai/agentic_plugin.py:401-412 | the isolation threat names exactly the ids of Agent components |
| AgenticPlugin.AgentOrToolMatchesAll | src/ai_threat_model/plugins/ai/agentic_plugin.py:421-432 | an Agent or Tool component yields one threat per pattern, in order |
| AgenticPlugin.ComponentThreatsMembership | src/ai_threat_model/plugins/ai/agentic_plugin.py:361-371 | a component's threats are exactly those of matching patterns |
| AgenticPlugin.ComponentsThreatsNameNoFlow | src/ai_threat_model/plugins/ai/agentic_plugin.py:346-348 | component threats name no flows |
| AgenticPlugin.FlowsThreatsFacts | src/ai_threat_model/plugins/ai/agentic_plugin.py:350-353 | one HIGH AGENTIC07 threat per unencrypted flow, each naming one flow |
| AgenticPlugin.BlocksLayout | src/ai_threat_model/plugins/ai/agentic_plugin.py:340-359 | the three blocks keep their kinds in the concatenation |
| AgenticPlugin.DetectLayout | src/ai_threat_model/plugins/ai/agentic_plugin.py:330-359 | the output is the component threats, then one threat per unencrypted flow, then the isolation threat when there are two or more agents |
| AgenticPlugin.AnalyzeComponent | src/ai_threat_model/plugins/ai/agentic_plugin.py:361-371 | the loop over patterns computes the component's threats |
| AgenticPlugin.TypicalTypes | src/ai_threat_model/plugins/ai/agentic_plugin.py:452-463 | the typical types are the eight listed |
| AgenticPlugin.ValidateComponent | src/ai_threat_model/plugins/ai/agentic_plugin.py:465-482 | valid iff the name is non-empty; a type warning iff the type is not one of the eight; a capability warning iff an Agent has no capabilities |
| AgenticPlugin.AppendComponentsThreats | src/ai_threat_model/plugins/ai/agentic_plugin.py:346-348 | the component loop appends the component threats |
| AgenticPlugin.AppendFlowsThreats | src/ai_threat_model/plugins/ai/agentic_plugin.py:351-353 | the flow loop appends the flow threats |
| AgenticPlugin.Plugin.GetThreatPatterns | src/ai_threat_model/plugins/ai/agentic_plugin.py:484-489 | the catalog filtered by `Catalog.PatternsFor`: no framework gives the catalog; a framework gives exactly its patterns, in catalog order and each as often as in the catalog |
| AgenticPlugin.Plugin.constructor | src/ai_threat_model/plugins/ai/agentic_plugin.py:46-69 | the loaded catalog is the built-ins merged with the overrides by id |
| AgenticPlugin.Plugin.DetectThreats | src/ai_threat_model/plugins/ai/agentic_plugin.py:330-359 | detection (with the corrected matcher call) computes the specified list |
| AgenticPlugin.Plugin.AnalyzeSystem | src/ai_threat_model/plugins/base_plugin.py:115-134 | the analysis holds exactly the threats this plugin's detection specifies (with the corrected matcher call), their number, and the numbers of components and flows |
| MultiAgentPlugin.Builtin.Pattern | src/ai_threat_model/plugins/ai/multi_agent_plugin.py:72-240 | each built-in has its MULTI-AGENT-0x id as id and category, and the CUSTOM framework |
| MultiAgentPlugin.BuiltinPatternsFacts | src/ai_threat_model/plugins/ai/multi_agent_plugin.py:72-240 | the ids of built-in patterns are those of their entries, all CUSTOM |
| MultiAgentPlugin.BuiltinIds | src/ai_threat_model/plugins/ai/multi_agent_plugin.py:76-208 | the built-ins are MULTI-AGENT-01..05, distinct |
| MultiAgentPlugin.DefaultPatternsFacts | src/ai_threat_model/plugins/ai/multi_agent_plugin.py:45-70 | the default catalog's ids are MULTI-AGENT-01..05, distinct, all CUSTOM |
| MultiAgentPlugin.ListedIds | src/ai_threat_model/plugins/ai/multi_agent_plugin.py:297 | an id is listed iff some listed component has it |
| MultiAgentPlugin.IsolationThreatsFacts | src/ai_threat_model/plugins/ai/multi_agent_plugin.py:289-299 | with two or more agents, exactly one MEDIUM MULTI-AGENT-04 threat naming exactly the agent ids |
| MultiAgentPlugin.OrchestrationThreatsFacts | src/ai_threat_model/plugins/ai/multi_agent_plugin.py:301-314 | one HIGH MULTI-AGENT-02 threat iff some component's lower-cased name contains "orchestrat" or "coordinator", naming exactly those components |
| MultiAgentPlugin.AgentFlowsThreatsMembership | src/ai_threat_model/plugins/ai/multi_agent_plugin.py:268-336 | each agent-flow threat is a HIGH MULTI-AGENT-01 threat for an unencrypted flow between two Agent components, and every such flow has one |
| MultiAgentPlugin.AccessFacts | src/ai_threat_model/plugins/ai/multi_agent_plugin.py:353-363 | the shared-access keys are distinct, are exactly the shared targets reached by an agent flow, and hold only agent ids |
| MultiAgentPlugin.SharedThreatsMembership | src/ai_threat_model/plugins/ai/multi_agent_plugin.py:365-376 | a shared-state threat exists exactly for a key with more than one access; it is MEDIUM MULTI-AGENT-03 naming the target then the accessing agents |
| MultiAgentPlugin.SharedThreatShape | src/ai_threat_model/plugins/ai/multi_agent_plugin.py:374 | affected components are the shared target followed by at least two agent ids |
| MultiAgentPlugin.SharedThreatsDistinct | src/ai_threat_model/plugins/ai/multi_agent_plugin.py:366-376 | no two shared-state threats name the same target |
| MultiAgentPlugin.TwoAccessesTwoAccessors | src/ai_threat_model/plugins/ai/multi_agent_plugin.py:358-363 | two agent flows into one target give at least two accessors |
| MultiAgentPlugin.TwoAccessFlowsFlagged | src/ai_threat_model/plugins/ai/multi_agent_plugin.py:358-376 | two agent flows into one shared target raise the threat, even from the same agent |
| MultiAgentPlugin.Detect | src/ai_threat_model/plugins/ai/multi_agent_plugin.py:257-262 | fewer than two agents give no threats |
| MultiAgentPlugin.DetectMembership | src/ai_threat_model/plugins/ai/multi_agent_plugin.py:242-281 | with two or more agents the result is exactly the interaction, agent-flow and shared-state threats, all MULTI-AGENT-01..04 |
| MultiAgentPlugin.CollectSharedAccess | src/ai_threat_model/plugins/ai/multi_agent_plugin.py:353-363 | the dictionary-building loop yields, per target in insertion order, the accessing agents in flow order |
| MultiAgentPlugin.ReportShared | src/ai_threat_model/plugins/ai/multi_agent_plugin.py:366-376 | the loop over the dictionary reports each key with more than one access, in order |
| MultiAgentPlugin.AnalyzeSharedResources | src/ai_threat_model/plugins/ai/multi_agent_plugin.py:338-378 | the method computes the specified shared-state threats |
| MultiAgentPlugin.NoSharedAccess | src/ai_threat_model/plugins/ai/multi_agent_plugin.py:353 | without shared components no access is recorded |
| MultiAgentPlugin.TypicalTypes | src/ai_threat_model/plugins/ai/multi_agent_plugin.py:380-391 | the typical types are the eight listed |
| MultiAgentPlugin.ValidateComponent | src/ai_threat_model/plugins/ai/multi_agent_plugin.py:393-408 | valid iff the name is non-empty; a type warning iff atypical; a capability warning iff an Agent has no capabilities |
| MultiAgentPlugin.Plugin.GetThreatPatterns | src/ai_threat_model/plugins/ai/multi_agent_plugin.py:410-417 | the catalog filtered by `Catalog.PatternsFor`: no framework gives the catalog; a framework gives exactly its patterns, in catalog order and each as often as in the catalog |
| MultiAgentPlugin.Plugin.constructor | src/ai_threat_model/plugins/ai/multi_agent_plugin.py:45-71 | the loaded catalog is the built-ins merged with the overrides by id |
| MultiAgentPlugin.Plugin.DetectThreats | src/ai_threat_model/plugins/ai/multi_agent_plugin.py:242-281 | detection computes the specified list |
| MultiAgentPlugin.Plugin.AnalyzeSystem | src/ai_threat_model/plugins/base_plugin.py:115-134 | the analysis holds exactly the threats this plugin's detection specifies; with fewer than two agents the count is 0, their number, and the numbers of components and flows |
| MultiAgentPlugin.Plugin.AppendAgentFlowThreats | src/ai_threat_model/plugins/ai/multi_agent_plugin.py:269-275 | the flow loop appends the agent-flow threats |
| Plot4aiModels.CardDefaults | src/ai_threat_model/core/plot4ai_models.py:52-57 | categories, phases, aitypes and roles default to empty, sources and qr to "" |
| Plot4aiModels.Deck.GetAllCards | src/ai_threat_model/core/plot4ai_models.py:74-79 | the loop concatenates every group's cards in group order |
| Plot4aiModels.AllCardsMembership | src/ai_threat_model/core/plot4ai_models.py:74-79 | a card is in the deck iff some group holds it |
| Plot4aiModels.AllCardsLength | src/ai_threat_model/core/plot4ai_models.py:74-79 | the deck has as many cards as its groups together |
| Plot4aiModels.Deck.CardsByCategory | src/ai_threat_model/core/plot4ai_models.py:81-86 | the cards of the first group with that category name, else [] |
| Plot4aiModels.Deck.CardsByPhase | src/ai_threat_model/core/plot4ai_models.py:88-91 | exactly the cards whose phases contain the phase |
| Plot4aiModels.Deck.CardsByAitype | src/ai_threat_model/core/plot4ai_models.py:93-96 | exactly the cards whose AI types contain the type |
| Plot4aiModels.CardsByPhaseMultiplicity | src/ai_threat_model/core/plot4ai_models.py:88-91 | each card keeps its multiplicity when it has the phase, else none |
| Plot4aiModels.CardsByAitypeMultiplicity | src/ai_threat_model/core/plot4ai_models.py:93-96 | each card keeps its multiplicity when it has the AI type, else none |
| Plot4aiConverter.CardKeyInjective | src/ai_threat_model/utils/plot4ai_converter.py:33-34 | "{category_id}-{card_index}" determines both numbers |
| Plot4aiConverter.Recommendations | src/ai_threat_model/utils/plot4ai_converter.py:38-47 | every recommendation gives at least one entry, each stripped |
| Plot4aiConverter.BulletHasAsterisk | src/ai_threat_model/utils/plot4ai_converter.py:43 | a bullet line contains "*" |
| Plot4aiConverter.NoAsteriskNoBullets | src/ai_threat_model/utils/plot4ai_converter.py:45-47 | without "*" the whole stripped recommendation is the single entry |
| Plot4aiConverter.BulletsMembership | src/ai_threat_model/utils/plot4ai_converter.py:40-44 | the bullets are exactly the starred lines with leading asterisks and spaces removed |
| Plot4aiConverter.MitigationIdInjective | src/ai_threat_model/utils/plot4ai_converter.py:53 | "{pattern_id}-mit-{k}" determines k |
| Plot4aiConverter.MitigationsCount | src/ai_threat_model/utils/plot4ai_converter.py:49-57 | one mitigation per non-empty entry |
| Plot4aiConverter.MitigationsMembership | src/ai_threat_model/utils/plot4ai_converter.py:49-57 | a mitigation is the medium-priority entry k with id "{pattern_id}-mit-{k}" of a non-empty entry; empty entries still use up their index |
| Plot4aiConverter.MitigationNumbersBelow | src/ai_threat_model/utils/plot4ai_converter.py:49-57 | each mitigation id uses an index of the entry list |
| Plot4aiConverter.MitigationsDistinct | src/ai_threat_model/utils/plot4ai_converter.py:49-57 | the mitigation ids are distinct |
| Plot4aiConverter.BuildMitigations | src/ai_threat_model/utils/plot4ai_converter.py:49-57 | the loop builds the specified mitigations |
| Plot4aiConverter.DetectionPhrases | src/ai_threat_model/utils/plot4ai_converter.py:59-64 | the explanation if non-empty, then the elicitation phrase if the question is non-empty, never an empty phrase |
| Plot4aiConverter.AttackVectorsLayout | src/ai_threat_model/utils/plot4ai_converter.py:66-71 | "Category: c" per category, then "Lifecycle phase: p" per phase, in order |
| Plot4aiConverter.CardToPatternFacts | src/ai_threat_model/utils/plot4ai_converter.py:19-101 | id "PLOT4AI-{category_id}-{card_index}", category and title the label, framework PLOT4AI, description the explanation, no mitigations for an empty recommendation |
| Plot4aiConverter.ToReferenceFacts | src/ai_threat_model/utils/plot4ai_converter.py:79-90 | a source with "http" gives a non-empty title and a URL starting "http"; otherwise title the source and no URL |
| Plot4aiConverter.GroupPatterns | src/ai_threat_model/utils/plot4ai_converter.py:116-120 | card i of a group becomes the pattern with index i, in order |
| Plot4aiConverter.ConvertDeckLength | src/ai_threat_model/utils/plot4ai_converter.py:104-121 | one pattern per card |
| Plot4aiConverter.ConvertDeckMembership | src/ai_threat_model/utils/plot4ai_converter.py:104-121 | the patterns are exactly the converted cards, the index restarting in each group |
| Plot4aiConverter.ConvertDeckDistinctIds | src/ai_threat_model/utils/plot4ai_converter.py:104-121 | with distinct group ids, two patterns with one id come from the same card |
| Plot4aiConverter.ConvertDeckLoop | src/ai_threat_model/utils/plot4ai_converter.py:114-121 | the nested loop computes the deck conversion |
| Plot4aiConverter.AppendGroupPatterns | src/ai_threat_model/utils/plot4ai_converter.py:116-120 | the inner loop appends the group's patterns |
| Plot4aiPlugin.FilterCards | src/ai_threat_model/plugins/ai/plot4ai_plugin.py:96-106 | a card survives iff each given filter value is in the card's list |
| Plot4aiPlugin.KeptCards | src/ai_threat_model/plugins/ai/plot4ai_plugin.py:109-112 | a deck card is walked iff it passes the filters |
| Plot4aiPlugin.CardToThreatAgreesWithPattern | src/ai_threat_model/plugins/ai/plot4ai_plugin.py:131-194 | the threat has the pattern's id, category, title, framework and description, no severity, the category vectors, and card id "{cat}-{idx}" |
| Plot4aiPlugin.CardToThreatMitigations | src/ai_threat_model/plugins/ai/plot4ai_plugin.py:137-159 | the threat's mitigations are the pattern's, PROPOSED |
| Plot4aiPlugin.DetectMembership | src/ai_threat_model/plugins/ai/plot4ai_plugin.py:108-129 | the threats are exactly the converted cards that pass the filters and the answer rule |
| Plot4aiPlugin.MaybeAnswersKeepAll | src/ai_threat_model/plugins/ai/plot4ai_plugin.py:116-123 | answers that are all "maybe" change nothing |
| Plot4aiPlugin.ContradictingAnswerDrops | src/ai_threat_model/plugins/ai/plot4ai_plugin.py:116-123 | an answer of the opposite polarity to threatif drops the card |
| Plot4aiPlugin.QuestionsMembership | src/ai_threat_model/plugins/ai/plot4ai_plugin.py:236-285 | the questions are exactly those of filter-surviving cards |
| Plot4aiPlugin.QuestionsMatchThreats | src/ai_threat_model/plugins/ai/plot4ai_plugin.py:109-283 | without answers, question j and threat j carry the same card id |
| Plot4aiPlugin.ValidateComponent | src/ai_threat_model/plugins/ai/plot4ai_plugin.py:207-218 | errors for an empty id and for an empty name, in that order, never warnings |
| Plot4aiPlugin.Plugin.GetThreatPatterns | src/ai_threat_model/plugins/ai/plot4ai_plugin.py:220-234 | [] for a framework other than PLOT4AI, otherwise the converted deck |
| Plot4aiPlugin.Plugin.constructor | src/ai_threat_model/plugins/ai/plot4ai_plugin.py:38-41 | the plugin holds the given deck |
| Plot4aiPlugin.Plugin.FilteredCards | src/ai_threat_model/plugins/ai/plot4ai_plugin.py:96-106 | the filtering computes the specified cards |
| Plot4aiPlugin.Plugin.DetectThreats | src/ai_threat_model/plugins/ai/plot4ai_plugin.py:72-129 | the nested loop computes the specified threats |
| Plot4aiPlugin.Plugin.AnalyzeSystem | src/ai_threat_model/plugins/base_plugin.py:115-134 | the analysis holds exactly the threats this plugin's detection specifies with no filters, their number, and the numbers of components and flows |
| Plot4aiPlugin.Plugin.GroupThreats | src/ai_threat_model/plugins/ai/plot4ai_plugin.py:110-127 | the inner loop emits the group's threats |
| Plot4aiPlugin.Plugin.GetElicitationQuestions | src/ai_threat_model/plugins/ai/plot4ai_plugin.py:236-285 | the nested loop computes the specified questions |
| Plot4aiPlugin.Plugin.GroupQuestions | src/ai_threat_model/plugins/ai/plot4ai_plugin.py:268-283 | the inner loop emits the group's questions |
| Registry.RegisterAllKeys | src/ai_threat_model/plugins/registry.py:20-27 | after registering a sequence, the keys are the old ones plus every plugin's system type |
| Registry.LastRegisteredWins | src/ai_threat_model/plugins/registry.py:20-27 | a plugin not followed by one of the same type is the one stored |
| Registry.OthersUnchanged | src/ai_threat_model/plugins/registry.py:20-27 | types nobody registers keep their entry or absence |
| Registry.LoadedPlugins | src/ai_threat_model/plugins/registry.py:71-100 | after loading, LLM_APP maps to the PLOT4AI plugin, with the agentic and multi-agent plugins under their types |
| Registry.PluginRegistry.Register | src/ai_threat_model/plugins/registry.py:19-27 | stores the plugin under its system type, replacing any earlier one |
| Registry.PluginRegistry.constructor | src/ai_threat_model/plugins/registry.py:17 | the registry starts empty |
| Registry.PluginRegistry.GetPlugin | src/ai_threat_model/plugins/registry.py:29-40 | the registered plugin, or none, never an error |
| Registry.PluginRegistry.ListPlugins | src/ai_threat_model/plugins/registry.py:42-50 | a copy equal to the map |
| Registry.PluginRegistry.Clear | src/ai_threat_model/plugins/registry.py:52-55 | no system type remains registered |
| Registry.PluginRegistry.IsRegistered | src/ai_threat_model/plugins/registry.py:57-68 | true iff the type is a key |
| Registry.PluginRegistry.LoadPlugins | src/ai_threat_model/plugins/registry.py:71-100 | registers the four plugins in load order |
| PatternRegistry.DefaultMetadata | src/ai_threat_model/plugins/pattern_registry.py:86-90 | version "1.0.0", created now, no dependencies, not deprecated |
| PatternRegistry.PatternError | src/ai_threat_model/plugins/pattern_registry.py:197-221 | none iff id, title, description, detection patterns and attack vectors are all non-empty; each message (id, title, description, detection patterns, attack vectors) is reported exactly when that field is the first missing one |
| PatternRegistry.Seen | src/ai_threat_model/plugins/pattern_registry.py:167-181 | the seen map's keys are exactly the ids scanned |
| PatternRegistry.DistinctIdsNoDuplicates | src/ai_threat_model/plugins/pattern_registry.py:166-181 | values with distinct ids raise no duplicate-id conflict |
| PatternRegistry.DeprecatedConflictsMembership | src/ai_threat_model/plugins/pattern_registry.py:183-193 | one "deprecated" entry per registered pattern whose metadata is deprecated |
| PatternRegistry.Missing | src/ai_threat_model/plugins/pattern_registry.py:149-155 | exactly the declared dependencies that are not registered |
| PatternRegistry.InOrder | src/ai_threat_model/plugins/pattern_registry.py:133 | the patterns of the listed ids, in that order |
| PatternRegistry.StoreKeepsConsistent | src/ai_threat_model/plugins/pattern_registry.py:79-95 | storing a non-clashing pattern keeps the three maps consistent |
| PatternRegistry.StoreKeepsIds | src/ai_threat_model/plugins/pattern_registry.py:80 | storing keeps the insertion-ordered key list in step with the pattern map |
| PatternRegistry.StoreKeepsIndex | src/ai_threat_model/plugins/pattern_registry.py:92-95 | storing keeps the framework index sound and complete |
| PatternRegistry.Registry.RegisterPattern | src/ai_threat_model/plugins/pattern_registry.py:49-97 | an invalid pattern or a framework clash raises and changes nothing; otherwise returns True, stores the pattern, its metadata (default "1.0.0") and indexes its id under its framework |
| PatternRegistry.Registry.constructor | src/ai_threat_model/plugins/pattern_registry.py:43-47 | the registry starts with three empty dictionaries |
| PatternRegistry.Registry.Store | src/ai_threat_model/plugins/pattern_registry.py:79-95 | stores the pattern and its metadata under its id, adds the id to its framework's index, and keeps the maps consistent |
| PatternRegistry.Registry.GetPattern | src/ai_threat_model/plugins/pattern_registry.py:99-109 | the stored pattern under that id, none iff absent |
| PatternRegistry.Registry.IsDeprecated | src/ai_threat_model/plugins/pattern_registry.py:280-291 | false without metadata, else the metadata flag |
| PatternRegistry.Registry.AllPatterns | src/ai_threat_model/plugins/pattern_registry.py:126-133 | exactly the registered patterns, ids distinct |
| PatternRegistry.Registry.GetPatternsByFramework | src/ai_threat_model/plugins/pattern_registry.py:111-124 | exactly the registered patterns of that framework, ids distinct |
| PatternRegistry.Registry.ValidateDependencies | src/ai_threat_model/plugins/pattern_registry.py:135-155 | [] for an id without metadata, else its missing dependencies in declared order |
| PatternRegistry.Registry.MissingOf | src/ai_threat_model/plugins/pattern_registry.py:149-155 | the loop computes the missing dependencies |
| PatternRegistry.Registry.CheckConflicts | src/ai_threat_model/plugins/pattern_registry.py:157-195 | the duplicate scan followed by the deprecation scan |
| PatternRegistry.Registry.ScanDuplicates | src/ai_threat_model/plugins/pattern_registry.py:166-181 | the duplicate-id loop |
| PatternRegistry.Registry.ScanDeprecations | src/ai_threat_model/plugins/pattern_registry.py:183-193 | the deprecation loop |
| PatternRegistry.Registry.ConflictsAreDeprecations | src/ai_threat_model/plugins/pattern_registry.py:157-195 | duplicate_id is never reported; the conflicts are exactly one per deprecated registered pattern |
| PatternRegistry.Registry.LoadPatterns | src/ai_threat_model/plugins/pattern_registry.py:240-266 | every valid parsed pattern's id is registered afterwards; refused ones are skipped |
| PatternRegistry.Registry.LoadOne | src/ai_threat_model/plugins/pattern_registry.py:256-264 | one pattern is counted iff it is valid and does not clash |
| PatternBuilders.Truthy | src/ai_threat_model/plugins/ai/pattern_builders.py:90-93 | a string option counts iff present and non-empty |
| PatternBuilders.Build | src/ai_threat_model/plugins/ai/pattern_builders.py:23-33 | category equals id, fields as given, missing mitigations become [] |
| PatternBuilders.CreateLlmPattern | src/ai_threat_model/plugins/ai/pattern_builders.py:13-33 | framework OWASP LLM 2025, category equals id |
| PatternBuilders.CreateAgenticPattern | src/ai_threat_model/plugins/ai/pattern_builders.py:36-56 | framework OWASP Agentic 2026, category equals id |
| PatternBuilders.CreateMultiAgentPattern | src/ai_threat_model/plugins/ai/pattern_builders.py:59-79 | framework CUSTOM, category equals id |
| PatternBuilders.MitigationsOrEmpty | src/ai_threat_model/plugins/ai/pattern_builders.py:23-79 | no mitigations and an empty list give the same pattern |
| PatternBuilders.BuiltPatternRegisters | src/ai_threat_model/plugins/ai/pattern_builders.py:23-33 | a built pattern passes registry validation iff id, title, description, phrases and vectors are non-empty |
| PatternBuilders.CreateMitigation | src/ai_threat_model/plugins/ai/pattern_builders.py:82-94 | always id and description; implementation and priority only when truthy |
| PatternBuilders.CreatedMitigationAsThreatMitigation | src/ai_threat_model/plugins/ai/threat_detection.py:105-114 | a built mitigation turns into a PROPOSED threat mitigation with the same id and description |
| Converters.SystemName | src/ai_threat_model/api/converters.py:41 | the override, else the suggestion, else "Untitled System" |
| Converters.Chosen | src/ai_threat_model/api/converters.py:44-49 | a truthy override is used; otherwise a truthy suggestion |
| Converters.OverrideWins | src/ai_threat_model/api/converters.py:44-69 | a valid override gives its own type and framework |
| Converters.InvalidOverrideIgnoresSuggestion | src/ai_threat_model/api/converters.py:44-62 | an invalid override gives LLM_APP / OWASP LLM 2025 without consulting the suggestion |
| Converters.SuggestionUsedWithoutOverride | src/ai_threat_model/api/converters.py:49-67 | without override a valid suggestion is used |
| Converters.ExactTypeFinds | src/ai_threat_model/api/converters.py:81-82 | the exact enum lookup finds the type with that value, or none |
| Converters.ExactTypeIsParse | src/ai_threat_model/api/converters.py:81-82 | the exact lookup is enum parsing |
| Converters.ComponentTypeOfCases | src/ai_threat_model/api/converters.py:78-94 | exact value, else the lower-cased fallback table, else DATABASE |
| Converters.ComponentTypeOfValues | src/ai_threat_model/api/converters.py:78-94 | a missing type is DATABASE and every enum value maps to itself |
| Converters.ApiInAnyCase | src/ai_threat_model/api/converters.py:91-94 | "api" in any letter case is API_ENDPOINT |
| Converters.ValueLowerNotApi | src/ai_threat_model/api/converters.py:81-94 | no enum value lower-cases to "api", so the fallback never shadows an exact value |
| Converters.ToComponent | src/ai_threat_model/api/converters.py:75-103 | raw id defaulted to "comp-k", name "Unnamed Component", trust INTERNAL, no capabilities; refused iff the id is blank |
| Converters.GeneratedIdAccepted | src/ai_threat_model/api/converters.py:76 | a missing id becomes "comp-k" and is accepted |
| Converters.RawIdKept | src/ai_threat_model/api/converters.py:76-97 | a trimmed raw id is stored unchanged |
| Converters.ToComponents | src/ai_threat_model/api/converters.py:75-106 | one component per input item, or the id error |
| Converters.ToComponentsPointwise | src/ai_threat_model/api/converters.py:75-106 | item k becomes component k, and the whole succeeds iff each item does |
| Converters.ClassificationOf | src/ai_threat_model/api/converters.py:120-124 | a valid classification is kept; anything else is INTERNAL |
| Converters.ToDataFlow | src/ai_threat_model/api/converters.py:126-132 | endpoints and data type copied, encrypted defaults to false |
| Converters.VisionToThreatModel | src/ai_threat_model/api/converters.py:22-149 | succeeds iff every component converts; no threats, version "1.0.0", the chosen name, one component per item |
| Converters.FlowKeptIff | src/ai_threat_model/api/converters.py:111-134 | a flow is kept iff both endpoint ids are input ids |
| Converters.FlowEndpointsRecorded | src/ai_threat_model/api/converters.py:115-117 | kept flows name recorded ids |
| Converters.RecordedIdsAreComponentIds | src/ai_threat_model/api/converters.py:96-106 | with trimmed ids every recorded id is a component id |
| Converters.ComponentIdsStripped | src/ai_threat_model/api/converters.py:96-106 | the stored ids are the stripped raw ids |
| Converters.TrimmedIdsValidate | src/ai_threat_model/api/converters.py:115-146 | with trimmed input ids the result validates with no errors |
| Converters.PaddedIdDanglingFlow | src/ai_threat_model/api/converters.py:106-116 | a padded id keeps a flow that validate then reports |
| Converters.PaddedComponentBuilt | src/ai_threat_model/api/converters.py:96-106 | the component with id " a" is built with the stripped id "a" |
| Converters.PaddedFlowKept | src/ai_threat_model/api/converters.py:111-117 | a flow from " a" is kept because the id map is keyed by the raw id |
| Converters.DanglingFlowReported | src/ai_threat_model/core/models.py:299-304 | a flow whose source is not the only component's id makes validate report an error |
| Converters.ConvertComponents | src/ai_threat_model/api/converters.py:75-106 | the component loop and its id map |
| Converters.ConvertFlows | src/ai_threat_model/api/converters.py:111-134 | the flow loop keeps the flows with mapped endpoints |
| Converters.ConvertVision | src/ai_threat_model/api/converters.py:22-149 | the imperative conversion equals the specification |
| Reporting.HeaderLines | src/ai_threat_model/cli/reporting.py:12-22 | nine header lines starting with the title |
| Reporting.SystemTypeSingleLine | src/ai_threat_model/cli/reporting.py:15 | no system-type value contains a newline |
| Reporting.FrameworkSingleLine | src/ai_threat_model/cli/reporting.py:16 | no framework value contains a newline |
| Reporting.ComponentTypeSingleLine | src/ai_threat_model/cli/reporting.py:25 | no component-type value contains a newline |
| Reporting.GenerateMarkdownReport | src/ai_threat_model/cli/reporting.py:10-42 | the report is the joined specified lines |
| Reporting.AppendComponentLines | src/ai_threat_model/cli/reporting.py:24-27 | the component loop appends each component's block |
| Reporting.ComponentLines | src/ai_threat_model/cli/reporting.py:25-27 | one component's lines |
| Reporting.AppendThreatLines | src/ai_threat_model/cli/reporting.py:34-40 | the threat loop appends each threat's block |
| Reporting.ThreatLines | src/ai_threat_model/cli/reporting.py:35-40 | one threat's lines |
| Reporting.MarkdownStartsWithTitle | src/ai_threat_model/cli/reporting.py:12-13 | the report starts with "# Threat Model: {name}" |
| Reporting.HeaderSingleLine | src/ai_threat_model/cli/reporting.py:12-22 | header lines have no newline when the fields have none |
| Reporting.ComponentBlockSingleLine | src/ai_threat_model/cli/reporting.py:25-27 | component lines have no newline when the fields have none |
| Reporting.ThreatSectionSingleLine | src/ai_threat_model/cli/reporting.py:29-40 | threat lines have no newline when the fields have none |
| Reporting.MarkdownSplitsIntoLines | src/ai_threat_model/cli/reporting.py:42 | splitting the report at newlines gives back the lines |
| Reporting.ComponentBlockShape | src/ai_threat_model/cli/reporting.py:25-27 | the bullet line, then the indented description line iff there is a description |
| Reporting.ComponentEntry | src/ai_threat_model/cli/reporting.py:24-27 | each component has its "- **name** (type)" line, followed by a description line iff it has a description |
| Reporting.NoThreatsReported | src/ai_threat_model/cli/reporting.py:31-32 | with no threats the last line is "*No threats identified yet.*" |
| Reporting.ThreatBlockShape | src/ai_threat_model/cli/reporting.py:35-40 | heading, description line if any, severity line iff severity, blank line |
| Reporting.ThreatEntry | src/ai_threat_model/cli/reporting.py:33-40 | each threat's block, with its "### category: title" heading, appears at its offset |
| Reporting.NodeId | src/ai_threat_model/cli/reporting.py:51-58 | "-" and " " become "_", everything else kept |
| Reporting.Label | src/ai_threat_model/cli/reporting.py:52 | the label has no '"' and the name's length |
| Reporting.GenerateMermaidDiagram | src/ai_threat_model/cli/reporting.py:45-61 | the diagram is the joined specified lines |
| Reporting.NodeLineSingleLine | src/ai_threat_model/cli/reporting.py:53 | a node line has no newline when id and name have none |
| Reporting.NodeIdSingleLine | src/ai_threat_model/cli/reporting.py:51 | the node id of a single-line id is single-line |
| Reporting.EdgeLineSingleLine | src/ai_threat_model/cli/reporting.py:59 | an edge line has no newline when the endpoints have none |
| Reporting.MermaidLinesAt | src/ai_threat_model/cli/reporting.py:47-59 | "graph TD", one node line per component, then one edge line per flow |
| Reporting.NodeLineStarts | src/ai_threat_model/cli/reporting.py:53 | a node line starts with the indented node id and `["` |
| Reporting.MermaidSingleLines | src/ai_threat_model/cli/reporting.py:47-59 | all diagram lines are single lines |
| Reporting.MermaidLayout | src/ai_threat_model/cli/reporting.py:45-61 | the diagram's text lines are the header, the node lines and the edge lines, in input order |
| Reporting.EdgesAttachToNodes | src/ai_threat_model/cli/reporting.py:50-59 | each edge names the node id of every component whose raw id is an endpoint |
| Reporting.EdgeNamesEnds | src/ai_threat_model/cli/reporting.py:57-59 | an edge line contains both endpoint node ids |
| Reporting.NodeIdsCollide | src/ai_threat_model/cli/reporting.py:51 | "a-b", "a b" and "a_b" share one node id |
| Display.DataFlowNames | src/ai_threat_model/cli/display.py:169-175 | component names, falling back to the raw ids |
| Display.FindDataFlowById | src/ai_threat_model/cli/display.py:209-215 | the same result as the threat-detection search |
| Display.DescribeFlow | src/ai_threat_model/cli/display.py:236-242 | one flow's label: names with an arrow when found, else the raw id |
| Display.DescribeFlows | src/ai_threat_model/cli/display.py:234-243 | the flow loop labels every flow id, in order |
| Display.AreFlowDescriptions | src/ai_threat_model/cli/display.py:234-243 | labels computed pointwise are the flow descriptions |
| Display.Prefixed | src/ai_threat_model/cli/display.py:188 | each name with the prefix, in order |
| Display.FormatAffectedItems | src/ai_threat_model/cli/display.py:178-206 | the method computes the specified text |
| Display.AffectedItemsLayout | src/ai_threat_model/cli/display.py:180-198 | "Component: name" items, then "Flow: ..." items, in order |
| Display.NoneSpecifiedIff | src/ai_threat_model/cli/display.py:201-206 | "None specified" iff there are no affected components and flows |
| Display.FormatItemsTruncates | src/ai_threat_model/cli/display.py:201-205 | at most three items joined by ", ", then " (+N more)" |
| Display.SeverityColor | src/ai_threat_model/cli/display.py:259-267 | critical red, high yellow, medium blue, low green, anything else white |
| Display.SeverityColorsDistinct | src/ai_threat_model/cli/display.py:259-267 | the four severities get four distinct colours, none white |
| Display.BuildThreatPanelContent | src/ai_threat_model/cli/display.py:218-256 | the method computes the specified panel content |
| Display.PanelContentEmptyIff | src/ai_threat_model/cli/display.py:218-256 | no content iff no description, affected items, vectors or mitigations |
| Display.MitigationsLast | src/ai_threat_model/cli/display.py:250-254 | the mitigations entry is the last one |
| Display.MitigationsEntryLines | src/ai_threat_model/cli/display.py:250-254 | a header with the total count, then at most three "- description" lines |
| Display.MitigationsPartsSingleLine | src/ai_threat_model/cli/display.py:251-254 | the header and the listed mitigations are single lines |
| Display.MitigationsHeaderSingleLine | src/ai_threat_model/cli/display.py:253 | the mitigations header is a single line |
| Display.AttackVectorsShown | src/ai_threat_model/cli/display.py:246-247 | the first three attack vectors are shown |
| Display.ThreatDetail | src/ai_threat_model/cli/display.py:137-150 | a panel iff there is content, a category or a title, with the severity colour |
| Display.DisplayThreatDetails | src/ai_threat_model/cli/display.py:134-153 | panels for the first five threats, then the note |
| Display.DetailsCoverFirstFive | src/ai_threat_model/cli/display.py:136-153 | at most five panels, exactly for the first five threats, and "... and N more threats" iff there are more than five |

## Left out

- Terminal commands, the HTTP API, the vision model call, the plot4ai deck download and its cache files, and logging are not modelled. They are I/O. The deck is an input value.
- Reading pattern override files is not modelled; it is file I/O. The plugins take the parsed override list. `load_patterns_from_directory` takes the parsed (pattern, metadata) list, and a file that fails to parse is simply absent from it.
- `ThreatModel.load` and `save` are not modelled; they are file I/O.
- `uuid4` ids are the constructor `Uuid` and timestamps are a parameter. They are nondeterministic.
- The plugins' lazy caching of the deck and the converted patterns is not modelled. A plugin holds its deck and catalog from construction, and the cache changes nothing the caller sees.
- Models.RiskScore.Calculate: computes over exact reals, not IEEE doubles, because floating-point rounding is not modelled.
- Pydantic parsing and coercion are not modelled: field aliases, enum coercion, and the framework coercion in `_validate_pattern`. The model takes typed values, and unknown enum strings are handled where the code handles them.
- Rich console rendering is not modelled. Only the pure helpers and the panel contents are.
- The summary tables of the terminal view are not modelled.
- The matcher layers the tests import (`_matches_capabilities`, `_matches_context`, `_matches_regex_pattern`) and a matcher that takes the system as context are not defined in the matcher's source file, so there is no code to model.
- Text.Lower: lower-cases ASCII letters only, because Unicode case mapping is not modelled.
- `threat.severity.value` in the panel title is modelled by the severity's string value. The Rich markup is not interpreted.
- PatternRegistry.Registry.LoadPatterns: states that the count is at most the number of parsed patterns, not that it equals the number accepted. Acceptance of each pattern is stated exactly by `PatternRegistry.Registry.LoadOne`.
- AgenticPlugin.Plugin.DetectThreats: uses the matcher call with `system` dropped. So does AgenticPlugin.Plugin.AnalyzeSystem, which calls it. The code as written raises, which `AgenticPlugin.DetectAsWritten` models (see Findings).
- PatternRegistry.ClashMessage: renders each framework as Python 3.11 and later format a `str`-mixin `Enum` member in an f-string (`ThreatModelingFramework.NAME`, via `Models.Framework.Formatted`). Under Python 3.10 the message carries the framework's value instead; that rendering is not modelled. The duplicate-id conflict message is rendered the same way.
- References passed to the pattern builders are not modelled. `ThreatPattern` has no references field, so they are dropped.
- The order of `list(patterns_dict.values())` is modelled as insertion order with replacement in place, which is what a Python dict does.

## Findings

| source | as written | input that shows it | evidently intended | confidence | as-written member | corrected member |
|---|---|---|---|---|---|---|
| src/ai_threat_model/plugins/ai/agentic_plugin.py:432 | `_pattern_matches_component` calls `pattern_matches_component(pattern, component, component_types, system)`, but `pattern_matches_component` (threat_detection.py:59-61) takes three parameters, so the call raises `TypeError` | any component and any pattern that is not in the Agent/Tool table, e.g. an LLM component against AGENTIC01; with the built-in catalog every system with a component raises | a matcher that takes the system as context, as the call site's comment (agentic_plugin.py:431) and the matcher test with a system (tests/test_plugins/test_threat_detection.py:224) expect. No such matcher exists in the source, so the corrected member is the nearest defined behaviour: the three-argument call with the system dropped, where an Agent or Tool component matches every pattern and any other matches by the substring rule. The context layer is not modelled | high (not executed) | AgenticPlugin.BuiltinCatalogAsWrittenRaises | AgenticPlugin.Matches |

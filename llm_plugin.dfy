/** The plugin for LLM applications, built on the OWASP Top 10 for LLM
    Applications 2025: a catalog of ten patterns, a per-component match with
    a type table, a severity table, the unencrypted-sensitive-flow check and
    the component validation rules. */
module LlmPlugin {
  import opened Wrappers
  import opened Models
  import opened PluginBase
  import opened ThreatDetection
  import Catalog
  import Seqs
  import Text

  /** The system type this plugin reports. */
  const PluginSystemType: SystemType := LlmApp

  const SupportedFrameworks: seq<Framework> := [OwaspLlmTop10_2025]

  /** The built-in patterns, one constructor each; the member functions give
      each pattern's fields. */
  datatype Builtin = Llm01 | Llm02 | Llm03 | Llm04 | Llm05 | Llm06 | Llm07 | Llm08 | Llm09 | Llm10
  {
    /** The pattern id. */
    function Id(): string {
      match this
      case Llm01 => "LLM01"
      case Llm02 => "LLM02"
      case Llm03 => "LLM03"
      case Llm04 => "LLM04"
      case Llm05 => "LLM05"
      case Llm06 => "LLM06"
      case Llm07 => "LLM07"
      case Llm08 => "LLM08"
      case Llm09 => "LLM09"
      case Llm10 => "LLM10"
    }

    /** The category the pattern reports. */
    function Category(): string {
      match this
      case Llm01 => "LLM01"
      case Llm02 => "LLM02"
      case Llm03 => "LLM03"
      case Llm04 => "LLM04"
      case Llm05 => "LLM05"
      case Llm06 => "LLM06"
      case Llm07 => "LLM07"
      case Llm08 => "LLM08"
      case Llm09 => "LLM09"
      case Llm10 => "LLM10"
    }

    /** The pattern title. */
    function Title(): string {
      match this
      case Llm01 => "Prompt Injection"
      case Llm02 => "Insecure Output Handling"
      case Llm03 => "Training Data Poisoning"
      case Llm04 => "Model Denial of Service"
      case Llm05 => "Supply Chain Vulnerabilities"
      case Llm06 => "Sensitive Information Disclosure"
      case Llm07 => "Insecure Plugin Design"
      case Llm08 => "Excessive Agency"
      case Llm09 => "Overreliance"
      case Llm10 => "Model Theft"
    }

    /** The pattern description. */
    function Description(): string {
      match this
      case Llm01 => "Prompt injection occurs when untrusted input is embedded in a prompt, causing the LLM to execute unintended instructions or expose data."
      case Llm02 => "Insecure output handling occurs when LLM outputs are not validated or sanitized before being used, leading to XSS, CSRF, or other attacks."
      case Llm03 => "Training data poisoning occurs when malicious data is introduced into the training dataset, causing the model to produce biased or malicious outputs."
      case Llm04 => "Model DoS occurs when resource-intensive operations cause the system to become unavailable or degrade performance."
      case Llm05 => "Supply chain vulnerabilities occur when third-party models, datasets, or plugins contain security flaws."
      case Llm06 => "Sensitive information disclosure occurs when the LLM reveals confidential data in its outputs."
      case Llm07 => "Insecure plugin design occurs when plugins or tools integrated with the LLM have security vulnerabilities."
      case Llm08 => "Excessive agency occurs when the LLM has too much autonomy and can perform actions without proper authorization."
      case Llm09 => "Overreliance occurs when users or systems trust LLM outputs too much without verification."
      case Llm10 => "Model theft occurs when proprietary models are copied, reverse-engineered, or extracted without authorization."
    }

    /** The detection phrases. */
    function DetectionPatterns(): seq<string> {
      match this
      case Llm01 => ["User input directly concatenated to system prompts", "No input sanitization or validation", "External data sources used in prompts without validation"]
      case Llm02 => ["LLM output used directly in HTML/JavaScript", "No output validation or sanitization", "LLM output used in security-sensitive contexts"]
      case Llm03 => ["Training data from untrusted sources", "No data validation or filtering", "Public datasets used without verification"]
      case Llm04 => ["No rate limiting on LLM requests", "No timeout mechanisms", "No resource quotas"]
      case Llm05 => ["Third-party models used without verification", "External plugins or tools integrated", "No security review of dependencies"]
      case Llm06 => ["Training data contains sensitive information", "No data filtering or redaction", "LLM has access to sensitive data sources"]
      case Llm07 => ["Plugins execute arbitrary code", "No input validation in plugins", "Plugins have excessive permissions"]
      case Llm08 => ["LLM can perform critical actions autonomously", "No human oversight or approval", "Broad permissions granted to LLM"]
      case Llm09 => ["LLM outputs used without verification", "No fact-checking or validation", "Critical decisions based solely on LLM output"]
      case Llm10 => ["Model exposed via API without protection", "No access controls on model endpoints", "Model weights accessible"]
    }

    /** The attack vectors. */
    function AttackVectors(): seq<string> {
      match this
      case Llm01 => ["Direct injection via user input", "Indirect injection via external data sources", "Second-order injection through stored data"]
      case Llm02 => ["XSS via malicious LLM output", "CSRF via LLM-generated URLs", "Code injection via LLM output"]
      case Llm03 => ["Injection of malicious examples", "Bias introduction through data manipulation"]
      case Llm04 => ["Resource exhaustion via large prompts", "Rapid request flooding"]
      case Llm05 => ["Malicious third-party models", "Compromised dependencies"]
      case Llm06 => ["Prompting for sensitive data", "Inference attacks"]
      case Llm07 => ["Malicious plugin execution", "Privilege escalation via plugins"]
      case Llm08 => ["Unauthorized actions via LLM", "Privilege escalation"]
      case Llm09 => ["Misinformation propagation", "Decision manipulation"]
      case Llm10 => ["Model extraction attacks", "Unauthorized model access"]
    }

    /** The mitigation dictionaries. */
    function Mitigations(): seq<MitigationSpec> {
      match this
      case Llm01 => [MitigationSpec(Some("input-validation"), Some("Validate and sanitize all user inputs"), Some("Use input validation libraries and sanitize special characters"), Some("high")), MitigationSpec(Some("prompt-separation"), Some("Separate user input from system prompts"), Some("Use structured prompts with clear boundaries"), Some("high"))]
      case Llm02 => [MitigationSpec(Some("output-validation"), Some("Validate and sanitize all LLM outputs"), Some("Use output encoding and validation libraries"), Some("high"))]
      case Llm03 => [MitigationSpec(Some("data-validation"), Some("Validate and filter training data"), Some("Implement data validation pipelines"), Some("medium"))]
      case Llm04 => [MitigationSpec(Some("rate-limiting"), Some("Implement rate limiting"), Some("Use rate limiting middleware"), Some("high"))]
      case Llm05 => [MitigationSpec(Some("supply-chain-review"), Some("Review and verify all dependencies"), Some("Implement dependency scanning"), Some("medium"))]
      case Llm06 => [MitigationSpec(Some("data-filtering"), Some("Filter sensitive data from training and inference"), Some("Implement data redaction and filtering"), Some("high"))]
      case Llm07 => [MitigationSpec(Some("plugin-security"), Some("Implement secure plugin architecture"), Some("Use sandboxing and least privilege"), Some("high"))]
      case Llm08 => [MitigationSpec(Some("human-oversight"), Some("Implement human oversight for critical actions"), Some("Require approval for sensitive operations"), Some("high"))]
      case Llm09 => [MitigationSpec(Some("output-verification"), Some("Verify LLM outputs before use"), Some("Implement fact-checking and validation"), Some("medium"))]
      case Llm10 => [MitigationSpec(Some("access-controls"), Some("Implement access controls and monitoring"), Some("Use authentication and rate limiting"), Some("high"))]
    }

    /** The built-in pattern as a catalog entry. */
    function Pattern(): (p: ThreatPattern)
      ensures p.id == Id() && p.category == Category() && p.framework == OwaspLlmTop10_2025
    {
      ThreatPattern(Id(), Category(), OwaspLlmTop10_2025, Title(), Description(),
                    DetectionPatterns(), AttackVectors(), Mitigations())
    }
  }

  /** The order `_get_default_patterns` lists them in. */
  const Builtins: seq<Builtin> := [Llm01, Llm02, Llm03, Llm04, Llm05, Llm06, Llm07, Llm08, Llm09, Llm10]

  function PatternOf(b: Builtin): ThreatPattern {
    b.Pattern()
  }

  function IdOf(b: Builtin): string {
    b.Id()
  }

  /** `_get_default_patterns`: the built-in patterns LLM01 to LLM10. */
  function DefaultPatterns(): seq<ThreatPattern> {
    Seqs.Map(Builtins, PatternOf)
  }

  function CategoryOf(b: Builtin): string {
    b.Category()
  }

  function PatternCategory(p: ThreatPattern): string {
    p.category
  }

  /** Built-in patterns carry the ids and categories of their keys and the
      framework of the plugin. */
  lemma BuiltinPatternsFacts(bs: seq<Builtin>)
    ensures Catalog.Ids(Seqs.Map(bs, PatternOf)) == Seqs.Map(bs, IdOf)
    ensures Seqs.Map(Seqs.Map(bs, PatternOf), PatternCategory) == Seqs.Map(bs, CategoryOf)
    ensures forall p :: p in Seqs.Map(bs, PatternOf) ==> p.framework == OwaspLlmTop10_2025
  {
    var ps := Seqs.Map(bs, PatternOf);
    forall p | p in ps ensures p.framework == OwaspLlmTop10_2025 {
      var i :| 0 <= i < |ps| && ps[i] == p;
      assert p == bs[i].Pattern();
    }
  }

  /** The ids of the built-in patterns, in order, which are also their
      categories. */
  lemma BuiltinIds()
    ensures Seqs.Map(Builtins, IdOf) ==
      ["LLM01", "LLM02", "LLM03", "LLM04", "LLM05", "LLM06", "LLM07", "LLM08", "LLM09", "LLM10"]
    ensures Seqs.Map(Builtins, CategoryOf) == Seqs.Map(Builtins, IdOf)
    ensures Seqs.NoDuplicates(Seqs.Map(Builtins, IdOf))
  {
  }

  /** The built-in catalog: ids LLM01 to LLM10 in order, all of the 2025 LLM
      framework. */
  lemma DefaultPatternsFacts()
    ensures Catalog.Ids(DefaultPatterns()) ==
      ["LLM01", "LLM02", "LLM03", "LLM04", "LLM05", "LLM06", "LLM07", "LLM08", "LLM09", "LLM10"]
    ensures Catalog.DistinctIds(DefaultPatterns())
    ensures forall p :: p in DefaultPatterns() ==> p.framework == OwaspLlmTop10_2025
  {
    BuiltinPatternsFacts(Builtins);
    BuiltinIds();
    Catalog.DistinctIdsFromIds(DefaultPatterns());
  }

  /** The patterns an LLM-typed component triggers through the type table. */
  const LlmRiskPatterns: seq<string> := ["LLM01", "LLM02", "LLM06", "LLM09"]

  /** `_pattern_matches_component`: an LLM component matches the table's
      patterns outright and every other pattern through its own type value
      passed as the trigger list; any other component matches only through a
      detection phrase. */
  function Matches(pattern: ThreatPattern, component: Component): (r: bool)
    ensures component.ctype == Llm ==> r
    ensures component.ctype != Llm ==>
      (r <==> exists k :: 0 <= k < |pattern.detectionPatterns| &&
                Text.Contains(MatchText(component), Text.Lower(pattern.detectionPatterns[k])))
  {
    if component.ctype == Llm then
      if pattern.id in LlmRiskPatterns then true
      else PatternMatchesComponent(pattern, component, [component.ctype.Value()])
    else PatternMatchesComponent(pattern, component, [])
  }

  /** The severity table of `_create_threat_from_pattern`. */
  function SeverityMap(): map<string, Severity> {
    map[
      "LLM01" := Critical, "LLM02" := High, "LLM03" := Medium, "LLM04" := High,
      "LLM05" := Medium, "LLM06" := Critical, "LLM07" := High, "LLM08" := High,
      "LLM09" := Medium, "LLM10" := High]
  }

  /** The severity a pattern's threats get: the table's entry, MEDIUM for an
      id the table lacks. */
  function SeverityFor(id: string): Severity {
    if id in SeverityMap() then SeverityMap()[id] else Medium
  }

  function BuiltinSeverity(b: Builtin): Severity {
    SeverityFor(b.Id())
  }

  /** The severities of the built-in patterns, in catalog order: LLM01 and
      LLM06 critical, LLM03, LLM05 and LLM09 medium, the rest high. */
  lemma BuiltinSeverities()
    ensures Seqs.Map(Builtins, BuiltinSeverity) ==
      [Critical, High, Medium, High, Medium, Critical, High, High, Medium, High]
  {
  }

  /** An id outside the table, an override's new id for instance, gets
      MEDIUM. */
  lemma UnknownIdIsMedium(id: string)
    requires id !in ["LLM01", "LLM02", "LLM03", "LLM04", "LLM05", "LLM06", "LLM07", "LLM08", "LLM09", "LLM10"]
    ensures SeverityFor(id) == Medium
  {
  }

  /** The threat for one matched pattern. */
  function ThreatFor(pattern: ThreatPattern, component: Component): (t: Threat)
    ensures t.category == pattern.category && t.affectedComponents == [component.id]
    ensures t.severity == Some(SeverityFor(pattern.id))
  {
    CreateThreatFromPattern(pattern, component, SeverityMap())
  }

  /** `_analyze_component`: one threat per matching pattern, in catalog
      order. */
  function ComponentThreats(patterns: seq<ThreatPattern>, component: Component): seq<Threat> {
    Seqs.Collect(patterns, (p: ThreatPattern) => Matches(p, component), (p: ThreatPattern) => ThreatFor(p, component))
  }

  /** The LLM06 check `_analyze_data_flow` runs on a flow. */
  function FlowThreat(df: DataFlow, system: SystemModel): Option<Threat> {
    CheckInsecureDataFlow(df, system, "LLM06", OwaspLlmTop10_2025, "Sensitive Information Disclosure")
  }

  /** `_analyze_data_flow`: the LLM06 threat, if the check reports one. */
  function FlowThreats(df: DataFlow, system: SystemModel): seq<Threat> {
    match FlowThreat(df, system)
    case Some(t) => [t]
    case None => []
  }

  function ComponentThreatsIn(patterns: seq<ThreatPattern>): Component -> seq<Threat> {
    (c: Component) => ComponentThreats(patterns, c)
  }

  function FlowThreatsIn(system: SystemModel): DataFlow -> seq<Threat> {
    (df: DataFlow) => FlowThreats(df, system)
  }

  function ComponentsThreats(patterns: seq<ThreatPattern>, components: seq<Component>): seq<Threat> {
    Seqs.FlatMap(components, ComponentThreatsIn(patterns))
  }

  function FlowsThreats(flows: seq<DataFlow>, system: SystemModel): seq<Threat> {
    Seqs.FlatMap(flows, FlowThreatsIn(system))
  }

  /** `detect_threats` for a catalog: the component threats, components in
      order, then the flow threats, flows in order. */
  function Detect(catalog: seq<ThreatPattern>, system: SystemModel): seq<Threat> {
    var patterns := Catalog.PatternsFor(catalog, Some(system.framework));
    ComponentsThreats(patterns, system.components) + FlowsThreats(system.dataFlows, system)
  }

  /** A component's threats are exactly those of its matching patterns. */
  lemma ComponentThreatsMembership(patterns: seq<ThreatPattern>, component: Component, t: Threat)
    ensures t in ComponentThreats(patterns, component) <==>
      exists p :: p in patterns && Matches(p, component) && t == ThreatFor(p, component)
  {
    Seqs.CollectMembership(patterns, (p: ThreatPattern) => Matches(p, component),
                           (p: ThreatPattern) => ThreatFor(p, component), t);
  }

  /** The components' threats are those of matching (component, pattern)
      pairs. */
  lemma ComponentsThreatsMembership(patterns: seq<ThreatPattern>, components: seq<Component>, t: Threat)
    ensures t in ComponentsThreats(patterns, components) <==>
      exists c, p :: c in components && p in patterns && Matches(p, c) && t == ThreatFor(p, c)
  {
    Seqs.FlatMapMembership(components, ComponentThreatsIn(patterns), t);
    forall c | c in components {
      ComponentThreatsMembership(patterns, c, t);
    }
    if exists c, p :: c in components && p in patterns && Matches(p, c) && t == ThreatFor(p, c) {
      var c, p :| c in components && p in patterns && Matches(p, c) && t == ThreatFor(p, c);
      var k :| 0 <= k < |components| && components[k] == c;
      assert t in ComponentThreats(patterns, components[k]);
    }
  }

  /** The flows' threats are the LLM06 threats the check reports. */
  lemma FlowsThreatsMembership(flows: seq<DataFlow>, system: SystemModel, t: Threat)
    ensures t in FlowsThreats(flows, system) <==> exists df :: df in flows && FlowThreat(df, system) == Some(t)
  {
    Seqs.FlatMapMembership(flows, FlowThreatsIn(system), t);
    if exists df :: df in flows && FlowThreat(df, system) == Some(t) {
      var df :| df in flows && FlowThreat(df, system) == Some(t);
      var k :| 0 <= k < |flows| && flows[k] == df;
      assert t in FlowThreats(flows[k], system);
    }
  }

  /** The threats `detect_threats` returns: those of matching
      (component, pattern) pairs and those of insecure flows. */
  lemma DetectMembership(catalog: seq<ThreatPattern>, system: SystemModel, t: Threat)
    ensures var patterns := Catalog.PatternsFor(catalog, Some(system.framework));
      t in Detect(catalog, system) <==>
        (exists c, p :: c in system.components && p in patterns && Matches(p, c) && t == ThreatFor(p, c)) ||
        (exists df :: df in system.dataFlows && FlowThreat(df, system) == Some(t))
  {
    var patterns := Catalog.PatternsFor(catalog, Some(system.framework));
    ComponentsThreatsMembership(patterns, system.components, t);
    FlowsThreatsMembership(system.dataFlows, system, t);
  }

  /** An LLM component yields one threat for every pattern, in catalog
      order. */
  lemma {:induction false} LlmComponentMatchesAll(patterns: seq<ThreatPattern>, component: Component)
    requires component.ctype == Llm
    ensures |ComponentThreats(patterns, component)| == |patterns|
    ensures forall i :: 0 <= i < |patterns| ==>
      ComponentThreats(patterns, component)[i] == ThreatFor(patterns[i], component)
    decreases |patterns|
  {
    if |patterns| > 0 {
      var init := patterns[..|patterns| - 1];
      LlmComponentMatchesAll(init, component);
      assert ComponentThreats(patterns, component) ==
        ComponentThreats(init, component) + [ThreatFor(patterns[|patterns| - 1], component)];
    }
  }

  function ThreatCategory(t: Threat): string {
    t.category
  }

  /** An LLM component's threats carry the categories of the patterns, in
      catalog order. */
  lemma LlmComponentCategories(patterns: seq<ThreatPattern>, component: Component)
    requires component.ctype == Llm
    ensures Seqs.Map(ComponentThreats(patterns, component), ThreatCategory) == Seqs.Map(patterns, PatternCategory)
  {
    LlmComponentMatchesAll(patterns, component);
  }

  /** With the built-in catalog, no override, a system on the LLM framework
      and an LLM component, the component gets exactly ten threats whose
      categories are LLM01 to LLM10, in order. */
  lemma BuiltinCatalogLlmComponent(component: Component)
    requires component.ctype == Llm
    ensures var ts := ComponentThreats(Catalog.PatternsFor(Catalog.Merge(DefaultPatterns(), []), Some(OwaspLlmTop10_2025)), component);
      Seqs.Map(ts, ThreatCategory) ==
        ["LLM01", "LLM02", "LLM03", "LLM04", "LLM05", "LLM06", "LLM07", "LLM08", "LLM09", "LLM10"]
  {
    var ps := DefaultPatterns();
    DefaultPatternsFacts();
    Catalog.MergeWithoutOverrides(ps);
    Catalog.PatternsForUniformFramework(ps, OwaspLlmTop10_2025);
    LlmComponentCategories(ps, component);
    BuiltinPatternsFacts(Builtins);
    BuiltinIds();
  }

  /** A flow yields one LLM06 threat when it is unencrypted and sensitive,
      and none otherwise. */
  lemma FlowThreatsFacts(df: DataFlow, system: SystemModel)
    ensures |FlowThreats(df, system)| == if !df.encrypted && IsSensitive(df.classification) then 1 else 0
    ensures forall t :: t in FlowThreats(df, system) ==>
      t.category == "LLM06" && t.severity == Some(High) && t.affectedDataFlows == [FlowKey(df)] &&
      t.affectedComponents == []
  {
  }

  /** Every component threat names its component. */
  lemma ComponentsThreatsHaveComponents(patterns: seq<ThreatPattern>, components: seq<Component>)
    ensures forall t :: t in ComponentsThreats(patterns, components) ==> t.affectedComponents != []
  {
    forall t | t in ComponentsThreats(patterns, components) ensures t.affectedComponents != [] {
      ComponentsThreatsMembership(patterns, components, t);
    }
  }

  /** No flow threat names a component. */
  lemma FlowsThreatsHaveNoComponents(flows: seq<DataFlow>, system: SystemModel)
    ensures forall t :: t in FlowsThreats(flows, system) ==> t.affectedComponents == []
  {
    forall t | t in FlowsThreats(flows, system) ensures t.affectedComponents == [] {
      FlowsThreatsMembership(flows, system, t);
    }
  }

  /** Component threats come first: once a threat without affected
      components (a flow threat) appears, every later one is a flow threat
      too. */
  lemma DetectOrder(catalog: seq<ThreatPattern>, system: SystemModel)
    ensures var ts := Detect(catalog, system);
      forall i, j :: 0 <= i < j < |ts| && ts[i].affectedComponents == [] ==> ts[j].affectedComponents == []
  {
    var patterns := Catalog.PatternsFor(catalog, Some(system.framework));
    var cts := ComponentsThreats(patterns, system.components);
    var fts := FlowsThreats(system.dataFlows, system);
    ComponentsThreatsHaveComponents(patterns, system.components);
    FlowsThreatsHaveNoComponents(system.dataFlows, system);
    var ts := Detect(catalog, system);
    assert ts == cts + fts;
    forall i, j | 0 <= i < j < |ts| && ts[i].affectedComponents == []
      ensures ts[j].affectedComponents == []
    {
      assert ts[j] == fts[j - |cts|] && fts[j - |cts|] in fts;
    }
  }

  /** `_analyze_component` as its loop runs. */
  method AnalyzeComponent(component: Component, patterns: seq<ThreatPattern>) returns (threats: seq<Threat>)
    ensures threats == ComponentThreats(patterns, component)
  {
    threats := [];
    var i := 0;
    while i < |patterns|
      invariant 0 <= i <= |patterns|
      invariant threats == ComponentThreats(patterns[..i], component)
    {
      assert patterns[..i + 1][..i] == patterns[..i];
      if Matches(patterns[i], component) {
        threats := threats + [ThreatFor(patterns[i], component)];
      }
      i := i + 1;
    }
    assert patterns[..i] == patterns;
  }

  /** The component types typical for LLM applications. */
  function ComponentTypes(): seq<string> {
    [Llm.Value(), Agent.Value(), Tool.Value(), Memory.Value(), Database.Value(),
     ApiEndpoint.Value(), AuthenticationService.Value()]
  }

  /** A type is typical exactly when it is one of the seven listed. */
  lemma TypicalTypes(t: ComponentType)
    ensures t.Value() in ComponentTypes() <==> t in {Llm, Agent, Tool, Memory, Database, ApiEndpoint, AuthenticationService}
  {
  }

  function TypeWarning(c: Component): string {
    "Component type " + c.ctype.Value() + " may not be typical for LLM applications"
  }

  const CapabilityWarning: string := "LLM component should specify capabilities"

  const NameError: string := "Component name is required"

  /** `validate_component`: an empty name is the only error; an atypical
      type and an LLM without capabilities give warnings only. */
  function ValidateComponent(c: Component): (r: ValidationResult)
    ensures r.valid <==> c.name != ""
    ensures r.errors == if c.name == "" then [NameError] else []
    ensures TypeWarning(c) in r.warnings <==>
      c.ctype !in {Llm, Agent, Tool, Memory, Database, ApiEndpoint, AuthenticationService}
    ensures CapabilityWarning in r.warnings <==> c.ctype == Llm && c.capabilities == []
    ensures forall w :: w in r.warnings ==> w == TypeWarning(c) || w == CapabilityWarning
  {
    TypicalTypes(c.ctype);
    assert TypeWarning(c)[0] == 'C' && CapabilityWarning[0] == 'L';
    var warnings :=
      (if c.ctype.Value() !in ComponentTypes() then [TypeWarning(c)] else [])
      + (if c.capabilities == [] && c.ctype == Llm then [CapabilityWarning] else []);
    var errors := if c.name == "" then [NameError] else [];
    ValidationResult(|errors| == 0, errors, warnings)
  }

  /** The component loop of `detect_threats`. */
  method AppendComponentsThreats(before: seq<Threat>, components: seq<Component>, patterns: seq<ThreatPattern>)
    returns (threats: seq<Threat>)
    ensures threats == before + ComponentsThreats(patterns, components)
  {
    threats := before;
    var i := 0;
    while i < |components|
      invariant 0 <= i <= |components|
      invariant threats == before + ComponentsThreats(patterns, components[..i])
    {
      Seqs.FlatMapPrefixStep(components, ComponentThreatsIn(patterns), i);
      var componentThreats := AnalyzeComponent(components[i], patterns);
      threats := threats + componentThreats;
      i := i + 1;
    }
    assert components[..i] == components;
  }

  /** The data-flow loop of `detect_threats`. */
  method AppendFlowsThreats(before: seq<Threat>, system: SystemModel) returns (threats: seq<Threat>)
    ensures threats == before + FlowsThreats(system.dataFlows, system)
  {
    var flows := system.dataFlows;
    threats := before;
    var k := 0;
    while k < |flows|
      invariant 0 <= k <= |flows|
      invariant threats == before + FlowsThreats(flows[..k], system)
    {
      Seqs.FlatMapPrefixStep(flows, FlowThreatsIn(system), k);
      threats := threats + FlowThreats(flows[k], system);
      k := k + 1;
    }
    assert flows[..k] == flows;
  }

  class Plugin {
    /** `_patterns`: the catalog after overrides are merged in. */
    var patterns: seq<ThreatPattern>

    /** Building the plugin loads its catalog; `overrides` stands for the
        patterns parsed from the override directory, in file order. */
    constructor (overrides: seq<ThreatPattern>)
      ensures patterns == Catalog.Merge(DefaultPatterns(), overrides)
    {
      var merged := Catalog.MergeById(DefaultPatterns(), overrides);
      patterns := merged;
    }

    /** `get_threat_patterns`. */
    function GetThreatPatterns(framework: Option<Framework>): (r: seq<ThreatPattern>)
      reads this
      ensures framework.None? ==> r == patterns
      ensures r == Catalog.PatternsFor(patterns, framework)
      ensures framework.Some? ==> forall p :: p in r <==> p in patterns && p.framework == framework.value
      ensures framework.Some? ==> forall p ::
        multiset(r)[p] == if p.framework == framework.value then multiset(patterns)[p] else 0
    {
      Catalog.PatternsFor(patterns, framework)
    }

    /** `analyze_system`, inherited from the base plugin: the threats
        `detect_threats` finds, their number, and the sizes of the system. */
    method AnalyzeSystem(system: SystemModel) returns (r: Analysis)
      ensures r.threats == Detect(patterns, system)
      ensures r.threatCount == |Detect(patterns, system)|
      ensures r.componentsAnalyzed == |system.components| && r.dataFlowsAnalyzed == |system.dataFlows|
    {
      var threats := DetectThreats(system);
      r := Summarize(system, threats);
    }

    /** `detect_threats` as its loops run. */
    method DetectThreats(system: SystemModel) returns (threats: seq<Threat>)
      ensures threats == Detect(patterns, system)
    {
      var ps := GetThreatPatterns(Some(system.framework));
      threats := AppendComponentsThreats([], system.components, ps);
      threats := AppendFlowsThreats(threats, system);
    }
  }
}

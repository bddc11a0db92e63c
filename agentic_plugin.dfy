/** The plugin for agentic systems, built on the OWASP Agentic Top 10 2026:
    a catalog of ten patterns matched per component through a type table,
    a threat for every unencrypted flow and an isolation threat when
    several agents are present. */
module AgenticPlugin {
  import opened Wrappers
  import opened Models
  import opened PluginBase
  import opened ThreatDetection
  import Catalog
  import Seqs
  import Text

  /** The system type this plugin reports. */
  const PluginSystemType: SystemType := AgenticSystem

  const SupportedFrameworks: seq<Framework> := [OwaspAgenticTop10_2026]

  /** The built-in patterns, one constructor each; the member functions give
      each pattern's fields. */
  datatype Builtin = Agentic01 | Agentic02 | Agentic03 | Agentic04 | Agentic05 | Agentic06 | Agentic07 | Agentic08 | Agentic09 | Agentic10
  {
    /** The pattern id. */
    function Id(): string {
      match this
      case Agentic01 => "AGENTIC01"
      case Agentic02 => "AGENTIC02"
      case Agentic03 => "AGENTIC03"
      case Agentic04 => "AGENTIC04"
      case Agentic05 => "AGENTIC05"
      case Agentic06 => "AGENTIC06"
      case Agentic07 => "AGENTIC07"
      case Agentic08 => "AGENTIC08"
      case Agentic09 => "AGENTIC09"
      case Agentic10 => "AGENTIC10"
    }

    /** The category the pattern reports. */
    function Category(): string {
      match this
      case Agentic01 => "AGENTIC01"
      case Agentic02 => "AGENTIC02"
      case Agentic03 => "AGENTIC03"
      case Agentic04 => "AGENTIC04"
      case Agentic05 => "AGENTIC05"
      case Agentic06 => "AGENTIC06"
      case Agentic07 => "AGENTIC07"
      case Agentic08 => "AGENTIC08"
      case Agentic09 => "AGENTIC09"
      case Agentic10 => "AGENTIC10"
    }

    /** The pattern title. */
    function Title(): string {
      match this
      case Agentic01 => "Agent Goal Hijack"
      case Agentic02 => "Tool Misuse and Exploitation"
      case Agentic03 => "Identity and Privilege Abuse"
      case Agentic04 => "Agentic Supply Chain Vulnerabilities"
      case Agentic05 => "Unexpected Code Execution (RCE)"
      case Agentic06 => "Memory and Context Poisoning"
      case Agentic07 => "Insecure Inter-Agent Communication"
      case Agentic08 => "Cascading Failures"
      case Agentic09 => "Human-Agent Trust Exploitation"
      case Agentic10 => "Rogue Agents"
    }

    /** The pattern description. */
    function Description(): string {
      match this
      case Agentic01 => "Goal hijacking targets the core of an agent: its ability to plan and act autonomously. If an attacker can redirect the goal itself, the entire chain of actions becomes compromised."
      case Agentic02 => "Agents gain real-world power through the tools they can access. When misled through prompt injection, misalignment, or unsafe design, an agent may use legitimate tools in unsafe ways."
      case Agentic03 => "Most agentic systems lack real, governable identities. Instead, agents inherit context, credentials, or privileges in ways traditional IAM systems were never designed for."
      case Agentic04 => "Agentic systems don't run in isolation, they assemble models, tools, templates, plugins, and third-party agents at runtime. This creates a live, constantly shifting supply chain."
      case Agentic05 => "Agents often call code execution tools\U{2014}shells, runtimes, notebooks, scripts\U{2014}to complete tasks. When an attacker manipulates those inputs, the agent can unintentionally execute arbitrary or malicious code."
      case Agentic06 => "Agents use memory to store context, preferences, tasks, and past actions. If attackers can insert malicious content into that memory, the agent becomes permanently biased or compromised."
      case Agentic07 => "Multi-agent systems rely entirely on messages to coordinate. If those messages aren't authenticated, encrypted, or validated, a single spoofed or tampered instruction can mislead multiple agents."
      case Agentic08 => "Agentic systems are deeply interconnected. One bad output, whether a hallucination, malicious input, or poisoned memory, can ripple across multiple agents and workflows."
      case Agentic09 => "Agents generate polished, authoritative-sounding explanations. Humans tend to trust them\U{2014}even when they're compromised or manipulated."
      case Agentic10 => "A Rogue Agent is an AI that drifts from its intended behavior and acts with harmful autonomy. It becomes the ultimate insider threat: authorized, trusted, but misaligned."
    }

    /** The detection phrases. */
    function DetectionPatterns(): seq<string> {
      match this
      case Agentic01 => ["Agent receives untrusted input without validation", "No input sanitization for agent prompts", "Agent state can be manipulated externally"]
      case Agentic02 => ["Agent can execute arbitrary tools", "No authorization checks before tool execution", "Tools have excessive permissions"]
      case Agentic03 => ["Agents can spawn other agents", "No limits on resource creation", "No monitoring of agent proliferation"]
      case Agentic04 => ["Orchestrator has no access controls", "Agent coordination can be manipulated", "No validation of orchestration commands"]
      case Agentic05 => ["Memory accessible without authorization", "No memory validation", "Memory can be corrupted"]
      case Agentic06 => ["Agents share resources without isolation", "No sandboxing between agents", "Agents can access other agents' data"]
      case Agentic07 => ["Agent communication not encrypted", "No authentication between agents", "Communication channels unprotected"]
      case Agentic08 => ["No logging of agent actions", "No monitoring of agent behavior", "No audit trail"]
      case Agentic09 => ["Agents deployed without authentication", "No secure deployment process", "Agents accessible without authorization"]
      case Agentic10 => ["Third-party agents used without verification", "External models or tools integrated", "No security review of dependencies"]
    }

    /** The attack vectors. */
    function AttackVectors(): seq<string> {
      match this
      case Agentic01 => ["Prompt injection to manipulate agent behavior", "Environment manipulation", "State corruption attacks"]
      case Agentic02 => ["Unauthorized tool execution", "Privilege escalation via tools", "Malicious tool invocation"]
      case Agentic03 => ["Resource exhaustion via agent spawning", "Denial of service"]
      case Agentic04 => ["Orchestrator compromise", "Agent coordination attacks"]
      case Agentic05 => ["Memory corruption attacks", "Unauthorized memory access"]
      case Agentic06 => ["Cross-agent attacks", "Resource interference"]
      case Agentic07 => ["Man-in-the-middle attacks", "Communication interception"]
      case Agentic08 => ["Undetected malicious behavior", "Lack of accountability"]
      case Agentic09 => ["Unauthorized agent access", "Deployment compromise"]
      case Agentic10 => ["Malicious third-party agents", "Compromised dependencies"]
    }

    /** The mitigation dictionaries. */
    function Mitigations(): seq<MitigationSpec> {
      match this
      case Agentic01 => [MitigationSpec(Some("input-validation"), Some("Validate and sanitize all agent inputs"), Some("Implement input validation and sanitization"), Some("high")), MitigationSpec(Some("state-protection"), Some("Protect agent state from unauthorized modification"), Some("Implement state validation and integrity checks"), Some("high"))]
      case Agentic02 => [MitigationSpec(Some("tool-authorization"), Some("Implement authorization for tool execution"), Some("Use least privilege and authorization checks"), Some("high")), MitigationSpec(Some("tool-sandboxing"), Some("Sandbox tool execution"), Some("Isolate tool execution environments"), Some("high"))]
      case Agentic03 => [MitigationSpec(Some("spawn-limits"), Some("Implement limits on agent spawning"), Some("Set quotas and limits on agent creation"), Some("high"))]
      case Agentic04 => [MitigationSpec(Some("orchestrator-security"), Some("Secure the orchestration layer"), Some("Implement access controls and validation"), Some("high"))]
      case Agentic05 => [MitigationSpec(Some("memory-protection"), Some("Protect agent memory"), Some("Implement memory access controls and validation"), Some("high"))]
      case Agentic06 => [MitigationSpec(Some("agent-isolation"), Some("Isolate agents from each other"), Some("Implement sandboxing and resource isolation"), Some("high"))]
      case Agentic07 => [MitigationSpec(Some("secure-communication"), Some("Encrypt and authenticate agent communication"), Some("Use TLS and mutual authentication"), Some("high"))]
      case Agentic08 => [MitigationSpec(Some("observability"), Some("Implement comprehensive logging and monitoring"), Some("Log all agent actions and decisions"), Some("medium"))]
      case Agentic09 => [MitigationSpec(Some("secure-deployment"), Some("Implement secure deployment practices"), Some("Use authentication and secure deployment pipelines"), Some("high"))]
      case Agentic10 => [MitigationSpec(Some("supply-chain-review"), Some("Review and verify all dependencies"), Some("Implement dependency scanning and verification"), Some("medium"))]
    }

    /** The built-in pattern as a catalog entry. */
    function Pattern(): (p: ThreatPattern)
      ensures p.id == Id() && p.category == Category() && p.framework == OwaspAgenticTop10_2026
    {
      ThreatPattern(Id(), Category(), OwaspAgenticTop10_2026, Title(), Description(),
                    DetectionPatterns(), AttackVectors(), Mitigations())
    }
  }

  /** The order `_get_default_patterns` lists them in. */
  const Builtins: seq<Builtin> := [Agentic01, Agentic02, Agentic03, Agentic04, Agentic05, Agentic06, Agentic07, Agentic08, Agentic09, Agentic10]

  function PatternOf(b: Builtin): ThreatPattern {
    b.Pattern()
  }

  function IdOf(b: Builtin): string {
    b.Id()
  }

  /** `_get_default_patterns`: the built-in patterns AGENTIC01 to AGENTIC10. */
  function DefaultPatterns(): seq<ThreatPattern> {
    Seqs.Map(Builtins, PatternOf)
  }

  /** Built-in patterns carry the ids of their keys and the framework of the
      plugin. */
  lemma BuiltinPatternsFacts(bs: seq<Builtin>)
    ensures Catalog.Ids(Seqs.Map(bs, PatternOf)) == Seqs.Map(bs, IdOf)
    ensures forall p :: p in Seqs.Map(bs, PatternOf) ==> p.framework == OwaspAgenticTop10_2026
  {
    var ps := Seqs.Map(bs, PatternOf);
    forall p | p in ps ensures p.framework == OwaspAgenticTop10_2026 {
      var i :| 0 <= i < |ps| && ps[i] == p;
      assert p == bs[i].Pattern();
    }
  }

  /** The ids of the built-in patterns, in order. */
  lemma BuiltinIds()
    ensures Seqs.Map(Builtins, IdOf) ==
      ["AGENTIC01", "AGENTIC02", "AGENTIC03", "AGENTIC04", "AGENTIC05",
       "AGENTIC06", "AGENTIC07", "AGENTIC08", "AGENTIC09", "AGENTIC10"]
    ensures Seqs.NoDuplicates(Seqs.Map(Builtins, IdOf))
  {
  }

  /** The built-in catalog: ids AGENTIC01 to AGENTIC10 in order, all of the
      2026 agentic framework. */
  lemma DefaultPatternsFacts()
    ensures Catalog.Ids(DefaultPatterns()) ==
      ["AGENTIC01", "AGENTIC02", "AGENTIC03", "AGENTIC04", "AGENTIC05",
       "AGENTIC06", "AGENTIC07", "AGENTIC08", "AGENTIC09", "AGENTIC10"]
    ensures Catalog.DistinctIds(DefaultPatterns())
    ensures forall p :: p in DefaultPatterns() ==> p.framework == OwaspAgenticTop10_2026
  {
    BuiltinPatternsFacts(Builtins);
    BuiltinIds();
    Catalog.DistinctIdsFromIds(DefaultPatterns());
  }

  /** The type table of `_pattern_matches_component`: the patterns an agent
      or a tool triggers outright. */
  function RiskPatterns(t: ComponentType): Option<seq<string>> {
    match t
    case Agent => Some(["AGENTIC01", "AGENTIC02", "AGENTIC05", "AGENTIC06"])
    case Tool => Some(["AGENTIC02"])
    case _ => None
  }

  /** What Python raises when the three-parameter matcher is given four
      arguments. */
  const MatcherArityError: string :=
    "pattern_matches_component() takes 3 positional arguments but 4 were given"

  /** `_pattern_matches_component` as written: a table hit answers true, and
      every other case reaches the matcher call with four arguments, which
      raises. */
  function MatchesAsWritten(pattern: ThreatPattern, component: Component): (r: Result<bool, string>)
    ensures r.Ok? <==> RiskPatterns(component.ctype).Some? && pattern.id in RiskPatterns(component.ctype).value
    ensures r.Ok? ==> r.value
    ensures r.Err? ==> r.error == MatcherArityError
  {
    match RiskPatterns(component.ctype)
    case Some(ids) => if pattern.id in ids then Ok(true) else Err(MatcherArityError)
    case None => Err(MatcherArityError)
  }

  /** `_pattern_matches_component` with the matcher called on its three
      parameters: a table hit answers true; an agent or a tool otherwise
      matches through its own type value passed as the trigger list, so it
      matches every pattern; any other component matches only through a
      detection phrase. Where the code as written answers, this agrees. */
  function Matches(pattern: ThreatPattern, component: Component): (r: bool)
    ensures RiskPatterns(component.ctype).Some? ==> r
    ensures RiskPatterns(component.ctype).None? ==>
      (r <==> exists k :: 0 <= k < |pattern.detectionPatterns| &&
                Text.Contains(MatchText(component), Text.Lower(pattern.detectionPatterns[k])))
    ensures MatchesAsWritten(pattern, component).Ok? ==> r == MatchesAsWritten(pattern, component).value
  {
    match RiskPatterns(component.ctype)
    case Some(ids) =>
      if pattern.id in ids then true
      else PatternMatchesComponent(pattern, component, [component.ctype.Value()])
    case None => PatternMatchesComponent(pattern, component, [])
  }

  /** The severity table of `_create_threat_from_pattern`. */
  function SeverityMap(): map<string, Severity> {
    map[
      "AGENTIC01" := Critical, "AGENTIC02" := High, "AGENTIC03" := High, "AGENTIC04" := High,
      "AGENTIC05" := High, "AGENTIC06" := Medium, "AGENTIC07" := High, "AGENTIC08" := Medium,
      "AGENTIC09" := High, "AGENTIC10" := Medium]
  }

  /** The severity a pattern's threats get: the table's entry, MEDIUM for an
      id the table lacks. */
  function SeverityFor(id: string): Severity {
    if id in SeverityMap() then SeverityMap()[id] else Medium
  }

  function BuiltinSeverity(b: Builtin): Severity {
    SeverityFor(b.Id())
  }

  /** The severities of the built-in patterns, in catalog order: AGENTIC01
      critical, AGENTIC06, 08 and 10 medium, the rest high. */
  lemma BuiltinSeverities()
    ensures Seqs.Map(Builtins, BuiltinSeverity) ==
      [Critical, High, High, High, High, Medium, High, Medium, High, Medium]
  {
  }

  /** The threat for one matched pattern. */
  function ThreatFor(pattern: ThreatPattern, component: Component): (t: Threat)
    ensures t.category == pattern.category && t.affectedComponents == [component.id]
    ensures t.affectedDataFlows == []
    ensures t.severity == Some(SeverityFor(pattern.id))
  {
    CreateThreatFromPattern(pattern, component, SeverityMap())
  }

  /** `_analyze_component`: one threat per matching pattern, in catalog
      order. */
  function ComponentThreats(patterns: seq<ThreatPattern>, component: Component): seq<Threat> {
    Seqs.Collect(patterns, (p: ThreatPattern) => Matches(p, component), (p: ThreatPattern) => ThreatFor(p, component))
  }

  /** `_analyze_component` as written: the loop over the patterns stops at
      the first match test that raises. */
  function ComponentThreatsAsWritten(patterns: seq<ThreatPattern>, component: Component): Result<seq<Threat>, string>
    decreases |patterns|
  {
    if |patterns| == 0 then Ok([])
    else
      var last := patterns[|patterns| - 1];
      match ComponentThreatsAsWritten(patterns[..|patterns| - 1], component)
      case Err(e) => Err(e)
      case Ok(ts) =>
        match MatchesAsWritten(last, component)
        case Err(e) => Err(e)
        case Ok(m) => Ok(ts + if m then [ThreatFor(last, component)] else [])
  }

  /** The code as written fails on a component exactly when some pattern's
      match test raises, and otherwise agrees with the corrected matcher. */
  lemma {:induction false} ComponentThreatsAsWrittenFacts(patterns: seq<ThreatPattern>, component: Component)
    ensures ComponentThreatsAsWritten(patterns, component).Err? <==>
      exists p :: p in patterns && MatchesAsWritten(p, component).Err?
    ensures ComponentThreatsAsWritten(patterns, component).Err? ==>
      ComponentThreatsAsWritten(patterns, component).error == MatcherArityError
    ensures ComponentThreatsAsWritten(patterns, component).Ok? ==>
      ComponentThreatsAsWritten(patterns, component).value == ComponentThreats(patterns, component)
    decreases |patterns|
  {
    if |patterns| > 0 {
      var init := patterns[..|patterns| - 1];
      ComponentThreatsAsWrittenFacts(init, component);
      assert forall p :: p in patterns <==> p in init || p == patterns[|patterns| - 1];
    }
  }

  /** `_analyze_data_flow`: an AGENTIC07 threat for every unencrypted flow,
      whatever its endpoints or classification. */
  function FlowThreat(df: DataFlow, system: SystemModel): (r: Option<Threat>)
    ensures r.Some? <==> !df.encrypted
    ensures r.Some? ==>
      && r.value.category == "AGENTIC07" && r.value.framework == OwaspAgenticTop10_2026
      && r.value.title == "Insecure Communication" && r.value.severity == Some(High)
      && r.value.affectedDataFlows == [FlowKey(df)] && r.value.affectedComponents == []
  {
    if !df.encrypted then
      Some(Threat(
        Uuid, "AGENTIC07", OwaspAgenticTop10_2026, "Insecure Communication",
        description := Some("Agent communication between " + EndpointName(system, df.fromComponent)
                            + " and " + EndpointName(system, df.toComponent) + " is not encrypted"),
        severity := Some(High),
        affectedDataFlows := [FlowKey(df)]))
    else None
  }

  function FlowThreats(df: DataFlow, system: SystemModel): seq<Threat> {
    match FlowThreat(df, system)
    case Some(t) => [t]
    case None => []
  }

  predicate IsAgent(c: Component) {
    c.ctype == Agent
  }

  function ComponentId(c: Component): string {
    c.id
  }

  /** `agents`: the agent components, in component order. */
  function Agents(components: seq<Component>): seq<Component> {
    Seqs.Filter(components, IsAgent)
  }

  function IsolationDescription(n: nat): string {
    "Multiple agents (" + Text.NatToString(n) + ") detected. Ensure proper isolation between agents."
  }

  /** `_analyze_agent_interactions`: one MEDIUM AGENTIC06 threat listing
      every agent when there are at least two agents, none otherwise. */
  function IsolationThreats(system: SystemModel): (r: seq<Threat>)
    ensures |r| == if |Agents(system.components)| > 1 then 1 else 0
    ensures forall t :: t in r ==>
      && t.category == "AGENTIC06" && t.title == "Insufficient Agent Isolation"
      && t.severity == Some(Medium) && t.affectedDataFlows == []
      && t.affectedComponents == Seqs.Map(Agents(system.components), ComponentId)
  {
    var agents := Agents(system.components);
    if |agents| > 1 then
      [Threat(
        Uuid, "AGENTIC06", OwaspAgenticTop10_2026, "Insufficient Agent Isolation",
        description := Some(IsolationDescription(|agents|)),
        severity := Some(Medium),
        affectedComponents := Seqs.Map(agents, ComponentId))]
    else []
  }

  /** The isolation threat lists exactly the agents' ids. */
  lemma IsolationThreatListsAgents(system: SystemModel, t: Threat, id: string)
    requires t in IsolationThreats(system)
    ensures id in t.affectedComponents <==> exists c :: c in system.components && c.ctype == Agent && c.id == id
  {
    var agents := Agents(system.components);
    var ids := Seqs.Map(agents, ComponentId);
    if id in ids {
      var i :| 0 <= i < |ids| && ids[i] == id;
      assert agents[i] in agents;
    }
    if exists c :: c in system.components && c.ctype == Agent && c.id == id {
      var c :| c in system.components && c.ctype == Agent && c.id == id;
      assert c in agents;
      var i :| 0 <= i < |agents| && agents[i] == c;
      assert ids[i] == id;
    }
  }

  function ComponentThreatsIn(patterns: seq<ThreatPattern>): Component -> seq<Threat> {
    (c: Component) => ComponentThreats(patterns, c)
  }

  function FlowThreatsIn(system: SystemModel): DataFlow -> seq<Threat> {
    (df: DataFlow) => FlowThreats(df, system)
  }

  function ComponentsThreats(patterns: seq<ThreatPattern>, components: seq<Component>): seq<Threat> {
    Seqs.FlatMap(components, ComponentThreatsIn(patterns))
  }

  function FlowsThreats(flows: seq<DataFlow>, system: SystemModel): seq<Threat> {
    Seqs.FlatMap(flows, FlowThreatsIn(system))
  }

  /** `detect_threats` with the corrected matcher: the component threats,
      then the flow threats, then the isolation threat. */
  function Detect(catalog: seq<ThreatPattern>, system: SystemModel): seq<Threat> {
    var patterns := Catalog.PatternsFor(catalog, Some(system.framework));
    ComponentsThreats(patterns, system.components) + FlowsThreats(system.dataFlows, system) + IsolationThreats(system)
  }

  /** `detect_threats` as written: the component loop stops at the first
      match test that raises, and the exception leaves the method. */
  function ComponentsThreatsAsWritten(patterns: seq<ThreatPattern>, components: seq<Component>): Result<seq<Threat>, string>
    decreases |components|
  {
    if |components| == 0 then Ok([])
    else
      match ComponentsThreatsAsWritten(patterns, components[..|components| - 1])
      case Err(e) => Err(e)
      case Ok(ts) =>
        match ComponentThreatsAsWritten(patterns, components[|components| - 1])
        case Err(e) => Err(e)
        case Ok(cts) => Ok(ts + cts)
  }

  function DetectAsWritten(catalog: seq<ThreatPattern>, system: SystemModel): Result<seq<Threat>, string> {
    var patterns := Catalog.PatternsFor(catalog, Some(system.framework));
    match ComponentsThreatsAsWritten(patterns, system.components)
    case Err(e) => Err(e)
    case Ok(cts) => Ok(cts + FlowsThreats(system.dataFlows, system) + IsolationThreats(system))
  }

  /** Over several components the code as written fails exactly when some
      (component, pattern) pair raises, and otherwise agrees with the
      corrected detection. */
  lemma {:induction false} ComponentsThreatsAsWrittenFacts(patterns: seq<ThreatPattern>, components: seq<Component>)
    ensures ComponentsThreatsAsWritten(patterns, components).Err? <==>
      exists c, p :: c in components && p in patterns && MatchesAsWritten(p, c).Err?
    ensures ComponentsThreatsAsWritten(patterns, components).Err? ==>
      ComponentsThreatsAsWritten(patterns, components).error == MatcherArityError
    ensures ComponentsThreatsAsWritten(patterns, components).Ok? ==>
      ComponentsThreatsAsWritten(patterns, components).value == ComponentsThreats(patterns, components)
    decreases |components|
  {
    if |components| > 0 {
      var init := components[..|components| - 1];
      var last := components[|components| - 1];
      ComponentsThreatsAsWrittenFacts(patterns, init);
      ComponentThreatsAsWrittenFacts(patterns, last);
      assert forall c :: c in components <==> c in init || c == last;
    }
  }

  /** The code as written agrees with the corrected detection whenever it
      returns. */
  lemma DetectAsWrittenAgrees(catalog: seq<ThreatPattern>, system: SystemModel)
    ensures DetectAsWritten(catalog, system).Ok? ==> DetectAsWritten(catalog, system).value == Detect(catalog, system)
    ensures DetectAsWritten(catalog, system).Err? ==> DetectAsWritten(catalog, system).error == MatcherArityError
  {
    ComponentsThreatsAsWrittenFacts(Catalog.PatternsFor(catalog, Some(system.framework)), system.components);
  }

  /** Every component reaches the four-argument call for some pattern of a
      catalog with the built-in ids: an agent for AGENTIC03, any other
      component for AGENTIC01. */
  lemma BuiltinIdRaises(ps: seq<ThreatPattern>, c: Component)
    requires Catalog.Ids(ps) ==
      ["AGENTIC01", "AGENTIC02", "AGENTIC03", "AGENTIC04", "AGENTIC05",
       "AGENTIC06", "AGENTIC07", "AGENTIC08", "AGENTIC09", "AGENTIC10"]
    ensures exists p :: p in ps && MatchesAsWritten(p, c).Err?
  {
    var i := if c.ctype == Agent then 2 else 0;
    assert ps[i].id == Catalog.Ids(ps)[i];
    assert ps[i] in ps && MatchesAsWritten(ps[i], c).Err?;
  }

  /** With the built-in catalog and no override, `detect_threats` as written
      raises for every system on the agentic framework that has a
      component. */
  lemma BuiltinCatalogAsWrittenRaises(system: SystemModel)
    requires system.framework == OwaspAgenticTop10_2026
    requires |system.components| > 0
    ensures DetectAsWritten(Catalog.Merge(DefaultPatterns(), []), system) == Err(MatcherArityError)
  {
    var ps := DefaultPatterns();
    DefaultPatternsFacts();
    Catalog.MergeWithoutOverrides(ps);
    Catalog.PatternsForUniformFramework(ps, OwaspAgenticTop10_2026);
    BuiltinIdRaises(ps, system.components[0]);
    ComponentsThreatsAsWrittenFacts(ps, system.components);
  }

  /** With the corrected matcher an agent or a tool yields one threat for
      every pattern, in catalog order. */
  lemma {:induction false} AgentOrToolMatchesAll(patterns: seq<ThreatPattern>, component: Component)
    requires component.ctype == Agent || component.ctype == Tool
    ensures |ComponentThreats(patterns, component)| == |patterns|
    ensures forall i :: 0 <= i < |patterns| ==>
      ComponentThreats(patterns, component)[i] == ThreatFor(patterns[i], component)
    decreases |patterns|
  {
    if |patterns| > 0 {
      var init := patterns[..|patterns| - 1];
      AgentOrToolMatchesAll(init, component);
      assert ComponentThreats(patterns, component) ==
        ComponentThreats(init, component) + [ThreatFor(patterns[|patterns| - 1], component)];
    }
  }

  /** A component's threats are exactly those of its matching patterns. */
  lemma ComponentThreatsMembership(patterns: seq<ThreatPattern>, component: Component, t: Threat)
    ensures t in ComponentThreats(patterns, component) <==>
      exists p :: p in patterns && Matches(p, component) && t == ThreatFor(p, component)
  {
    Seqs.CollectMembership(patterns, (p: ThreatPattern) => Matches(p, component),
                           (p: ThreatPattern) => ThreatFor(p, component), t);
  }

  /** No component threat names a flow. */
  lemma ComponentsThreatsNameNoFlow(patterns: seq<ThreatPattern>, components: seq<Component>)
    ensures forall t :: t in ComponentsThreats(patterns, components) ==> t.affectedDataFlows == []
  {
    forall t | t in ComponentsThreats(patterns, components) ensures t.affectedDataFlows == [] {
      Seqs.FlatMapMembership(components, ComponentThreatsIn(patterns), t);
      var k :| 0 <= k < |components| && t in ComponentThreats(patterns, components[k]);
      ComponentThreatsMembership(patterns, components[k], t);
    }
  }

  predicate Unencrypted(df: DataFlow) {
    !df.encrypted
  }

  /** One AGENTIC07 threat per unencrypted flow, in flow order. */
  lemma {:induction false} FlowsThreatsFacts(flows: seq<DataFlow>, system: SystemModel)
    ensures |FlowsThreats(flows, system)| == |Seqs.Filter(flows, Unencrypted)|
    ensures forall t :: t in FlowsThreats(flows, system) ==>
      t.category == "AGENTIC07" && t.severity == Some(High) && |t.affectedDataFlows| == 1
    decreases |flows|
  {
    if |flows| > 0 {
      var init := flows[..|flows| - 1];
      FlowsThreatsFacts(init, system);
      assert flows == init + [flows[|flows| - 1]];
      Seqs.FilterConcat(init, [flows[|flows| - 1]], Unencrypted);
    }
  }

  /** Positions in three consecutive blocks of threats. */
  lemma BlocksLayout(cts: seq<Threat>, fts: seq<Threat>, its: seq<Threat>)
    requires forall t :: t in cts ==> t.affectedDataFlows == []
    requires forall t :: t in fts ==> t.category == "AGENTIC07" && |t.affectedDataFlows| == 1
    requires forall t :: t in its ==> t.category == "AGENTIC06"
    ensures var ts := cts + fts + its;
      && (forall i :: 0 <= i < |cts| ==> ts[i].affectedDataFlows == [])
      && (forall i :: |cts| <= i < |cts| + |fts| ==> ts[i].category == "AGENTIC07" && |ts[i].affectedDataFlows| == 1)
      && (|its| > 0 ==> ts[|ts| - 1].category == "AGENTIC06")
  {
    var ts := cts + fts + its;
    forall i | 0 <= i < |cts| ensures ts[i].affectedDataFlows == [] {
      assert ts[i] == cts[i] && cts[i] in cts;
    }
    forall i | |cts| <= i < |cts| + |fts|
      ensures ts[i].category == "AGENTIC07" && |ts[i].affectedDataFlows| == 1
    {
      assert ts[i] == fts[i - |cts|] && fts[i - |cts|] in fts;
    }
    if |its| > 0 {
      assert ts[|ts| - 1] == its[|its| - 1] && its[|its| - 1] in its;
    }
  }

  /** The layout of the result: the component threats (which name no flow),
      then one AGENTIC07 threat per unencrypted flow, then the AGENTIC06
      threat when there are at least two agents. */
  lemma DetectLayout(catalog: seq<ThreatPattern>, system: SystemModel)
    ensures var ts := Detect(catalog, system);
      var n := |ComponentsThreats(Catalog.PatternsFor(catalog, Some(system.framework)), system.components)|;
      var m := |Seqs.Filter(system.dataFlows, Unencrypted)|;
      && |ts| == n + m + (if |Agents(system.components)| > 1 then 1 else 0)
      && (forall i :: 0 <= i < n ==> ts[i].affectedDataFlows == [])
      && (forall i :: n <= i < n + m ==> ts[i].category == "AGENTIC07" && |ts[i].affectedDataFlows| == 1)
      && (|Agents(system.components)| > 1 ==> ts[|ts| - 1].category == "AGENTIC06")
  {
    var patterns := Catalog.PatternsFor(catalog, Some(system.framework));
    ComponentsThreatsNameNoFlow(patterns, system.components);
    FlowsThreatsFacts(system.dataFlows, system);
    BlocksLayout(ComponentsThreats(patterns, system.components), FlowsThreats(system.dataFlows, system),
                 IsolationThreats(system));
  }

  /** `_analyze_component` as its loop runs, with the corrected matcher. */
  method AnalyzeComponent(component: Component, patterns: seq<ThreatPattern>) returns (threats: seq<Threat>)
    ensures threats == ComponentThreats(patterns, component)
  {
    threats := [];
    var i := 0;
    while i < |patterns|
      invariant 0 <= i <= |patterns|
      invariant threats == ComponentThreats(patterns[..i], component)
    {
      assert patterns[..i + 1][..i] == patterns[..i];
      if Matches(patterns[i], component) {
        threats := threats + [ThreatFor(patterns[i], component)];
      }
      i := i + 1;
    }
    assert patterns[..i] == patterns;
  }

  /** The component types typical for agentic systems. */
  function ComponentTypes(): seq<string> {
    [Agent.Value(), Llm.Value(), Tool.Value(), Memory.Value(), McpServerComponent.Value(),
     Database.Value(), ApiEndpoint.Value(), AuthenticationService.Value()]
  }

  /** A type is typical exactly when it is one of the eight listed. */
  lemma TypicalTypes(t: ComponentType)
    ensures t.Value() in ComponentTypes() <==> t in {Agent, Llm, Tool, Memory, McpServerComponent, Database, ApiEndpoint, AuthenticationService}
  {
  }

  function TypeWarning(c: Component): string {
    "Component type " + c.ctype.Value() + " may not be typical for agentic systems"
  }

  const CapabilityWarning: string := "Agent component should specify capabilities"

  const NameError: string := "Component name is required"

  /** `validate_component`: an empty name is the only error; an atypical
      type and an agent without capabilities give warnings only. */
  function ValidateComponent(c: Component): (r: ValidationResult)
    ensures r.valid <==> c.name != ""
    ensures r.errors == if c.name == "" then [NameError] else []
    ensures TypeWarning(c) in r.warnings <==>
      c.ctype !in {Agent, Llm, Tool, Memory, McpServerComponent, Database, ApiEndpoint, AuthenticationService}
    ensures CapabilityWarning in r.warnings <==> c.ctype == Agent && c.capabilities == []
    ensures forall w :: w in r.warnings ==> w == TypeWarning(c) || w == CapabilityWarning
  {
    TypicalTypes(c.ctype);
    assert TypeWarning(c)[0] == 'C' && CapabilityWarning[0] == 'A';
    var warnings :=
      (if c.ctype.Value() !in ComponentTypes() then [TypeWarning(c)] else [])
      + (if c.ctype == Agent && c.capabilities == [] then [CapabilityWarning] else []);
    var errors := if c.name == "" then [NameError] else [];
    ValidationResult(|errors| == 0, errors, warnings)
  }

  /** The component loop of `detect_threats`. */
  method AppendComponentsThreats(before: seq<Threat>, components: seq<Component>, patterns: seq<ThreatPattern>)
    returns (threats: seq<Threat>)
    ensures threats == before + ComponentsThreats(patterns, components)
  {
    threats := before;
    var i := 0;
    while i < |components|
      invariant 0 <= i <= |components|
      invariant threats == before + ComponentsThreats(patterns, components[..i])
    {
      Seqs.FlatMapPrefixStep(components, ComponentThreatsIn(patterns), i);
      var componentThreats := AnalyzeComponent(components[i], patterns);
      threats := threats + componentThreats;
      i := i + 1;
    }
    assert components[..i] == components;
  }

  /** The data-flow loop of `detect_threats`. */
  method AppendFlowsThreats(before: seq<Threat>, system: SystemModel) returns (threats: seq<Threat>)
    ensures threats == before + FlowsThreats(system.dataFlows, system)
  {
    var flows := system.dataFlows;
    threats := before;
    var k := 0;
    while k < |flows|
      invariant 0 <= k <= |flows|
      invariant threats == before + FlowsThreats(flows[..k], system)
    {
      Seqs.FlatMapPrefixStep(flows, FlowThreatsIn(system), k);
      threats := threats + FlowThreats(flows[k], system);
      k := k + 1;
    }
    assert flows[..k] == flows;
  }

  class Plugin {
    /** `_patterns`: the catalog after overrides are merged in. */
    var patterns: seq<ThreatPattern>

    /** Building the plugin loads its catalog; `overrides` stands for the
        patterns parsed from the override directory, in file order. */
    constructor (overrides: seq<ThreatPattern>)
      ensures patterns == Catalog.Merge(DefaultPatterns(), overrides)
    {
      var merged := Catalog.MergeById(DefaultPatterns(), overrides);
      patterns := merged;
    }

    /** `get_threat_patterns`. */
    function GetThreatPatterns(framework: Option<Framework>): (r: seq<ThreatPattern>)
      reads this
      ensures framework.None? ==> r == patterns
      ensures r == Catalog.PatternsFor(patterns, framework)
      ensures framework.Some? ==> forall p :: p in r <==> p in patterns && p.framework == framework.value
      ensures framework.Some? ==> forall p ::
        multiset(r)[p] == if p.framework == framework.value then multiset(patterns)[p] else 0
    {
      Catalog.PatternsFor(patterns, framework)
    }

    /** `analyze_system`, inherited from the base plugin: the threats
        `detect_threats` finds, their number, and the sizes of the system. */
    method AnalyzeSystem(system: SystemModel) returns (r: Analysis)
      ensures r.threats == Detect(patterns, system)
      ensures r.threatCount == |Detect(patterns, system)|
      ensures r.componentsAnalyzed == |system.components| && r.dataFlowsAnalyzed == |system.dataFlows|
    {
      var threats := DetectThreats(system);
      r := Summarize(system, threats);
    }

    /** `detect_threats` as its loops run, with the corrected matcher. */
    method DetectThreats(system: SystemModel) returns (threats: seq<Threat>)
      ensures threats == Detect(patterns, system)
    {
      var ps := GetThreatPatterns(Some(system.framework));
      threats := AppendComponentsThreats([], system.components, ps);
      threats := AppendFlowsThreats(threats, system);
      threats := threats + IsolationThreats(system);
    }
  }
}

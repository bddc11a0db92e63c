/** The plugin for multi-agent systems: a catalog of five custom patterns
    and a detection that looks only at systems with at least two agents,
    for isolation, orchestration, agent-to-agent flows and shared state. */
module MultiAgentPlugin {
  import opened Wrappers
  import opened Models
  import opened PluginBase
  import opened ThreatDetection
  import Catalog
  import Seqs
  import Text

  /** The system type this plugin reports. */
  const PluginSystemType: SystemType := MultiAgent

  const SupportedFrameworks: seq<Framework> := [OwaspAgenticTop10_2026, Custom]

  /** The built-in patterns, one constructor each; the member functions give
      each pattern's fields. */
  datatype Builtin = MultiAgent01 | MultiAgent02 | MultiAgent03 | MultiAgent04 | MultiAgent05
  {
    /** The pattern id. */
    function Id(): string {
      match this
      case MultiAgent01 => "MULTI-AGENT-01"
      case MultiAgent02 => "MULTI-AGENT-02"
      case MultiAgent03 => "MULTI-AGENT-03"
      case MultiAgent04 => "MULTI-AGENT-04"
      case MultiAgent05 => "MULTI-AGENT-05"
    }

    /** The category the pattern reports. */
    function Category(): string {
      match this
      case MultiAgent01 => "MULTI-AGENT-01"
      case MultiAgent02 => "MULTI-AGENT-02"
      case MultiAgent03 => "MULTI-AGENT-03"
      case MultiAgent04 => "MULTI-AGENT-04"
      case MultiAgent05 => "MULTI-AGENT-05"
    }

    /** The pattern title. */
    function Title(): string {
      match this
      case MultiAgent01 => "Agent-to-Agent Communication Vulnerabilities"
      case MultiAgent02 => "Orchestration Layer Vulnerabilities"
      case MultiAgent03 => "Shared State Vulnerabilities"
      case MultiAgent04 => "Agent Isolation Failures"
      case MultiAgent05 => "Distributed Decision Making Vulnerabilities"
    }

    /** The pattern description. */
    function Description(): string {
      match this
      case MultiAgent01 => "Vulnerabilities in communication between agents, including message tampering, replay attacks, and unauthorized access to inter-agent messages."
      case MultiAgent02 => "Vulnerabilities in the orchestration layer that coordinates multiple agents, including unauthorized agent spawning and coordination manipulation."
      case MultiAgent03 => "Vulnerabilities in shared state or memory between agents, including race conditions, state corruption, and unauthorized state access."
      case MultiAgent04 => "Failures in isolating agents from each other, allowing unauthorized access to agent resources or data."
      case MultiAgent05 => "Vulnerabilities in distributed decision-making processes, including consensus manipulation and voting attacks."
    }

    /** The detection phrases. */
    function DetectionPatterns(): seq<string> {
      match this
      case MultiAgent01 => ["Agents communicate without encryption", "No authentication between agents", "Message integrity not verified", "No replay attack protection"]
      case MultiAgent02 => ["Orchestrator has no access controls", "Agents can be spawned without limits", "Orchestration commands not validated", "No monitoring of orchestration activities"]
      case MultiAgent03 => ["Agents share state without synchronization", "No locking mechanisms for shared resources", "State can be corrupted by concurrent access", "No access controls on shared state"]
      case MultiAgent04 => ["Agents share resources without isolation", "No sandboxing between agents", "Agents can access other agents' data", "Resource limits not enforced per agent"]
      case MultiAgent05 => ["No consensus mechanism", "Voting can be manipulated", "Decisions not verified", "No quorum requirements"]
    }

    /** The attack vectors. */
    function AttackVectors(): seq<string> {
      match this
      case MultiAgent01 => ["Man-in-the-middle attacks on agent communication", "Message replay attacks", "Message tampering", "Unauthorized message interception"]
      case MultiAgent02 => ["Orchestrator compromise", "Unauthorized agent spawning", "Coordination manipulation", "Resource exhaustion via agent spawning"]
      case MultiAgent03 => ["Race conditions", "State corruption", "Unauthorized state access", "Concurrent modification attacks"]
      case MultiAgent04 => ["Cross-agent attacks", "Resource interference", "Data leakage between agents", "Privilege escalation"]
      case MultiAgent05 => ["Consensus manipulation", "Voting attacks", "Sybil attacks", "Decision corruption"]
    }

    /** The mitigation dictionaries. */
    function Mitigations(): seq<MitigationSpec> {
      match this
      case MultiAgent01 => [MitigationSpec(Some("secure-communication"), Some("Encrypt and authenticate all agent-to-agent communication"), Some("Use TLS with mutual authentication"), Some("high")), MitigationSpec(Some("message-integrity"), Some("Verify message integrity"), Some("Use message authentication codes (MACs)"), Some("high"))]
      case MultiAgent02 => [MitigationSpec(Some("orchestrator-security"), Some("Secure the orchestration layer"), Some("Implement access controls and validation"), Some("high")), MitigationSpec(Some("spawn-limits"), Some("Implement limits on agent spawning"), Some("Set quotas and limits"), Some("high"))]
      case MultiAgent03 => [MitigationSpec(Some("state-synchronization"), Some("Implement proper state synchronization"), Some("Use locks, transactions, or immutable state"), Some("high")), MitigationSpec(Some("state-isolation"), Some("Isolate agent state where possible"), Some("Use separate state stores per agent"), Some("medium"))]
      case MultiAgent04 => [MitigationSpec(Some("agent-isolation"), Some("Isolate agents from each other"), Some("Use sandboxing and resource isolation"), Some("high")), MitigationSpec(Some("resource-quotas"), Some("Enforce resource quotas per agent"), Some("Set CPU, memory, and network limits"), Some("medium"))]
      case MultiAgent05 => [MitigationSpec(Some("consensus-mechanism"), Some("Implement robust consensus mechanism"), Some("Use Byzantine fault tolerance"), Some("high")), MitigationSpec(Some("decision-verification"), Some("Verify distributed decisions"), Some("Require quorum and verification"), Some("high"))]
    }

    /** The built-in pattern as a catalog entry. */
    function Pattern(): (p: ThreatPattern)
      ensures p.id == Id() && p.category == Category() && p.framework == Custom
    {
      ThreatPattern(Id(), Category(), Custom, Title(), Description(),
                    DetectionPatterns(), AttackVectors(), Mitigations())
    }
  }

  /** The order `_get_default_patterns` lists them in. */
  const Builtins: seq<Builtin> := [MultiAgent01, MultiAgent02, MultiAgent03, MultiAgent04, MultiAgent05]

  function PatternOf(b: Builtin): ThreatPattern {
    b.Pattern()
  }

  function IdOf(b: Builtin): string {
    b.Id()
  }

  /** `_get_default_patterns`: the built-in patterns MULTI-AGENT-01 to MULTI-AGENT-05. */
  function DefaultPatterns(): seq<ThreatPattern> {
    Seqs.Map(Builtins, PatternOf)
  }

  /** Built-in patterns carry the ids of their keys and the framework of the
      plugin. */
  lemma BuiltinPatternsFacts(bs: seq<Builtin>)
    ensures Catalog.Ids(Seqs.Map(bs, PatternOf)) == Seqs.Map(bs, IdOf)
    ensures forall p :: p in Seqs.Map(bs, PatternOf) ==> p.framework == Custom
  {
    var ps := Seqs.Map(bs, PatternOf);
    forall p | p in ps ensures p.framework == Custom {
      var i :| 0 <= i < |ps| && ps[i] == p;
      assert p == bs[i].Pattern();
    }
  }

  /** The ids of the built-in patterns, in order. */
  lemma BuiltinIds()
    ensures Seqs.Map(Builtins, IdOf) ==
      ["MULTI-AGENT-01", "MULTI-AGENT-02", "MULTI-AGENT-03", "MULTI-AGENT-04", "MULTI-AGENT-05"]
    ensures Seqs.NoDuplicates(Seqs.Map(Builtins, IdOf))
  {
  }

  /** The built-in catalog: ids MULTI-AGENT-01 to MULTI-AGENT-05 in order,
      all of the custom framework. */
  lemma DefaultPatternsFacts()
    ensures Catalog.Ids(DefaultPatterns()) ==
      ["MULTI-AGENT-01", "MULTI-AGENT-02", "MULTI-AGENT-03", "MULTI-AGENT-04", "MULTI-AGENT-05"]
    ensures Catalog.DistinctIds(DefaultPatterns())
    ensures forall p :: p in DefaultPatterns() ==> p.framework == Custom
  {
    BuiltinPatternsFacts(Builtins);
    BuiltinIds();
    Catalog.DistinctIdsFromIds(DefaultPatterns());
  }

  predicate IsAgent(c: Component) {
    c.ctype == Agent
  }

  function ComponentId(c: Component): string {
    c.id
  }

  /** `agents`: the agent components, in component order. */
  function Agents(components: seq<Component>): seq<Component> {
    Seqs.Filter(components, IsAgent)
  }

  /** A component whose lower-cased name mentions orchestration or
      coordination. */
  predicate IsOrchestrator(c: Component) {
    Text.Contains(Text.Lower(c.name), "orchestrat") || Text.Contains(Text.Lower(c.name), "coordinator")
  }

  function Orchestrators(components: seq<Component>): seq<Component> {
    Seqs.Filter(components, IsOrchestrator)
  }

  function IsolationDescription(n: nat): string {
    "Multiple agents (" + Text.NatToString(n) + ") detected. Ensure proper isolation between agents."
  }

  const OrchestrationDescription: string :=
    "Orchestration layer detected. Ensure proper access controls and validation."

  /** The isolation check of `_analyze_agent_interactions`: a MEDIUM
      MULTI-AGENT-04 threat listing the agents when there are at least
      two. */
  function IsolationThreats(system: SystemModel): seq<Threat> {
    var agents := Agents(system.components);
    if |agents| > 1 then
      [Threat(Uuid, "MULTI-AGENT-04", Custom, "Agent Isolation Failures",
              description := Some(IsolationDescription(|agents|)),
              severity := Some(Medium),
              affectedComponents := Seqs.Map(agents, ComponentId))]
    else []
  }

  /** The orchestration check of `_analyze_agent_interactions`: a HIGH
      MULTI-AGENT-02 threat listing the orchestrators when there is one. */
  function OrchestrationThreats(system: SystemModel): seq<Threat> {
    var orchestrators := Orchestrators(system.components);
    if |orchestrators| > 0 then
      [Threat(Uuid, "MULTI-AGENT-02", Custom, "Orchestration Layer Vulnerabilities",
              description := Some(OrchestrationDescription),
              severity := Some(High),
              affectedComponents := Seqs.Map(orchestrators, ComponentId))]
    else []
  }

  /** `_analyze_agent_interactions`. */
  function InteractionThreats(system: SystemModel): seq<Threat> {
    IsolationThreats(system) + OrchestrationThreats(system)
  }

  /** The ids listed by a threat built from `Map(cs, ComponentId)` are those
      of the components in `cs`. */
  lemma ListedIds(cs: seq<Component>, id: string)
    ensures id in Seqs.Map(cs, ComponentId) <==> exists c :: c in cs && c.id == id
  {
    var ids := Seqs.Map(cs, ComponentId);
    if exists c :: c in cs && c.id == id {
      var c :| c in cs && c.id == id;
      var i :| 0 <= i < |cs| && cs[i] == c;
      assert ids[i] == id;
    }
  }

  /** With at least two agents there is one isolation threat, and it lists
      exactly the agents. */
  lemma IsolationThreatsFacts(system: SystemModel, id: string)
    requires |Agents(system.components)| > 1
    ensures var ts := IsolationThreats(system);
      && |ts| == 1 && ts[0].category == "MULTI-AGENT-04" && ts[0].severity == Some(Medium)
      && (id in ts[0].affectedComponents <==> exists c :: c in system.components && c.ctype == Agent && c.id == id)
  {
    ListedIds(Agents(system.components), id);
  }

  /** There is an orchestration threat exactly when some component's name
      mentions orchestration or coordination, and it lists exactly those
      components. */
  lemma OrchestrationThreatsFacts(system: SystemModel, id: string)
    ensures var ts := OrchestrationThreats(system);
      && |ts| == (if exists c :: c in system.components && IsOrchestrator(c) then 1 else 0)
      && (|ts| == 1 ==>
            && ts[0].category == "MULTI-AGENT-02" && ts[0].severity == Some(High)
            && (id in ts[0].affectedComponents <==> exists c :: c in system.components && IsOrchestrator(c) && c.id == id))
  {
    var orchestrators := Orchestrators(system.components);
    ListedIds(orchestrators, id);
    assert forall c :: c in orchestrators <==> c in system.components && IsOrchestrator(c);
    assert |orchestrators| > 0 ==> orchestrators[0] in orchestrators;
    if exists c :: c in system.components && IsOrchestrator(c) {
      var c :| c in system.components && IsOrchestrator(c);
      assert c in orchestrators;
    }
  }

  /** Both ends of the flow name agents: the first component with each id
      exists and is an agent. */
  predicate AgentToAgent(system: SystemModel, df: DataFlow) {
    match (system.GetComponent(df.fromComponent), system.GetComponent(df.toComponent))
    case (Some(a), Some(b)) => a.ctype == Agent && b.ctype == Agent
    case _ => false
  }

  /** `_analyze_agent_data_flow`, reached only for agent-to-agent flows: a
      HIGH MULTI-AGENT-01 threat when the flow is unencrypted. The
      description names the endpoints by id. */
  function AgentFlowThreats(system: SystemModel, df: DataFlow): seq<Threat> {
    if AgentToAgent(system, df) && !df.encrypted then
      [Threat(Uuid, "MULTI-AGENT-01", Custom, "Agent-to-Agent Communication Vulnerabilities",
              description := Some("Agent communication between " + df.fromComponent + " and "
                                  + df.toComponent + " is not encrypted"),
              severity := Some(High),
              affectedDataFlows := [FlowKey(df)])]
    else []
  }

  function FlowThreatsIn(system: SystemModel): DataFlow -> seq<Threat> {
    (df: DataFlow) => AgentFlowThreats(system, df)
  }

  function AgentFlowsThreats(system: SystemModel, flows: seq<DataFlow>): seq<Threat> {
    Seqs.FlatMap(flows, FlowThreatsIn(system))
  }

  /** Every flow threat comes from an unencrypted agent-to-agent flow of the
      list and names that flow; every such flow gives one. */
  lemma AgentFlowsThreatsMembership(system: SystemModel, flows: seq<DataFlow>, t: Threat)
    ensures t in AgentFlowsThreats(system, flows) ==>
      && t.category == "MULTI-AGENT-01" && t.severity == Some(High)
      && exists df :: df in flows && AgentToAgent(system, df) && !df.encrypted && t.affectedDataFlows == [FlowKey(df)]
    ensures forall df :: df in flows && AgentToAgent(system, df) && !df.encrypted ==>
      exists u :: u in AgentFlowsThreats(system, flows) && u.affectedDataFlows == [FlowKey(df)]
  {
    var f := FlowThreatsIn(system);
    Seqs.FlatMapMembership(flows, f, t);
    if t in AgentFlowsThreats(system, flows) {
      var k :| 0 <= k < |flows| && t in f(flows[k]);
      assert flows[k] in flows;
    }
    forall df | df in flows && AgentToAgent(system, df) && !df.encrypted
      ensures exists u :: u in AgentFlowsThreats(system, flows) && u.affectedDataFlows == [FlowKey(df)]
    {
      var u := AgentFlowThreats(system, df)[0];
      var k :| 0 <= k < |flows| && flows[k] == df;
      Seqs.FlatMapMembership(flows, f, u);
    }
  }

  /** A component that holds shared state: a memory, or a name that mentions
      sharing or state. */
  predicate IsSharedResource(c: Component) {
    c.ctype == Memory || Text.Contains(Text.Lower(c.name), "shared") || Text.Contains(Text.Lower(c.name), "state")
  }

  /** The ids of the shared resources, in component order. */
  function SharedIds(system: SystemModel): seq<string> {
    Seqs.Map(Seqs.Filter(system.components, IsSharedResource), ComponentId)
  }

  /** `agent_ids`: the ids of the agent components. */
  function AgentIds(system: SystemModel): set<string> {
    set c | c in system.components && c.ctype == Agent :: c.id
  }

  /** A flow from an agent into a shared resource. */
  predicate IsSharedAccess(system: SystemModel, df: DataFlow) {
    df.toComponent in SharedIds(system) && df.fromComponent in AgentIds(system)
  }

  /** The keys of `shared_access` after the loop over `flows`: each accessed
      resource, in order of its first access. */
  function AccessKeys(system: SystemModel, flows: seq<DataFlow>): seq<string>
    decreases |flows|
  {
    if |flows| == 0 then []
    else
      var keys := AccessKeys(system, flows[..|flows| - 1]);
      var df := flows[|flows| - 1];
      if IsSharedAccess(system, df) && df.toComponent !in keys then keys + [df.toComponent] else keys
  }

  /** `shared_access[key]` after the loop over `flows`: the source of every
      access to `key`, one entry per flow, in flow order. */
  function Accessors(system: SystemModel, flows: seq<DataFlow>, key: string): seq<string>
    decreases |flows|
  {
    if |flows| == 0 then []
    else
      var df := flows[|flows| - 1];
      Accessors(system, flows[..|flows| - 1], key)
      + (if IsSharedAccess(system, df) && df.toComponent == key then [df.fromComponent] else [])
  }

  /** The accessed resources are listed once each, and they are exactly the
      targets of the shared accesses; a resource has accessors exactly when
      it is listed, and every accessor is an agent's id. */
  lemma {:induction false} AccessFacts(system: SystemModel, flows: seq<DataFlow>, key: string)
    ensures Seqs.NoDuplicates(AccessKeys(system, flows))
    ensures key in AccessKeys(system, flows) <==>
      exists df :: df in flows && IsSharedAccess(system, df) && df.toComponent == key
    ensures |Accessors(system, flows, key)| > 0 <==> key in AccessKeys(system, flows)
    ensures forall a :: a in Accessors(system, flows, key) ==> a in AgentIds(system)
    ensures key in AccessKeys(system, flows) ==> key in SharedIds(system)
    decreases |flows|
  {
    if |flows| > 0 {
      var init := flows[..|flows| - 1];
      AccessFacts(system, init, key);
      assert forall df :: df in flows <==> df in init || df == flows[|flows| - 1];
    }
  }

  function SharedDescription(n: nat, key: string): string {
    "Multiple agents (" + Text.NatToString(n) + ") access shared resource " + key + ". Ensure proper synchronization."
  }

  /** The threat for a resource and its accessors. */
  function SharedThreat(key: string, accessors: seq<string>): Threat {
    Threat(Uuid, "MULTI-AGENT-03", Custom, "Shared State Vulnerabilities",
           description := Some(SharedDescription(|accessors|, key)),
           severity := Some(Medium),
           affectedComponents := [key] + accessors)
  }

  /** The second loop of `_analyze_shared_resources` over the given keys: a
      threat for each resource accessed more than once. */
  function SharedThreatsOver(system: SystemModel, keys: seq<string>): seq<Threat> {
    Seqs.Collect(keys, IsShared(system), ThreatFor(system))
  }

  /** Whether more than one agent access to a resource was recorded. */
  function IsShared(system: SystemModel): string -> bool {
    (k: string) => |Accessors(system, system.dataFlows, k)| > 1
  }

  function ThreatFor(system: SystemModel): string -> Threat {
    (k: string) => SharedThreat(k, Accessors(system, system.dataFlows, k))
  }

  /** `_analyze_shared_resources`. */
  function SharedThreats(system: SystemModel): seq<Threat> {
    SharedThreatsOver(system, AccessKeys(system, system.dataFlows))
  }

  /** A shared-state threat exists for a resource exactly when the flows
      hold more than one access by an agent to it; it lists the resource
      first, then the accessors, which are agents' ids. */
  lemma SharedThreatsMembership(system: SystemModel, t: Threat)
    ensures t in SharedThreats(system) <==>
      exists key :: key in AccessKeys(system, system.dataFlows) &&
        |Accessors(system, system.dataFlows, key)| > 1 &&
        t == SharedThreat(key, Accessors(system, system.dataFlows, key))
    ensures t in SharedThreats(system) ==>
      && t.category == "MULTI-AGENT-03" && t.severity == Some(Medium)
      && |t.affectedComponents| > 2 && t.affectedComponents[0] in SharedIds(system)
      && forall i :: 1 <= i < |t.affectedComponents| ==> t.affectedComponents[i] in AgentIds(system)
  {
    var keys := AccessKeys(system, system.dataFlows);
    Seqs.CollectMembership(keys, IsShared(system), ThreatFor(system), t);
    if t in SharedThreats(system) {
      var key :| key in keys && |Accessors(system, system.dataFlows, key)| > 1 &&
                 t == SharedThreat(key, Accessors(system, system.dataFlows, key));
      SharedThreatShape(system, key);
    }
  }

  /** The threat for a resource accessed more than once lists the resource,
      then its accessors, all agents. */
  lemma SharedThreatShape(system: SystemModel, key: string)
    requires key in AccessKeys(system, system.dataFlows) && |Accessors(system, system.dataFlows, key)| > 1
    ensures var t := SharedThreat(key, Accessors(system, system.dataFlows, key));
      && |t.affectedComponents| > 2 && t.affectedComponents[0] in SharedIds(system)
      && forall i :: 1 <= i < |t.affectedComponents| ==> t.affectedComponents[i] in AgentIds(system)
  {
    AccessFacts(system, system.dataFlows, key);
    var acc := Accessors(system, system.dataFlows, key);
    var t := SharedThreat(key, acc);
    forall i | 1 <= i < |t.affectedComponents| ensures t.affectedComponents[i] in AgentIds(system) {
      assert t.affectedComponents[i] == acc[i - 1] && acc[i - 1] in acc;
    }
  }

  /** No resource gets two shared-state threats. */
  lemma SharedThreatsDistinct(system: SystemModel)
    ensures forall t :: t in SharedThreats(system) ==> |t.affectedComponents| > 0
    ensures var ts := SharedThreats(system);
      forall i, j :: 0 <= i < j < |ts| ==> ts[i].affectedComponents[0] != ts[j].affectedComponents[0]
  {
    forall t | t in SharedThreats(system) ensures |t.affectedComponents| > 0 {
      SharedThreatsMembership(system, t);
    }
    var keys := AccessKeys(system, system.dataFlows);
    var p, g := IsShared(system), ThreatFor(system);
    AccessFacts(system, system.dataFlows, "");
    Seqs.CollectIsMapFilter(keys, p, g);
    Seqs.FilterNoDuplicates(keys, p);
  }

  /** Two accesses to a resource give it at least two accessors. */
  lemma {:induction false} TwoAccessesTwoAccessors(system: SystemModel, flows: seq<DataFlow>, key: string, a: nat, b: nat)
    requires a < b < |flows|
    requires IsSharedAccess(system, flows[a]) && flows[a].toComponent == key
    requires IsSharedAccess(system, flows[b]) && flows[b].toComponent == key
    ensures |Accessors(system, flows, key)| >= 2
    decreases |flows|
  {
    var n := |flows| - 1;
    var init := flows[..n];
    if b < n {
      assert init[a] == flows[a] && init[b] == flows[b];
      TwoAccessesTwoAccessors(system, init, key, a, b);
    } else {
      assert flows[a] in init;
      AccessFacts(system, init, key);
    }
  }

  /** Any two flows from agents into the same shared resource raise the
      shared-state threat for it, even when both come from the same agent:
      the accessors are counted per flow, not per agent. */
  lemma TwoAccessFlowsFlagged(system: SystemModel, a: nat, b: nat)
    requires a < b < |system.dataFlows|
    requires IsSharedAccess(system, system.dataFlows[a]) && IsSharedAccess(system, system.dataFlows[b])
    requires system.dataFlows[a].toComponent == system.dataFlows[b].toComponent
    ensures var key := system.dataFlows[a].toComponent;
      SharedThreat(key, Accessors(system, system.dataFlows, key)) in SharedThreats(system)
  {
    var key := system.dataFlows[a].toComponent;
    TwoAccessesTwoAccessors(system, system.dataFlows, key, a, b);
    AccessFacts(system, system.dataFlows, key);
    SharedThreatsMembership(system, SharedThreat(key, Accessors(system, system.dataFlows, key)));
  }

  /** `detect_threats`: nothing for fewer than two agents; otherwise the
      interaction threats, then the threats of the agent-to-agent flows, then
      the shared-state threats. The pattern catalog takes no part. */
  function Detect(system: SystemModel): (r: seq<Threat>)
    ensures |Agents(system.components)| < 2 ==> r == []
  {
    if |Agents(system.components)| < 2 then []
    else InteractionThreats(system) + AgentFlowsThreats(system, system.dataFlows) + SharedThreats(system)
  }

  /** Every threat of a system with at least two agents is one of the five
      kinds, and each kind comes from its own block. */
  lemma DetectMembership(system: SystemModel, t: Threat)
    requires |Agents(system.components)| > 1
    ensures t in Detect(system) <==>
      t in InteractionThreats(system) || t in AgentFlowsThreats(system, system.dataFlows) || t in SharedThreats(system)
    ensures t in Detect(system) ==> t.category in {"MULTI-AGENT-01", "MULTI-AGENT-02", "MULTI-AGENT-03", "MULTI-AGENT-04"}
  {
    AgentFlowsThreatsMembership(system, system.dataFlows, t);
    SharedThreatsMembership(system, t);
  }

  /** The first loop of `_analyze_shared_resources`: the dictionary
      `shared_access`, with the order its keys were inserted in. */
  method CollectSharedAccess(system: SystemModel) returns (access: map<string, seq<string>>, order: seq<string>)
    ensures order == AccessKeys(system, system.dataFlows)
    ensures forall k :: k in access <==> k in order
    ensures forall k :: k in access ==> access[k] == Accessors(system, system.dataFlows, k)
  {
    var sharedIds := SharedIds(system);
    var agentIds := AgentIds(system);
    var flows := system.dataFlows;
    access, order := map[], [];
    var i := 0;
    while i < |flows|
      invariant 0 <= i <= |flows|
      invariant order == AccessKeys(system, flows[..i])
      invariant forall k :: k in access <==> k in order
      invariant forall k :: k in access ==> access[k] == Accessors(system, flows[..i], k)
    {
      var df := flows[i];
      assert flows[..i + 1][..i] == flows[..i];
      AccessFacts(system, flows[..i], df.toComponent);
      if df.toComponent in sharedIds && df.fromComponent in agentIds {
        if df.toComponent !in access {
          access := access[df.toComponent := []];
          order := order + [df.toComponent];
        }
        access := access[df.toComponent := access[df.toComponent] + [df.fromComponent]];
      }
      i := i + 1;
    }
    assert flows[..i] == flows;
  }

  /** `_analyze_shared_resources` as its loops run. */
  method AnalyzeSharedResources(system: SystemModel) returns (threats: seq<Threat>)
    ensures threats == SharedThreats(system)
  {
    var shared := Seqs.Filter(system.components, IsSharedResource);
    var access: map<string, seq<string>> := map[];
    var order: seq<string> := [];
    if |shared| > 0 {
      access, order := CollectSharedAccess(system);
    } else {
      NoSharedAccess(system, system.dataFlows);
    }
    threats := ReportShared(system, access, order);
  }

  /** The second loop of `_analyze_shared_resources`: a threat for each
      resource accessed by more than one agent, in first-access order. */
  method ReportShared(system: SystemModel, access: map<string, seq<string>>, order: seq<string>)
    returns (threats: seq<Threat>)
    requires forall k :: k in order ==> k in access && access[k] == Accessors(system, system.dataFlows, k)
    ensures threats == SharedThreatsOver(system, order)
  {
    threats := [];
    var j := 0;
    while j < |order|
      invariant 0 <= j <= |order|
      invariant threats == Seqs.Collect(order[..j], IsShared(system), ThreatFor(system))
    {
      var key := order[j];
      Seqs.CollectPrefixStep(order, IsShared(system), ThreatFor(system), j);
      if |access[key]| > 1 {
        threats := threats + [SharedThreat(key, access[key])];
      }
      j := j + 1;
    }
    assert order[..j] == order;
  }

  /** Without shared resources no flow is a shared access. */
  lemma {:induction false} NoSharedAccess(system: SystemModel, flows: seq<DataFlow>)
    requires |SharedIds(system)| == 0
    ensures AccessKeys(system, flows) == []
    decreases |flows|
  {
    if |flows| > 0 {
      NoSharedAccess(system, flows[..|flows| - 1]);
    }
  }

  /** The component types typical for multi-agent systems. */
  function ComponentTypes(): seq<string> {
    [Agent.Value(), Llm.Value(), Tool.Value(), Memory.Value(), McpServerComponent.Value(),
     Database.Value(), ApiEndpoint.Value(), AuthenticationService.Value()]
  }

  /** A type is typical exactly when it is one of the eight listed. */
  lemma TypicalTypes(t: ComponentType)
    ensures t.Value() in ComponentTypes() <==>
      t in {Agent, Llm, Tool, Memory, McpServerComponent, Database, ApiEndpoint, AuthenticationService}
  {
  }

  function TypeWarning(c: Component): string {
    "Component type " + c.ctype.Value() + " may not be typical for multi-agent systems"
  }

  const CapabilityWarning: string := "Agent component should specify capabilities"

  const NameError: string := "Component name is required"

  /** `validate_component`: an empty name is the only error; an atypical
      type and an agent without capabilities give warnings only. */
  function ValidateComponent(c: Component): (r: ValidationResult)
    ensures r.valid <==> c.name != ""
    ensures r.errors == if c.name == "" then [NameError] else []
    ensures TypeWarning(c) in r.warnings <==>
      c.ctype !in {Agent, Llm, Tool, Memory, McpServerComponent, Database, ApiEndpoint, AuthenticationService}
    ensures CapabilityWarning in r.warnings <==> c.ctype == Agent && c.capabilities == []
    ensures forall w :: w in r.warnings ==> w == TypeWarning(c) || w == CapabilityWarning
  {
    TypicalTypes(c.ctype);
    assert TypeWarning(c)[0] == 'C' && CapabilityWarning[0] == 'A';
    var warnings :=
      (if c.ctype.Value() !in ComponentTypes() then [TypeWarning(c)] else [])
      + (if c.ctype == Agent && c.capabilities == [] then [CapabilityWarning] else []);
    var errors := if c.name == "" then [NameError] else [];
    ValidationResult(|errors| == 0, errors, warnings)
  }

  class Plugin {
    /** `_patterns`: the catalog after overrides are merged in. */
    var patterns: seq<ThreatPattern>

    /** Building the plugin loads its catalog; `overrides` stands for the
        patterns parsed from the override directory, in file order. */
    constructor (overrides: seq<ThreatPattern>)
      ensures patterns == Catalog.Merge(DefaultPatterns(), overrides)
    {
      var merged := Catalog.MergeById(DefaultPatterns(), overrides);
      patterns := merged;
    }

    /** `get_threat_patterns`. */
    function GetThreatPatterns(framework: Option<Framework>): (r: seq<ThreatPattern>)
      reads this
      ensures framework.None? ==> r == patterns
      ensures r == Catalog.PatternsFor(patterns, framework)
      ensures framework.Some? ==> forall p :: p in r <==> p in patterns && p.framework == framework.value
      ensures framework.Some? ==> forall p ::
        multiset(r)[p] == if p.framework == framework.value then multiset(patterns)[p] else 0
    {
      Catalog.PatternsFor(patterns, framework)
    }

    /** `analyze_system`, inherited from the base plugin: the threats
        `detect_threats` finds, their number, and the sizes of the system. */
    method AnalyzeSystem(system: SystemModel) returns (r: Analysis)
      ensures r.threats == Detect(system)
      ensures r.threatCount == |Detect(system)|
      ensures r.componentsAnalyzed == |system.components| && r.dataFlowsAnalyzed == |system.dataFlows|
      ensures |Agents(system.components)| < 2 ==> r.threatCount == 0
    {
      var threats := DetectThreats(system);
      r := Summarize(system, threats);
    }

    /** `detect_threats` as its loops run. */
    method DetectThreats(system: SystemModel) returns (threats: seq<Threat>)
      ensures threats == Detect(system)
    {
      threats := [];
      var agents := Agents(system.components);
      if |agents| < 2 {
        return;
      }
      threats := InteractionThreats(system);
      threats := AppendAgentFlowThreats(threats, system);
      var sharedThreats := AnalyzeSharedResources(system);
      threats := threats + sharedThreats;
    }

    /** The loop of `detect_threats` over data flows. */
    static method AppendAgentFlowThreats(before: seq<Threat>, system: SystemModel) returns (threats: seq<Threat>)
      ensures threats == before + AgentFlowsThreats(system, system.dataFlows)
    {
      var flows := system.dataFlows;
      threats := before;
      var k := 0;
      while k < |flows|
        invariant 0 <= k <= |flows|
        invariant threats == before + AgentFlowsThreats(system, flows[..k])
      {
        Seqs.FlatMapPrefixStep(flows, FlowThreatsIn(system), k);
        threats := threats + AgentFlowThreats(system, flows[k]);
        k := k + 1;
      }
      assert flows[..k] == flows;
    }
  }
}

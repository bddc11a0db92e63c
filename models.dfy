/** The framework-agnostic domain model: enumerations, components, data
    flows, the system, DREAD scores, mitigations, threats and the complete
    threat model with its referential-integrity check. */
module Models {
  import opened Wrappers
  import Text
  import Seqs

  datatype SystemType =
    | LlmApp | AgenticSystem | MultiAgent | McpServer | WebApp | MobileApp
    | Api | Microservices | CloudInfrastructure
  {
    function Value(): string {
      match this
      case LlmApp => "llm-app"
      case AgenticSystem => "agentic-system"
      case MultiAgent => "multi-agent"
      case McpServer => "mcp-server"
      case WebApp => "web-app"
      case MobileApp => "mobile-app"
      case Api => "api"
      case Microservices => "microservices"
      case CloudInfrastructure => "cloud-infrastructure"
    }
  }

  /** `SystemType(s)`: the member whose value is `s`, if any. */
  function ParseSystemType(s: string): (r: Option<SystemType>)
    ensures r.Some? ==> r.value.Value() == s
    ensures forall t: SystemType :: t.Value() == s ==> r == Some(t)
  {
    if s == "llm-app" then Some(LlmApp)
    else if s == "agentic-system" then Some(AgenticSystem)
    else if s == "multi-agent" then Some(MultiAgent)
    else if s == "mcp-server" then Some(McpServer)
    else if s == "web-app" then Some(WebApp)
    else if s == "mobile-app" then Some(MobileApp)
    else if s == "api" then Some(Api)
    else if s == "microservices" then Some(Microservices)
    else if s == "cloud-infrastructure" then Some(CloudInfrastructure)
    else None
  }

  datatype Framework =
    | OwaspLlmTop10_2025 | OwaspAgenticTop10_2026 | OwaspTop10_2021
    | OwaspMobileTop10 | OwaspApiTop10 | Stride | Dread | Pasta | Trike
    | Plot4ai | Custom
  {
    function Value(): string {
      match this
      case OwaspLlmTop10_2025 => "owasp-llm-top10-2025"
      case OwaspAgenticTop10_2026 => "owasp-agentic-top10-2026"
      case OwaspTop10_2021 => "owasp-top10-2021"
      case OwaspMobileTop10 => "owasp-mobile-top10"
      case OwaspApiTop10 => "owasp-api-top10"
      case Stride => "stride"
      case Dread => "dread"
      case Pasta => "pasta"
      case Trike => "trike"
      case Plot4ai => "plot4ai"
      case Custom => "custom"
    }

    /** The member's name, as in `ThreatModelingFramework.STRIDE`. */
    function MemberName(): string {
      match this
      case OwaspLlmTop10_2025 => "OWASP_LLM_TOP10_2025"
      case OwaspAgenticTop10_2026 => "OWASP_AGENTIC_TOP10_2026"
      case OwaspTop10_2021 => "OWASP_TOP10_2021"
      case OwaspMobileTop10 => "OWASP_MOBILE_TOP10"
      case OwaspApiTop10 => "OWASP_API_TOP10"
      case Stride => "STRIDE"
      case Dread => "DREAD"
      case Pasta => "PASTA"
      case Trike => "TRIKE"
      case Plot4ai => "PLOT4AI"
      case Custom => "CUSTOM"
    }

    /** What an f-string prints for the member: a `(str, Enum)` member is
        formatted as its class and member name. */
    function Formatted(): string {
      "ThreatModelingFramework." + MemberName()
    }
  }

  /** `ThreatModelingFramework(s)`: the member whose value is `s`, if any. */
  function ParseFramework(s: string): (r: Option<Framework>)
    ensures r.Some? ==> r.value.Value() == s
    ensures forall f: Framework :: f.Value() == s ==> r == Some(f)
  {
    if s == "owasp-llm-top10-2025" then Some(OwaspLlmTop10_2025)
    else if s == "owasp-agentic-top10-2026" then Some(OwaspAgenticTop10_2026)
    else if s == "owasp-top10-2021" then Some(OwaspTop10_2021)
    else if s == "owasp-mobile-top10" then Some(OwaspMobileTop10)
    else if s == "owasp-api-top10" then Some(OwaspApiTop10)
    else if s == "stride" then Some(Stride)
    else if s == "dread" then Some(Dread)
    else if s == "pasta" then Some(Pasta)
    else if s == "trike" then Some(Trike)
    else if s == "plot4ai" then Some(Plot4ai)
    else if s == "custom" then Some(Custom)
    else None
  }

  datatype ComponentType =
    | Llm | Agent | Tool | Memory | McpServerComponent
    | WebServer | ApiEndpoint | MobileAppComponent | Browser
    | AuthenticationService | AuthorizationService
    | Database | Cache | MessageQueue | LoadBalancer | Cdn | Firewall
  {
    function Value(): string {
      match this
      case Llm => "llm"
      case Agent => "agent"
      case Tool => "tool"
      case Memory => "memory"
      case McpServerComponent => "mcp-server"
      case WebServer => "web-server"
      case ApiEndpoint => "api-endpoint"
      case MobileAppComponent => "mobile-app"
      case Browser => "browser"
      case AuthenticationService => "authentication-service"
      case AuthorizationService => "authorization-service"
      case Database => "database"
      case Cache => "cache"
      case MessageQueue => "message-queue"
      case LoadBalancer => "load-balancer"
      case Cdn => "cdn"
      case Firewall => "firewall"
    }
  }

  /** `ComponentType(s)`: the member whose value is `s`, if any. */
  function ParseComponentType(s: string): (r: Option<ComponentType>)
    ensures r.Some? ==> r.value.Value() == s
    ensures forall t: ComponentType :: t.Value() == s ==> r == Some(t)
  {
    if s == "llm" then Some(Llm)
    else if s == "agent" then Some(Agent)
    else if s == "tool" then Some(Tool)
    else if s == "memory" then Some(Memory)
    else if s == "mcp-server" then Some(McpServerComponent)
    else if s == "web-server" then Some(WebServer)
    else if s == "api-endpoint" then Some(ApiEndpoint)
    else if s == "mobile-app" then Some(MobileAppComponent)
    else if s == "browser" then Some(Browser)
    else if s == "authentication-service" then Some(AuthenticationService)
    else if s == "authorization-service" then Some(AuthorizationService)
    else if s == "database" then Some(Database)
    else if s == "cache" then Some(Cache)
    else if s == "message-queue" then Some(MessageQueue)
    else if s == "load-balancer" then Some(LoadBalancer)
    else if s == "cdn" then Some(Cdn)
    else if s == "firewall" then Some(Firewall)
    else None
  }

  datatype TrustLevel = Untrusted | Internal | Privileged | System

  datatype DataClassification = Public | InternalData | Confidential | Restricted
  {
    function Value(): string {
      match this
      case Public => "public"
      case InternalData => "internal"
      case Confidential => "confidential"
      case Restricted => "restricted"
    }
  }

  /** `DataClassification(s)`: the member whose value is `s`, if any. */
  function ParseClassification(s: string): (r: Option<DataClassification>)
    ensures r.Some? ==> r.value.Value() == s
    ensures forall c: DataClassification :: c.Value() == s ==> r == Some(c)
  {
    if s == "public" then Some(Public)
    else if s == "internal" then Some(InternalData)
    else if s == "confidential" then Some(Confidential)
    else if s == "restricted" then Some(Restricted)
    else None
  }

  datatype Severity = Critical | High | Medium | Low
  {
    function Value(): string {
      match this
      case Critical => "critical"
      case High => "high"
      case Medium => "medium"
      case Low => "low"
    }
  }

  datatype MitigationStatus = Proposed | Implemented | Verified

  /** Timestamps are opaque values supplied from outside (`datetime.utcnow`). */
  type Timestamp = string

  datatype Metadata = Metadata(
    version: string,
    created: Option<Timestamp>,
    updated: Option<Timestamp>,
    author: Option<string> := None,
    description: Option<string> := None)

  datatype Component = Component(
    id: string,
    name: string,
    ctype: ComponentType,
    capabilities: seq<string>,
    trustLevel: TrustLevel,
    description: Option<string>)

  /** Building a `Component`: its id validator rejects an empty or
      all-whitespace id and stores the id stripped; the other fields take the
      declared defaults (no capabilities, untrusted, no description). */
  function MakeComponent(
    id: string, name: string, ctype: ComponentType,
    capabilities: seq<string> := [], trustLevel: TrustLevel := Untrusted,
    description: Option<string> := None): (r: Result<Component, string>)
    ensures r.Err? <==> forall i :: 0 <= i < |id| ==> Text.IsSpace(id[i])
    ensures r.Err? ==> r.error == "Component ID cannot be empty"
    ensures r.Ok? ==>
      && r.value.id != [] && Text.Trimmed(r.value.id)
      && r.value == Component(Text.Strip(id), name, ctype, capabilities, trustLevel, description)
  {
    var stripped := Text.Strip(id);
    if id == [] || stripped == [] then Err("Component ID cannot be empty")
    else Ok(Component(stripped, name, ctype, capabilities, trustLevel, description))
  }

  /** A component built with only id, name and type is untrusted and has no
      capabilities or description. */
  lemma ComponentDefaults(id: string, name: string, ctype: ComponentType)
    ensures var r := MakeComponent(id, name, ctype);
      r.Ok? ==> r.value.trustLevel == Untrusted && r.value.capabilities == [] && r.value.description.None?
  {
  }

  /** Validating an already valid id changes nothing. */
  lemma {:induction false} MakeComponentIdempotent(id: string, name: string, ctype: ComponentType)
    requires MakeComponent(id, name, ctype).Ok?
    ensures var c := MakeComponent(id, name, ctype).value;
      MakeComponent(c.id, name, ctype) == Ok(c)
  {
    var c := MakeComponent(id, name, ctype).value;
    Text.StripUnchanged(c.id);
  }

  datatype DataFlow = DataFlow(
    fromComponent: string,
    toComponent: string,
    dataType: Option<string> := None,
    classification: DataClassification := InternalData,
    protocol: Option<string> := None,
    encrypted: bool := false)

  /** A flow given only its endpoints carries internal data, unencrypted. */
  lemma DataFlowDefaults(from: string, to: string)
    ensures DataFlow(from, to).classification == InternalData
    ensures !DataFlow(from, to).encrypted
  {
  }

  datatype SystemModel = SystemModel(
    name: string,
    stype: SystemType,
    framework: Framework,
    components: seq<Component>,
    dataFlows: seq<DataFlow>)
  {
    /** `get_component`: the first component with this id, or none. */
    function GetComponent(id: string): (r: Option<Component>)
      ensures r.None? <==> forall c :: c in components ==> c.id != id
      ensures r.Some? ==> r.value in components && r.value.id == id
      ensures r.Some? ==> exists i :: 0 <= i < |components| && components[i] == r.value &&
                                      forall j :: 0 <= j < i ==> components[j].id != id
    {
      Seqs.First(components, (c: Component) => c.id == id)
    }

    /** `get_data_flows_from`: the flows leaving component `id`, in order. */
    function FlowsFrom(id: string): (r: seq<DataFlow>)
      ensures forall df :: df in r <==> df in dataFlows && df.fromComponent == id
      ensures forall df :: multiset(r)[df] == if df.fromComponent == id then multiset(dataFlows)[df] else 0
    {
      FilterMultiplicities(dataFlows, (df: DataFlow) => df.fromComponent == id);
      Seqs.Filter(dataFlows, (df: DataFlow) => df.fromComponent == id)
    }

    /** `get_data_flows_to`: the flows entering component `id`, in order. */
    function FlowsTo(id: string): (r: seq<DataFlow>)
      ensures forall df :: df in r <==> df in dataFlows && df.toComponent == id
      ensures forall df :: multiset(r)[df] == if df.toComponent == id then multiset(dataFlows)[df] else 0
    {
      FilterMultiplicities(dataFlows, (df: DataFlow) => df.toComponent == id);
      Seqs.Filter(dataFlows, (df: DataFlow) => df.toComponent == id)
    }

    /** The ids of all components, as the set `validate` builds. */
    function ComponentIds(): set<string> {
      set c | c in components :: c.id
    }
  }

  lemma FilterMultiplicities(flows: seq<DataFlow>, p: DataFlow -> bool)
    ensures forall df :: multiset(Seqs.Filter(flows, p))[df] == if p(df) then multiset(flows)[df] else 0
  {
    forall df {
      Seqs.FilterMultiplicity(flows, p, df);
    }
  }

  /** Every flow of a system leaves exactly one component: adding up the
      outgoing flows of each distinct source gives all flows. */
  lemma FlowsFromConcat(m: SystemModel, a: seq<DataFlow>, b: seq<DataFlow>, id: string)
    requires m.dataFlows == a + b
    ensures m.FlowsFrom(id) == m.(dataFlows := a).FlowsFrom(id) + m.(dataFlows := b).FlowsFrom(id)
  {
    Seqs.FilterConcat(a, b, (df: DataFlow) => df.fromComponent == id);
  }

  /** A DREAD score: five optional factors and an optional stored result. */
  datatype RiskScore = RiskScore(
    damage: Option<real>,
    reproducibility: Option<real>,
    exploitability: Option<real>,
    affectedUsers: Option<real>,
    discoverability: Option<real>,
    calculated: Option<real>)
  {
    /** The five factors, in declaration order. */
    function Factors(): seq<Option<real>> {
      [damage, reproducibility, exploitability, affectedUsers, discoverability]
    }

    /** Each present field lies in [0, 10], as the field constraints demand. */
    predicate Valid() {
      && (forall f :: f in Factors() && f.Some? ==> 0.0 <= f.value <= 10.0)
      && (calculated.Some? ==> 0.0 <= calculated.value <= 10.0)
    }

    /** `calculate`: the mean of the factors that are set, 0 when none is;
        the stored `calculated` field plays no part. */
    function Calculate(): (r: real)
      ensures Present(Factors()) == [] ==> r == 0.0
    {
      var present := Present(Factors());
      if |present| == 0 then 0.0 else Sum(present) / |present| as real
    }
  }

  /** Dividing by a non-zero number and multiplying back gives the number. */
  lemma DivTimes(a: real, n: real)
    requires n != 0.0
    ensures (a / n) * n == a
  {
  }

  /** `[f for f in factors if f is not None]`. */
  function Present(fs: seq<Option<real>>): (r: seq<real>)
    ensures |r| <= |fs|
    ensures forall x :: x in r <==> Some(x) in fs
    decreases |fs|
  {
    if |fs| == 0 then []
    else
      var rest := Present(fs[1..]);
      assert forall o :: o in fs <==> o == fs[0] || o in fs[1..];
      if fs[0].Some? then [fs[0].value] + rest else rest
  }

  function Sum(xs: seq<real>): real
    decreases |xs|
  {
    if |xs| == 0 then 0.0 else xs[0] + Sum(xs[1..])
  }

  /** Numbers between `lo` and `hi` add up to between `n * lo` and `n * hi`. */
  lemma SumBounds(xs: seq<real>, lo: real, hi: real)
    requires forall x :: x in xs ==> lo <= x <= hi
    ensures |xs| as real * lo <= Sum(xs) <= |xs| as real * hi
  {
    SumBetweenRepeats(xs, lo, hi);
    RepeatIsProduct(|xs|, lo);
    RepeatIsProduct(|xs|, hi);
  }

  /** `x` added to itself `n` times. */
  function Repeat(n: nat, x: real): real {
    if n == 0 then 0.0 else x + Repeat(n - 1, x)
  }

  lemma {:induction false} RepeatIsProduct(n: nat, x: real)
    ensures Repeat(n, x) == n as real * x
  {
    if n > 0 {
      RepeatIsProduct(n - 1, x);
      OneMore((n - 1) as real, x);
    }
  }

  lemma {:induction false} SumBetweenRepeats(xs: seq<real>, lo: real, hi: real)
    requires forall x :: x in xs ==> lo <= x <= hi
    ensures Repeat(|xs|, lo) <= Sum(xs) <= Repeat(|xs|, hi)
    decreases |xs|
  {
    if |xs| > 0 {
      assert xs[0] in xs;
      assert forall x :: x in xs[1..] ==> x in xs;
      SumBetweenRepeats(xs[1..], lo, hi);
    }
  }

  lemma OneMore(m: real, x: real)
    ensures (m + 1.0) * x == m * x + x
  {
  }

  /** The mean of numbers between `lo` and `hi` is between them too. */
  lemma MeanBounds(xs: seq<real>, lo: real, hi: real)
    requires |xs| > 0
    requires forall x :: x in xs ==> lo <= x <= hi
    ensures lo <= Sum(xs) / |xs| as real <= hi
  {
    SumBounds(xs, lo, hi);
    var n := |xs| as real;
    var mean := Sum(xs) / n;
    assert mean * n == Sum(xs);
  }

  /** The stored `calculated` value never changes the computed score. */
  lemma CalculateIgnoresStored(rs: RiskScore, stored: Option<real>)
    ensures rs.(calculated := stored).Calculate() == rs.Calculate()
  {
  }

  /** With some factor set, the score times the number of set factors is
      their sum: it is their mean. */
  lemma CalculateIsMean(rs: RiskScore)
    requires Present(rs.Factors()) != []
    ensures rs.Calculate() * |Present(rs.Factors())| as real == Sum(Present(rs.Factors()))
  {
    var present := Present(rs.Factors());
    var n := |present| as real;
    assert rs.Calculate() == Sum(present) / n;
    DivTimes(Sum(present), n);
  }

  /** A valid score calculates to a value in [0, 10]. */
  lemma CalculateInRange(rs: RiskScore)
    requires rs.Valid()
    ensures 0.0 <= rs.Calculate() <= 10.0
  {
    var present := Present(rs.Factors());
    if present != [] {
      forall x | x in present
        ensures 0.0 <= x <= 10.0
      {
        assert Some(x) in rs.Factors();
      }
      CalculateBetweenFactors(rs, 0.0, 10.0);
    }
  }

  /** The mean lies between the least and the greatest factor that is set. */
  lemma CalculateBetweenFactors(rs: RiskScore, lo: real, hi: real)
    requires Present(rs.Factors()) != []
    requires forall x :: x in Present(rs.Factors()) ==> lo <= x <= hi
    ensures lo <= rs.Calculate() <= hi
  {
    MeanBounds(Present(rs.Factors()), lo, hi);
  }

  datatype Mitigation = Mitigation(
    id: string,
    description: string,
    implementation: Option<string>,
    status: MitigationStatus,
    priority: Option<string>)

  /** A threat id: one drawn by `uuid4` when the threat was built, or one
      given by the code that built it. */
  datatype ThreatId = Uuid | Given(text: string)
  {
    /** How the id is rendered in messages; a drawn id renders as a fixed
        placeholder, since its random text is not modelled. */
    function Render(): string {
      match this
      case Uuid => "<uuid4>"
      case Given(t) => t
    }
  }

  /** One entry of a threat's `references` list. */
  datatype Reference = Reference(title: string, url: string)

  datatype Threat = Threat(
    id: ThreatId,
    category: string,
    framework: Framework,
    title: string,
    description: Option<string> := None,
    severity: Option<Severity> := None,
    affectedComponents: seq<string> := [],
    affectedDataFlows: seq<string> := [],
    attackVectors: seq<string> := [],
    detectionPatterns: seq<string> := [],
    mitigations: seq<Mitigation> := [],
    riskScore: Option<RiskScore> := None,
    references: seq<Reference> := [],
    lifecyclePhase: Option<string> := None,
    elicitationQuestion: Option<string> := None,
    plot4aiCardId: Option<string> := None)

  datatype ThreatModel = ThreatModel(
    metadata: Metadata,
    system: SystemModel,
    threats: seq<Threat>)

  /** The message for a flow endpoint that names no component. */
  function UnknownFlowEndError(id: string): string {
    "Data flow references unknown component: " + id
  }

  /** The message for a threat that names an unknown affected component. */
  function UnknownAffectedError(t: Threat, id: string): string {
    "Threat " + t.id.Render() + " references unknown component: " + id
  }

  /** The errors for the flows, one per unknown endpoint, `from` before `to`. */
  function FlowErrors(flows: seq<DataFlow>, ids: set<string>): seq<string>
    decreases |flows|
  {
    if |flows| == 0 then []
    else
      var df := flows[|flows| - 1];
      FlowErrors(flows[..|flows| - 1], ids)
      + (if df.fromComponent !in ids then [UnknownFlowEndError(df.fromComponent)] else [])
      + (if df.toComponent !in ids then [UnknownFlowEndError(df.toComponent)] else [])
  }

  /** The errors for one threat, one per unknown affected component. */
  function AffectedErrors(t: Threat, affected: seq<string>, ids: set<string>): seq<string>
    decreases |affected|
  {
    if |affected| == 0 then []
    else
      var c := affected[|affected| - 1];
      AffectedErrors(t, affected[..|affected| - 1], ids)
      + (if c !in ids then [UnknownAffectedError(t, c)] else [])
  }

  function ThreatErrors(threats: seq<Threat>, ids: set<string>): seq<string>
    decreases |threats|
  {
    if |threats| == 0 then []
    else
      var t := threats[|threats| - 1];
      ThreatErrors(threats[..|threats| - 1], ids) + AffectedErrors(t, t.affectedComponents, ids)
  }

  /** What `validate` reports: flow errors first, then threat errors. */
  function ValidationErrors(m: ThreatModel): seq<string> {
    var ids := m.system.ComponentIds();
    FlowErrors(m.system.dataFlows, ids) + ThreatErrors(m.threats, ids)
  }

  /** `ThreatModel.validate`: the loops over flows and threats that collect
      the referential-integrity errors. */
  method Validate(m: ThreatModel) returns (errors: seq<string>)
    ensures errors == ValidationErrors(m)
  {
    var ids := set c | c in m.system.components :: c.id;
    errors := [];
    var flows := m.system.dataFlows;
    var i := 0;
    while i < |flows|
      invariant 0 <= i <= |flows|
      invariant errors == FlowErrors(flows[..i], ids)
    {
      var df := flows[i];
      assert flows[..i + 1][..i] == flows[..i];
      if df.fromComponent !in ids {
        errors := errors + [UnknownFlowEndError(df.fromComponent)];
      }
      if df.toComponent !in ids {
        errors := errors + [UnknownFlowEndError(df.toComponent)];
      }
      i := i + 1;
    }
    assert flows[..i] == flows;
    errors := AppendThreatErrors(errors, m.threats, ids);
  }

  /** The loop of `validate` over threats: the errors for each threat's
      affected components, appended in order. */
  method AppendThreatErrors(before: seq<string>, threats: seq<Threat>, ids: set<string>) returns (errors: seq<string>)
    ensures errors == before + ThreatErrors(threats, ids)
  {
    errors := before;
    var k := 0;
    while k < |threats|
      invariant 0 <= k <= |threats|
      invariant errors == before + ThreatErrors(threats[..k], ids)
    {
      var t := threats[k];
      assert threats[..k + 1][..k] == threats[..k];
      errors := AppendAffectedErrors(errors, t, ids);
      k := k + 1;
    }
    assert threats[..k] == threats;
  }

  /** The inner loop of `validate`: one error per affected component of
      `t` that names no component, appended in order. */
  method AppendAffectedErrors(before: seq<string>, t: Threat, ids: set<string>) returns (errors: seq<string>)
    ensures errors == before + AffectedErrors(t, t.affectedComponents, ids)
  {
    errors := before;
    var j := 0;
    while j < |t.affectedComponents|
      invariant 0 <= j <= |t.affectedComponents|
      invariant errors == before + AffectedErrors(t, t.affectedComponents[..j], ids)
    {
      var compId := t.affectedComponents[j];
      assert t.affectedComponents[..j + 1][..j] == t.affectedComponents[..j];
      if compId !in ids {
        errors := errors + [UnknownAffectedError(t, compId)];
      }
      j := j + 1;
    }
    assert t.affectedComponents[..j] == t.affectedComponents;
  }

  /** Every flow endpoint names a component. */
  predicate FlowsResolved(flows: seq<DataFlow>, ids: set<string>) {
    forall df :: df in flows ==> df.fromComponent in ids && df.toComponent in ids
  }

  /** Every affected component of every threat names a component. */
  predicate ThreatsResolved(threats: seq<Threat>, ids: set<string>) {
    forall t, c :: t in threats && c in t.affectedComponents ==> c in ids
  }

  lemma {:induction false} FlowErrorsEmptyIff(flows: seq<DataFlow>, ids: set<string>)
    ensures FlowErrors(flows, ids) == [] <==> FlowsResolved(flows, ids)
    decreases |flows|
  {
    if |flows| > 0 {
      var init := flows[..|flows| - 1];
      FlowErrorsEmptyIff(init, ids);
      assert forall df :: df in flows <==> df in init || df == flows[|flows| - 1];
    }
  }

  lemma {:induction false} AffectedErrorsEmptyIff(t: Threat, affected: seq<string>, ids: set<string>)
    ensures AffectedErrors(t, affected, ids) == [] <==> forall c :: c in affected ==> c in ids
    decreases |affected|
  {
    if |affected| > 0 {
      var init := affected[..|affected| - 1];
      AffectedErrorsEmptyIff(t, init, ids);
      assert forall c :: c in affected <==> c in init || c == affected[|affected| - 1];
    }
  }

  lemma {:induction false} ThreatErrorsEmptyIff(threats: seq<Threat>, ids: set<string>)
    ensures ThreatErrors(threats, ids) == [] <==> ThreatsResolved(threats, ids)
    decreases |threats|
  {
    if |threats| > 0 {
      var init := threats[..|threats| - 1];
      var t := threats[|threats| - 1];
      ThreatErrorsEmptyIff(init, ids);
      AffectedErrorsEmptyIff(t, t.affectedComponents, ids);
      assert forall u :: u in threats <==> u in init || u == t;
    }
  }

  /** `validate` finds no error exactly when every flow endpoint and every
      affected component of every threat is the id of a component. */
  lemma ValidateEmptyIff(m: ThreatModel)
    ensures ValidationErrors(m) == [] <==>
      FlowsResolved(m.system.dataFlows, m.system.ComponentIds()) &&
      ThreatsResolved(m.threats, m.system.ComponentIds())
  {
    FlowErrorsEmptyIff(m.system.dataFlows, m.system.ComponentIds());
    ThreatErrorsEmptyIff(m.threats, m.system.ComponentIds());
  }

  /** An id that is referenced somewhere but names no component. */
  predicate IsDangling(m: ThreatModel, id: string) {
    && id !in m.system.ComponentIds()
    && ((exists df :: df in m.system.dataFlows && (df.fromComponent == id || df.toComponent == id))
        || (exists t :: t in m.threats && id in t.affectedComponents))
  }

  lemma {:induction false} FlowErrorsNameOffender(m: ThreatModel, flows: seq<DataFlow>, e: string)
    requires forall df :: df in flows ==> df in m.system.dataFlows
    requires e in FlowErrors(flows, m.system.ComponentIds())
    ensures exists id :: IsDangling(m, id) && e == UnknownFlowEndError(id)
    decreases |flows|
  {
    var init := flows[..|flows| - 1];
    var df := flows[|flows| - 1];
    assert df in m.system.dataFlows;
    if e in FlowErrors(init, m.system.ComponentIds()) {
      assert forall x :: x in init ==> x in flows;
      FlowErrorsNameOffender(m, init, e);
    } else if df.fromComponent !in m.system.ComponentIds() && e == UnknownFlowEndError(df.fromComponent) {
      assert IsDangling(m, df.fromComponent);
    } else {
      assert IsDangling(m, df.toComponent);
    }
  }

  lemma {:induction false} AffectedErrorsNameOffender(m: ThreatModel, t: Threat, affected: seq<string>, e: string)
    requires t in m.threats
    requires forall c :: c in affected ==> c in t.affectedComponents
    requires e in AffectedErrors(t, affected, m.system.ComponentIds())
    ensures exists id :: IsDangling(m, id) && e == UnknownAffectedError(t, id)
    decreases |affected|
  {
    var init := affected[..|affected| - 1];
    var c := affected[|affected| - 1];
    if e in AffectedErrors(t, init, m.system.ComponentIds()) {
      assert forall x :: x in init ==> x in affected;
      AffectedErrorsNameOffender(m, t, init, e);
    } else {
      assert c in t.affectedComponents;
      assert IsDangling(m, c);
    }
  }

  lemma {:induction false} ThreatErrorsNameOffender(m: ThreatModel, threats: seq<Threat>, e: string)
    requires forall t :: t in threats ==> t in m.threats
    requires e in ThreatErrors(threats, m.system.ComponentIds())
    ensures exists t, id :: t in m.threats && IsDangling(m, id) && e == UnknownAffectedError(t, id)
    decreases |threats|
  {
    var init := threats[..|threats| - 1];
    var t := threats[|threats| - 1];
    if e in ThreatErrors(init, m.system.ComponentIds()) {
      assert forall x :: x in init ==> x in threats;
      ThreatErrorsNameOffender(m, init, e);
    } else {
      assert t in m.threats;
      AffectedErrorsNameOffender(m, t, t.affectedComponents, e);
    }
  }

  /** Every error `validate` reports ends with an id that some flow or
      threat references and that names no component. */
  lemma ValidationErrorNamesOffender(m: ThreatModel, e: string)
    requires e in ValidationErrors(m)
    ensures exists id :: IsDangling(m, id) && Text.Contains(e, id)
  {
    var ids := m.system.ComponentIds();
    if e in FlowErrors(m.system.dataFlows, ids) {
      FlowErrorsNameOffender(m, m.system.dataFlows, e);
      var id :| IsDangling(m, id) && e == UnknownFlowEndError(id);
      Text.ContainsInfix("Data flow references unknown component: ", id, "");
      assert e == "Data flow references unknown component: " + id + "";
    } else {
      ThreatErrorsNameOffender(m, m.threats, e);
      var t, id :| t in m.threats && IsDangling(m, id) && e == UnknownAffectedError(t, id);
      var prefix := "Threat " + t.id.Render() + " references unknown component: ";
      Text.ContainsInfix(prefix, id, "");
      assert e == prefix + id + "";
    }
  }

  /** Validation never looks at `affected_data_flows`. */
  lemma {:induction false} ThreatErrorsIgnoreAffectedFlows(threats: seq<Threat>, i: int, fl: seq<string>, ids: set<string>)
    requires 0 <= i < |threats|
    ensures ThreatErrors(threats[i := threats[i].(affectedDataFlows := fl)], ids) == ThreatErrors(threats, ids)
    decreases |threats|
  {
    var threats' := threats[i := threats[i].(affectedDataFlows := fl)];
    var n := |threats| - 1;
    AffectedErrorsRender(threats[n], threats'[n], threats[n].affectedComponents, ids);
    if i < n {
      assert threats'[..n] == threats[..n][i := threats[i].(affectedDataFlows := fl)];
      ThreatErrorsIgnoreAffectedFlows(threats[..n], i, fl, ids);
    } else {
      assert threats'[..n] == threats[..n];
    }
    assert ThreatErrors(threats', ids) ==
      ThreatErrors(threats'[..n], ids) + AffectedErrors(threats'[n], threats[n].affectedComponents, ids);
  }

  lemma {:induction false} AffectedErrorsRender(t: Threat, u: Threat, affected: seq<string>, ids: set<string>)
    requires t.id == u.id
    ensures AffectedErrors(t, affected, ids) == AffectedErrors(u, affected, ids)
    decreases |affected|
  {
    if |affected| > 0 {
      AffectedErrorsRender(t, u, affected[..|affected| - 1], ids);
    }
  }

  lemma ValidateIgnoresAffectedFlows(m: ThreatModel, i: int, fl: seq<string>)
    requires 0 <= i < |m.threats|
    ensures ValidationErrors(m.(threats := m.threats[i := m.threats[i].(affectedDataFlows := fl)]))
         == ValidationErrors(m)
  {
    ThreatErrorsIgnoreAffectedFlows(m.threats, i, fl, m.system.ComponentIds());
  }
}

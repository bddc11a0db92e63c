/** The conversion of a diagram analysis into a threat model: the system's
    name, type and framework from the overrides or the suggestions, one
    component per described component, and the flows whose endpoints are
    among them. */
module Converters {
  import opened Wrappers
  import opened Models
  import Text
  import Seqs

  /** A component dictionary of the analysis; `None` is a missing key. */
  datatype ComponentData = ComponentData(
    id: Option<string> := None,
    name: Option<string> := None,
    ctype: Option<string> := None,
    description: Option<string> := None)

  /** A data-flow dictionary of the analysis; `None` is a missing key. */
  datatype FlowData = FlowData(
    fromComponent: Option<string> := None,
    toComponent: Option<string> := None,
    dataType: Option<string> := None,
    classification: Option<string> := None,
    encrypted: Option<bool> := None)

  /** The fields of `VisionAnalysisResponse` the conversion reads. */
  datatype VisionResponse = VisionResponse(
    components: seq<ComponentData>,
    dataFlows: seq<FlowData>,
    suggestedName: string,
    suggestedType: Option<string> := None,
    suggestedFramework: Option<string> := None)

  const UntitledSystem: string := "Untitled System"
  const UnnamedComponent: string := "Unnamed Component"
  const ModelVersion: string := "1.0.0"
  const EmptyIdError: string := "Component ID cannot be empty"

  /** A Python string argument is truthy when it is given and not empty. */
  predicate Truthy(s: Option<string>) {
    s.Some? && s.value != ""
  }

  /** `system_name or suggested_system_name or "Untitled System"`: the name
      is never empty. */
  function SystemName(name: Option<string>, suggested: string): (r: string)
    ensures r != ""
    ensures Truthy(name) ==> r == name.value
    ensures !Truthy(name) && suggested != "" ==> r == suggested
    ensures !Truthy(name) && suggested == "" ==> r == UntitledSystem
  {
    if Truthy(name) then name.value
    else if suggested != "" then suggested
    else UntitledSystem
  }

  /** The text the system type or the framework is parsed from: the
      override when it is truthy, and only otherwise the suggestion. */
  function Chosen(override: Option<string>, suggested: Option<string>): (r: Option<string>)
    ensures r.Some? ==> r.value != ""
    ensures Truthy(override) ==> r == override
    ensures !Truthy(override) ==> (r.Some? <==> Truthy(suggested))
    ensures !Truthy(override) && r.Some? ==> r == suggested
  {
    if Truthy(override) then override
    else if Truthy(suggested) then suggested
    else None
  }

  /** The system type: the chosen text when it is a system type value,
      otherwise LLM_APP. */
  function SystemTypeOf(override: Option<string>, suggested: Option<string>): SystemType {
    match Chosen(override, suggested)
    case Some(s) => ParseSystemType(s).GetOr(LlmApp)
    case None => LlmApp
  }

  /** The framework: the chosen text when it is a framework value,
      otherwise the OWASP Top 10 for LLM Applications 2025. */
  function FrameworkOf(override: Option<string>, suggested: Option<string>): Framework {
    match Chosen(override, suggested)
    case Some(s) => ParseFramework(s).GetOr(OwaspLlmTop10_2025)
    case None => OwaspLlmTop10_2025
  }

  /** An override naming a system type or a framework is taken whatever
      the suggestion says. */
  lemma OverrideWins(t: SystemType, f: Framework, suggestedType: Option<string>, suggestedFramework: Option<string>)
    ensures SystemTypeOf(Some(t.Value()), suggestedType) == t
    ensures FrameworkOf(Some(f.Value()), suggestedFramework) == f
  {
    assert t.Value() != [] && f.Value() != [] by {
      assert t.Value()[0] != '!' && f.Value()[0] != '!';
    }
  }

  /** An override that is not a valid value gives the default; the
      suggestion is never consulted in its place. */
  lemma InvalidOverrideIgnoresSuggestion(override: string, suggestedType: Option<string>, suggestedFramework: Option<string>)
    requires override != ""
    ensures ParseSystemType(override).None? ==> SystemTypeOf(Some(override), suggestedType) == LlmApp
    ensures ParseFramework(override).None? ==> FrameworkOf(Some(override), suggestedFramework) == OwaspLlmTop10_2025
  {
  }

  /** Without an override a valid suggestion is taken. */
  lemma SuggestionUsedWithoutOverride(override: Option<string>, t: SystemType, f: Framework)
    requires !Truthy(override)
    ensures SystemTypeOf(override, Some(t.Value())) == t
    ensures FrameworkOf(override, Some(f.Value())) == f
  {
    assert t.Value() != [] && f.Value() != [] by {
      assert t.Value()[0] != '!' && f.Value()[0] != '!';
    }
  }

  /** Every component type, in declaration order. */
  const AllComponentTypes: seq<ComponentType> := [
    Llm, Agent, Tool, Memory, McpServerComponent, WebServer, ApiEndpoint, MobileAppComponent, Browser,
    AuthenticationService, AuthorizationService, Database, Cache, MessageQueue, LoadBalancer, Cdn, Firewall]

  /** `ComponentType(s)` as a search of the table: the first type whose
      value is `s`. */
  function ExactType(s: string, ts: seq<ComponentType>): Option<ComponentType>
    decreases |ts|
  {
    if |ts| == 0 then None
    else if ts[0].Value() == s then Some(ts[0])
    else ExactType(s, ts[1..])
  }

  /** The search finds a type of the table with that value, or there is
      none. */
  lemma {:induction false} ExactTypeFinds(s: string, ts: seq<ComponentType>)
    ensures ExactType(s, ts).Some? ==> ExactType(s, ts).value in ts && ExactType(s, ts).value.Value() == s
    ensures ExactType(s, ts).None? ==> forall t :: t in ts ==> t.Value() != s
    decreases |ts|
  {
    if |ts| > 0 && ts[0].Value() != s {
      ExactTypeFinds(s, ts[1..]);
      assert forall t :: t in ts ==> t == ts[0] || t in ts[1..];
    }
  }

  /** The table search is the enumeration's own lookup. */
  lemma ExactTypeIsParse(s: string)
    ensures ExactType(s, AllComponentTypes) == ParseComponentType(s)
  {
    var r := ParseComponentType(s);
    ExactTypeFinds(s, AllComponentTypes);
    if r.Some? {
      var t := r.value;
      assert t in AllComponentTypes by {
        match t
        case Llm => case Agent => case Tool => case Memory => case McpServerComponent =>
        case WebServer => case ApiEndpoint => case MobileAppComponent => case Browser =>
        case AuthenticationService => case AuthorizationService => case Database => case Cache =>
        case MessageQueue => case LoadBalancer => case Cdn => case Firewall =>
      }
    }
  }

  /** The fallback table for a type text that is no component type value,
      keyed by lower-case text. */
  const FallbackTable: seq<(string, ComponentType)> := [
    ("llm", Llm), ("agent", Agent), ("tool", Tool), ("memory", Memory),
    ("database", Database), ("api", ApiEndpoint), ("web-server", WebServer)]

  /** A dictionary `get` on a table of pairs: the first entry with the key. */
  function Lookup(table: seq<(string, ComponentType)>, key: string): Option<ComponentType>
    decreases |table|
  {
    if |table| == 0 then None
    else if table[0].0 == key then Some(table[0].1)
    else Lookup(table[1..], key)
  }

  /** The component type: the exact value, else the fallback table on the
      lower-cased text, else DATABASE; a missing type reads as "database". */
  function ComponentTypeOf(s: Option<string>): ComponentType {
    var text := s.GetOr("database");
    match ExactType(text, AllComponentTypes)
    case Some(t) => t
    case None => Lookup(FallbackTable, Text.Lower(text)).GetOr(Database)
  }

  /** An exact value gives its own type; otherwise the fallback table
      decides, and a text in neither gives DATABASE. */
  lemma ComponentTypeOfCases(s: Option<string>)
    ensures var text := s.GetOr("database");
      && (ParseComponentType(text).Some? ==> ComponentTypeOf(s) == ParseComponentType(text).value)
      && (ParseComponentType(text).None? && Lookup(FallbackTable, Text.Lower(text)).Some? ==>
            ComponentTypeOf(s) == Lookup(FallbackTable, Text.Lower(text)).value)
      && (ParseComponentType(text).None? && Lookup(FallbackTable, Text.Lower(text)).None? ==> ComponentTypeOf(s) == Database)
  {
    ExactTypeIsParse(s.GetOr("database"));
  }

  /** A missing type gives DATABASE, and every type value gives its own
      type. */
  lemma ComponentTypeOfValues(t: ComponentType)
    ensures ComponentTypeOf(None) == Database
    ensures ComponentTypeOf(Some(t.Value())) == t
  {
    ComponentTypeOfCases(None);
    ComponentTypeOfCases(Some(t.Value()));
  }

  /** Any spelling of "api", in any case, is an API endpoint, although
      "api" is not itself a component type value. */
  lemma ApiInAnyCase(s: string)
    requires Text.Lower(s) == "api"
    ensures ComponentTypeOf(Some(s)) == ApiEndpoint
  {
    ComponentTypeOfCases(Some(s));
    match ParseComponentType(s)
    case Some(t) =>
      ValueLowerNotApi(t);
      assert false;
    case None =>
      assert FallbackTable[5] == ("api", ApiEndpoint);
  }

  /** No component type value lower-cases to "api". */
  lemma ValueLowerNotApi(t: ComponentType)
    ensures Text.Lower(t.Value()) != "api"
  {
    var v := t.Value();
    if |v| == 3 {
      assert v[0] == 'l' || v[0] == 'c';
      assert Text.Lower(v)[0] == Text.LowerChar(v[0]);
    }
  }

  /** The id under which the k-th described component is recorded: its own,
      or "comp-k" when it has none. */
  function RawId(k: nat, d: ComponentData): string {
    match d.id
    case Some(id) => id
    case None => "comp-" + Text.NatToString(k)
  }

  /** The k-th component: trust INTERNAL, no capabilities, its type resolved
      as above, "Unnamed Component" without a name. Building it fails as
      the id validator does, exactly when the id is all whitespace. */
  function ToComponent(k: nat, d: ComponentData): (r: Result<Component, string>)
    ensures r.Err? <==> forall i :: 0 <= i < |RawId(k, d)| ==> Text.IsSpace(RawId(k, d)[i])
    ensures r.Err? ==> r.error == EmptyIdError
    ensures r.Ok? ==> && r.value.id == Text.Strip(RawId(k, d)) && r.value.id != ""
                      && r.value.trustLevel == Internal && r.value.capabilities == []
                      && r.value.name == d.name.GetOr(UnnamedComponent)
                      && r.value.ctype == ComponentTypeOf(d.ctype)
                      && r.value.description == d.description
  {
    MakeComponent(RawId(k, d), d.name.GetOr(UnnamedComponent), ComponentTypeOf(d.ctype), [], Internal, d.description)
  }

  /** A component described without an id is always built: its generated
      id "comp-k" carries no whitespace at either end, so the validator keeps
      it as it is. */
  lemma GeneratedIdAccepted(k: nat, d: ComponentData)
    requires d.id.None?
    ensures ToComponent(k, d).Ok?
    ensures ToComponent(k, d).value.id == "comp-" + Text.NatToString(k)
  {
    RawIdKept(k, d);
  }

  /** An id without surrounding whitespace, given or generated, is kept as
      it is by the validator. */
  lemma RawIdKept(k: nat, d: ComponentData)
    requires d.id.Some? ==> Text.Trimmed(d.id.value)
    ensures Text.Strip(RawId(k, d)) == RawId(k, d)
  {
    var r := RawId(k, d);
    if d.id.None? {
      assert r[0] == 'c' && '0' <= r[|r| - 1] <= '9';
    }
    Text.StripUnchanged(r);
  }

  /** All components in order, or the validator's error when some id is
      blank; the error is the same whichever component fails first. */
  function ToComponents(ds: seq<ComponentData>): (r: Result<seq<Component>, string>)
    ensures r.Err? ==> r.error == EmptyIdError
    ensures r.Ok? ==> |r.value| == |ds|
  {
    if Seqs.AllOkUpTo(ds, |ds|, ToComponent) then Ok(Seqs.OkValuesUpTo(ds, |ds|, ToComponent)) else Err(EmptyIdError)
  }

  /** The conversion succeeds exactly when every component can be built,
      and then the k-th component is the one built from the k-th entry. */
  lemma ToComponentsPointwise(ds: seq<ComponentData>)
    ensures ToComponents(ds).Ok? <==> forall k :: 0 <= k < |ds| ==> ToComponent(k, ds[k]).Ok?
    ensures ToComponents(ds).Ok? ==> forall k :: 0 <= k < |ds| ==> ToComponent(k, ds[k]) == Ok(ToComponents(ds).value[k])
  {
    Seqs.AllOkUpToIff(ds, |ds|, ToComponent);
    if Seqs.AllOkUpTo(ds, |ds|, ToComponent) {
      forall k | 0 <= k < |ds|
        ensures ToComponent(k, ds[k]) == Ok(ToComponents(ds).value[k])
      {
        Seqs.OkValuesUpToAt(ds, |ds|, ToComponent, k);
      }
    }
  }

  /** The keys of `component_id_map`: the raw ids, before the validator
      strips them. */
  function RawIds(ds: seq<ComponentData>): set<string> {
    Seqs.KeysUpTo(ds, |ds|, RawId)
  }

  /** A flow is kept when both endpoints are given and recorded. */
  predicate Kept(known: set<string>, fd: FlowData) {
    fd.fromComponent.Some? && fd.fromComponent.value in known && fd.toComponent.Some? && fd.toComponent.value in known
  }

  /** The classification: the given value, "internal" when missing, and
      INTERNAL when it is no classification value. */
  function ClassificationOf(s: Option<string>): (r: DataClassification)
    ensures ParseClassification(s.GetOr("internal")).Some? ==> r.Value() == s.GetOr("internal")
    ensures ParseClassification(s.GetOr("internal")).None? ==> r == InternalData
  {
    ParseClassification(s.GetOr("internal")).GetOr(InternalData)
  }

  /** The flow built from a kept flow dictionary; unencrypted unless it
      says otherwise. */
  function ToDataFlow(fd: FlowData): (df: DataFlow)
    ensures df.fromComponent == fd.fromComponent.GetOr("") && df.toComponent == fd.toComponent.GetOr("")
    ensures df.encrypted == fd.encrypted.GetOr(false) && df.protocol.None?
    ensures df.classification == ClassificationOf(fd.classification) && df.dataType == fd.dataType
  {
    DataFlow(fd.fromComponent.GetOr(""), fd.toComponent.GetOr(""), fd.dataType,
             ClassificationOf(fd.classification), None, fd.encrypted.GetOr(false))
  }

  /** The kept flows, in order. */
  function ToDataFlows(fds: seq<FlowData>, known: set<string>): seq<DataFlow> {
    Seqs.Collect(fds, (fd: FlowData) => Kept(known, fd), ToDataFlow)
  }

  /** `vision_response_to_threat_model`, with `now` for the timestamps the
      metadata draws from the clock. */
  function VisionToThreatModel(resp: VisionResponse, name: Option<string>, systemType: Option<string>,
                               framework: Option<string>, now: Timestamp): (r: Result<ThreatModel, string>)
    ensures r.Ok? <==> ToComponents(resp.components).Ok?
    ensures r.Err? ==> r.error == EmptyIdError
    ensures r.Ok? ==> && r.value.threats == []
                      && r.value.metadata.version == ModelVersion
                      && r.value.system.name == SystemName(name, resp.suggestedName)
                      && |r.value.system.components| == |resp.components|
  {
    match ToComponents(resp.components)
    case Err(e) => Err(e)
    case Ok(cs) =>
      Ok(ThreatModel(
        Metadata(ModelVersion, Some(now), Some(now)),
        SystemModel(SystemName(name, resp.suggestedName), SystemTypeOf(systemType, resp.suggestedType),
                    FrameworkOf(framework, resp.suggestedFramework), cs,
                    ToDataFlows(resp.dataFlows, RawIds(resp.components))),
        []))
  }

  /** A flow of the model is exactly the conversion of a flow dictionary
      whose two endpoints are recorded ids. */
  lemma FlowKeptIff(resp: VisionResponse, name: Option<string>, systemType: Option<string>,
                    framework: Option<string>, now: Timestamp, df: DataFlow)
    requires VisionToThreatModel(resp, name, systemType, framework, now).Ok?
    ensures df in VisionToThreatModel(resp, name, systemType, framework, now).value.system.dataFlows <==>
      exists fd :: fd in resp.dataFlows && Kept(RawIds(resp.components), fd) && df == ToDataFlow(fd)
  {
    Seqs.CollectMembership(resp.dataFlows, (fd: FlowData) => Kept(RawIds(resp.components), fd), ToDataFlow, df);
  }

  /** Both endpoints of a flow of the model are recorded ids. */
  lemma FlowEndpointsRecorded(resp: VisionResponse, name: Option<string>, systemType: Option<string>,
                              framework: Option<string>, now: Timestamp, df: DataFlow)
    requires VisionToThreatModel(resp, name, systemType, framework, now).Ok?
    requires df in VisionToThreatModel(resp, name, systemType, framework, now).value.system.dataFlows
    ensures df.fromComponent in RawIds(resp.components) && df.toComponent in RawIds(resp.components)
  {
    FlowKeptIff(resp, name, systemType, framework, now, df);
  }

  /** With ids free of surrounding whitespace, every recorded id is the id
      of a built component. */
  lemma RecordedIdsAreComponentIds(ds: seq<ComponentData>, cs: seq<Component>, id: string)
    requires forall k :: 0 <= k < |ds| && ds[k].id.Some? ==> Text.Trimmed(ds[k].id.value)
    requires |cs| == |ds| && forall k :: 0 <= k < |ds| ==> cs[k].id == Text.Strip(RawId(k, ds[k]))
    requires id in RawIds(ds)
    ensures exists c :: c in cs && c.id == id
  {
    Seqs.KeysUpToMembership(ds, |ds|, RawId, id);
    var k :| 0 <= k < |ds| && RawId(k, ds[k]) == id;
    RawIdKept(k, ds[k]);
    assert cs[k] in cs;
  }

  /** Each built component carries its raw id, stripped. */
  lemma ComponentIdsStripped(ds: seq<ComponentData>)
    requires ToComponents(ds).Ok?
    ensures var cs := ToComponents(ds).value;
      |cs| == |ds| && forall k :: 0 <= k < |ds| ==> cs[k].id == Text.Strip(RawId(k, ds[k]))
  {
    ToComponentsPointwise(ds);
  }

  /** When no given id carries surrounding whitespace, the recorded ids are
      the components' ids, so the model's own `validate` finds nothing to
      report. */
  lemma TrimmedIdsValidate(resp: VisionResponse, name: Option<string>, systemType: Option<string>,
                           framework: Option<string>, now: Timestamp)
    requires forall k :: 0 <= k < |resp.components| && resp.components[k].id.Some? ==> Text.Trimmed(resp.components[k].id.value)
    requires VisionToThreatModel(resp, name, systemType, framework, now).Ok?
    ensures ValidationErrors(VisionToThreatModel(resp, name, systemType, framework, now).value) == []
  {
    var m := VisionToThreatModel(resp, name, systemType, framework, now).value;
    var cs := ToComponents(resp.components).value;
    assert m.system.components == cs;
    ComponentIdsStripped(resp.components);
    var ids := m.system.ComponentIds();
    forall df | df in m.system.dataFlows
      ensures df.fromComponent in ids && df.toComponent in ids
    {
      FlowEndpointsRecorded(resp, name, systemType, framework, now, df);
      RecordedIdsAreComponentIds(resp.components, cs, df.fromComponent);
      RecordedIdsAreComponentIds(resp.components, cs, df.toComponent);
    }
    ValidateEmptyIff(m);
  }

  /** One component with the padded id " a" and one flow from and to
      " a". */
  const PaddedResponse: VisionResponse :=
    VisionResponse([ComponentData(id := Some(" a"))],
                   [FlowData(fromComponent := Some(" a"), toComponent := Some(" a"))], "")

  /** The padded component is built, its id stripped. */
  lemma PaddedComponentBuilt()
    ensures var cs := ToComponents(PaddedResponse.components);
      cs.Ok? && |cs.value| == 1 && cs.value[0].id == Text.Strip(" a") != " a"
  {
    var ds := PaddedResponse.components;
    assert RawId(0, ds[0]) == " a";
    assert !Text.IsSpace(" a"[1]);
    assert !Text.Trimmed(" a");
    ToComponentsPointwise(ds);
  }

  /** The padded flow is kept: " a" itself is recorded. */
  lemma PaddedFlowKept()
    ensures ToDataFlows(PaddedResponse.dataFlows, RawIds(PaddedResponse.components)) ==
            [ToDataFlow(PaddedResponse.dataFlows[0])]
  {
    var ds := PaddedResponse.components;
    var fds := PaddedResponse.dataFlows;
    Seqs.KeysUpToMembership(ds, |ds|, RawId, " a");
    assert RawId(0, ds[0]) == " a";
    var p := (fd: FlowData) => Kept(RawIds(ds), fd);
    assert fds[..0] == [];
    assert Seqs.Collect(fds, p, ToDataFlow) == Seqs.Collect(fds[..0], p, ToDataFlow) + [ToDataFlow(fds[0])];
  }

  /** A model whose only component id differs from the source of its only
      flow is reported by `validate`. */
  lemma DanglingFlowReported(m: ThreatModel)
    requires |m.system.components| == 1 && |m.system.dataFlows| == 1
    requires m.system.dataFlows[0].fromComponent != m.system.components[0].id
    ensures ValidationErrors(m) != []
  {
    assert m.system.ComponentIds() == {m.system.components[0].id};
    ValidateEmptyIff(m);
  }

  /** A padded id breaks the model: the component is stored under " a"
      stripped, while the flow keeps " a", so `validate` reports the flow. */
  lemma PaddedIdDanglingFlow(now: Timestamp)
    ensures match VisionToThreatModel(PaddedResponse, None, None, None, now)
      case Ok(m) => |m.system.dataFlows| == 1 && ValidationErrors(m) != []
      case Err(_) => false
  {
    PaddedComponentBuilt();
    PaddedFlowKept();
    var m := VisionToThreatModel(PaddedResponse, None, None, None, now).value;
    DanglingFlowReported(m);
  }

  /** The component loop: each component built in turn, appended and
      recorded under its raw id ("comp-k" when it has none, k the number of
      components so far); the first id the validator rejects ends the
      conversion with its error. */
  method ConvertComponents(ds: seq<ComponentData>) returns (r: Result<seq<Component>, string>, componentIdMap: map<string, Component>)
    ensures r == ToComponents(ds)
    ensures r.Ok? ==> componentIdMap.Keys == RawIds(ds)
  {
    r, componentIdMap := Seqs.CollectUntilErr(ds, ToComponent, RawId);
  }

  /** The flow loop: each flow with both endpoints recorded, in order. */
  method ConvertFlows(fds: seq<FlowData>, componentIdMap: map<string, Component>) returns (dataFlows: seq<DataFlow>)
    ensures dataFlows == ToDataFlows(fds, componentIdMap.Keys)
  {
    dataFlows := [];
    var j := 0;
    while j < |fds|
      invariant 0 <= j <= |fds|
      invariant dataFlows == ToDataFlows(fds[..j], componentIdMap.Keys)
    {
      assert fds[..j + 1][..j] == fds[..j];
      var fd := fds[j];
      if fd.fromComponent.Some? && fd.fromComponent.value in componentIdMap
         && fd.toComponent.Some? && fd.toComponent.value in componentIdMap {
        dataFlows := dataFlows + [ToDataFlow(fd)];
      }
      j := j + 1;
    }
    assert fds[..j] == fds;
  }

  /** `vision_response_to_threat_model` as written: the defaulting chains,
      then the two loops. */
  method ConvertVision(resp: VisionResponse, name: Option<string>, systemType: Option<string>,
                       framework: Option<string>, now: Timestamp) returns (r: Result<ThreatModel, string>)
    ensures r == VisionToThreatModel(resp, name, systemType, framework, now)
  {
    var systemName := SystemName(name, resp.suggestedName);
    var sysType := SystemTypeOf(systemType, resp.suggestedType);
    var frameworkEnum := FrameworkOf(framework, resp.suggestedFramework);
    var components, componentIdMap := ConvertComponents(resp.components);
    if components.Err? {
      return Err(components.error);
    }
    var dataFlows := ConvertFlows(resp.dataFlows, componentIdMap);
    r := Ok(ThreatModel(Metadata(ModelVersion, Some(now), Some(now)),
                        SystemModel(systemName, sysType, frameworkEnum, components.value, dataFlows), []));
  }
}

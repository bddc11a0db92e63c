/** The detection helpers the AI plugins share: looking a flow up by its
    "from->to" text, flagging unencrypted sensitive flows, matching a
    pattern against a component and turning a matched pattern into a
    threat. */
module ThreatDetection {
  import opened Wrappers
  import opened Models
  import opened PluginBase
  import Text
  import Seqs

  /** How a flow is named in `affected_data_flows`: "from->to". */
  function FlowKey(df: DataFlow): string {
    df.fromComponent + "->" + df.toComponent
  }

  /** The lookup test as written: the id equals the key or occurs in it. */
  predicate KeyMatches(df: DataFlow, dfId: string) {
    dfId == FlowKey(df) || Text.Contains(FlowKey(df), dfId)
  }

  /** The equality test is subsumed: a key matches exactly when the id occurs
      in it. */
  lemma KeyMatchesIffContains(df: DataFlow, dfId: string)
    ensures KeyMatches(df, dfId) <==> Text.Contains(FlowKey(df), dfId)
  {
    if dfId == FlowKey(df) {
      Text.ContainsInfix([], dfId, []);
      assert [] + dfId + [] == dfId;
    }
  }

  /** `find_data_flow_by_id`: the first flow whose key contains the id. */
  function FindDataFlowById(dfId: string, system: SystemModel): (r: Option<DataFlow>)
    ensures r.None? <==> forall df :: df in system.dataFlows ==> !Text.Contains(FlowKey(df), dfId)
    ensures r.Some? ==> exists i :: 0 <= i < |system.dataFlows| && system.dataFlows[i] == r.value &&
                                    Text.Contains(FlowKey(r.value), dfId) &&
                                    forall j :: 0 <= j < i ==> !Text.Contains(FlowKey(system.dataFlows[j]), dfId)
  {
    forall df: DataFlow {
      KeyMatchesIffContains(df, dfId);
    }
    Seqs.First(system.dataFlows, (df: DataFlow) => KeyMatches(df, dfId))
  }

  /** The empty id matches the first flow of any system that has one. */
  lemma EmptyIdFindsFirstFlow(system: SystemModel)
    requires |system.dataFlows| > 0
    ensures FindDataFlowById([], system) == Some(system.dataFlows[0])
  {
    Text.ContainsEmpty(FlowKey(system.dataFlows[0]));
  }

  /** Substring matching can pick the wrong flow: with flows xa->b and a->b,
      the id "a->b" finds the first one. */
  lemma SubstringFindsEarlierFlow()
    ensures var system := SystemModel("s", LlmApp, OwaspLlmTop10_2025, [],
                                      [DataFlow("xa", "b"), DataFlow("a", "b")]);
      FindDataFlowById("a->b", system) == Some(DataFlow("xa", "b"))
  {
    Text.ContainsInfix("x", "a->b", "");
    assert FlowKey(DataFlow("xa", "b")) == "x" + "a->b" + "";
  }

  /** The name shown for a flow endpoint: the component's name when the id
      resolves, otherwise the raw id. */
  function EndpointName(system: SystemModel, id: string): (r: string)
    ensures system.GetComponent(id).Some? ==> r == system.GetComponent(id).value.name
    ensures system.GetComponent(id).None? ==> r == id
  {
    match system.GetComponent(id)
    case Some(c) => c.name
    case None => id
  }

  function InsecureFlowDescription(df: DataFlow, system: SystemModel): string {
    "Sensitive data (" + df.classification.Value() + ") is transmitted unencrypted between "
      + EndpointName(system, df.fromComponent) + " and " + EndpointName(system, df.toComponent)
  }

  /** The description names the classification and both endpoints. */
  lemma InsecureFlowDescriptionMentions(df: DataFlow, system: SystemModel)
    ensures Text.Contains(InsecureFlowDescription(df, system), df.classification.Value())
    ensures Text.Contains(InsecureFlowDescription(df, system), EndpointName(system, df.fromComponent))
    ensures Text.Contains(InsecureFlowDescription(df, system), EndpointName(system, df.toComponent))
  {
    var cls := df.classification.Value();
    var from := EndpointName(system, df.fromComponent);
    var to := EndpointName(system, df.toComponent);
    var a := "Sensitive data (";
    var b := ") is transmitted unencrypted between ";
    var c := " and ";
    var d := InsecureFlowDescription(df, system);
    assert d == a + cls + (b + from + c + to);
    Text.ContainsInfix(a, cls, b + from + c + to);
    assert d == (a + cls + b) + from + (c + to);
    Text.ContainsInfix(a + cls + b, from, c + to);
    assert d == (a + cls + b + from + c) + to + [];
    Text.ContainsInfix(a + cls + b + from + c, to, []);
  }

  /** The classifications `check_insecure_data_flow` treats as sensitive. */
  predicate IsSensitive(c: DataClassification) {
    c == Confidential || c == Restricted
  }

  /** `check_insecure_data_flow`: a HIGH threat naming the flow when it is
      unencrypted and carries confidential or restricted data, else none. */
  function CheckInsecureDataFlow(
    df: DataFlow, system: SystemModel, category: string, framework: Framework, title: string
  ): (r: Option<Threat>)
    ensures r.Some? <==> !df.encrypted && IsSensitive(df.classification)
    ensures r.Some? ==>
      && r.value.category == category && r.value.framework == framework && r.value.title == title
      && r.value.severity == Some(High)
      && r.value.affectedDataFlows == [FlowKey(df)]
      && r.value.affectedComponents == []
      && r.value.mitigations == []
      && r.value.description.Some?
      && Text.Contains(r.value.description.value, EndpointName(system, df.fromComponent))
      && Text.Contains(r.value.description.value, EndpointName(system, df.toComponent))
  {
    if !df.encrypted && df.classification.Value() in ["confidential", "restricted"] then
      InsecureFlowDescriptionMentions(df, system);
      Some(Threat(
        Uuid, category, framework, title,
        description := Some(InsecureFlowDescription(df, system)),
        severity := Some(High),
        affectedDataFlows := [FlowKey(df)]))
    else None
  }

  /** The text detection phrases are searched in: the lower-cased name, a
      space, and the lower-cased type value. */
  function MatchText(c: Component): string {
    Text.Lower(c.name) + " " + Text.Lower(c.ctype.Value())
  }

  /** Some phrase, lower-cased, occurs in `hay`; the loop with early return
      over `detection_patterns`. */
  function AnyPhraseIn(phrases: seq<string>, hay: string): (r: bool)
    ensures r <==> exists k :: 0 <= k < |phrases| && Text.Contains(hay, Text.Lower(phrases[k]))
    decreases |phrases|
  {
    if |phrases| == 0 then false
    else if Text.Contains(hay, Text.Lower(phrases[0])) then true
    else
      var r := AnyPhraseIn(phrases[1..], hay);
      assert r <==> exists k :: 1 <= k < |phrases| && Text.Contains(hay, Text.Lower(phrases[k])) by {
        if r {
          var k :| 0 <= k < |phrases[1..]| && Text.Contains(hay, Text.Lower(phrases[1..][k]));
          assert phrases[1..][k] == phrases[k + 1];
        }
        if exists k :: 1 <= k < |phrases| && Text.Contains(hay, Text.Lower(phrases[k])) {
          var k :| 1 <= k < |phrases| && Text.Contains(hay, Text.Lower(phrases[k]));
          assert phrases[1..][k - 1] == phrases[k];
        }
      }
      r
  }

  /** `pattern_matches_component`: some lower-cased detection phrase occurs in
      the component's match text, or its type value is one of the trigger
      types. */
  function PatternMatchesComponent(pattern: ThreatPattern, component: Component, componentTypes: seq<string>): (r: bool)
    ensures r <==>
      || (exists k :: 0 <= k < |pattern.detectionPatterns| &&
            Text.Contains(MatchText(component), Text.Lower(pattern.detectionPatterns[k])))
      || component.ctype.Value() in componentTypes
  {
    AnyPhraseIn(pattern.detectionPatterns, MatchText(component)) || component.ctype.Value() in componentTypes
  }

  /** An empty detection phrase matches every component. */
  lemma EmptyPhraseMatchesAll(pattern: ThreatPattern, component: Component, componentTypes: seq<string>)
    requires "" in pattern.detectionPatterns
    ensures PatternMatchesComponent(pattern, component, componentTypes)
  {
    var k :| 0 <= k < |pattern.detectionPatterns| && pattern.detectionPatterns[k] == "";
    Text.ContainsEmpty(MatchText(component));
  }

  /** A phrase found in the lower-cased name is enough for a match. */
  lemma PhraseInNameMatches(pattern: ThreatPattern, component: Component, componentTypes: seq<string>, k: int)
    requires 0 <= k < |pattern.detectionPatterns|
    requires Text.Contains(Text.Lower(component.name), Text.Lower(pattern.detectionPatterns[k]))
    ensures PatternMatchesComponent(pattern, component, componentTypes)
  {
    Text.ContainsExtend(Text.Lower(component.name), " " + Text.Lower(component.ctype.Value()),
                        Text.Lower(pattern.detectionPatterns[k]));
    assert MatchText(component) == Text.Lower(component.name) + (" " + Text.Lower(component.ctype.Value()));
  }

  /** Matching reads only the name, the type and the phrases: capabilities,
      trust level and description never change the answer. */
  lemma MatchIgnoresOtherFields(
    pattern: ThreatPattern, component: Component, componentTypes: seq<string>,
    capabilities: seq<string>, trustLevel: TrustLevel, description: Option<string>)
    ensures PatternMatchesComponent(pattern, component, componentTypes) ==
      PatternMatchesComponent(pattern,
        component.(capabilities := capabilities, trustLevel := trustLevel, description := description),
        componentTypes)
  {
  }

  /** A mitigation dictionary as a `Mitigation`: a missing id or description
      becomes "", a missing implementation or priority stays absent, and
      the status is PROPOSED. */
  function ToMitigation(spec: MitigationSpec): (m: Mitigation)
    ensures m.id == spec.id.GetOr("") && m.description == spec.description.GetOr("")
    ensures m.implementation == spec.implementation && m.priority == spec.priority
    ensures m.status == Proposed
  {
    Mitigation(spec.id.GetOr(""), spec.description.GetOr(""), spec.implementation, Proposed, spec.priority)
  }

  /** `create_threat_from_pattern`: the pattern's text fields, the component
      as the only affected component, the severity from the plugin's table
      (MEDIUM when the id is absent), and one proposed mitigation per
      mitigation dictionary, in order. */
  function CreateThreatFromPattern(pattern: ThreatPattern, component: Component, severityMap: map<string, Severity>): (t: Threat)
    ensures t.id == Uuid
    ensures t.category == pattern.category && t.framework == pattern.framework && t.title == pattern.title
    ensures t.description == Some(pattern.description)
    ensures t.attackVectors == pattern.attackVectors && t.detectionPatterns == pattern.detectionPatterns
    ensures t.affectedComponents == [component.id] && t.affectedDataFlows == []
    ensures t.severity == Some(if pattern.id in severityMap then severityMap[pattern.id] else Medium)
    ensures |t.mitigations| == |pattern.mitigations|
    ensures forall i :: 0 <= i < |t.mitigations| ==>
      t.mitigations[i] == ToMitigation(pattern.mitigations[i]) && t.mitigations[i].status == Proposed
  {
    var severity := if pattern.id in severityMap then severityMap[pattern.id] else Medium;
    Threat(
      Uuid, pattern.category, pattern.framework, pattern.title,
      description := Some(pattern.description),
      severity := Some(severity),
      affectedComponents := [component.id],
      attackVectors := pattern.attackVectors,
      detectionPatterns := pattern.detectionPatterns,
      mitigations := Seqs.Map(pattern.mitigations, ToMitigation))
  }
}

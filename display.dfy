/** The pure helpers behind the terminal view of a threat model: endpoint
    names of a flow, the "affected items" cell, flow lookup, the threat
    detail panels (only the first five are drawn) and severity colours. */
module Display {
  import opened Wrappers
  import opened Models
  import Text
  import Seqs
  import ThreatDetection

  /** `_get_data_flow_names`: the names of a flow's two endpoints, each
      falling back to the raw id when it names no component. */
  function DataFlowNames(df: DataFlow, system: SystemModel): (r: (string, string))
    ensures system.GetComponent(df.fromComponent).Some? ==> r.0 == system.GetComponent(df.fromComponent).value.name
    ensures system.GetComponent(df.fromComponent).None? ==> r.0 == df.fromComponent
    ensures system.GetComponent(df.toComponent).Some? ==> r.1 == system.GetComponent(df.toComponent).value.name
    ensures system.GetComponent(df.toComponent).None? ==> r.1 == df.toComponent
  {
    (ThreatDetection.EndpointName(system, df.fromComponent), ThreatDetection.EndpointName(system, df.toComponent))
  }

  /** `_find_data_flow_by_id`: the loop that returns the first flow whose
      "from->to" text equals the id or contains it. It finds what the
      shared lookup of the detection helpers finds. */
  method FindDataFlowById(dfId: string, system: SystemModel) returns (r: Option<DataFlow>)
    ensures r == ThreatDetection.FindDataFlowById(dfId, system)
  {
    var flows := system.dataFlows;
    var i := 0;
    while i < |flows|
      invariant 0 <= i <= |flows|
      invariant forall j :: 0 <= j < i ==> !Text.Contains(ThreatDetection.FlowKey(flows[j]), dfId)
    {
      var df := flows[i];
      var key := df.fromComponent + "->" + df.toComponent;
      ThreatDetection.KeyMatchesIffContains(df, dfId);
      if dfId == key || Text.Contains(key, dfId) {
        var found := ThreatDetection.FindDataFlowById(dfId, system);
        assert found.Some? by {
          assert df in flows;
        }
        var k :| 0 <= k < |flows| && flows[k] == found.value &&
                 Text.Contains(ThreatDetection.FlowKey(found.value), dfId) &&
                 forall j :: 0 <= j < k ==> !Text.Contains(ThreatDetection.FlowKey(flows[j]), dfId);
        assert k == i;
        return Some(df);
      }
      i := i + 1;
    }
    r := None;
  }

  /** How an affected flow is shown: "from → to" by endpoint names when the
      flow is found, otherwise the flow id as given. */
  function FlowLabel(system: SystemModel, dfId: string): string {
    match ThreatDetection.FindDataFlowById(dfId, system)
    case Some(df) =>
      var names := DataFlowNames(df, system);
      names.0 + " → " + names.1
    case None => dfId
  }

  /** The lookup both display helpers do for one affected flow. */
  method DescribeFlow(dfId: string, system: SystemModel) returns (shownAs: string)
    ensures shownAs == FlowLabel(system, dfId)
  {
    var found := FindDataFlowById(dfId, system);
    if found.Some? {
      var names := DataFlowNames(found.value, system);
      shownAs := names.0 + " → " + names.1;
    } else {
      shownAs := dfId;
    }
  }

  /** The names shown for a threat's affected components: the component's
      name, or the id where it names no component. */
  function ComponentNames(t: Threat, system: SystemModel): seq<string> {
    Seqs.Map(t.affectedComponents, cid => ThreatDetection.EndpointName(system, cid))
  }

  /** How each of a threat's affected flows is shown. */
  function FlowDescriptions(t: Threat, system: SystemModel): seq<string> {
    Seqs.Map(t.affectedDataFlows, dfId => FlowLabel(system, dfId))
  }

  function ComponentItem(name: string): string {
    "Component: " + name
  }

  function FlowItem(shownAs: string): string {
    "Flow: " + shownAs
  }

  /** The list `_format_affected_items` builds: components, then flows. */
  function AffectedItems(t: Threat, system: SystemModel): seq<string> {
    Seqs.Map(ComponentNames(t, system), ComponentItem) + Seqs.Map(FlowDescriptions(t, system), FlowItem)
  }

  const NoItems := "None specified"

  /** The cell text: the first three items joined with ", ", a count of the
      rest, or "None specified" for no items. */
  function FormatItems(items: seq<string>): string {
    if |items| == 0 then NoItems
    else
      Text.Join(Seqs.Take(items, 3), ", ") + (if |items| > 3 then MoreNote(|items| - 3) else "")
  }

  /** The count of the items left out of the cell. */
  function MoreNote(count: nat): string {
    " (+" + Text.NatToString(count) + " more)"
  }

  /** The loop over affected flows shared by `_format_affected_items` and
      `_build_threat_panel_content`. */
  method DescribeFlows(flows: seq<string>, system: SystemModel) returns (descriptions: seq<string>)
    ensures |descriptions| == |flows|
    ensures forall k :: 0 <= k < |flows| ==> descriptions[k] == FlowLabel(system, flows[k])
  {
    descriptions := [];
    var j := 0;
    while j < |flows|
      invariant 0 <= j <= |flows| && |descriptions| == j
      invariant forall k :: 0 <= k < j ==> descriptions[k] == FlowLabel(system, flows[k])
    {
      var shownAs := DescribeFlow(flows[j], system);
      descriptions := descriptions + [shownAs];
      j := j + 1;
    }
  }

  /** Labels computed one flow at a time are the threat's flow descriptions. */
  lemma AreFlowDescriptions(t: Threat, system: SystemModel, descriptions: seq<string>)
    requires |descriptions| == |t.affectedDataFlows|
    requires forall k :: 0 <= k < |descriptions| ==> descriptions[k] == FlowLabel(system, t.affectedDataFlows[k])
    ensures descriptions == FlowDescriptions(t, system)
  {
  }

  /** The loop over names that prefixes each with its kind of item. */
  method Prefixed(names: seq<string>, prefix: string) returns (items: seq<string>)
    ensures |items| == |names|
    ensures forall k :: 0 <= k < |names| ==> items[k] == prefix + names[k]
  {
    items := [];
    var i := 0;
    while i < |names|
      invariant 0 <= i <= |names| && |items| == i
      invariant forall k :: 0 <= k < i ==> items[k] == prefix + names[k]
    {
      items := items + [prefix + names[i]];
      i := i + 1;
    }
  }

  /** `_format_affected_items`: the affected items listed, components
      first, then the truncated join. */
  method FormatAffectedItems(t: Threat, system: SystemModel) returns (s: string)
    ensures s == FormatItems(AffectedItems(t, system))
  {
    var names := ComponentNames(t, system);
    var descriptions := DescribeFlows(t.affectedDataFlows, system);
    AreFlowDescriptions(t, system, descriptions);
    var front := Prefixed(names, "Component: ");
    var back := Prefixed(descriptions, "Flow: ");
    assert front == Seqs.Map(names, ComponentItem);
    assert back == Seqs.Map(descriptions, FlowItem);
    var items := front + back;
    if |items| > 0 {
      s := Text.Join(Seqs.Take(items, 3), ", ");
      if |items| > 3 {
        s := s + MoreNote(|items| - 3);
      }
    } else {
      s := NoItems;
    }
  }

  /** The items are the affected components by name (or id), in order,
      followed by the affected flows as shown, in order. */
  lemma AffectedItemsLayout(t: Threat, system: SystemModel)
    ensures var items, n := AffectedItems(t, system), |t.affectedComponents|;
      && |items| == n + |t.affectedDataFlows|
      && (forall i :: 0 <= i < n ==>
            items[i] == "Component: " + ThreatDetection.EndpointName(system, t.affectedComponents[i]))
      && (forall j :: 0 <= j < |t.affectedDataFlows| ==>
            items[n + j] == "Flow: " + FlowLabel(system, t.affectedDataFlows[j]))
  {
    var names, descriptions := ComponentNames(t, system), FlowDescriptions(t, system);
    var front, back := Seqs.Map(names, ComponentItem), Seqs.Map(descriptions, FlowItem);
    var items, n := AffectedItems(t, system), |t.affectedComponents|;
    assert items == front + back;
    forall i | 0 <= i < n
      ensures items[i] == "Component: " + ThreatDetection.EndpointName(system, t.affectedComponents[i])
    {
      assert items[i] == front[i] == ComponentItem(names[i]);
    }
    forall j | 0 <= j < |t.affectedDataFlows|
      ensures items[n + j] == "Flow: " + FlowLabel(system, t.affectedDataFlows[j])
    {
      assert items[n + j] == back[j] == FlowItem(descriptions[j]);
    }
  }

  /** The cell reads "None specified" exactly when the threat names no
      component and no flow. */
  lemma NoneSpecifiedIff(t: Threat, system: SystemModel)
    ensures FormatItems(AffectedItems(t, system)) == "None specified" <==>
            t.affectedComponents == [] && t.affectedDataFlows == []
  {
    var names, descriptions := ComponentNames(t, system), FlowDescriptions(t, system);
    var front, back := Seqs.Map(names, ComponentItem), Seqs.Map(descriptions, FlowItem);
    var items := AffectedItems(t, system);
    assert items == front + back;
    if |items| > 0 {
      var shown := Seqs.Take(items, 3);
      Text.JoinStartsWith(shown, ", ");
      var joined := Text.Join(shown, ", ");
      assert items[0][0] == 'C' || items[0][0] == 'F' by {
        if |names| > 0 {
          assert items[0] == ComponentItem(names[0]);
        } else {
          assert items[0] == back[0] == FlowItem(descriptions[0]);
        }
      }
      assert FormatItems(items)[0] == joined[0] == items[0][0];
    }
  }

  /** Up to three items are listed whole; with more, the first three are
      listed and the number of the others is stated. */
  lemma FormatItemsTruncates(items: seq<string>)
    requires |items| > 0
    ensures |items| <= 3 ==> FormatItems(items) == Text.Join(items, ", ")
    ensures |items| > 3 ==>
      FormatItems(items) == Text.Join(items[..3], ", ") + MoreNote(|items| - 3)
  {
    if |items| <= 3 {
      assert Seqs.Take(items, 3) == items;
    } else {
      assert Seqs.Take(items, 3) == items[..3];
    }
  }

  /** `_get_severity_color`: the border colour for a severity value. */
  function SeverityColor(severity: string): (r: string)
    ensures r == "red" <==> severity == "critical"
    ensures r == "yellow" <==> severity == "high"
    ensures r == "blue" <==> severity == "medium"
    ensures r == "green" <==> severity == "low"
    ensures r == "white" <==> severity !in ["critical", "high", "medium", "low"]
  {
    var colors := map["critical" := "red", "high" := "yellow", "medium" := "blue", "low" := "green"];
    if severity in colors then colors[severity] else "white"
  }

  /** Each severity has its own colour, and none is the fallback. */
  lemma SeverityColorsDistinct(a: Severity, b: Severity)
    ensures SeverityColor(a.Value()) != "white"
    ensures a != b ==> SeverityColor(a.Value()) != SeverityColor(b.Value())
  {
  }

  predicate Truthy(s: Option<string>) {
    s.Some? && s.value != []
  }

  function MitigationsHeader(count: nat): string {
    "[bold]Mitigations (" + Text.NatToString(count) + "):[/bold]"
  }

  function MitigationLine(m: Mitigation): string {
    "- " + m.description
  }

  /** The mitigations entry: the total count, then at most three of them. */
  function MitigationsEntry(ms: seq<Mitigation>): string {
    MitigationsHeader(|ms|) + "\n" + Text.Join(Seqs.Map(Seqs.Take(ms, 3), MitigationLine), "\n")
  }

  function AttackVectorsEntry(vectors: seq<string>): string {
    "[bold]Attack Vectors:[/bold] " + Text.Join(Seqs.Take(vectors, 3), ", ")
  }

  function DescriptionPart(t: Threat): seq<string> {
    if Truthy(t.description) then ["[bold]Description:[/bold] " + t.description.value] else []
  }

  function ComponentsPart(t: Threat, system: SystemModel): seq<string> {
    if t.affectedComponents != [] then
      ["[bold]Affected Components:[/bold] " + Text.Join(ComponentNames(t, system), ", ")]
    else []
  }

  function FlowsPart(t: Threat, system: SystemModel): seq<string> {
    if t.affectedDataFlows != [] then
      ["[bold]Affected Data Flows:[/bold] " + Text.Join(FlowDescriptions(t, system), ", ")]
    else []
  }

  function VectorsPart(t: Threat): seq<string> {
    if t.attackVectors != [] then [AttackVectorsEntry(t.attackVectors)] else []
  }

  function MitigationsPart(t: Threat): seq<string> {
    if t.mitigations != [] then [MitigationsEntry(t.mitigations)] else []
  }

  /** The lines of a threat's detail panel, each present only when its
      field is non-empty. */
  function PanelContent(t: Threat, system: SystemModel): seq<string> {
    DescriptionPart(t) + ComponentsPart(t, system) + FlowsPart(t, system) + VectorsPart(t) + MitigationsPart(t)
  }

  /** `_build_threat_panel_content`, with its loop over affected flows. */
  method BuildThreatPanelContent(t: Threat, system: SystemModel) returns (content: seq<string>)
    ensures content == PanelContent(t, system)
  {
    content := [];
    if t.description.Some? && t.description.value != [] {
      content := content + ["[bold]Description:[/bold] " + t.description.value];
    }
    assert content == DescriptionPart(t);
    if t.affectedComponents != [] {
      content := content + ["[bold]Affected Components:[/bold] " + Text.Join(ComponentNames(t, system), ", ")];
    }
    assert content == DescriptionPart(t) + ComponentsPart(t, system);
    if t.affectedDataFlows != [] {
      var descriptions := DescribeFlows(t.affectedDataFlows, system);
      AreFlowDescriptions(t, system, descriptions);
      content := content + ["[bold]Affected Data Flows:[/bold] " + Text.Join(descriptions, ", ")];
    }
    assert content == DescriptionPart(t) + ComponentsPart(t, system) + FlowsPart(t, system);
    if t.attackVectors != [] {
      content := content + [AttackVectorsEntry(t.attackVectors)];
    }
    if t.mitigations != [] {
      content := content + [MitigationsEntry(t.mitigations)];
    }
  }

  /** A panel has content exactly when the threat has a description or any
      affected item, attack vector or mitigation. */
  lemma PanelContentEmptyIff(t: Threat, system: SystemModel)
    ensures PanelContent(t, system) == [] <==>
      && !Truthy(t.description)
      && t.affectedComponents == [] && t.affectedDataFlows == []
      && t.attackVectors == [] && t.mitigations == []
  {
  }

  /** With mitigations, the panel's last line is the mitigations entry. */
  lemma MitigationsLast(t: Threat, system: SystemModel)
    requires t.mitigations != []
    ensures var content := PanelContent(t, system);
      |content| > 0 && content[|content| - 1] == MitigationsEntry(t.mitigations)
  {
  }

  /** Split into lines, the mitigations entry is the header with the total
      count, then one line for each of the first three mitigations, however
      many there are. */
  lemma MitigationsEntryLines(ms: seq<Mitigation>)
    requires ms != []
    requires forall m :: m in ms ==> '\n' !in m.description
    ensures var lines := Text.Split(MitigationsEntry(ms), '\n');
      && |lines| == 1 + (if |ms| < 3 then |ms| else 3)
      && lines[0] == "[bold]Mitigations (" + Text.NatToString(|ms|) + "):[/bold]"
      && forall i :: 1 <= i < |lines| ==> lines[i] == "- " + ms[i - 1].description
  {
    var parts := MitigationsParts(ms);
    MitigationsPartsSingleLine(ms);
    assert Text.Join(parts, "\n") == MitigationsEntry(ms) by {
      assert parts[1..] == Seqs.Map(Seqs.Take(ms, 3), MitigationLine);
    }
    Text.SplitJoin(parts, '\n');
  }

  /** The lines the mitigations entry is joined from. */
  function MitigationsParts(ms: seq<Mitigation>): seq<string> {
    [MitigationsHeader(|ms|)] + Seqs.Map(Seqs.Take(ms, 3), MitigationLine)
  }

  lemma MitigationsPartsSingleLine(ms: seq<Mitigation>)
    requires forall m :: m in ms ==> '\n' !in m.description
    ensures forall k :: 0 <= k < |MitigationsParts(ms)| ==> '\n' !in MitigationsParts(ms)[k]
    ensures |MitigationsParts(ms)| == 1 + (if |ms| < 3 then |ms| else 3)
    ensures MitigationsParts(ms)[0] == MitigationsHeader(|ms|)
    ensures forall i :: 1 <= i < |MitigationsParts(ms)| ==> MitigationsParts(ms)[i] == "- " + ms[i - 1].description
  {
    var parts := MitigationsParts(ms);
    forall k | 0 <= k < |parts| ensures '\n' !in parts[k] {
      if k > 0 {
        assert ms[k - 1] in ms;
        assert parts[k] == "- " + ms[k - 1].description;
      } else {
        MitigationsHeaderSingleLine(|ms|);
      }
    }
  }

  lemma MitigationsHeaderSingleLine(count: nat)
    ensures '\n' !in MitigationsHeader(count)
  {
    var n := Text.NatToString(count);
    assert '\n' !in n by {
      forall i | 0 <= i < |n| ensures n[i] != '\n' { }
    }
  }

  /** The attack-vectors entry is in the panel and lists the first three
      vectors only. */
  lemma AttackVectorsShown(t: Threat, system: SystemModel)
    requires t.attackVectors != []
    ensures AttackVectorsEntry(t.attackVectors) in PanelContent(t, system)
    ensures AttackVectorsEntry(t.attackVectors) ==
      "[bold]Attack Vectors:[/bold] " + Text.Join(t.attackVectors[..if |t.attackVectors| < 3 then |t.attackVectors| else 3], ", ")
  {
    var front := DescriptionPart(t) + ComponentsPart(t, system) + FlowsPart(t, system);
    assert PanelContent(t, system) == front + VectorsPart(t) + MitigationsPart(t);
    assert PanelContent(t, system)[|front|] == AttackVectorsEntry(t.attackVectors);
  }

  /** A drawn detail panel: its title, its text and its border colour. */
  datatype Panel = Panel(title: string, body: string, border: string)

  /** Whether `_display_threat_details` draws a panel for a threat. */
  predicate HasPanel(t: Threat, system: SystemModel) {
    PanelContent(t, system) != [] || t.category != [] || t.title != []
  }

  /** The panel for a threat: with no content it shows the category; its
      border follows the severity, medium when none is set. */
  function ToPanel(t: Threat, system: SystemModel): Panel {
    var content := PanelContent(t, system);
    var lines := if content == [] then ["[bold]Category:[/bold] " + t.category] else content;
    var severity := if t.severity.Some? then t.severity.value.Value() else "medium";
    Panel(t.category + ": " + t.title, Text.Join(lines, "\n"), SeverityColor(severity))
  }

  /** The panels drawn: one for each of the first five threats that has
      anything to show. */
  function DetailPanels(threats: seq<Threat>, system: SystemModel): seq<Panel> {
    Seqs.Collect(Seqs.Take(threats, 5), t => HasPanel(t, system), t => ToPanel(t, system))
  }

  /** The note printed after the panels when threats were left out. */
  function MoreThreatsNote(threats: seq<Threat>): Option<string> {
    if |threats| > 5 then Some("\n[dim]... and " + Text.NatToString(|threats| - 5) + " more threats[/dim]")
    else None
  }

  /** One pass of the loop of `_display_threat_details`: the panel drawn for
      a threat, if any. */
  method ThreatDetail(t: Threat, system: SystemModel) returns (panel: Option<Panel>)
    ensures panel.Some? <==> HasPanel(t, system)
    ensures panel.Some? ==> panel.value == ToPanel(t, system)
  {
    var content := BuildThreatPanelContent(t, system);
    if content != [] || t.category != [] || t.title != [] {
      var color := SeverityColor(if t.severity.Some? then t.severity.value.Value() else "medium");
      if content == [] {
        content := ["[bold]Category:[/bold] " + t.category];
      }
      panel := Some(Panel(t.category + ": " + t.title, Text.Join(content, "\n"), color));
    } else {
      panel := None;
    }
  }

  /** `_display_threat_details`: the loop over the first five threats, with
      the drawing replaced by collecting the panels, then the note. */
  method DisplayThreatDetails(tm: ThreatModel) returns (panels: seq<Panel>, note: Option<string>)
    ensures panels == DetailPanels(tm.threats, tm.system)
    ensures note == MoreThreatsNote(tm.threats)
  {
    var shown := Seqs.Take(tm.threats, 5);
    panels := [];
    var i := 0;
    while i < |shown|
      invariant 0 <= i <= |shown|
      invariant panels == Seqs.Collect(shown[..i], t => HasPanel(t, tm.system), t => ToPanel(t, tm.system))
    {
      assert shown[..i + 1][..i] == shown[..i];
      var panel := ThreatDetail(shown[i], tm.system);
      if panel.Some? {
        panels := panels + [panel.value];
      }
      i := i + 1;
    }
    assert shown[..i] == shown;
    if |tm.threats| > 5 {
      note := Some("\n[dim]... and " + Text.NatToString(|tm.threats| - 5) + " more threats[/dim]");
    } else {
      note := None;
    }
  }

  /** At most five panels are drawn, each for one of the first five threats;
      every one of those with something to show gets its panel; a note
      follows exactly when there are more than five threats, and it states
      how many were left out. */
  lemma DetailsCoverFirstFive(threats: seq<Threat>, system: SystemModel)
    ensures |DetailPanels(threats, system)| <= 5
    ensures forall p :: p in DetailPanels(threats, system) ==>
      exists i :: 0 <= i < 5 && i < |threats| && p == ToPanel(threats[i], system)
    ensures forall i :: 0 <= i < 5 && i < |threats| && HasPanel(threats[i], system) ==>
      ToPanel(threats[i], system) in DetailPanels(threats, system)
    ensures MoreThreatsNote(threats).Some? <==> |threats| > 5
    ensures |threats| > 5 ==>
      MoreThreatsNote(threats).value == "\n[dim]... and " + Text.NatToString(|threats| - 5) + " more threats[/dim]"
  {
    Seqs.CollectTake(threats, 5, t => HasPanel(t, system), t => ToPanel(t, system));
  }
}

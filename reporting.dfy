/** The two text exports of a threat model: a Markdown report and a Mermaid
    flow diagram. Both build a list of lines in loops and join it with
    newlines. */
module Reporting {
  import opened Wrappers
  import opened Models
  import Text
  import Seqs

  /** Python's truthiness of an optional string: present and non-empty. */
  predicate Truthy(s: Option<string>) {
    s.Some? && s.value != []
  }

  /** How an f-string shows an optional timestamp. */
  function TimestampText(t: Option<Timestamp>): string {
    match t
    case Some(v) => v
    case None => "None"
  }

  function TitleLine(tm: ThreatModel): string {
    "# Threat Model: " + tm.system.name
  }

  /** The fixed header: title, system type, framework, timestamps and the
      opening of the components section. */
  function HeaderLines(tm: ThreatModel): (r: seq<string>)
    ensures |r| == 9 && r[0] == TitleLine(tm)
  {
    [ TitleLine(tm),
      "",
      "**System Type:** " + tm.system.stype.Value(),
      "**Framework:** " + tm.system.framework.Value(),
      "**Created:** " + TimestampText(tm.metadata.created),
      "**Updated:** " + TimestampText(tm.metadata.updated),
      "",
      "## Components",
      "" ]
  }

  function ComponentLine(c: Component): string {
    "- **" + c.name + "** (" + c.ctype.Value() + ")"
  }

  /** The indented line that carries a component's description. */
  predicate IsDescriptionLine(line: string) {
    Text.StartsWith(line, "  - ")
  }

  /** A component's entry: its bullet, then its description when it has one. */
  function ComponentBlock(c: Component): seq<string> {
    [ComponentLine(c)] + (if Truthy(c.description) then ["  - " + c.description.value] else [])
  }

  function ThreatHeading(t: Threat): string {
    "### " + t.category + ": " + t.title
  }

  function SeverityLine(s: Severity): string {
    "**Severity:** " + s.Value()
  }

  /** A threat's entry: heading, description if any, severity if any, and a
      blank line. */
  function ThreatBlock(t: Threat): seq<string> {
    [ThreatHeading(t)]
    + (if Truthy(t.description) then [t.description.value] else [])
    + (if t.severity.Some? then [SeverityLine(t.severity.value)] else [])
    + [""]
  }

  const NoThreatsLine := "*No threats identified yet.*"

  function ThreatSection(threats: seq<Threat>): seq<string> {
    if |threats| == 0 then [NoThreatsLine] else Seqs.FlatMap(threats, ThreatBlock)
  }

  const ThreatsOpening: seq<string> := ["", "## Threats", ""]

  /** The report's lines up to the threats section's entries. */
  function LinesBeforeThreats(tm: ThreatModel): seq<string> {
    HeaderLines(tm) + Seqs.FlatMap(tm.system.components, ComponentBlock) + ThreatsOpening
  }

  /** The lines of `generate_markdown_report`, before joining. */
  function MarkdownLines(tm: ThreatModel): seq<string> {
    LinesBeforeThreats(tm) + ThreatSection(tm.threats)
  }

  function MarkdownReport(tm: ThreatModel): string {
    Text.Join(MarkdownLines(tm), "\n")
  }

  /** `generate_markdown_report`: the header, one entry per component, then
      one entry per threat or the no-threats line. */
  method GenerateMarkdownReport(tm: ThreatModel) returns (report: string)
    ensures report == MarkdownReport(tm)
  {
    var lines := HeaderLines(tm);
    lines := AppendComponentLines(lines, tm.system.components);
    lines := lines + ThreatsOpening;
    if |tm.threats| == 0 {
      lines := lines + [NoThreatsLine];
    } else {
      lines := AppendThreatLines(lines, tm.threats);
    }
    report := Text.Join(lines, "\n");
  }

  /** The loop of `generate_markdown_report` over components. */
  method AppendComponentLines(before: seq<string>, components: seq<Component>) returns (lines: seq<string>)
    ensures lines == before + Seqs.FlatMap(components, ComponentBlock)
  {
    lines := before;
    var i := 0;
    while i < |components|
      invariant 0 <= i <= |components|
      invariant lines == before + Seqs.FlatMap(components[..i], ComponentBlock)
    {
      Seqs.FlatMapPrefixStep(components, ComponentBlock, i);
      var block := ComponentLines(components[i]);
      lines := lines + block;
      i := i + 1;
    }
    assert components[..i] == components;
  }

  /** One pass of the component loop: the bullet, then the description. */
  method ComponentLines(c: Component) returns (block: seq<string>)
    ensures block == ComponentBlock(c)
  {
    block := [ComponentLine(c)];
    if c.description.Some? && c.description.value != [] {
      block := block + ["  - " + c.description.value];
    }
  }

  /** The loop of `generate_markdown_report` over threats. */
  method AppendThreatLines(before: seq<string>, threats: seq<Threat>) returns (lines: seq<string>)
    ensures lines == before + Seqs.FlatMap(threats, ThreatBlock)
  {
    lines := before;
    var j := 0;
    while j < |threats|
      invariant 0 <= j <= |threats|
      invariant lines == before + Seqs.FlatMap(threats[..j], ThreatBlock)
    {
      Seqs.FlatMapPrefixStep(threats, ThreatBlock, j);
      var block := ThreatLines(threats[j]);
      lines := lines + block;
      j := j + 1;
    }
    assert threats[..j] == threats;
  }

  /** One pass of the threat loop: heading, description, severity, blank. */
  method ThreatLines(t: Threat) returns (block: seq<string>)
    ensures block == ThreatBlock(t)
  {
    block := [ThreatHeading(t)];
    if t.description.Some? && t.description.value != [] {
      block := block + [t.description.value];
    }
    if t.severity.Some? {
      block := block + [SeverityLine(t.severity.value)];
    }
    block := block + [""];
  }

  /** The report opens with the system's name as its title. */
  lemma MarkdownStartsWithTitle(tm: ThreatModel)
    ensures Text.StartsWith(MarkdownReport(tm), "# Threat Model: " + tm.system.name)
  {
    Text.JoinStartsWith(MarkdownLines(tm), "\n");
  }

  predicate NoNewline(s: string) {
    '\n' !in s
  }

  predicate NoNewlineOpt(s: Option<string>) {
    s.Some? ==> NoNewline(s.value)
  }

  /** No field the report prints spans several lines. */
  predicate SingleLineFields(tm: ThreatModel) {
    && NoNewline(tm.system.name)
    && NoNewlineOpt(tm.metadata.created) && NoNewlineOpt(tm.metadata.updated)
    && (forall c :: c in tm.system.components ==> NoNewline(c.name) && NoNewlineOpt(c.description))
    && (forall t :: t in tm.threats ==> NoNewline(t.category) && NoNewline(t.title) && NoNewlineOpt(t.description))
  }

  lemma {:induction false} FlatMapNoNewline<T>(xs: seq<T>, f: T -> seq<string>)
    requires forall x, k :: x in xs && 0 <= k < |f(x)| ==> NoNewline(f(x)[k])
    ensures forall k :: 0 <= k < |Seqs.FlatMap(xs, f)| ==> NoNewline(Seqs.FlatMap(xs, f)[k])
    decreases |xs|
  {
    if |xs| > 0 {
      var init := xs[..|xs| - 1];
      assert forall x :: x in init ==> x in xs;
      FlatMapNoNewline(init, f);
    }
  }

  lemma SystemTypeSingleLine(t: SystemType)
    ensures NoNewline(t.Value())
  {
  }

  lemma FrameworkSingleLine(f: Framework)
    ensures NoNewline(f.Value())
  {
  }

  lemma ComponentTypeSingleLine(t: ComponentType)
    ensures NoNewline(t.Value())
  {
    match t
    case Llm =>
    case Agent =>
    case Tool =>
    case Memory =>
    case McpServerComponent =>
    case WebServer =>
    case ApiEndpoint =>
    case MobileAppComponent =>
    case Browser =>
    case AuthenticationService =>
    case AuthorizationService =>
    case Database =>
    case Cache =>
    case MessageQueue =>
    case LoadBalancer =>
    case Cdn =>
    case Firewall =>
  }

  lemma ComponentBlockSingleLine(c: Component)
    requires NoNewline(c.name) && NoNewlineOpt(c.description)
    ensures forall k :: 0 <= k < |ComponentBlock(c)| ==> NoNewline(ComponentBlock(c)[k])
  {
    ComponentTypeSingleLine(c.ctype);
  }

  lemma HeaderSingleLine(tm: ThreatModel)
    requires SingleLineFields(tm)
    ensures forall k :: 0 <= k < |HeaderLines(tm)| ==> NoNewline(HeaderLines(tm)[k])
  {
    var h := HeaderLines(tm);
    forall k | 0 <= k < |h| ensures NoNewline(h[k]) {
      if k == 2 {
        SystemTypeSingleLine(tm.system.stype);
      } else if k == 3 {
        FrameworkSingleLine(tm.system.framework);
      }
    }
  }

  lemma ThreatSectionSingleLine(threats: seq<Threat>)
    requires forall t :: t in threats ==> NoNewline(t.category) && NoNewline(t.title) && NoNewlineOpt(t.description)
    ensures forall k :: 0 <= k < |ThreatSection(threats)| ==> NoNewline(ThreatSection(threats)[k])
  {
    if |threats| > 0 {
      forall t, k | t in threats && 0 <= k < |ThreatBlock(t)| ensures NoNewline(ThreatBlock(t)[k]) {
        if t.severity.Some? {
          assert NoNewline(t.severity.value.Value());
        }
      }
      FlatMapNoNewline(threats, ThreatBlock);
    }
  }

  /** When the printed fields are single-line, the report splits back into
      exactly the lines that were built: one title, one line per component
      (plus one per description), one heading per threat, and so on. */
  lemma MarkdownSplitsIntoLines(tm: ThreatModel)
    requires SingleLineFields(tm)
    ensures Text.Split(MarkdownReport(tm), '\n') == MarkdownLines(tm)
  {
    var h := HeaderLines(tm);
    var body := Seqs.FlatMap(tm.system.components, ComponentBlock);
    var rest := ThreatsOpening + ThreatSection(tm.threats);
    HeaderSingleLine(tm);
    forall c | c in tm.system.components
      ensures forall k :: 0 <= k < |ComponentBlock(c)| ==> NoNewline(ComponentBlock(c)[k])
    {
      ComponentBlockSingleLine(c);
    }
    FlatMapNoNewline(tm.system.components, ComponentBlock);
    ThreatSectionSingleLine(tm.threats);
    assert forall k :: 0 <= k < |rest| ==> NoNewline(rest[k]);
    var lines := h + body + rest;
    Seqs.ConcatAssoc3(h, body, ThreatsOpening, ThreatSection(tm.threats));
    assert forall k :: 0 <= k < |lines| ==> NoNewline(lines[k]) by {
      forall k | 0 <= k < |lines| ensures NoNewline(lines[k]) {
        if k < |h| { assert lines[k] == h[k]; }
        else if k < |h| + |body| { assert lines[k] == body[k - |h|]; }
        else { assert lines[k] == rest[k - |h| - |body|]; }
      }
    }
    Text.SplitJoin(lines, '\n');
  }

  /** Where component `k`'s entry starts among the report's lines. */
  function ComponentOffset(tm: ThreatModel, k: nat): nat
    requires k <= |tm.system.components|
  {
    |HeaderLines(tm)| + |Seqs.FlatMap(tm.system.components[..k], ComponentBlock)|
  }

  /** A component's entry: the bullet, which is not a description line, then
      a description line exactly when it has a description. */
  lemma ComponentBlockShape(c: Component)
    ensures var b := ComponentBlock(c);
      && |b| == (if Truthy(c.description) then 2 else 1)
      && b[0] == ComponentLine(c) && !IsDescriptionLine(b[0])
      && (Truthy(c.description) ==> b[1] == "  - " + c.description.value && IsDescriptionLine(b[1]))
  {
    assert ComponentLine(c)[..4][0] == '-';
    if Truthy(c.description) {
      assert ("  - " + c.description.value)[..4] == "  - ";
    }
  }

  /** Each component has its bullet line, in component order, and the line
      after it is a description line exactly when the component has a
      non-empty description. */
  lemma ComponentEntry(tm: ThreatModel, k: nat)
    requires k < |tm.system.components|
    ensures var lines, off, c := MarkdownLines(tm), ComponentOffset(tm, k), tm.system.components[k];
      && off + 1 < |lines|
      && lines[off] == "- **" + c.name + "** (" + c.ctype.Value() + ")"
      && (IsDescriptionLine(lines[off + 1]) <==> Truthy(c.description))
      && (Truthy(c.description) ==> lines[off + 1] == "  - " + c.description.value)
  {
    var cs := tm.system.components;
    var h := HeaderLines(tm);
    var tail := ThreatsOpening + ThreatSection(tm.threats);
    Seqs.ConcatAssoc(h + Seqs.FlatMap(cs, ComponentBlock), ThreatsOpening, ThreatSection(tm.threats));
    assert tail[0] == "";
    var lines, off, b := MarkdownLines(tm), ComponentOffset(tm, k), ComponentBlock(cs[k]);
    assert lines == h + Seqs.FlatMap(cs, ComponentBlock) + tail;
    Seqs.FlatMapAtIn(h, cs, ComponentBlock, k, tail);
    ComponentBlockShape(cs[k]);
    assert lines[off] == b[0] by {
      assert lines[off + 0] == b[0];
    }
    if Truthy(cs[k].description) {
      assert lines[off + 1] == b[1];
    } else {
      var all := h + Seqs.FlatMap(cs, ComponentBlock) + tail;
      var next := |h| + |Seqs.FlatMap(cs[..k], ComponentBlock)| + |ComponentBlock(cs[k])|;
      assert next == off + 1;
      if k + 1 < |cs| {
        ComponentBlockShape(cs[k + 1]);
      }
      Seqs.FlatMapNextIn(h, cs, ComponentBlock, k, tail);
      assert !IsDescriptionLine(all[next]);
    }
  }

  /** With no threats the report ends with the no-threats line. */
  lemma NoThreatsReported(tm: ThreatModel)
    requires tm.threats == []
    ensures var lines := MarkdownLines(tm);
      lines[|lines| - 1] == "*No threats identified yet.*"
  {
  }

  /** A threat's entry opens with its heading, closes with a blank line, and
      has a severity line just before that exactly when a severity is set. */
  lemma ThreatBlockShape(t: Threat)
    ensures var b := ThreatBlock(t);
      && |b| == 2 + (if Truthy(t.description) then 1 else 0) + (if t.severity.Some? then 1 else 0)
      && b[0] == "### " + t.category + ": " + t.title
      && b[|b| - 1] == ""
      && (t.severity.Some? ==> b[|b| - 2] == "**Severity:** " + t.severity.value.Value())
  {
  }

  /** Where threat `k`'s entry starts among the report's lines. */
  function ThreatOffset(tm: ThreatModel, k: nat): nat
    requires k <= |tm.threats|
  {
    |LinesBeforeThreats(tm)| + |Seqs.FlatMap(tm.threats[..k], ThreatBlock)|
  }

  /** With threats, every threat's entry appears whole, in threat order, and
      the no-threats line is not among the threat entries. */
  lemma ThreatEntry(tm: ThreatModel, k: nat)
    requires k < |tm.threats|
    ensures var lines, off, t := MarkdownLines(tm), ThreatOffset(tm, k), tm.threats[k];
      && off + |ThreatBlock(t)| <= |lines|
      && lines[off..off + |ThreatBlock(t)|] == ThreatBlock(t)
      && lines[off] == "### " + t.category + ": " + t.title
  {
    Seqs.FlatMapAtAfter(LinesBeforeThreats(tm), tm.threats, ThreatBlock, k);
    ThreatBlockShape(tm.threats[k]);
  }

  /** Mermaid node ids: `-` and space become `_`. */
  function NodeId(id: string): (r: string)
    ensures |r| == |id|
    ensures '-' !in r && ' ' !in r
    ensures forall i :: 0 <= i < |id| && id[i] != '-' && id[i] != ' ' ==> r[i] == id[i]
  {
    Text.ReplaceChar(Text.ReplaceChar(id, '-', '_'), ' ', '_')
  }

  /** Mermaid labels: double quotes become single quotes. */
  function Label(name: string): (r: string)
    ensures |r| == |name| && '"' !in r
  {
    Text.ReplaceChar(name, '"', '\'')
  }

  function NodeLine(c: Component): string {
    "    " + NodeId(c.id) + "[\"" + Label(c.name) + "\"]"
  }

  function EdgeLine(df: DataFlow): string {
    "    " + NodeId(df.fromComponent) + " --> " + NodeId(df.toComponent)
  }

  /** The lines of `generate_mermaid_diagram`, before joining. */
  function MermaidLines(system: SystemModel): seq<string> {
    ["graph TD"] + Seqs.Map(system.components, NodeLine) + Seqs.Map(system.dataFlows, EdgeLine)
  }

  function MermaidDiagram(system: SystemModel): string {
    Text.Join(MermaidLines(system), "\n")
  }

  /** `generate_mermaid_diagram`: the graph header, a node per component,
      then an edge per flow. */
  method GenerateMermaidDiagram(tm: ThreatModel) returns (diagram: string)
    ensures diagram == MermaidDiagram(tm.system)
  {
    var lines := ["graph TD"];
    var components := tm.system.components;
    var i := 0;
    while i < |components|
      invariant 0 <= i <= |components|
      invariant lines == ["graph TD"] + Seqs.Map(components[..i], NodeLine)
    {
      lines := lines + [NodeLine(components[i])];
      i := i + 1;
    }
    assert components[..i] == components;
    var flows := tm.system.dataFlows;
    var j := 0;
    while j < |flows|
      invariant 0 <= j <= |flows|
      invariant lines == ["graph TD"] + Seqs.Map(components, NodeLine) + Seqs.Map(flows[..j], EdgeLine)
    {
      lines := lines + [EdgeLine(flows[j])];
      j := j + 1;
    }
    assert flows[..j] == flows;
    diagram := Text.Join(lines, "\n");
  }

  /** Renaming characters adds no newline. */
  lemma NodeIdSingleLine(id: string)
    requires NoNewline(id)
    ensures NoNewline(NodeId(id))
  {
    var r := NodeId(id);
    forall i | 0 <= i < |r| ensures r[i] != '\n' {
      assert id[i] in id;
    }
  }

  lemma NodeLineSingleLine(c: Component)
    requires NoNewline(c.id) && NoNewline(c.name)
    ensures NoNewline(NodeLine(c))
  {
    NodeIdSingleLine(c.id);
    var r := Label(c.name);
    assert NoNewline(r) by {
      forall i | 0 <= i < |r| ensures r[i] != '\n' {
        assert c.name[i] in c.name;
      }
    }
  }

  lemma EdgeLineSingleLine(df: DataFlow)
    requires NoNewline(df.fromComponent) && NoNewline(df.toComponent)
    ensures NoNewline(EdgeLine(df))
  {
    NodeIdSingleLine(df.fromComponent);
    NodeIdSingleLine(df.toComponent);
  }

  /** Where each line of the diagram comes from: the header, then the node
      of component `i` at `1 + i`, then the edge of flow `j` after all
      nodes. */
  lemma MermaidLinesAt(system: SystemModel)
    ensures var lines, n := MermaidLines(system), |system.components|;
      && |lines| == 1 + n + |system.dataFlows|
      && lines[0] == "graph TD"
      && (forall i :: 0 <= i < n ==> lines[1 + i] == NodeLine(system.components[i]))
      && (forall j :: 0 <= j < |system.dataFlows| ==> lines[1 + n + j] == EdgeLine(system.dataFlows[j]))
  {
    var nodes := Seqs.Map(system.components, NodeLine);
    var edges := Seqs.Map(system.dataFlows, EdgeLine);
    var lines := ["graph TD"] + nodes + edges;
    forall i | 0 <= i < |nodes| ensures lines[1 + i] == nodes[i] {
      assert lines[1 + i] == (["graph TD"] + nodes)[1 + i];
    }
    forall j | 0 <= j < |edges| ensures lines[1 + |nodes| + j] == edges[j] {
    }
  }

  /** A node line starts with the indented node id and the opening of its
      label. */
  lemma NodeLineStarts(c: Component)
    ensures Text.StartsWith(NodeLine(c), "    " + NodeId(c.id) + "[\"")
  {
    var p := "    " + NodeId(c.id) + "[\"";
    Seqs.ConcatAssoc3("    ", NodeId(c.id), "[\"", Label(c.name) + "\"]");
    Seqs.ConcatAssoc(p, Label(c.name), "\"]");
    assert NodeLine(c) == p + (Label(c.name) + "\"]");
    assert (p + (Label(c.name) + "\"]"))[..|p|] == p;
  }

  /** No line of the diagram holds a newline. */
  lemma MermaidSingleLines(system: SystemModel)
    requires forall c :: c in system.components ==> NoNewline(c.id) && NoNewline(c.name)
    requires forall df :: df in system.dataFlows ==> NoNewline(df.fromComponent) && NoNewline(df.toComponent)
    ensures forall k :: 0 <= k < |MermaidLines(system)| ==> NoNewline(MermaidLines(system)[k])
  {
    var nodes := Seqs.Map(system.components, NodeLine);
    var edges := Seqs.Map(system.dataFlows, EdgeLine);
    forall i | 0 <= i < |nodes| ensures NoNewline(nodes[i]) {
      assert system.components[i] in system.components;
      NodeLineSingleLine(system.components[i]);
    }
    forall j | 0 <= j < |edges| ensures NoNewline(edges[j]) {
      assert system.dataFlows[j] in system.dataFlows;
      EdgeLineSingleLine(system.dataFlows[j]);
    }
    SingleLinesConcat(["graph TD"], nodes);
    SingleLinesConcat(["graph TD"] + nodes, edges);
  }

  lemma SingleLinesConcat(a: seq<string>, b: seq<string>)
    requires forall k :: 0 <= k < |a| ==> NoNewline(a[k])
    requires forall k :: 0 <= k < |b| ==> NoNewline(b[k])
    ensures forall k :: 0 <= k < |a + b| ==> NoNewline((a + b)[k])
  {
    forall k | 0 <= k < |a + b| ensures NoNewline((a + b)[k]) {
      if k >= |a| {
        assert (a + b)[k] == b[k - |a|];
      }
    }
  }

  /** The diagram has one line for the header, one per component and one
      per flow, in input order, as long as no id or name holds a newline. */
  lemma MermaidLayout(system: SystemModel)
    requires forall c :: c in system.components ==> NoNewline(c.id) && NoNewline(c.name)
    requires forall df :: df in system.dataFlows ==> NoNewline(df.fromComponent) && NoNewline(df.toComponent)
    ensures var lines := Text.Split(MermaidDiagram(system), '\n');
      && |lines| == 1 + |system.components| + |system.dataFlows|
      && lines[0] == "graph TD"
      && (forall i :: 0 <= i < |system.components| ==>
            Text.StartsWith(lines[1 + i], "    " + NodeId(system.components[i].id) + "[\""))
      && (forall j :: 0 <= j < |system.dataFlows| ==>
            lines[1 + |system.components| + j] ==
              "    " + NodeId(system.dataFlows[j].fromComponent) + " --> " + NodeId(system.dataFlows[j].toComponent))
  {
    MermaidSingleLines(system);
    Text.SplitJoin(MermaidLines(system), '\n');
    MermaidLinesAt(system);
    forall i | 0 <= i < |system.components| {
      NodeLineStarts(system.components[i]);
    }
  }

  /** An edge names the node of each endpoint that is a component, so the
      edges attach to the drawn nodes. */
  lemma EdgesAttachToNodes(system: SystemModel, j: nat)
    requires j < |system.dataFlows|
    ensures var df := system.dataFlows[j];
      forall c :: c in system.components && (c.id == df.fromComponent || c.id == df.toComponent) ==>
        exists i :: 0 <= i < |system.components| && system.components[i] == c &&
          MermaidLines(system)[1 + i] == NodeLine(c) &&
          Text.Contains(MermaidLines(system)[1 + |system.components| + j], NodeId(c.id))
  {
    var df := system.dataFlows[j];
    MermaidLinesAt(system);
    var edge := MermaidLines(system)[1 + |system.components| + j];
    EdgeNamesEnds(df);
    forall c | c in system.components && (c.id == df.fromComponent || c.id == df.toComponent)
      ensures exists i :: (0 <= i < |system.components| && system.components[i] == c &&
                           MermaidLines(system)[1 + i] == NodeLine(c) &&
                           Text.Contains(edge, NodeId(c.id)))
    {
      var i :| 0 <= i < |system.components| && system.components[i] == c;
      assert MermaidLines(system)[1 + i] == NodeLine(c);
    }
  }

  /** An edge line names both of its endpoints' nodes. */
  lemma EdgeNamesEnds(df: DataFlow)
    ensures Text.Contains(EdgeLine(df), NodeId(df.fromComponent))
    ensures Text.Contains(EdgeLine(df), NodeId(df.toComponent))
  {
    var from, to := NodeId(df.fromComponent), NodeId(df.toComponent);
    Seqs.ConcatAssoc("    ", from, " --> " + to);
    Seqs.ConcatAssoc("    " + from, " --> ", to);
    Text.ContainsInfix("    ", from, " --> " + to);
    Text.ContainsInfix("    " + from + " --> ", to, "");
    assert "    " + from + " --> " + to + "" == EdgeLine(df);
  }

  /** Ids that differ only in `-`, space or `_` are drawn as one node. */
  lemma NodeIdsCollide()
    ensures NodeId("a-b") == NodeId("a b") == NodeId("a_b") == "a_b"
  {
  }
}

/** The records every plugin shares: threat patterns, the dictionaries that
    describe their mitigations, validation results and the summary that
    `analyze_system` returns. */
module PluginBase {
  import opened Wrappers
  import opened Models

  /** A mitigation dictionary of a pattern. Each key may be absent, which is
      what `None` stands for here. */
  datatype MitigationSpec = MitigationSpec(
    id: Option<string>,
    description: Option<string>,
    implementation: Option<string>,
    priority: Option<string>)

  datatype ThreatPattern = ThreatPattern(
    id: string,
    category: string,
    framework: Framework,
    title: string,
    description: string,
    detectionPatterns: seq<string>,
    attackVectors: seq<string>,
    mitigations: seq<MitigationSpec>)

  /** The result of `validate_component`; errors and warnings default to
      empty lists. */
  datatype ValidationResult = ValidationResult(
    valid: bool,
    errors: seq<string> := [],
    warnings: seq<string> := [])

  /** A result built from its valid flag alone carries no messages. */
  lemma ValidationResultDefaults(valid: bool)
    ensures ValidationResult(valid).errors == [] && ValidationResult(valid).warnings == []
  {
  }

  /** The dictionary `analyze_system` returns. */
  datatype Analysis = Analysis(
    threats: seq<Threat>,
    threatCount: nat,
    componentsAnalyzed: nat,
    dataFlowsAnalyzed: nat)

  /** `analyze_system` once `detect_threats` has produced `threats`: the
      threats themselves and three counts. */
  function Summarize(system: SystemModel, threats: seq<Threat>): (r: Analysis)
    ensures r.threats == threats
    ensures r.threatCount == |r.threats|
    ensures r.componentsAnalyzed == |system.components|
    ensures r.dataFlowsAnalyzed == |system.dataFlows|
  {
    Analysis(threats, |threats|, |system.components|, |system.dataFlows|)
  }
}

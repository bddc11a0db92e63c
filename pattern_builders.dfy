/** The helpers the AI plugins use to build their catalogs: one pattern
    builder per framework and a mitigation-dictionary builder. */
module PatternBuilders {
  import opened Wrappers
  import opened Models
  import opened PluginBase
  import PatternRegistry
  import ThreatDetection

  /** A Python string is truthy when it is present and not empty. */
  function Truthy(s: Option<string>): (r: Option<string>)
    ensures r.Some? <==> s.Some? && s.value != ""
    ensures r.Some? ==> r == s
  {
    if s.Some? && s.value != "" then s else None
  }

  /** The body the three pattern builders share. `mitigations or []` turns
      an absent list into the empty one. The `references` keyword is not a
      field of `ThreatPattern`, whose model ignores unknown keywords, so the
      references a caller passes are dropped. */
  function Build(f: Framework, id: string, title: string, description: string,
                 detectionPatterns: seq<string>, attackVectors: seq<string>,
                 mitigations: Option<seq<MitigationSpec>>, references: Option<seq<Reference>>): (p: ThreatPattern)
    ensures p.id == id && p.category == id && p.framework == f
    ensures p.title == title && p.description == description
    ensures p.detectionPatterns == detectionPatterns && p.attackVectors == attackVectors
    ensures mitigations.None? ==> p.mitigations == []
    ensures mitigations.Some? ==> p.mitigations == mitigations.value
  {
    ThreatPattern(id, id, f, title, description, detectionPatterns, attackVectors, mitigations.GetOr([]))
  }

  /** `create_llm_pattern`. */
  function CreateLlmPattern(id: string, title: string, description: string,
                            detectionPatterns: seq<string>, attackVectors: seq<string>,
                            mitigations: Option<seq<MitigationSpec>>, references: Option<seq<Reference>> := None): (p: ThreatPattern)
    ensures p.framework == OwaspLlmTop10_2025
    ensures p.category == p.id == id
    ensures p == Build(p.framework, id, title, description, detectionPatterns, attackVectors, mitigations, references)
  {
    Build(OwaspLlmTop10_2025, id, title, description, detectionPatterns, attackVectors, mitigations, references)
  }

  /** `create_agentic_pattern`. */
  function CreateAgenticPattern(id: string, title: string, description: string,
                                detectionPatterns: seq<string>, attackVectors: seq<string>,
                                mitigations: Option<seq<MitigationSpec>>, references: Option<seq<Reference>> := None): (p: ThreatPattern)
    ensures p.framework == OwaspAgenticTop10_2026
    ensures p.category == p.id == id
    ensures p == Build(p.framework, id, title, description, detectionPatterns, attackVectors, mitigations, references)
  {
    Build(OwaspAgenticTop10_2026, id, title, description, detectionPatterns, attackVectors, mitigations, references)
  }

  /** `create_multi_agent_pattern`: multi-agent patterns have no framework
      of their own and are filed under CUSTOM. */
  function CreateMultiAgentPattern(id: string, title: string, description: string,
                                   detectionPatterns: seq<string>, attackVectors: seq<string>,
                                   mitigations: Option<seq<MitigationSpec>>, references: Option<seq<Reference>> := None): (p: ThreatPattern)
    ensures p.framework == Custom
    ensures p.category == p.id == id
    ensures p == Build(p.framework, id, title, description, detectionPatterns, attackVectors, mitigations, references)
  {
    Build(Custom, id, title, description, detectionPatterns, attackVectors, mitigations, references)
  }

  /** An absent mitigations list and an empty one build the same pattern,
      and the references never show in it. */
  lemma MitigationsOrEmpty(f: Framework, id: string, title: string, description: string,
                           detectionPatterns: seq<string>, attackVectors: seq<string>,
                           references: Option<seq<Reference>>, others: Option<seq<Reference>>)
    ensures Build(f, id, title, description, detectionPatterns, attackVectors, None, references)
         == Build(f, id, title, description, detectionPatterns, attackVectors, Some([]), others)
  {
  }

  /** The pattern registry accepts a built pattern exactly when its id,
      title and description are non-empty and it has a detection phrase and
      an attack vector; the mitigations play no part. */
  lemma BuiltPatternRegisters(f: Framework, id: string, title: string, description: string,
                              detectionPatterns: seq<string>, attackVectors: seq<string>,
                              mitigations: Option<seq<MitigationSpec>>, references: Option<seq<Reference>>)
    ensures PatternRegistry.PatternError(Build(f, id, title, description, detectionPatterns, attackVectors, mitigations, references)).None?
        <==> id != "" && title != "" && description != "" && |detectionPatterns| > 0 && |attackVectors| > 0
  {
  }

  /** `create_mitigation`: the id and the description are always set; the
      implementation and the priority only when they are non-empty. */
  function CreateMitigation(id: string, description: string,
                            implementation: Option<string> := None, priority: Option<string> := None): (m: MitigationSpec)
    ensures m.id == Some(id) && m.description == Some(description)
    ensures m.implementation.Some? <==> implementation.Some? && implementation.value != ""
    ensures m.priority.Some? <==> priority.Some? && priority.value != ""
    ensures m.implementation.Some? ==> m.implementation == implementation
    ensures m.priority.Some? ==> m.priority == priority
  {
    MitigationSpec(Some(id), Some(description), Truthy(implementation), Truthy(priority))
  }

  /** A built mitigation becomes a threat mitigation with its own id and
      description, status PROPOSED, and an implementation and priority
      exactly when they were given non-empty. */
  lemma CreatedMitigationAsThreatMitigation(id: string, description: string, implementation: Option<string>, priority: Option<string>)
    ensures var m := ThreatDetection.ToMitigation(CreateMitigation(id, description, implementation, priority));
      && m.id == id && m.description == description && m.status == Proposed
      && (m.implementation.Some? <==> implementation.Some? && implementation.value != "")
      && (m.priority.Some? <==> priority.Some? && priority.value != "")
  {
  }
}

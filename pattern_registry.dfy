/** The pattern registry: patterns, their metadata and a per-framework
    index, kept under the pattern id, with validation on registration, a
    dependency check and a conflict report. */
module PatternRegistry {
  import opened Wrappers
  import opened Models
  import opened PluginBase
  import Seqs

  /** A UTC time. The clock is not modelled: the caller passes the time. */
  type Timestamp = nat

  datatype PatternMetadata = PatternMetadata(
    version: string,
    created: Option<Timestamp> := None,
    updated: Option<Timestamp> := None,
    author: Option<string> := None,
    dependencies: seq<string> := [],
    deprecated: bool := false,
    deprecatedReason: Option<string> := None,
    replacedBy: Option<string> := None)

  const DefaultVersion: string := "1.0.0"

  /** The metadata `register_pattern` makes when it is given none. */
  function DefaultMetadata(now: Timestamp): (md: PatternMetadata)
    ensures md.version == DefaultVersion && md.created == Some(now)
    ensures md.dependencies == [] && !md.deprecated
  {
    PatternMetadata(DefaultVersion, created := Some(now))
  }

  const IdRequired: string := "Pattern ID is required"
  const TitleRequired: string := "Pattern title is required"
  const DescriptionRequired: string := "Pattern description is required"
  const DetectionRequired: string := "Pattern must have at least one detection pattern"
  const VectorRequired: string := "Pattern must have at least one attack vector"

  /** `_validate_pattern`: the first missing required field, in the order
      id, title, description, detection patterns, attack vectors. */
  function PatternError(p: ThreatPattern): (r: Option<string>)
    ensures r.None? <==> p.id != "" && p.title != "" && p.description != "" && |p.detectionPatterns| > 0 && |p.attackVectors| > 0
    ensures r == Some(IdRequired) <==> p.id == ""
    ensures r == Some(TitleRequired) <==> p.id != "" && p.title == ""
    ensures r == Some(DescriptionRequired) <==> p.id != "" && p.title != "" && p.description == ""
    ensures r == Some(DetectionRequired) <==>
      p.id != "" && p.title != "" && p.description != "" && |p.detectionPatterns| == 0
    ensures r == Some(VectorRequired) <==>
      p.id != "" && p.title != "" && p.description != "" && |p.detectionPatterns| > 0 && |p.attackVectors| == 0
  {
    assert IdRequired[8] == 'I' && TitleRequired[8] == 't' && DescriptionRequired[8] == 'd';
    assert DetectionRequired[31] == 'd' && VectorRequired[31] == 'a';
    if p.id == "" then Some(IdRequired)
    else if p.title == "" then Some(TitleRequired)
    else if p.description == "" then Some(DescriptionRequired)
    else if |p.detectionPatterns| == 0 then Some(DetectionRequired)
    else if |p.attackVectors| == 0 then Some(VectorRequired)
    else None
  }

  /** Registering `p` clashes with the registered patterns: its id is taken
      by a pattern of another framework. */
  predicate Clashes(registered: map<string, ThreatPattern>, p: ThreatPattern) {
    p.id in registered && registered[p.id].framework != p.framework
  }

  /** The refusal message; the f-string formats each framework member as
      `ThreatModelingFramework.NAME`. */
  function ClashMessage(id: string, existing: Framework, given: Framework): string {
    "Pattern " + id + " already exists with different framework: " + existing.Formatted() + " vs " + given.Formatted()
  }

  /** The ids indexed under a framework; none when it has no entry. */
  function Indexed(index: map<Framework, set<string>>, f: Framework): set<string> {
    if f in index then index[f] else {}
  }

  /** One entry of `check_conflicts`. */
  datatype Conflict =
    | DuplicateId(patternId: string, message: string)
    | Deprecated(patternId: string, message: string, replacedBy: Option<string>)
  {
    /** The entry's "type" key. */
    function Kind(): string {
      match this
      case DuplicateId(_, _) => "duplicate_id"
      case Deprecated(_, _, _) => "deprecated"
    }
  }

  /** `seen_ids` after the first loop of `check_conflicts` over `ps`: each id
      mapped to the first pattern carrying it. */
  function Seen(ps: seq<ThreatPattern>): (r: map<string, ThreatPattern>)
    ensures forall k :: k in r <==> exists i :: 0 <= i < |ps| && ps[i].id == k
    decreases |ps|
  {
    if |ps| == 0 then map[]
    else
      var init := ps[..|ps| - 1];
      var last := ps[|ps| - 1];
      var s := Seen(init);
      assert forall i :: 0 <= i < |init| ==> init[i] == ps[i];
      if last.id in s then s else s[last.id := last]
  }

  /** The "duplicate_id" entries of the first loop: a pattern whose id was
      seen before on a pattern of another framework. */
  function DuplicateConflicts(ps: seq<ThreatPattern>): seq<Conflict>
    decreases |ps|
  {
    if |ps| == 0 then []
    else
      var init := ps[..|ps| - 1];
      var p := ps[|ps| - 1];
      var s := Seen(init);
      DuplicateConflicts(init)
      + (if p.id in s && s[p.id].framework != p.framework then
           [DuplicateId(p.id, "Pattern " + p.id + " exists with frameworks " + s[p.id].framework.Formatted() + " and " + p.framework.Formatted())]
         else [])
  }

  /** Patterns with pairwise different ids never give a "duplicate_id"
      entry. */
  lemma {:induction false} DistinctIdsNoDuplicates(ps: seq<ThreatPattern>)
    requires forall i, j :: 0 <= i < j < |ps| ==> ps[i].id != ps[j].id
    ensures DuplicateConflicts(ps) == []
    decreases |ps|
  {
    if |ps| > 0 {
      var init := ps[..|ps| - 1];
      DistinctIdsNoDuplicates(init);
      assert ps[|ps| - 1].id !in Seen(init);
    }
  }

  /** `metadata.deprecated_reason or 'No reason provided'`. */
  function Reason(md: PatternMetadata): string {
    if md.deprecatedReason.Some? && md.deprecatedReason.value != "" then md.deprecatedReason.value else "No reason provided"
  }

  function DeprecatedConflict(id: string, md: PatternMetadata): Conflict {
    Deprecated(id, "Pattern " + id + " is deprecated: " + Reason(md), md.replacedBy)
  }

  /** The "deprecated" entries of the second loop over the ids `ks`. */
  function DeprecatedConflicts(ks: seq<string>, metadata: map<string, PatternMetadata>, registered: map<string, ThreatPattern>): seq<Conflict>
    requires forall k :: k in ks ==> k in metadata
    decreases |ks|
  {
    if |ks| == 0 then []
    else
      var init := ks[..|ks| - 1];
      var k := ks[|ks| - 1];
      DeprecatedConflicts(init, metadata, registered)
      + (if metadata[k].deprecated && k in registered then [DeprecatedConflict(k, metadata[k])] else [])
  }

  /** There is a "deprecated" entry for exactly the registered ids whose
      metadata is deprecated, each with its reason and replacement. */
  lemma {:induction false} DeprecatedConflictsMembership(ks: seq<string>, metadata: map<string, PatternMetadata>,
                                                         registered: map<string, ThreatPattern>, c: Conflict)
    requires forall k :: k in ks ==> k in metadata
    ensures c in DeprecatedConflicts(ks, metadata, registered) <==>
      exists k :: k in ks && metadata[k].deprecated && k in registered && c == DeprecatedConflict(k, metadata[k])
    decreases |ks|
  {
    if |ks| > 0 {
      var init := ks[..|ks| - 1];
      DeprecatedConflictsMembership(init, metadata, registered, c);
      assert forall k :: k in ks <==> k in init || k == ks[|ks| - 1];
    }
  }

  /** The declared dependencies that are not registered, in declared
      order. */
  function Missing(dependencies: seq<string>, registered: map<string, ThreatPattern>): (r: seq<string>)
    ensures forall d :: d in r <==> d in dependencies && d !in registered
  {
    Seqs.Filter(dependencies, Unregistered(registered))
  }

  /** The test a declared dependency fails when it is registered. */
  function Unregistered(registered: map<string, ThreatPattern>): string -> bool {
    (d: string) => d !in registered
  }

  /** The registered patterns in the order of the ids. */
  function InOrder(ks: seq<string>, registered: map<string, ThreatPattern>): (r: seq<ThreatPattern>)
    requires forall k :: k in ks ==> k in registered
    ensures |r| == |ks|
    ensures forall i :: 0 <= i < |ks| ==> r[i] == registered[ks[i]]
  {
    seq(|ks|, i requires 0 <= i < |ks| => registered[ks[i]])
  }

  /** The registry's consistency: both dictionaries hold the same ids,
      listed once each in `ids`; a pattern is stored under its own id; and
      the framework index lists each stored pattern under its framework and
      nothing else. */
  predicate Consistent(ids: seq<string>, patterns: map<string, ThreatPattern>, metadata: map<string, PatternMetadata>,
                       index: map<Framework, set<string>>)
  {
    && IdsListed(ids, patterns)
    && metadata.Keys == patterns.Keys
    && (forall k :: k in patterns ==> patterns[k].id == k)
    && IndexSound(index, patterns)
    && IndexComplete(index, patterns)
  }

  /** `ids` lists the stored ids, each once. */
  predicate IdsListed(ids: seq<string>, patterns: map<string, ThreatPattern>) {
    && Seqs.NoDuplicates(ids)
    && (forall k :: k in ids ==> k in patterns)
    && (forall k :: k in patterns ==> k in ids)
  }

  /** The index lists only stored patterns, each under its framework. */
  predicate IndexSound(index: map<Framework, set<string>>, patterns: map<string, ThreatPattern>) {
    forall f, k :: f in index && k in index[f] ==> k in patterns && patterns[k].framework == f
  }

  /** The index lists every stored pattern under its framework. */
  predicate IndexComplete(index: map<Framework, set<string>>, patterns: map<string, ThreatPattern>) {
    forall k :: k in patterns ==> k in Indexed(index, patterns[k].framework)
  }

  /** Storing a pattern whose id is free or held by a pattern of the same
      framework keeps the registry consistent. */
  lemma StoreKeepsConsistent(ids: seq<string>, patterns: map<string, ThreatPattern>, metadata: map<string, PatternMetadata>,
                             index: map<Framework, set<string>>, p: ThreatPattern, md: PatternMetadata)
    requires Consistent(ids, patterns, metadata, index)
    requires !Clashes(patterns, p)
    ensures Consistent(if p.id in patterns then ids else ids + [p.id], patterns[p.id := p], metadata[p.id := md],
                       index[p.framework := Indexed(index, p.framework) + {p.id}])
  {
    StoreKeepsIds(ids, patterns, p);
    StoreKeepsIndex(patterns, index, p);
  }

  /** The id list and the pattern dictionary still hold the same ids, each
      listed once. */
  lemma StoreKeepsIds(ids: seq<string>, patterns: map<string, ThreatPattern>, p: ThreatPattern)
    requires IdsListed(ids, patterns)
    ensures IdsListed(if p.id in patterns then ids else ids + [p.id], patterns[p.id := p])
  {
    if p.id !in patterns {
      Seqs.NoDuplicatesAppend(ids, p.id);
    }
  }

  /** The framework index still lists each stored pattern under its
      framework and nothing else. */
  lemma StoreKeepsIndex(patterns: map<string, ThreatPattern>, index: map<Framework, set<string>>, p: ThreatPattern)
    requires !Clashes(patterns, p)
    requires IndexSound(index, patterns) && IndexComplete(index, patterns)
    ensures var patterns', index' := patterns[p.id := p], index[p.framework := Indexed(index, p.framework) + {p.id}];
      IndexSound(index', patterns') && IndexComplete(index', patterns')
  {
    var patterns' := patterns[p.id := p];
    var index' := index[p.framework := Indexed(index, p.framework) + {p.id}];
    forall f, k | f in index' && k in index'[f]
      ensures k in patterns' && patterns'[k].framework == f
    {
      if k != p.id && f == p.framework {
        assert k in Indexed(index, p.framework);
      }
    }
  }

  class Registry {
    /** `_patterns`. */
    var patterns: map<string, ThreatPattern>
    /** `_metadata`. */
    var metadata: map<string, PatternMetadata>
    /** `_framework_patterns`. */
    var frameworkPatterns: map<Framework, set<string>>
    /** The keys of `_patterns` and `_metadata` in insertion order, which is
        the order in which a Python dict yields them. */
    var ids: seq<string>

    /** The registry is `Consistent`. */
    predicate Valid()
      reads this
    {
      Consistent(ids, patterns, metadata, frameworkPatterns)
    }

    constructor ()
      ensures Valid()
      ensures patterns == map[] && metadata == map[] && frameworkPatterns == map[] && ids == []
    {
      patterns := map[];
      metadata := map[];
      frameworkPatterns := map[];
      ids := [];
    }

    /** `register_pattern`: an invalid pattern, or one whose id is taken by
        a pattern of another framework, is refused with the message of the
        `ValueError` raised and changes nothing; otherwise the pattern is
        stored (replacing one of the same id), its metadata is the one given
        or version "1.0.0" created `now`, and it is indexed under its
        framework. */
    method RegisterPattern(pattern: ThreatPattern, md: Option<PatternMetadata>, now: Timestamp) returns (r: Result<bool, string>)
      requires Valid()
      modifies this
      ensures Valid()
      ensures PatternError(pattern).Some? ==> r == Err(PatternError(pattern).value) && unchanged(this)
      ensures PatternError(pattern).None? && Clashes(old(patterns), pattern) ==>
        r == Err(ClashMessage(pattern.id, old(patterns)[pattern.id].framework, pattern.framework)) && unchanged(this)
      ensures PatternError(pattern).None? && !Clashes(old(patterns), pattern) ==>
        && r == Ok(true)
        && patterns == old(patterns)[pattern.id := pattern]
        && metadata == old(metadata)[pattern.id := md.GetOr(DefaultMetadata(now))]
        && frameworkPatterns == old(frameworkPatterns)[pattern.framework := Indexed(old(frameworkPatterns), pattern.framework) + {pattern.id}]
        && ids == if pattern.id in old(patterns) then old(ids) else old(ids) + [pattern.id]
    {
      var error := PatternError(pattern);
      if error.Some? {
        return Err(error.value);
      }
      if pattern.id in patterns {
        var existing := patterns[pattern.id];
        if existing.framework != pattern.framework {
          return Err(ClashMessage(pattern.id, existing.framework, pattern.framework));
        }
      }
      Store(pattern, md.GetOr(DefaultMetadata(now)));
      r := Ok(true);
    }

    /** The accepting branch of `register_pattern`: stores the pattern and
        its metadata under the id and indexes the id under the framework. */
    method Store(pattern: ThreatPattern, md: PatternMetadata)
      requires Valid()
      requires PatternError(pattern).None? && !Clashes(patterns, pattern)
      modifies this
      ensures Valid()
      ensures patterns == old(patterns)[pattern.id := pattern]
      ensures metadata == old(metadata)[pattern.id := md]
      ensures frameworkPatterns == old(frameworkPatterns)[pattern.framework := Indexed(old(frameworkPatterns), pattern.framework) + {pattern.id}]
      ensures ids == if pattern.id in old(patterns) then old(ids) else old(ids) + [pattern.id]
    {
      StoreKeepsConsistent(ids, patterns, metadata, frameworkPatterns, pattern, md);
      if pattern.id !in patterns {
        ids := ids + [pattern.id];
      }
      patterns := patterns[pattern.id := pattern];
      metadata := metadata[pattern.id := md];
      frameworkPatterns := frameworkPatterns[pattern.framework := Indexed(frameworkPatterns, pattern.framework) + {pattern.id}];
    }

    /** `get_pattern`. */
    function GetPattern(id: string): (r: Option<ThreatPattern>)
      reads this
      requires Valid()
      ensures r.Some? <==> id in patterns
      ensures r.Some? ==> r.value == patterns[id] && r.value.id == id
    {
      if id in patterns then Some(patterns[id]) else None
    }

    /** `get_pattern_metadata`. */
    function GetPatternMetadata(id: string): Option<PatternMetadata>
      reads this
    {
      if id in metadata then Some(metadata[id]) else None
    }

    /** `is_deprecated`: false for an id without metadata, else the
        metadata's flag. */
    function IsDeprecated(id: string): (r: bool)
      reads this
      ensures r ==> id in metadata
      ensures id in metadata ==> (r <==> metadata[id].deprecated)
    {
      match GetPatternMetadata(id)
      case Some(md) => md.deprecated
      case None => false
    }

    /** `get_all_patterns`: the stored patterns in insertion order. */
    function AllPatterns(): (r: seq<ThreatPattern>)
      reads this
      requires Valid()
      ensures forall p :: p in r <==> p in patterns.Values
      ensures forall i, j :: 0 <= i < j < |r| ==> r[i].id != r[j].id
    {
      var r := InOrder(ids, patterns);
      assert forall p :: p in patterns.Values ==> exists k :: k in patterns && patterns[k] == p;
      forall p | p in patterns.Values ensures p in r {
        var k :| k in patterns && patterns[k] == p;
        var i :| 0 <= i < |ids| && ids[i] == k;
        assert r[i] == p;
      }
      r
    }

    /** `get_patterns_by_framework`: the stored patterns of that framework,
        each once, in the unspecified order of the index set. */
    method GetPatternsByFramework(f: Framework) returns (r: seq<ThreatPattern>)
      requires Valid()
      ensures forall p :: p in r <==> p in patterns.Values && p.framework == f
      ensures forall i, j :: 0 <= i < j < |r| ==> r[i].id != r[j].id
    {
      var pids := Indexed(frameworkPatterns, f);
      r := [];
      var rest := pids;
      while rest != {}
        invariant rest <= pids
        invariant forall p :: p in r ==> p.id in pids && p.id !in rest && p.id in patterns && patterns[p.id] == p
        invariant forall k :: k in pids && k !in rest && k in patterns ==> patterns[k] in r
        invariant forall i, j :: 0 <= i < j < |r| ==> r[i].id != r[j].id
        decreases rest
      {
        var pid :| pid in rest;
        if pid in patterns {
          r := r + [patterns[pid]];
        }
        rest := rest - {pid};
      }
      forall p | p in patterns.Values && p.framework == f ensures p in r {
        var k :| k in patterns && patterns[k] == p;
      }
    }

    /** `validate_dependencies`: nothing for an id without metadata, else
        its declared dependencies that are not registered, in order. */
    method ValidateDependencies(id: string) returns (missing: seq<string>)
      ensures id !in metadata ==> missing == []
      ensures id in metadata ==> missing == Missing(metadata[id].dependencies, patterns)
    {
      if id !in metadata {
        return [];
      }
      missing := MissingOf(metadata[id].dependencies, patterns);
    }

    /** The loop of `validate_dependencies`. */
    static method MissingOf(deps: seq<string>, registered: map<string, ThreatPattern>) returns (missing: seq<string>)
      ensures missing == Missing(deps, registered)
    {
      missing := [];
      var i := 0;
      while i < |deps|
        invariant 0 <= i <= |deps|
        invariant missing == Seqs.Filter(deps[..i], Unregistered(registered))
      {
        Seqs.FilterPrefixStep(deps, Unregistered(registered), i);
        if deps[i] !in registered {
          missing := missing + [deps[i]];
        }
        i := i + 1;
      }
      assert deps[..i] == deps;
    }

    /** `check_conflicts`: the "duplicate_id" entries of a scan over the
        stored patterns, then a "deprecated" entry per stored pattern whose
        metadata is deprecated, in insertion order. */
    method CheckConflicts() returns (conflicts: seq<Conflict>)
      requires Valid()
      ensures conflicts == DuplicateConflicts(AllPatterns()) + DeprecatedConflicts(ids, metadata, patterns)
    {
      var duplicates := ScanDuplicates(InOrder(ids, patterns));
      var deprecations := ScanDeprecations(ids, metadata, patterns);
      conflicts := duplicates + deprecations;
    }

    /** The first loop of `check_conflicts`. */
    static method ScanDuplicates(values: seq<ThreatPattern>) returns (conflicts: seq<Conflict>)
      ensures conflicts == DuplicateConflicts(values)
    {
      conflicts := [];
      var seen: map<string, ThreatPattern> := map[];
      var i := 0;
      while i < |values|
        invariant 0 <= i <= |values|
        invariant seen == Seen(values[..i])
        invariant conflicts == DuplicateConflicts(values[..i])
      {
        var p := values[i];
        assert values[..i + 1][..i] == values[..i];
        if p.id in seen {
          var existing := seen[p.id];
          if existing.framework != p.framework {
            conflicts := conflicts + [DuplicateId(p.id, "Pattern " + p.id + " exists with frameworks " + existing.framework.Formatted() + " and " + p.framework.Formatted())];
          }
        } else {
          seen := seen[p.id := p];
        }
        i := i + 1;
      }
      assert values[..i] == values;
    }

    /** The second loop of `check_conflicts`. */
    static method ScanDeprecations(ks: seq<string>, metadata: map<string, PatternMetadata>, registered: map<string, ThreatPattern>)
      returns (conflicts: seq<Conflict>)
      requires forall k :: k in ks ==> k in metadata
      ensures conflicts == DeprecatedConflicts(ks, metadata, registered)
    {
      conflicts := [];
      var j := 0;
      while j < |ks|
        invariant 0 <= j <= |ks|
        invariant conflicts == DeprecatedConflicts(ks[..j], metadata, registered)
      {
        assert ks[..j + 1][..j] == ks[..j];
        var k := ks[j];
        var md := metadata[k];
        if md.deprecated && k in registered {
          conflicts := conflicts + [DeprecatedConflict(k, md)];
        }
        j := j + 1;
      }
      assert ks[..j] == ks;
    }

    /** The conflict report never holds a "duplicate_id" entry, since the
        patterns are stored by id; it holds a "deprecated" entry exactly for
        each stored pattern that `is_deprecated` reports. */
    lemma ConflictsAreDeprecations(c: Conflict)
      requires Valid()
      ensures DuplicateConflicts(AllPatterns()) == []
      ensures c in DeprecatedConflicts(ids, metadata, patterns) <==>
        exists k :: k in patterns && IsDeprecated(k) && c == DeprecatedConflict(k, metadata[k])
    {
      DistinctIdsNoDuplicates(AllPatterns());
      DeprecatedConflictsMembership(ids, metadata, patterns, c);
      assert forall k :: k in patterns ==> (IsDeprecated(k) <==> metadata[k].deprecated);
    }

    /** `load_patterns_from_directory` once the files are parsed: each
        parsed pattern is registered in turn, a refused one is skipped, and
        the count is that of the accepted ones. */
    method LoadPatterns(parsed: seq<(ThreatPattern, Option<PatternMetadata>)>, now: Timestamp) returns (count: nat)
      requires Valid()
      modifies this
      ensures Valid()
      ensures count <= |parsed|
      ensures old(patterns).Keys <= patterns.Keys
      ensures forall i :: 0 <= i < |parsed| && PatternError(parsed[i].0).None? ==> parsed[i].0.id in patterns
    {
      count := 0;
      var i := 0;
      while i < |parsed|
        invariant 0 <= i <= |parsed|
        invariant Valid()
        invariant count <= i
        invariant old(patterns).Keys <= patterns.Keys
        invariant forall j :: 0 <= j < i && PatternError(parsed[j].0).None? ==> parsed[j].0.id in patterns
      {
        var accepted := LoadOne(parsed[i].0, parsed[i].1, now);
        if accepted {
          count := count + 1;
        }
        i := i + 1;
      }
    }

    /** One pass of the loading loop: registers one parsed pattern. A valid
        pattern is registered afterwards, either now or under its id already;
        it is counted only when it was stored. */
    method LoadOne(pattern: ThreatPattern, md: Option<PatternMetadata>, now: Timestamp) returns (accepted: bool)
      requires Valid()
      modifies this
      ensures Valid()
      ensures old(patterns).Keys <= patterns.Keys
      ensures PatternError(pattern).None? ==> pattern.id in patterns
      ensures accepted <==> PatternError(pattern).None? && !Clashes(old(patterns), pattern)
    {
      var r := RegisterPattern(pattern, md, now);
      accepted := r.Ok?;
    }
  }
}

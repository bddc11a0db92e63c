/** The pattern catalog every pattern-based plugin keeps: its built-in
    patterns put into a dictionary keyed by id, then overriding patterns put
    into the same dictionary, and the dictionary's values taken as a list.
    A Python dict keeps insertion order and an assignment to an existing key
    keeps that key's place, so the dictionary is modelled as the list of its
    values. */
module Catalog {
  import opened Wrappers
  import opened Models
  import opened PluginBase
  import Seqs

  /** No two entries share an id: the values of a dictionary keyed by id. */
  predicate DistinctIds(entries: seq<ThreatPattern>) {
    forall i, j :: 0 <= i < j < |entries| ==> entries[i].id != entries[j].id
  }

  function EntryId(p: ThreatPattern): string {
    p.id
  }

  /** The ids of the entries, in order. */
  function Ids(entries: seq<ThreatPattern>): seq<string> {
    Seqs.Map(entries, EntryId)
  }

  /** Distinct ids as a list of ids without repeats. */
  lemma DistinctIdsFromIds(entries: seq<ThreatPattern>)
    requires Seqs.NoDuplicates(Ids(entries))
    ensures DistinctIds(entries)
  {
    var ids := Ids(entries);
    forall i, j | 0 <= i < j < |entries| ensures entries[i].id != entries[j].id {
      assert ids[i] != ids[j];
    }
  }

  function IdSet(ps: seq<ThreatPattern>): set<string> {
    set p | p in ps :: p.id
  }

  /** The position of the entry with this id, if there is one. */
  function IndexOfId(entries: seq<ThreatPattern>, id: string): (r: Option<nat>)
    ensures r.None? <==> id !in IdSet(entries)
    ensures r.Some? ==> r.value < |entries| && entries[r.value].id == id
    decreases |entries|
  {
    if |entries| == 0 then None
    else if entries[|entries| - 1].id == id then Some(|entries| - 1)
    else
      var init := entries[..|entries| - 1];
      assert forall p :: p in entries <==> p in init || p == entries[|entries| - 1];
      match IndexOfId(init, id)
      case Some(i) => Some(i)
      case None => None
  }

  /** `d[p.id] = p`: replace the entry with that id in place, or append. */
  function Put(entries: seq<ThreatPattern>, p: ThreatPattern): seq<ThreatPattern> {
    match IndexOfId(entries, p.id)
    case Some(i) => entries[i := p]
    case None => entries + [p]
  }

  /** Putting each pattern in turn. */
  function PutAll(entries: seq<ThreatPattern>, ps: seq<ThreatPattern>): seq<ThreatPattern>
    decreases |ps|
  {
    if |ps| == 0 then entries else Put(PutAll(entries, ps[..|ps| - 1]), ps[|ps| - 1])
  }

  /** `_load_patterns`: `{p.id: p for p in defaults}`, then every override
      put on top, then `list(patterns_dict.values())`; that is, every
      pattern of `defaults + overrides` put in turn into an empty
      dictionary. */
  function Merge(defaults: seq<ThreatPattern>, overrides: seq<ThreatPattern>): seq<ThreatPattern> {
    PutAll([], defaults + overrides)
  }

  /** Putting two runs of patterns is putting their concatenation. */
  lemma {:induction false} PutAllConcat(entries: seq<ThreatPattern>, a: seq<ThreatPattern>, b: seq<ThreatPattern>)
    ensures PutAll(entries, a + b) == PutAll(PutAll(entries, a), b)
    decreases |b|
  {
    if |b| == 0 {
      assert a + b == a;
    } else {
      assert (a + b)[..|a + b| - 1] == a + b[..|b| - 1];
      PutAllConcat(entries, a, b[..|b| - 1]);
    }
  }

  /** The last assignment for an id in `a + b` is the last one in `b`, or the
      last one in `a` when `b` has none. */
  lemma {:induction false} LastWithIdConcat(a: seq<ThreatPattern>, b: seq<ThreatPattern>, id: string)
    ensures LastWithId(a + b, id) == if id in IdSet(b) then LastWithId(b, id) else LastWithId(a, id)
    decreases |b|
  {
    if |b| == 0 {
      assert a + b == a;
    } else {
      var init := b[..|b| - 1];
      assert (a + b)[..|a + b| - 1] == a + init;
      assert forall p :: p in b <==> p in init || p == b[|b| - 1];
      LastWithIdConcat(a, init, id);
    }
  }

  /** The last pattern in `ps` with this id: the one whose assignment wins. */
  function LastWithId(ps: seq<ThreatPattern>, id: string): (r: Option<ThreatPattern>)
    ensures r.None? <==> id !in IdSet(ps)
    ensures r.Some? ==> r.value in ps && r.value.id == id
    decreases |ps|
  {
    if |ps| == 0 then None
    else if ps[|ps| - 1].id == id then Some(ps[|ps| - 1])
    else
      var init := ps[..|ps| - 1];
      assert forall p :: p in ps <==> p in init || p == ps[|ps| - 1];
      LastWithId(init, id)
  }

  /** One assignment keeps the ids distinct, adds its id, and afterwards the
      entries are the new pattern and the old entries with other ids. */
  lemma PutFacts(entries: seq<ThreatPattern>, p: ThreatPattern)
    requires DistinctIds(entries)
    ensures DistinctIds(Put(entries, p))
    ensures IdSet(Put(entries, p)) == IdSet(entries) + {p.id}
    ensures forall q :: q in Put(entries, p) <==> q == p || (q in entries && q.id != p.id)
  {
    var r := Put(entries, p);
    match IndexOfId(entries, p.id)
    case Some(i) =>
      assert r == entries[i := p];
      forall q ensures q in r <==> q == p || (q in entries && q.id != p.id) {
        if q in entries && q.id != p.id {
          var j :| 0 <= j < |entries| && entries[j] == q;
          assert j != i && r[j] == q;
        }
        if q in r && q != p {
          var j :| 0 <= j < |r| && r[j] == q;
          assert j != i && entries[j] == q;
          assert entries[j].id != entries[i].id;
        }
        if q == p {
          assert r[i] == p;
        }
      }
      assert IdSet(r) == IdSet(entries) + {p.id} by {
        forall x | x in IdSet(entries) ensures x in IdSet(r) {
          var q :| q in entries && q.id == x;
          if x != p.id { assert q in r; } else { assert p in r; }
        }
        assert r[i] == p;
      }
    case None =>
      assert forall q :: q in r <==> q in entries || q == p;
      assert IdSet(r) == IdSet(entries) + {p.id} by {
        assert r[|entries|] == p;
        forall x | x in IdSet(entries) ensures x in IdSet(r) {
          var q :| q in entries && q.id == x;
          assert q in r;
        }
      }
      forall i, j | 0 <= i < j < |r| ensures r[i].id != r[j].id {
        if j == |entries| {
          assert r[i] in entries;
        }
      }
  }

  /** After a run of assignments: the ids stay distinct, the id set grows by
      the assigned ids, and each entry is either the last assignment for its
      id or an old entry whose id was never assigned. */
  lemma {:induction false} PutAllFacts(entries: seq<ThreatPattern>, ps: seq<ThreatPattern>)
    requires DistinctIds(entries)
    ensures DistinctIds(PutAll(entries, ps))
    ensures IdSet(PutAll(entries, ps)) == IdSet(entries) + IdSet(ps)
    ensures forall q :: q in PutAll(entries, ps) <==>
      LastWithId(ps, q.id) == Some(q) || (q in entries && q.id !in IdSet(ps))
    decreases |ps|
  {
    if |ps| > 0 {
      var init := ps[..|ps| - 1];
      var p := ps[|ps| - 1];
      PutAllFacts(entries, init);
      PutFacts(PutAll(entries, init), p);
      assert forall q :: q in ps <==> q in init || q == p;
      assert IdSet(ps) == IdSet(init) + {p.id};
    }
  }

  /** What the merged catalog holds: distinct ids, exactly the ids of the
      defaults and the overrides, each override winning over a default with
      its id (the later of two overrides winning), and a default kept only
      when no override has its id. */
  lemma MergeFacts(defaults: seq<ThreatPattern>, overrides: seq<ThreatPattern>)
    ensures DistinctIds(Merge(defaults, overrides))
    ensures IdSet(Merge(defaults, overrides)) == IdSet(defaults) + IdSet(overrides)
    ensures forall q :: q in Merge(defaults, overrides) <==>
      LastWithId(overrides, q.id) == Some(q) ||
      (LastWithId(defaults, q.id) == Some(q) && q.id !in IdSet(overrides))
  {
    PutAllFacts([], defaults + overrides);
    assert IdSet(defaults + overrides) == IdSet(defaults) + IdSet(overrides) by {
      assert forall p :: p in defaults + overrides <==> p in defaults || p in overrides;
    }
    forall q: ThreatPattern {
      LastWithIdConcat(defaults, overrides, q.id);
    }
  }

  /** The catalog holds one pattern per distinct id. */
  lemma MergeSize(defaults: seq<ThreatPattern>, overrides: seq<ThreatPattern>)
    ensures |Merge(defaults, overrides)| == |IdSet(defaults) + IdSet(overrides)|
  {
    var m := Merge(defaults, overrides);
    MergeFacts(defaults, overrides);
    var ids := Seqs.Map(m, (p: ThreatPattern) => p.id);
    assert Seqs.NoDuplicates(ids);
    Seqs.DistinctCardinality(ids);
    assert (set x | x in ids) == IdSet(m) by {
      forall x | x in IdSet(m) ensures x in ids {
        var q :| q in m && q.id == x;
        var i :| 0 <= i < |m| && m[i] == q;
        assert ids[i] == x;
      }
    }
  }

  /** Built-in patterns with distinct ids and no override give back the
      built-in list itself, in order. */
  lemma {:induction false} PutAllDistinct(ps: seq<ThreatPattern>)
    requires DistinctIds(ps)
    ensures PutAll([], ps) == ps
    decreases |ps|
  {
    if |ps| > 0 {
      var init := ps[..|ps| - 1];
      var p := ps[|ps| - 1];
      assert DistinctIds(init);
      PutAllDistinct(init);
      assert p.id !in IdSet(init) by {
        forall q | q in init ensures q.id != p.id {
          var i :| 0 <= i < |init| && init[i] == q;
          assert ps[i] == q;
        }
      }
      assert init + [p] == ps;
    }
  }

  lemma MergeWithoutOverrides(defaults: seq<ThreatPattern>)
    requires DistinctIds(defaults)
    ensures Merge(defaults, []) == defaults
  {
    assert defaults + [] == defaults;
    PutAllDistinct(defaults);
  }

  /** `_load_patterns` as the loops run it, over already parsed patterns. */
  method MergeById(defaults: seq<ThreatPattern>, overrides: seq<ThreatPattern>) returns (patterns: seq<ThreatPattern>)
    ensures patterns == Merge(defaults, overrides)
  {
    patterns := [];
    var i := 0;
    while i < |defaults|
      invariant 0 <= i <= |defaults|
      invariant patterns == PutAll([], defaults[..i])
    {
      assert defaults[..i + 1][..i] == defaults[..i];
      patterns := Put(patterns, defaults[i]);
      i := i + 1;
    }
    assert defaults[..i] == defaults;
    var k := 0;
    while k < |overrides|
      invariant 0 <= k <= |overrides|
      invariant patterns == PutAll(PutAll([], defaults), overrides[..k])
    {
      assert overrides[..k + 1][..k] == overrides[..k];
      patterns := Put(patterns, overrides[k]);
      k := k + 1;
    }
    assert overrides[..k] == overrides;
    PutAllConcat([], defaults, overrides);
  }

  /** `get_threat_patterns`: the whole catalog without a framework, else the
      catalog's patterns of that framework, in catalog order. */
  function PatternsFor(catalog: seq<ThreatPattern>, framework: Option<Framework>): (r: seq<ThreatPattern>)
    ensures framework.None? ==> r == catalog
    ensures framework.Some? ==> forall p :: p in r <==> p in catalog && p.framework == framework.value
    ensures framework.Some? ==> forall p ::
      multiset(r)[p] == if p.framework == framework.value then multiset(catalog)[p] else 0
    ensures |r| <= |catalog|
  {
    match framework
    case None => catalog
    case Some(f) =>
      Seqs.FilterMultiplicities(catalog, (p: ThreatPattern) => p.framework == f);
      Seqs.Filter(catalog, (p: ThreatPattern) => p.framework == f)
  }

  /** The filter keeps catalog order: filtering a concatenation filters
      each part and keeps the parts in order. */
  lemma PatternsForConcat(a: seq<ThreatPattern>, b: seq<ThreatPattern>, framework: Option<Framework>)
    ensures PatternsFor(a + b, framework) == PatternsFor(a, framework) + PatternsFor(b, framework)
  {
    if framework.Some? {
      Seqs.FilterConcat(a, b, (p: ThreatPattern) => p.framework == framework.value);
    }
  }

  /** One pattern is kept exactly when it has the framework asked for. */
  lemma PatternsForSingle(p: ThreatPattern, f: Framework)
    ensures PatternsFor([p], Some(f)) == if p.framework == f then [p] else []
  {
    assert [p][1..] == [];
  }

  /** Asking for the framework every pattern has returns the whole catalog. */
  lemma {:induction false} PatternsForUniformFramework(catalog: seq<ThreatPattern>, f: Framework)
    requires forall p :: p in catalog ==> p.framework == f
    ensures PatternsFor(catalog, Some(f)) == catalog
    decreases |catalog|
  {
    if |catalog| > 0 {
      assert forall p :: p in catalog[1..] ==> p in catalog;
      PatternsForUniformFramework(catalog[1..], f);
      assert catalog == [catalog[0]] + catalog[1..];
    }
  }
}

/** Conversion of PLOT4AI cards into threat patterns: the id scheme, the
    recommendation split into bulleted mitigations, the detection phrases
    and attack vectors, and the conversion of a whole deck. */
module Plot4aiConverter {
  import opened Wrappers
  import opened Models
  import opened PluginBase
  import opened Plot4aiModels
  import Seqs
  import Text

  const Prefix: string := "PLOT4AI-"

  /** `f"{category_id}-{card_index}"`. */
  function CardKey(categoryId: int, cardIndex: nat): string {
    Text.IntToString(categoryId) + "-" + Text.NatToString(cardIndex)
  }

  /** `f"PLOT4AI-{category_id}-{card_index}"`. */
  function PatternId(categoryId: int, cardIndex: nat): string {
    Prefix + CardKey(categoryId, cardIndex)
  }

  /** Cutting a common prefix off two equal strings leaves equal rests. */
  lemma CancelPrefix(p: string, a: string, b: string)
    requires p + a == p + b
    ensures a == b
  {
    assert a == (p + a)[|p|..];
    assert b == (p + b)[|p|..];
  }

  /** Cutting a common suffix off two equal strings leaves equal rests. */
  lemma CancelSuffix(a: string, b: string, t: string)
    requires a + t == b + t
    ensures a == b
  {
    assert a == (a + t)[..|a|];
    assert b == (b + t)[..|b|];
  }

  /** Different integers print differently. */
  lemma IntToStringInjective(a: int, b: int)
    requires Text.IntToString(a) == Text.IntToString(b)
    ensures a == b
  {
    if a < 0 {
      CancelPrefix("-", Text.NatToString(-a), Text.NatToString(-b));
      Text.NatToStringInjective(-a, -b);
    } else {
      Text.NatToStringInjective(a, b);
    }
  }

  /** Different (group, index) pairs give different card keys: the index
      has no '-', so the last '-' of a key separates the two numbers. */
  lemma CardKeyInjective(c1: int, i1: nat, c2: int, i2: nat)
    requires CardKey(c1, i1) == CardKey(c2, i2)
    ensures c1 == c2 && i1 == i2
  {
    var a1, b1 := Text.IntToString(c1), Text.NatToString(i1);
    var a2, b2 := Text.IntToString(c2), Text.NatToString(i2);
    var s := CardKey(c1, i1);
    assert '-' !in b1 && '-' !in b2;
    Text.AfterLastSep(a1, '-', b1);
    Text.AfterLastSep(a2, '-', b2);
    assert b1 == b2;
    Seqs.ConcatAssoc(a1, "-", b1);
    Seqs.ConcatAssoc(a2, "-", b2);
    CancelSuffix(a1, a2, "-" + b1);
    Text.NatToStringInjective(i1, i2);
    IntToStringInjective(c1, c2);
  }

  /** A recommendation line that is a bullet: non-blank, starting with '*'
      once stripped. */
  predicate IsBullet(line: string) {
    var s := Text.Strip(line);
    s != "" && Text.StartsWith(s, "*")
  }

  /** `line.strip().lstrip("*").strip()`. */
  function BulletText(line: string): string {
    Text.Strip(Text.LStripChar(Text.Strip(line), '*'))
  }

  /** The bullet items of a recommendation, in line order. */
  function Bullets(recommendation: string): seq<string> {
    Seqs.Map(Seqs.Filter(Text.Split(recommendation, '\n'), IsBullet), BulletText)
  }

  /** The recommendations a card's mitigations are made of: its bullet
      items, or the whole recommendation stripped when it has none. */
  function Recommendations(recommendation: string): (r: seq<string>)
    ensures |r| >= 1
    ensures forall k :: 0 <= k < |r| ==> Text.Trimmed(r[k])
  {
    var bullets := Bullets(recommendation);
    if |bullets| == 0 then [Text.Strip(recommendation)] else bullets
  }

  /** A bullet line holds an asterisk. */
  lemma BulletHasAsterisk(line: string)
    requires IsBullet(line)
    ensures '*' in line
  {
    var s := Text.Strip(line);
    assert s[..1] == "*";
    assert s[0] == s[..1][0] == '*';
    assert s[0] in s;
    assert forall c :: c in s ==> c in line;
  }

  /** A recommendation without an asterisk has no bullet, so it is taken
      whole. */
  lemma NoAsteriskNoBullets(recommendation: string)
    requires '*' !in recommendation
    ensures Recommendations(recommendation) == [Text.Strip(recommendation)]
  {
    var lines := Text.Split(recommendation, '\n');
    var kept := Seqs.Filter(lines, IsBullet);
    if |kept| > 0 {
      assert kept[0] in kept;
      var k :| 0 <= k < |lines| && lines[k] == kept[0];
      BulletHasAsterisk(lines[k]);
    }
  }

  /** The items are the texts of exactly the bullet lines. */
  lemma BulletsMembership(recommendation: string, b: string)
    ensures b in Bullets(recommendation) <==>
      exists line :: line in Text.Split(recommendation, '\n') && IsBullet(line) && b == BulletText(line)
  {
    var lines := Text.Split(recommendation, '\n');
    Seqs.CollectIsMapFilter(lines, IsBullet, BulletText);
    Seqs.CollectMembership(lines, IsBullet, BulletText, b);
  }

  /** `f"{pattern_id}-mit-{idx}"`. */
  function MitigationId(patternId: string, k: nat): string {
    patternId + "-mit-" + Text.NatToString(k)
  }

  lemma MitigationIdInjective(patternId: string, a: nat, b: nat)
    requires MitigationId(patternId, a) == MitigationId(patternId, b)
    ensures a == b
  {
    CancelPrefix(patternId + "-mit-", Text.NatToString(a), Text.NatToString(b));
    Text.NatToStringInjective(a, b);
  }

  /** The dictionary for recommendation `k`. */
  function MitigationFor(patternId: string, k: nat, rec: string): MitigationSpec {
    MitigationSpec(Some(MitigationId(patternId, k)), Some(rec), None, Some("medium"))
  }

  /** The mitigations of `enumerate(recs)`: one per non-empty
      recommendation, each numbered by its position among all of them. */
  function Mitigations(patternId: string, recs: seq<string>): seq<MitigationSpec>
    decreases |recs|
  {
    if |recs| == 0 then []
    else
      var k := |recs| - 1;
      Mitigations(patternId, recs[..k]) + (if recs[k] != "" then [MitigationFor(patternId, k, recs[k])] else [])
  }

  predicate NonEmpty(s: string) {
    s != ""
  }

  /** One mitigation per non-empty recommendation. */
  lemma {:induction false} MitigationsCount(patternId: string, recs: seq<string>)
    ensures |Mitigations(patternId, recs)| == |Seqs.Filter(recs, NonEmpty)|
    decreases |recs|
  {
    if |recs| > 0 {
      var k := |recs| - 1;
      var init := recs[..k];
      MitigationsCount(patternId, init);
      assert recs == init + [recs[k]];
      Seqs.FilterConcat(init, [recs[k]], NonEmpty);
    }
  }

  /** The mitigations are those of the non-empty recommendations, each
      numbered by its position among all of them, so an empty one still
      uses up its number. */
  lemma {:induction false} MitigationsMembership(patternId: string, recs: seq<string>, m: MitigationSpec)
    ensures m in Mitigations(patternId, recs) <==>
      exists k :: 0 <= k < |recs| && recs[k] != "" && m == MitigationFor(patternId, k, recs[k])
    decreases |recs|
  {
    if |recs| > 0 {
      var k := |recs| - 1;
      var init := recs[..k];
      MitigationsMembership(patternId, init, m);
      if m in Mitigations(patternId, init) {
        var j :| 0 <= j < |init| && init[j] != "" && m == MitigationFor(patternId, j, init[j]);
        assert recs[j] == init[j];
      }
      if exists j :: 0 <= j < |recs| && recs[j] != "" && m == MitigationFor(patternId, j, recs[j]) {
        var j :| 0 <= j < |recs| && recs[j] != "" && m == MitigationFor(patternId, j, recs[j]);
        if j < k {
          assert init[j] == recs[j];
        }
      }
    }
  }

  /** The mitigations of the first `n` recommendations carry numbers below
      `n`. */
  lemma MitigationNumbersBelow(patternId: string, recs: seq<string>, m: MitigationSpec)
    requires m in Mitigations(patternId, recs)
    ensures exists k :: 0 <= k < |recs| && m.id == Some(MitigationId(patternId, k))
  {
    MitigationsMembership(patternId, recs, m);
  }

  /** No two mitigations share an id. */
  lemma {:induction false} MitigationsDistinct(patternId: string, recs: seq<string>)
    ensures var ms := Mitigations(patternId, recs);
      forall i, j :: 0 <= i < j < |ms| ==> ms[i].id != ms[j].id
    decreases |recs|
  {
    if |recs| > 0 {
      var k := |recs| - 1;
      var init := recs[..k];
      MitigationsDistinct(patternId, init);
      var ms0 := Mitigations(patternId, init);
      if recs[k] != "" {
        forall i | 0 <= i < |ms0| ensures ms0[i].id != Some(MitigationId(patternId, k)) {
          MitigationNumbersBelow(patternId, init, ms0[i]);
          var j :| 0 <= j < |init| && ms0[i].id == Some(MitigationId(patternId, j));
          if ms0[i].id == Some(MitigationId(patternId, k)) {
            MitigationIdInjective(patternId, j, k);
          }
        }
      }
    }
  }

  /** The loop over `enumerate(recommendations)`. */
  method BuildMitigations(patternId: string, recs: seq<string>) returns (mitigations: seq<MitigationSpec>)
    ensures mitigations == Mitigations(patternId, recs)
  {
    mitigations := [];
    var idx := 0;
    while idx < |recs|
      invariant 0 <= idx <= |recs|
      invariant mitigations == Mitigations(patternId, recs[..idx])
    {
      assert recs[..idx + 1][..idx] == recs[..idx];
      if recs[idx] != "" {
        mitigations := mitigations + [MitigationFor(patternId, idx, recs[idx])];
      }
      idx := idx + 1;
    }
    assert recs[..idx] == recs;
  }

  /** The mitigations of a card: none for an empty recommendation. */
  function CardMitigations(patternId: string, recommendation: string): seq<MitigationSpec> {
    if recommendation != "" then Mitigations(patternId, Recommendations(recommendation)) else []
  }

  /** The explanation, then the elicitation question, each when non-empty;
      so no phrase is empty, and the pattern never matches every component
      through an empty phrase. */
  function DetectionPhrases(card: Card): (r: seq<string>)
    ensures |r| == (if card.explanation != "" then 1 else 0) + (if card.question != "" then 1 else 0)
    ensures card.explanation != "" ==> r[0] == card.explanation
    ensures "" !in r
  {
    (if card.explanation != "" then [card.explanation] else [])
    + (if card.question != "" then ["Elicitation question: " + card.question] else [])
  }

  function CategoryVector(c: string): string {
    "Category: " + c
  }

  function PhaseVector(p: string): string {
    "Lifecycle phase: " + p
  }

  /** One vector per category, then one per lifecycle phase. */
  function AttackVectors(card: Card): seq<string> {
    Seqs.Map(card.categories, CategoryVector) + Seqs.Map(card.phases, PhaseVector)
  }

  /** The vectors name each category, in order, then each lifecycle phase,
      in order. */
  lemma AttackVectorsLayout(card: Card)
    ensures var r := AttackVectors(card);
      && |r| == |card.categories| + |card.phases|
      && (forall i :: 0 <= i < |card.categories| ==> r[i] == "Category: " + card.categories[i])
      && (forall i :: 0 <= i < |card.phases| ==> r[|card.categories| + i] == "Lifecycle phase: " + card.phases[i])
  {
    var front, back := Seqs.Map(card.categories, CategoryVector), Seqs.Map(card.phases, PhaseVector);
    assert AttackVectors(card) == front + back;
  }

  /** `convert_plot4ai_card_to_threat_pattern`. The source references it
      computes are not part of the pattern it returns. */
  function CardToPattern(card: Card, categoryId: int, cardIndex: nat): ThreatPattern {
    var pid := PatternId(categoryId, cardIndex);
    ThreatPattern(pid, card.cardLabel, Plot4ai, card.cardLabel, card.explanation,
                  DetectionPhrases(card), AttackVectors(card), CardMitigations(pid, card.recommendation))
  }

  /** What a converted card holds: the id names the group and the index, the
      label is both category and title, each mitigation carries one
      recommendation under an id derived from the pattern id, and the
      pattern belongs to the PLOT4AI framework. */
  lemma CardToPatternFacts(card: Card, categoryId: int, cardIndex: nat)
    ensures var p := CardToPattern(card, categoryId, cardIndex);
      && p.id == Prefix + CardKey(categoryId, cardIndex)
      && p.category == card.cardLabel && p.title == card.cardLabel && p.framework == Plot4ai
      && p.description == card.explanation
      && (card.recommendation == "" ==> p.mitigations == [])
      && (forall m :: m in p.mitigations ==>
            exists k :: 0 <= k < |Recommendations(card.recommendation)| &&
              m == MitigationFor(p.id, k, Recommendations(card.recommendation)[k]) &&
              Recommendations(card.recommendation)[k] != "")
  {
    var p := CardToPattern(card, categoryId, cardIndex);
    if card.recommendation != "" {
      forall m | m in p.mitigations
        ensures exists k :: (0 <= k < |Recommendations(card.recommendation)| &&
          m == MitigationFor(p.id, k, Recommendations(card.recommendation)[k]) &&
          Recommendations(card.recommendation)[k] != "")
      {
        MitigationsMembership(p.id, Recommendations(card.recommendation), m);
      }
    }
  }

  /** The conversion of a card of the group with the given id, by its index. */
  function CardPatternIn(categoryId: int): (Card, nat) -> ThreatPattern {
    (card: Card, i: nat) => CardToPattern(card, categoryId, i)
  }

  /** The patterns of one group: its cards numbered from 0. */
  function GroupPatterns(g: CategoryGroup): (r: seq<ThreatPattern>)
    ensures |r| == |g.cards|
    ensures forall i :: 0 <= i < |g.cards| ==> r[i] == CardToPattern(g.cards[i], g.id, i)
  {
    Seqs.MapIndexedAt(g.cards, CardPatternIn(g.id), |g.cards|);
    Seqs.MapIndexed(g.cards, CardPatternIn(g.id), |g.cards|)
  }

  /** `convert_plot4ai_deck_to_threat_patterns`. */
  function ConvertDeck(deck: Deck): seq<ThreatPattern> {
    Seqs.FlatMap(deck.categories, GroupPatterns)
  }

  /** One pattern per card, in deck order. */
  lemma {:induction false} ConvertDeckLength(groups: seq<CategoryGroup>)
    ensures |Seqs.FlatMap(groups, GroupPatterns)| == |Seqs.FlatMap(groups, GroupCards)|
    decreases |groups|
  {
    if |groups| > 0 {
      ConvertDeckLength(groups[..|groups| - 1]);
    }
  }

  /** Every converted pattern is the conversion of some card of some group at
      its index in that group, and every card is converted. */
  lemma ConvertDeckMembership(deck: Deck, p: ThreatPattern)
    ensures p in ConvertDeck(deck) <==>
      exists k, i :: 0 <= k < |deck.categories| && 0 <= i < |deck.categories[k].cards| &&
        p == CardToPattern(deck.categories[k].cards[i], deck.categories[k].id, i)
  {
    Seqs.FlatMapMembership(deck.categories, GroupPatterns, p);
    if p in ConvertDeck(deck) {
      var k :| 0 <= k < |deck.categories| && p in GroupPatterns(deck.categories[k]);
      var i :| 0 <= i < |GroupPatterns(deck.categories[k])| && GroupPatterns(deck.categories[k])[i] == p;
    }
    if exists k, i :: 0 <= k < |deck.categories| && 0 <= i < |deck.categories[k].cards| &&
         p == CardToPattern(deck.categories[k].cards[i], deck.categories[k].id, i) {
      var k, i :| 0 <= k < |deck.categories| && 0 <= i < |deck.categories[k].cards| &&
                  p == CardToPattern(deck.categories[k].cards[i], deck.categories[k].id, i);
      assert GroupPatterns(deck.categories[k])[i] == p;
    }
  }

  /** The group ids of a deck are distinct. */
  predicate DistinctGroupIds(deck: Deck) {
    forall a, b :: 0 <= a < b < |deck.categories| ==> deck.categories[a].id != deck.categories[b].id
  }

  /** When the groups have distinct ids, the converted patterns have distinct
      ids: each id names its group and its index. */
  lemma ConvertDeckDistinctIds(deck: Deck, p: ThreatPattern, q: ThreatPattern)
    requires DistinctGroupIds(deck)
    requires p in ConvertDeck(deck) && q in ConvertDeck(deck)
    requires p.id == q.id
    ensures exists k, i ::
      0 <= k < |deck.categories| && 0 <= i < |deck.categories[k].cards| &&
      p == q == CardToPattern(deck.categories[k].cards[i], deck.categories[k].id, i)
  {
    ConvertDeckMembership(deck, p);
    ConvertDeckMembership(deck, q);
    var k1, i1 :| 0 <= k1 < |deck.categories| && 0 <= i1 < |deck.categories[k1].cards| &&
                  p == CardToPattern(deck.categories[k1].cards[i1], deck.categories[k1].id, i1);
    var k2, i2 :| 0 <= k2 < |deck.categories| && 0 <= i2 < |deck.categories[k2].cards| &&
                  q == CardToPattern(deck.categories[k2].cards[i2], deck.categories[k2].id, i2);
    CancelPrefix(Prefix, CardKey(deck.categories[k1].id, i1), CardKey(deck.categories[k2].id, i2));
    CardKeyInjective(deck.categories[k1].id, i1, deck.categories[k2].id, i2);
  }

  /** `convert_plot4ai_deck_to_threat_patterns` as its loops run. */
  method ConvertDeckLoop(deck: Deck) returns (patterns: seq<ThreatPattern>)
    ensures patterns == ConvertDeck(deck)
  {
    patterns := [];
    var k := 0;
    while k < |deck.categories|
      invariant 0 <= k <= |deck.categories|
      invariant patterns == Seqs.FlatMap(deck.categories[..k], GroupPatterns)
    {
      var g := deck.categories[k];
      assert deck.categories[..k + 1][..k] == deck.categories[..k];
      patterns := AppendGroupPatterns(patterns, g);
      k := k + 1;
    }
    assert deck.categories[..k] == deck.categories;
  }

  /** The inner loop over a group's cards: each card's pattern appended in
      card order. */
  method AppendGroupPatterns(before: seq<ThreatPattern>, g: CategoryGroup) returns (patterns: seq<ThreatPattern>)
    ensures patterns == before + GroupPatterns(g)
  {
    patterns := before;
    var i := 0;
    while i < |g.cards|
      invariant 0 <= i <= |g.cards|
      invariant patterns == before + Seqs.MapIndexed(g.cards, CardPatternIn(g.id), i)
    {
      var next := CardToPattern(g.cards[i], g.id, i);
      assert CardPatternIn(g.id)(g.cards[i], i) == next;
      assert Seqs.MapIndexed(g.cards, CardPatternIn(g.id), i + 1)
          == Seqs.MapIndexed(g.cards, CardPatternIn(g.id), i) + [next];
      patterns := patterns + [next];
      i := i + 1;
    }
  }

  /** Source lines with text, stripped. */
  predicate NonBlank(line: string) {
    Text.Strip(line) != ""
  }

  function SourceLines(sources: string): seq<string> {
    Seqs.Map(Seqs.Filter(Text.Split(sources, '\n'), NonBlank), Text.Strip)
  }

  /** One source line as a reference: the text before the first "http" as
      title ("Reference" when blank) and "http" followed by the text up to
      the next "http" as URL; a line without "http" is a title without
      URL. */
  function ToReference(source: string): Reference {
    if Text.Contains(source, "http") then
      var parts := Text.SplitOn(source, "http");
      if |parts| >= 2 then
        var title := Text.Strip(parts[0]);
        Reference(if title == "" then "Reference" else title, "http" + Text.Strip(parts[1]))
      else Reference(source, source)
    else Reference(source, "")
  }

  /** A line with "http" always splits in at least two, so it gets a
      non-empty title and a URL starting with "http"; any other line keeps
      its text as title and has no URL. */
  lemma ToReferenceFacts(source: string)
    ensures Text.Contains(source, "http") ==>
      ToReference(source).title != "" && Text.StartsWith(ToReference(source).url, "http")
    ensures !Text.Contains(source, "http") ==> ToReference(source) == Reference(source, "")
  {
    if Text.Contains(source, "http") {
      Text.SplitOnFound(source, "http");
    }
  }

  /** The references built from a card's sources. */
  function SourceReferences(sources: string): seq<Reference> {
    if sources != "" then Seqs.Map(SourceLines(sources), ToReference) else []
  }
}

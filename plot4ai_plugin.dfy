/** The PLOT4AI plugin: every card of the deck that passes the lifecycle
    phase, category and AI type filters, and whose elicitation answer (when
    one is given) admits it, becomes a threat. */
module Plot4aiPlugin {
  import opened Wrappers
  import opened Models
  import opened PluginBase
  import opened Plot4aiModels
  import Converter = Plot4aiConverter
  import ThreatDetection
  import Seqs
  import Text

  /** PLOT4AI applies to every kind of AI system; it registers as the LLM
      application plugin. */
  const PluginSystemType: SystemType := LlmApp

  const SupportedFrameworks: seq<Framework> := [Plot4ai]

  /** The three optional filters of `detect_threats` and
      `get_elicitation_questions`. */
  datatype Filters = Filters(
    phase: Option<string> := None,
    category: Option<string> := None,
    aitype: Option<string> := None)

  /** A filter takes effect when it is given and not empty, as Python's
      truth test on a string. */
  predicate Active(f: Option<string>) {
    f.Some? && f.value != ""
  }

  /** A card passes the filters: it lists each active filter's value among
      its phases, its categories and its AI types respectively. */
  predicate Keep(f: Filters, c: Card) {
    && (Active(f.phase) ==> f.phase.value in c.phases)
    && (Active(f.category) ==> f.category.value in c.categories)
    && (Active(f.aitype) ==> f.aitype.value in c.aitypes)
  }

  /** The three list comprehensions, applied one after the other. */
  function FilterCards(cards: seq<Card>, f: Filters): (r: seq<Card>)
    ensures forall c :: c in r <==> c in cards && Keep(f, c)
  {
    var byPhase :=
      if Active(f.phase) then var p := f.phase.value; Seqs.Filter(cards, (c: Card) => p in c.phases)
      else cards;
    var byCategory :=
      if Active(f.category) then var k := f.category.value; Seqs.Filter(byPhase, (c: Card) => k in c.categories)
      else byPhase;
    if Active(f.aitype) then var a := f.aitype.value; Seqs.Filter(byCategory, (c: Card) => a in c.aitypes)
    else byCategory
  }

  /** The answer admits the card: "maybe" always, "yes" and "no" when they
      equal the card's `threatif`, all compared in lower case. */
  predicate Admits(answer: string, threatif: string) {
    var a := Text.Lower(answer);
    a == "maybe" || (a == "yes" && Text.Lower(threatif) == "yes") || (a == "no" && Text.Lower(threatif) == "no")
  }

  /** Whether a card becomes a threat as far as the answers go: a card
      without an answer always does. (The test that the dictionary is not
      empty adds nothing, since a key is in it.) */
  predicate Emits(answers: Option<map<string, string>>, card: Card, cardId: string) {
    answers.Some? && cardId in answers.value ==> Admits(answers.value[cardId], card.threatif)
  }

  /** `_card_to_threat`: the card's label as category and title, its
      explanation as description, no severity, one attack vector per
      category, the explanation and the question as detection patterns, the
      mitigations and references the converter builds, the first lifecycle
      phase, and the card id. */
  function CardToThreat(card: Card, categoryId: int, cardIndex: nat): Threat {
    var tid := Converter.PatternId(categoryId, cardIndex);
    Threat(
      Given(tid), card.cardLabel, Plot4ai, card.cardLabel,
      description := Some(card.explanation),
      severity := None,
      attackVectors := Seqs.Map(card.categories, Converter.CategoryVector),
      detectionPatterns := [card.explanation, "Elicitation: " + card.question],
      mitigations := Seqs.Map(Converter.CardMitigations(tid, card.recommendation), ThreatDetection.ToMitigation),
      references := Converter.SourceReferences(card.sources),
      lifecyclePhase := if |card.phases| > 0 then Some(card.phases[0]) else None,
      elicitationQuestion := Some(card.question),
      plot4aiCardId := Some(Converter.CardKey(categoryId, cardIndex)))
  }

  /** The threat of a card agrees with the pattern the converter makes of
      it: the same id, label, framework and explanation, and the pattern's
      category vectors without its phase vectors; the card id is the
      pattern id without its prefix, and no severity is assessed. */
  lemma CardToThreatAgreesWithPattern(card: Card, categoryId: int, cardIndex: nat)
    ensures var t := CardToThreat(card, categoryId, cardIndex);
      var p := Converter.CardToPattern(card, categoryId, cardIndex);
      && t.id == Given(p.id) && t.category == p.category && t.title == p.title
      && t.framework == p.framework && t.description == Some(p.description)
      && t.severity.None?
      && t.attackVectors == p.attackVectors[..|card.categories|]
      && t.plot4aiCardId.Some? && p.id == Converter.Prefix + t.plot4aiCardId.value
  {
    var p := Converter.CardToPattern(card, categoryId, cardIndex);
    assert p.attackVectors == Seqs.Map(card.categories, Converter.CategoryVector) + Seqs.Map(card.phases, Converter.PhaseVector);
  }

  /** The threat's mitigations are the pattern's, one for one and in order,
      each proposed, under the same ids. */
  lemma CardToThreatMitigations(card: Card, categoryId: int, cardIndex: nat)
    ensures var t := CardToThreat(card, categoryId, cardIndex);
      var p := Converter.CardToPattern(card, categoryId, cardIndex);
      && |t.mitigations| == |p.mitigations|
      && (forall i :: 0 <= i < |t.mitigations| ==>
            Some(t.mitigations[i].id) == p.mitigations[i].id && t.mitigations[i].status == Proposed)
  {
    var pid := Converter.PatternId(categoryId, cardIndex);
    var ms := Converter.CardMitigations(pid, card.recommendation);
    forall i | 0 <= i < |ms|
      ensures ms[i].id.Some?
    {
      var m := ms[i];
      assert m in ms;
      Converter.MitigationsMembership(pid, Converter.Recommendations(card.recommendation), m);
    }
  }

  /** What the two loops over groups and cards collect: for each card, in
      deck order, the item `item` makes of it from the group id, the card's
      index in its group and the card, when it makes one. */
  function GroupItems<U>(g: CategoryGroup, n: nat, item: (int, nat, Card) -> Option<U>): seq<U>
    requires n <= |g.cards|
    decreases n
  {
    if n == 0 then []
    else
      var i := n - 1;
      GroupItems(g, i, item) + (match item(g.id, i, g.cards[i]) case Some(y) => [y] case None => [])
  }

  function DeckItems<U>(groups: seq<CategoryGroup>, item: (int, nat, Card) -> Option<U>): seq<U>
    decreases |groups|
  {
    if |groups| == 0 then []
    else
      var g := groups[|groups| - 1];
      DeckItems(groups[..|groups| - 1], item) + GroupItems(g, |g.cards|, item)
  }

  lemma {:induction false} GroupItemsMembership<U>(g: CategoryGroup, n: nat, item: (int, nat, Card) -> Option<U>, y: U)
    requires n <= |g.cards|
    ensures y in GroupItems(g, n, item) <==> exists i :: 0 <= i < n && item(g.id, i, g.cards[i]) == Some(y)
    decreases n
  {
    if n > 0 {
      GroupItemsMembership(g, n - 1, item, y);
    }
  }

  /** An item is collected exactly when some card of some group makes it. */
  lemma {:induction false} DeckItemsMembership<U>(groups: seq<CategoryGroup>, item: (int, nat, Card) -> Option<U>, y: U)
    ensures y in DeckItems(groups, item) <==>
      exists k, i :: 0 <= k < |groups| && 0 <= i < |groups[k].cards| && item(groups[k].id, i, groups[k].cards[i]) == Some(y)
    decreases |groups|
  {
    if |groups| > 0 {
      var last := |groups| - 1;
      var init := groups[..last];
      var g := groups[last];
      DeckItemsMembership(init, item, y);
      GroupItemsMembership(g, |g.cards|, item, y);
      if y in DeckItems(init, item) {
        var k, i :| 0 <= k < |init| && 0 <= i < |init[k].cards| && item(init[k].id, i, init[k].cards[i]) == Some(y);
        assert groups[k] == init[k];
      }
      if exists k, i :: 0 <= k < |groups| && 0 <= i < |groups[k].cards| && item(groups[k].id, i, groups[k].cards[i]) == Some(y) {
        var k, i :| 0 <= k < |groups| && 0 <= i < |groups[k].cards| && item(groups[k].id, i, groups[k].cards[i]) == Some(y);
        if k < last {
          assert init[k] == groups[k];
        }
      }
    }
  }

  /** Two item makers that agree on every card collect the same items. */
  lemma {:induction false} GroupItemsAgree<U>(g: CategoryGroup, n: nat, item1: (int, nat, Card) -> Option<U>, item2: (int, nat, Card) -> Option<U>)
    requires n <= |g.cards|
    requires forall gid, i, c :: item1(gid, i, c) == item2(gid, i, c)
    ensures GroupItems(g, n, item1) == GroupItems(g, n, item2)
    decreases n
  {
    if n > 0 {
      GroupItemsAgree(g, n - 1, item1, item2);
    }
  }

  lemma {:induction false} DeckItemsAgree<U>(groups: seq<CategoryGroup>, item1: (int, nat, Card) -> Option<U>, item2: (int, nat, Card) -> Option<U>)
    requires forall gid, i, c :: item1(gid, i, c) == item2(gid, i, c)
    ensures DeckItems(groups, item1) == DeckItems(groups, item2)
    decreases |groups|
  {
    if |groups| > 0 {
      var g := groups[|groups| - 1];
      DeckItemsAgree(groups[..|groups| - 1], item1, item2);
      GroupItemsAgree(g, |g.cards|, item1, item2);
    }
  }

  /** Two item makers that pick the same cards, and whose items map to the
      same keys, collect items with the same keys in the same order. */
  lemma {:induction false} GroupItemsKeys<U, V, K>(g: CategoryGroup, n: nat, item1: (int, nat, Card) -> Option<U>, item2: (int, nat, Card) -> Option<V>,
                                                   key1: U -> K, key2: V -> K)
    requires n <= |g.cards|
    requires forall gid, i, c :: item1(gid, i, c).Some? == item2(gid, i, c).Some?
    requires forall gid, i, c :: item1(gid, i, c).Some? && item2(gid, i, c).Some? ==>
      key1(item1(gid, i, c).value) == key2(item2(gid, i, c).value)
    ensures Seqs.Map(GroupItems(g, n, item1), key1) == Seqs.Map(GroupItems(g, n, item2), key2)
    decreases n
  {
    if n > 0 {
      var i := n - 1;
      GroupItemsKeys(g, i, item1, item2, key1, key2);
      var ys1 := match item1(g.id, i, g.cards[i]) case Some(y) => [y] case None => [];
      var ys2 := match item2(g.id, i, g.cards[i]) case Some(y) => [y] case None => [];
      Seqs.MapConcat(GroupItems(g, i, item1), ys1, key1);
      Seqs.MapConcat(GroupItems(g, i, item2), ys2, key2);
    }
  }

  lemma {:induction false} DeckItemsKeys<U, V, K>(groups: seq<CategoryGroup>, item1: (int, nat, Card) -> Option<U>, item2: (int, nat, Card) -> Option<V>,
                                                  key1: U -> K, key2: V -> K)
    requires forall gid, i, c :: item1(gid, i, c).Some? == item2(gid, i, c).Some?
    requires forall gid, i, c :: item1(gid, i, c).Some? && item2(gid, i, c).Some? ==>
      key1(item1(gid, i, c).value) == key2(item2(gid, i, c).value)
    ensures Seqs.Map(DeckItems(groups, item1), key1) == Seqs.Map(DeckItems(groups, item2), key2)
    decreases |groups|
  {
    if |groups| > 0 {
      var init := groups[..|groups| - 1];
      var g := groups[|groups| - 1];
      DeckItemsKeys(init, item1, item2, key1, key2);
      GroupItemsKeys(g, |g.cards|, item1, item2, key1, key2);
      Seqs.MapConcat(DeckItems(init, item1), GroupItems(g, |g.cards|, item1), key1);
      Seqs.MapConcat(DeckItems(init, item2), GroupItems(g, |g.cards|, item2), key2);
    }
  }

  /** The threat `detect_threats` makes of a card: one when the card passed
      the filters and its answer, if any, admits it. */
  function ThreatItem(kept: seq<Card>, answers: Option<map<string, string>>): (int, nat, Card) -> Option<Threat> {
    (gid: int, i: nat, c: Card) =>
      if c in kept && Emits(answers, c, Converter.CardKey(gid, i)) then Some(CardToThreat(c, gid, i)) else None
  }

  /** `detect_threats`. The system model it is given plays no part. */
  function Detect(deck: Deck, f: Filters, answers: Option<map<string, string>>): seq<Threat> {
    DeckItems(deck.categories, ThreatItem(FilterCards(deck.AllCards(), f), answers))
  }

  /** A card of the deck is among the filtered cards exactly when it passes
      the filters. */
  lemma KeptCards(deck: Deck, f: Filters, k: nat, i: nat)
    requires k < |deck.categories| && i < |deck.categories[k].cards|
    ensures deck.categories[k].cards[i] in FilterCards(deck.AllCards(), f) <==> Keep(f, deck.categories[k].cards[i])
  {
    AllCardsMembership(deck, deck.categories[k].cards[i]);
    assert deck.categories[k] in deck.categories;
  }

  /** A threat is detected exactly when it is the threat of a card of the
      deck that passes the filters and that its answer, if any, admits. */
  lemma DetectMembership(deck: Deck, f: Filters, answers: Option<map<string, string>>, t: Threat)
    ensures t in Detect(deck, f, answers) <==>
      exists k, i :: 0 <= k < |deck.categories| && 0 <= i < |deck.categories[k].cards| &&
        Keep(f, deck.categories[k].cards[i]) &&
        Emits(answers, deck.categories[k].cards[i], Converter.CardKey(deck.categories[k].id, i)) &&
        t == CardToThreat(deck.categories[k].cards[i], deck.categories[k].id, i)
  {
    DeckItemsMembership(deck.categories, ThreatItem(FilterCards(deck.AllCards(), f), answers), t);
    forall k, i | 0 <= k < |deck.categories| && 0 <= i < |deck.categories[k].cards| {
      KeptCards(deck, f, k, i);
    }
  }

  /** Answering "maybe" (in any case) never removes a threat: with only such
      answers the threats are those found without answers. */
  lemma MaybeAnswersKeepAll(deck: Deck, f: Filters, answers: map<string, string>)
    requires forall id :: id in answers ==> Text.Lower(answers[id]) == "maybe"
    ensures Detect(deck, f, Some(answers)) == Detect(deck, f, None)
  {
    var kept := FilterCards(deck.AllCards(), f);
    DeckItemsAgree(deck.categories, ThreatItem(kept, Some(answers)), ThreatItem(kept, None));
  }

  /** An answer that contradicts the card's `threatif` removes its threat:
      answering "no" to a card that is a threat on "yes", or "yes" to one
      that is a threat on "no". The group ids must be distinct, since the
      answers are keyed by group id and card index. */
  lemma ContradictingAnswerDrops(deck: Deck, f: Filters, answers: map<string, string>, k: nat, i: nat)
    requires Converter.DistinctGroupIds(deck)
    requires k < |deck.categories| && i < |deck.categories[k].cards|
    requires var card := deck.categories[k].cards[i];
      var id := Converter.CardKey(deck.categories[k].id, i);
      id in answers &&
      ((Text.Lower(answers[id]) == "no" && Text.Lower(card.threatif) == "yes") ||
       (Text.Lower(answers[id]) == "yes" && Text.Lower(card.threatif) == "no"))
    ensures CardToThreat(deck.categories[k].cards[i], deck.categories[k].id, i) !in Detect(deck, f, Some(answers))
  {
    var g := deck.categories[k];
    var t := CardToThreat(g.cards[i], g.id, i);
    var item := ThreatItem(FilterCards(deck.AllCards(), f), Some(answers));
    DeckItemsMembership(deck.categories, item, t);
    forall k2, i2 | 0 <= k2 < |deck.categories| && 0 <= i2 < |deck.categories[k2].cards| &&
        item(deck.categories[k2].id, i2, deck.categories[k2].cards[i2]) == Some(t)
      ensures k2 == k && i2 == i
    {
      var g2 := deck.categories[k2];
      assert t.plot4aiCardId == Some(Converter.CardKey(g2.id, i2));
      Converter.CardKeyInjective(g.id, i, g2.id, i2);
    }
    assert !Emits(Some(answers), g.cards[i], Converter.CardKey(g.id, i));
  }

  /** One entry of `get_elicitation_questions`. */
  datatype Question = Question(
    id: string,
    question: string,
    cardLabel: string,
    threatif: string,
    categories: seq<string>,
    phases: seq<string>,
    explanation: string)

  /** The entry for a card: its id, question, label, `threatif`,
      categories, phases and explanation. */
  function QuestionOf(c: Card, gid: int, i: nat): Question {
    Question(Converter.CardKey(gid, i), c.question, c.cardLabel, c.threatif, c.categories, c.phases, c.explanation)
  }

  /** The question asked for a card that passed the filters. */
  function QuestionItem(kept: seq<Card>): (int, nat, Card) -> Option<Question> {
    (gid: int, i: nat, c: Card) => if c in kept then Some(QuestionOf(c, gid, i)) else None
  }

  /** `get_elicitation_questions`. */
  function Questions(deck: Deck, f: Filters): seq<Question> {
    DeckItems(deck.categories, QuestionItem(FilterCards(deck.AllCards(), f)))
  }

  /** A question is asked exactly for each card of the deck that passes the
      filters, under that card's id. */
  lemma QuestionsMembership(deck: Deck, f: Filters, q: Question)
    ensures q in Questions(deck, f) <==>
      exists k, i :: 0 <= k < |deck.categories| && 0 <= i < |deck.categories[k].cards| &&
        Keep(f, deck.categories[k].cards[i]) &&
        q == QuestionOf(deck.categories[k].cards[i], deck.categories[k].id, i)
  {
    DeckItemsMembership(deck.categories, QuestionItem(FilterCards(deck.AllCards(), f)), q);
    forall k, i | 0 <= k < |deck.categories| && 0 <= i < |deck.categories[k].cards| {
      KeptCards(deck, f, k, i);
    }
  }

  function ThreatCardId(t: Threat): Option<string> {
    t.plot4aiCardId
  }

  function QuestionCardId(q: Question): Option<string> {
    Some(q.id)
  }

  /** Without answers, the threats detected under some filters are, in
      order, those of the elicitation questions asked under the same
      filters: same card ids, same count. */
  lemma QuestionsMatchThreats(deck: Deck, f: Filters)
    ensures |Detect(deck, f, None)| == |Questions(deck, f)|
    ensures forall j :: 0 <= j < |Questions(deck, f)| ==>
      Detect(deck, f, None)[j].plot4aiCardId == Some(Questions(deck, f)[j].id)
  {
    var kept := FilterCards(deck.AllCards(), f);
    DeckItemsKeys(deck.categories, ThreatItem(kept, None), QuestionItem(kept), ThreatCardId, QuestionCardId);
    var ts := Seqs.Map(Detect(deck, f, None), ThreatCardId);
    var qs := Seqs.Map(Questions(deck, f), QuestionCardId);
    forall j | 0 <= j < |Questions(deck, f)|
      ensures Detect(deck, f, None)[j].plot4aiCardId == Some(Questions(deck, f)[j].id)
    {
      assert ts[j] == qs[j];
    }
  }

  function ComponentTypes(): seq<string> {
    [Llm.Value(), Agent.Value(), Tool.Value(), Memory.Value(), Database.Value(), ApiEndpoint.Value()]
  }

  const IdError: string := "Component ID is required"

  const NameError: string := "Component name is required"

  /** `validate_component`: an id and a name are required, in that order;
      there are never warnings. */
  function ValidateComponent(c: Component): (r: ValidationResult)
    ensures r.valid <==> c.id != "" && c.name != ""
    ensures IdError in r.errors <==> c.id == ""
    ensures NameError in r.errors <==> c.name == ""
    ensures |r.errors| == (if c.id == "" then 1 else 0) + (if c.name == "" then 1 else 0)
    ensures c.id == "" ==> r.errors[0] == IdError
    ensures r.warnings == []
  {
    assert IdError[10] == 'I' && NameError[10] == 'n';
    var errors := (if c.id == "" then [IdError] else []) + (if c.name == "" then [NameError] else []);
    ValidationResult(|errors| == 0, errors, [])
  }

  class Plugin {
    /** `_deck`: the PLOT4AI deck. */
    const deck: Deck

    /** `deck` stands for what `load_plot4ai_deck` reads. */
    constructor (deck: Deck)
      ensures this.deck == deck
    {
      this.deck := deck;
    }

    /** `get_threat_patterns`: nothing for another framework, else every
        card converted, group by group (`_get_patterns`). */
    method GetThreatPatterns(framework: Option<Framework>) returns (r: seq<ThreatPattern>)
      ensures framework.Some? && framework.value != Plot4ai ==> r == []
      ensures framework.None? || framework.value == Plot4ai ==> r == Converter.ConvertDeck(deck)
    {
      if framework.Some? && framework.value != Plot4ai {
        return [];
      }
      r := Converter.ConvertDeckLoop(deck);
    }

    /** The filtered cards, as the three comprehensions compute them. */
    method FilteredCards(f: Filters) returns (cards: seq<Card>)
      ensures cards == FilterCards(deck.AllCards(), f)
    {
      cards := deck.GetAllCards();
      if Active(f.phase) {
        var p := f.phase.value;
        cards := Seqs.Filter(cards, (c: Card) => p in c.phases);
      }
      if Active(f.category) {
        var k := f.category.value;
        cards := Seqs.Filter(cards, (c: Card) => k in c.categories);
      }
      if Active(f.aitype) {
        var a := f.aitype.value;
        cards := Seqs.Filter(cards, (c: Card) => a in c.aitypes);
      }
    }

    /** `analyze_system`, inherited from the base plugin: the threats
        `detect_threats` finds, their number, and the sizes of the system. */
    method AnalyzeSystem(system: SystemModel) returns (r: Analysis)
      ensures r.threats == Detect(deck, Filters(), None)
      ensures r.threatCount == |Detect(deck, Filters(), None)|
      ensures r.componentsAnalyzed == |system.components| && r.dataFlowsAnalyzed == |system.dataFlows|
    {
      var threats := DetectThreats(system, Filters(), None);
      r := Summarize(system, threats);
    }

    /** `detect_threats`, its loop over groups. */
    method DetectThreats(system: SystemModel, f: Filters, answers: Option<map<string, string>>) returns (threats: seq<Threat>)
      ensures threats == Detect(deck, f, answers)
    {
      var cards := FilteredCards(f);
      threats := [];
      var k := 0;
      while k < |deck.categories|
        invariant 0 <= k <= |deck.categories|
        invariant threats == DeckItems(deck.categories[..k], ThreatItem(cards, answers))
      {
        assert deck.categories[..k + 1][..k] == deck.categories[..k];
        var groupThreats := GroupThreats(deck.categories[k], cards, answers);
        threats := threats + groupThreats;
        k := k + 1;
      }
      assert deck.categories[..k] == deck.categories;
    }

    /** `detect_threats`, its loop over the cards of one group. */
    static method GroupThreats(g: CategoryGroup, cards: seq<Card>, answers: Option<map<string, string>>) returns (threats: seq<Threat>)
      ensures threats == GroupItems(g, |g.cards|, ThreatItem(cards, answers))
    {
      threats := [];
      var i := 0;
      while i < |g.cards|
        invariant 0 <= i <= |g.cards|
        invariant threats == GroupItems(g, i, ThreatItem(cards, answers))
      {
        var card := g.cards[i];
        if card in cards {
          var cardId := Converter.CardKey(g.id, i);
          if answers.Some? && |answers.value| > 0 && cardId in answers.value {
            var answer := Text.Lower(answers.value[cardId]);
            if answer == "maybe" || (answer == "yes" && Text.Lower(card.threatif) == "yes")
               || (answer == "no" && Text.Lower(card.threatif) == "no") {
              threats := threats + [CardToThreat(card, g.id, i)];
            }
          } else {
            threats := threats + [CardToThreat(card, g.id, i)];
          }
        }
        i := i + 1;
      }
    }

    /** `get_elicitation_questions`. */
    method GetElicitationQuestions(f: Filters) returns (questions: seq<Question>)
      ensures questions == Questions(deck, f)
    {
      var cards := FilteredCards(f);
      questions := [];
      var k := 0;
      while k < |deck.categories|
        invariant 0 <= k <= |deck.categories|
        invariant questions == DeckItems(deck.categories[..k], QuestionItem(cards))
      {
        assert deck.categories[..k + 1][..k] == deck.categories[..k];
        var groupQuestions := GroupQuestions(deck.categories[k], cards);
        questions := questions + groupQuestions;
        k := k + 1;
      }
      assert deck.categories[..k] == deck.categories;
    }

    /** `get_elicitation_questions`, its loop over the cards of one group. */
    static method GroupQuestions(g: CategoryGroup, cards: seq<Card>) returns (questions: seq<Question>)
      ensures questions == GroupItems(g, |g.cards|, QuestionItem(cards))
    {
      questions := [];
      var i := 0;
      while i < |g.cards|
        invariant 0 <= i <= |g.cards|
        invariant questions == GroupItems(g, i, QuestionItem(cards))
      {
        var card := g.cards[i];
        if card in cards {
          questions := questions + [QuestionOf(card, g.id, i)];
        }
        i := i + 1;
      }
    }
  }
}

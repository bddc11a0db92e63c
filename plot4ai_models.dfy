/** The PLOT4AI card deck: category groups holding threat cards, and the
    getters that flatten and filter it. */
module Plot4aiModels {
  import opened Wrappers
  import Seqs

  datatype Plot4aiCategory =
    | DataGovernance | Transparency | Privacy | Cybersecurity | Safety | Bias | Ethics | Accountability
  {
    function Value(): string {
      match this
      case DataGovernance => "Data & Data Governance"
      case Transparency => "Transparency & Accessibility"
      case Privacy => "Privacy & Data Protection"
      case Cybersecurity => "Cybersecurity"
      case Safety => "Safety & Environmental Impact"
      case Bias => "Bias, Fairness & Discrimination"
      case Ethics => "Ethics & Human Right"
      case Accountability => "Accountability & Human Oversight"
    }
  }

  datatype Plot4aiLifecyclePhase = Design | Input | Model | Output | Deploy | Monitor
  {
    function Value(): string {
      match this
      case Design => "Design"
      case Input => "Input"
      case Model => "Model"
      case Output => "Output"
      case Deploy => "Deploy"
      case Monitor => "Monitor"
    }
  }

  /** A threat card; `threatif` says which answer to the elicitation
      question ("Yes" or "No") makes the card a threat. */
  datatype Card = Card(
    question: string,
    threatif: string,
    cardLabel: string,
    explanation: string,
    recommendation: string,
    categories: seq<string> := [],
    phases: seq<string> := [],
    aitypes: seq<string> := [],
    roles: seq<string> := [],
    sources: string := "",
    qr: string := "")

  /** A card given only its required fields has empty lists and empty
      sources and QR reference. */
  lemma CardDefaults(question: string, threatif: string, cardLabel: string, explanation: string, recommendation: string)
    ensures var c := Card(question, threatif, cardLabel, explanation, recommendation);
      c.categories == [] && c.phases == [] && c.aitypes == [] && c.roles == [] && c.sources == "" && c.qr == ""
  {
  }

  datatype CategoryGroup = CategoryGroup(
    category: string,
    id: int,
    colour: string,
    cards: seq<Card> := [])

  function GroupCards(g: CategoryGroup): seq<Card> {
    g.cards
  }

  datatype Deck = Deck(categories: seq<CategoryGroup> := [])
  {
    /** Every card of every group, in group order. */
    function AllCards(): seq<Card> {
      Seqs.FlatMap(categories, GroupCards)
    }

    /** `get_all_cards` as its loop runs. */
    method GetAllCards() returns (allCards: seq<Card>)
      ensures allCards == AllCards()
    {
      allCards := [];
      var i := 0;
      while i < |categories|
        invariant 0 <= i <= |categories|
        invariant allCards == Seqs.FlatMap(categories[..i], GroupCards)
      {
        assert categories[..i + 1][..i] == categories[..i];
        allCards := allCards + categories[i].cards;
        i := i + 1;
      }
      assert categories[..i] == categories;
    }

    /** `get_cards_by_category`: the cards of the first group with that
        category name, or none. */
    function CardsByCategory(category: string): (r: seq<Card>)
      ensures (forall g :: g in categories ==> g.category != category) ==> r == []
      ensures (exists g :: g in categories && g.category == category) ==>
        exists i :: 0 <= i < |categories| && categories[i].category == category && r == categories[i].cards &&
          forall j :: 0 <= j < i ==> categories[j].category != category
    {
      match Seqs.First(categories, (g: CategoryGroup) => g.category == category)
      case Some(g) => g.cards
      case None => []
    }

    /** `get_cards_by_phase`. */
    function CardsByPhase(phase: string): (r: seq<Card>)
      ensures forall c :: c in r <==> c in AllCards() && phase in c.phases
    {
      Seqs.Filter(AllCards(), (c: Card) => phase in c.phases)
    }

    /** `get_cards_by_aitype`. */
    function CardsByAitype(aitype: string): (r: seq<Card>)
      ensures forall c :: c in r <==> c in AllCards() && aitype in c.aitypes
    {
      Seqs.Filter(AllCards(), (c: Card) => aitype in c.aitypes)
    }
  }

  /** A card is in the deck exactly when some group holds it. */
  lemma AllCardsMembership(deck: Deck, c: Card)
    ensures c in deck.AllCards() <==> exists g :: g in deck.categories && c in g.cards
  {
    Seqs.FlatMapMembership(deck.categories, GroupCards, c);
    if exists g :: g in deck.categories && c in g.cards {
      var g :| g in deck.categories && c in g.cards;
      var k :| 0 <= k < |deck.categories| && deck.categories[k] == g;
    }
  }

  /** The deck holds as many cards as its groups together. */
  lemma {:induction false} AllCardsLength(groups: seq<CategoryGroup>)
    ensures |Seqs.FlatMap(groups, GroupCards)| == CardCount(groups)
    decreases |groups|
  {
    if |groups| > 0 {
      AllCardsLength(groups[..|groups| - 1]);
    }
  }

  /** The number of cards in the groups. */
  function CardCount(groups: seq<CategoryGroup>): nat
    decreases |groups|
  {
    if |groups| == 0 then 0 else CardCount(groups[..|groups| - 1]) + |groups[|groups| - 1].cards|
  }

  /** Filtering by phase keeps every copy of a card with that phase and
      drops every other card. */
  lemma CardsByPhaseMultiplicity(deck: Deck, phase: string, c: Card)
    ensures multiset(deck.CardsByPhase(phase))[c] ==
      if phase in c.phases then multiset(deck.AllCards())[c] else 0
  {
    Seqs.FilterMultiplicity(deck.AllCards(), (c: Card) => phase in c.phases, c);
  }

  /** Filtering by AI type keeps every copy of a card of that type and drops
      every other card. */
  lemma CardsByAitypeMultiplicity(deck: Deck, aitype: string, c: Card)
    ensures multiset(deck.CardsByAitype(aitype))[c] ==
      if aitype in c.aitypes then multiset(deck.AllCards())[c] else 0
  {
    Seqs.FilterMultiplicity(deck.AllCards(), (c: Card) => aitype in c.aitypes, c);
  }
}

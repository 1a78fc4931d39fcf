/** The game record and the move vocabulary
    (TrashTalkSolitaire/Models/GameState.swift). */
module GameModel {
  import opened Cards
  import opened Piles

  datatype DeckDifficulty = Easy | Medium | Hard

  /** The Vegas entry fee, charged up front. */
  const StartingVegasScore: int := -52

  datatype GameState = GameState(
    tableau: seq<seq<Card>>,
    foundations: seq<seq<Card>>,
    stock: seq<Card>,
    waste: seq<Card>,
    moveCount: int,
    elapsedSeconds: int,
    isWon: bool,
    drawThreeMode: bool,
    vegasMode: bool,
    vegasScore: int,
    difficulty: DeckDifficulty)

  /** The two flags `empty()` reads from persistent settings, passed in. */
  datatype Settings = Settings(drawThreeMode: bool, vegasMode: bool)

  /** The memberwise initialiser with the declared defaults for the fields it
      omits: draw-one, no Vegas, a score of -52 and medium difficulty. */
  function NewGameState(tableau: seq<seq<Card>>, foundations: seq<seq<Card>>,
                        stock: seq<Card>, waste: seq<Card>,
                        moveCount: int, elapsedSeconds: int, isWon: bool): GameState
  {
    GameState(tableau, foundations, stock, waste, moveCount, elapsedSeconds, isWon,
              false, false, StartingVegasScore, Medium)
  }

  const EmptyPiles7: seq<seq<Card>> := [[], [], [], [], [], [], []]
  const EmptyPiles4: seq<seq<Card>> := [[], [], [], []]

  /** Seven tableau piles and four foundations. */
  predicate WellShaped(g: GameState) {
    |g.tableau| == 7 && |g.foundations| == 4
  }

  /** Every card of the game, in the order the card validator collects them. */
  function AllCards(g: GameState): seq<Card> {
    g.stock + g.waste + Flatten(g.tableau) + Flatten(g.foundations)
  }

  function FoundationTotal(g: GameState): nat {
    SumSizes(g.foundations)
  }

  function TotalCards(g: GameState): nat {
    |g.stock| + |g.waste| + SumSizes(g.tableau) + SumSizes(g.foundations)
  }

  /** Cards not yet in a foundation. */
  function CardsInPlay(g: GameState): nat {
    |g.stock| + |g.waste| + SumSizes(g.tableau)
  }

  lemma TotalCardsCountsAllCards(g: GameState)
    ensures TotalCards(g) == |AllCards(g)|
    ensures TotalCards(g) == CardsInPlay(g) + FoundationTotal(g)
  {
    SumSizesIsFlattenLength(g.tableau);
    SumSizesIsFlattenLength(g.foundations);
  }

  /** The fresh record: seven empty tableau piles, four empty foundations,
      no stock or waste, and so no cards at all; counters at zero and the
      two flags taken from the settings. */
  function Empty(settings: Settings): (g: GameState)
    ensures WellShaped(g)
    ensures forall i :: 0 <= i < 7 ==> g.tableau[i] == []
    ensures forall i :: 0 <= i < 4 ==> g.foundations[i] == []
    ensures AllCards(g) == [] && TotalCards(g) == 0
    ensures g.moveCount == 0 && g.elapsedSeconds == 0 && !g.isWon
    ensures g.vegasScore == -52 && g.difficulty == Medium
    ensures g.drawThreeMode == settings.drawThreeMode && g.vegasMode == settings.vegasMode
  {
    var g := GameState(EmptyPiles7, EmptyPiles4, [], [], 0, 0, false,
                       settings.drawThreeMode, settings.vegasMode, StartingVegasScore, Medium);
    FlattenEmpties(EmptyPiles7);
    FlattenEmpties(EmptyPiles4);
    TotalCardsCountsAllCards(g);
    g
  }

  /** Orientation invariant: stock face-down, waste and foundations face-up,
      every tableau pile a face-down prefix under a non-empty face-up suffix. */
  ghost predicate Oriented(g: GameState) {
    && AllFaceDown(g.stock)
    && AllFaceUp(g.waste)
    && (forall i :: 0 <= i < |g.foundations| ==> AllFaceUp(g.foundations[i]))
    && (forall i :: 0 <= i < |g.tableau| ==> WellFormedPile(g.tableau[i]))
  }

  /** Every (suit, rank) exactly once across stock, waste, tableau and foundations. */
  ghost predicate Conserved(g: GameState) {
    IsFullSet(AllCards(g))
  }

  /** Every foundation built ace upwards in one suit. */
  ghost predicate FoundationsOrdered(g: GameState) {
    forall q :: 0 <= q < |g.foundations| ==> FoundationOrdered(g.foundations[q])
  }

  datatype MoveSource =
    | FromTableau(pile: nat, cardIndex: nat)
    | FromWaste
    | FromFoundation(pile: nat)

  /** A move only ever lands on a tableau pile or a foundation. */
  datatype MoveDestination =
    | ToTableau(pile: nat)
    | ToFoundation(pile: nat)

  /** An undo entry: the run moved (bottom to top), whether the move turned a
      card up, and the waste and stock as they were before the move. */
  datatype Move = Move(
    source: MoveSource,
    destination: MoveDestination,
    cards: seq<Card>,
    flippedCard: bool,
    previousWaste: seq<Card>,
    previousStock: seq<Card>)
}

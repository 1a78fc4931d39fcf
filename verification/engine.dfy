/** The game engine of the view model
    (TrashTalkSolitaire/ViewModels/GameViewModel.swift): dealing, drawing,
    move execution with auto-flip, the undo stack, win detection, the tap
    selection state machine and auto-complete. Sounds, speech, commentary
    text and the one-second timer are left out; the shuffled deck is a
    parameter. */
module Engine {
  import opened Cards
  import opened Piles
  import opened GameModel
  import Deck

  /** The view model's state: the game record, its private undo stack and
      the currently selected source of the tap interface. */
  datatype Session = Session(game: GameState, undoStack: seq<Move>, selected: Option<MoveSource>)

  /** Outcome of `executeMove`: whether it moved, and the session afterwards. */
  datatype MoveResult = MoveResult(moved: bool, after: Session)

  // ---------------------------------------------------------------------
  // Deal

  /** `deal()`, with `deck` standing for `Card.fullDeck().shuffled()`. The
      record is built by the memberwise initialiser, so the draw-three and
      Vegas flags, the score and the difficulty take their declared defaults. */
  method Deal(deck: seq<Card>) returns (r: Session)
    requires |deck| >= 28
    ensures r.undoStack == [] && r.selected == None && WellShaped(r.game)
    ensures forall c :: 0 <= c < 7 ==> |r.game.tableau[c]| == c + 1
    ensures forall c :: 0 <= c < 7 ==> r.game.tableau[c] == Deck.DealtColumn(deck, c)
    ensures r.game.stock == deck[..|deck| - 28] && r.game.waste == []
    ensures forall q :: 0 <= q < 4 ==> r.game.foundations[q] == []
    ensures r.game.moveCount == 0 && r.game.elapsedSeconds == 0 && !r.game.isWon
    ensures !r.game.drawThreeMode && !r.game.vegasMode
    ensures r.game.vegasScore == -52 && r.game.difficulty == Medium
    ensures SameCards(AllCards(r.game), deck)
    ensures IsFullSet(deck) ==> Conserved(r.game) && |r.game.stock| == 24
    ensures AllFaceDown(deck) ==> Oriented(r.game)
  {
    var tableau, rest := Deck.DealTableau(deck);
    var g := NewGameState(tableau, EmptyPiles4, rest, [], 0, 0, false);
    r := Session(g, [], None);
    FlattenEmpties(EmptyPiles4);
    AllCardsKeys(g);
    if IsFullSet(deck) {
      FullSetSize(deck);
    }
  }

  lemma AllCardsKeys(g: GameState)
    ensures Keys(AllCards(g))
            == Keys(g.stock) + Keys(g.waste) + Keys(Flatten(g.tableau)) + Keys(Flatten(g.foundations))
  {
    KeysAppend(g.stock, g.waste);
    KeysAppend(g.stock + g.waste, Flatten(g.tableau));
    KeysAppend(g.stock + g.waste + Flatten(g.tableau), Flatten(g.foundations));
  }

  // ---------------------------------------------------------------------
  // Stock and waste

  /** `drawFromStock()`: one card from the stock's top to the waste, face-up;
      with an empty stock the waste is recycled; nothing once the game is won. */
  function DrawFromStock(s: Session): (r: Session)
    ensures r.undoStack == s.undoStack && r.selected == s.selected
    ensures r.game == s.game.(stock := r.game.stock, waste := r.game.waste)
    ensures s.game.isWon || (s.game.stock == [] && s.game.waste == []) ==> r == s
    ensures !s.game.isWon && |s.game.stock| > 0 ==>
              && r.game.stock == s.game.stock[..|s.game.stock| - 1]
              && r.game.waste == s.game.waste + [WithFace(s.game.stock[|s.game.stock| - 1], true)]
    ensures !s.game.isWon && s.game.stock == [] && s.game.waste != [] ==>
              r.game.stock == Recycle(s.game.waste) && r.game.waste == []
  {
    var g := s.game;
    if g.isWon then s
    else if |g.stock| == 0 then
      if |g.waste| == 0 then s
      else s.(game := g.(stock := Recycle(g.waste), waste := []))
    else
      var card := g.stock[|g.stock| - 1];
      s.(game := g.(stock := g.stock[..|g.stock| - 1], waste := g.waste + [WithFace(card, true)]))
  }

  /** Drawing moves cards between stock and waste only: none is lost or made,
      and the orientation invariant survives. */
  lemma DrawConserves(s: Session)
    ensures SameCards(AllCards(DrawFromStock(s).game), AllCards(s.game))
    ensures TotalCards(DrawFromStock(s).game) == TotalCards(s.game)
    ensures Oriented(s.game) ==> Oriented(DrawFromStock(s).game)
  {
    var g, h := s.game, DrawFromStock(s).game;
    DrawStockWasteKeys(s);
    AllCardsKeys(g);
    AllCardsKeys(h);
    assert Keys(AllCards(h)) == Keys(AllCards(g));
    TotalCardsCountsAllCards(g);
    TotalCardsCountsAllCards(h);
    KeysSize(AllCards(g));
    KeysSize(AllCards(h));
    if Oriented(g) {
      DrawOriented(s);
    }
  }

  lemma DrawStockWasteKeys(s: Session)
    ensures var h := DrawFromStock(s).game;
            Keys(h.stock) + Keys(h.waste) == Keys(s.game.stock) + Keys(s.game.waste)
  {
    var g := s.game;
    if !g.isWon && |g.stock| > 0 {
      DrawOneKeys(g.stock, g.waste);
    } else if !g.isWon && |g.waste| > 0 {
      RecycleKeys(g.waste);
    }
  }

  lemma DrawOriented(s: Session)
    requires Oriented(s.game)
    ensures Oriented(DrawFromStock(s).game)
  {
  }

  lemma DrawOneKeys(stock: seq<Card>, waste: seq<Card>)
    requires |stock| > 0
    ensures Keys(stock[..|stock| - 1]) + Keys(waste + [WithFace(stock[|stock| - 1], true)])
            == Keys(stock) + Keys(waste)
  {
    var n := |stock|;
    var c := stock[n - 1];
    assert stock == stock[..n - 1] + [c];
    KeysAppend(stock[..n - 1], [c]);
    KeysAppend(waste, [WithFace(c, true)]);
    assert KeySeq([WithFace(c, true)]) == KeySeq([c]);
  }

  /** `draw` applied k times. */
  function DrawTimes(s: Session, k: nat): (r: Session)
    decreases k
    ensures r.undoStack == s.undoStack && r.selected == s.selected
    ensures r.game.tableau == s.game.tableau && r.game.foundations == s.game.foundations
    ensures r.game.moveCount == s.game.moveCount && r.game.isWon == s.game.isWon
  {
    if k == 0 then s else DrawTimes(DrawFromStock(s), k - 1)
  }

  lemma {:induction false} DrawTimesConserves(s: Session, k: nat)
    ensures SameCards(AllCards(DrawTimes(s, k).game), AllCards(s.game))
    decreases k
  {
    if k > 0 {
      DrawConserves(s);
      DrawTimesConserves(DrawFromStock(s), k - 1);
    }
  }

  // ---------------------------------------------------------------------
  // Move execution

  /** Indices `executeMove` uses without a bounds check (a trap otherwise). */
  predicate IndicesOk(src: MoveSource, dst: MoveDestination) {
    && (src.FromFoundation? ==> src.pile < 4)
    && (dst.ToTableau? ==> dst.pile < 7)
    && (dst.ToFoundation? ==> dst.pile < 4)
  }

  /** Does `src` name a card `executeMove` can lift? */
  predicate SourceReady(g: GameState, src: MoveSource)
    requires WellShaped(g) && (src.FromFoundation? ==> src.pile < 4)
  {
    match src
    case FromWaste => |g.waste| > 0
    case FromTableau(p, i) => p < 7 && i < |g.tableau[p]|
    case FromFoundation(p) => |g.foundations[p]| > 0
  }

  /** The run a move carries: the waste top, the tableau cards from the given
      index to the top, or the foundation top. */
  function Run(g: GameState, src: MoveSource): (run: seq<Card>)
    requires WellShaped(g) && (src.FromFoundation? ==> src.pile < 4) && SourceReady(g, src)
    ensures |run| > 0
    ensures src.FromWaste? ==> g.waste == g.waste[..|g.waste| - 1] + run && |run| == 1
    ensures src.FromFoundation? ==>
              g.foundations[src.pile] == g.foundations[src.pile][..|g.foundations[src.pile]| - 1] + run
              && |run| == 1
    ensures src.FromTableau? ==> g.tableau[src.pile] == g.tableau[src.pile][..src.cardIndex] + run
  {
    match src
    case FromWaste => [g.waste[|g.waste| - 1]]
    case FromTableau(p, i) => g.tableau[p][i..]
    case FromFoundation(p) => [g.foundations[p][|g.foundations[p]| - 1]]
  }

  /** The destination's acceptance test for a run, as `executeMove` performs it:
      a king onto an empty tableau pile, otherwise the tableau stacking rule on
      the pile's top; a single card onto a foundation under the foundation rule
      (and the redundant same-suit check). */
  predicate Accepts(g: GameState, run: seq<Card>, dst: MoveDestination)
    requires WellShaped(g) && |run| > 0 && IndicesOk(FromWaste, dst)
  {
    match dst
    case ToTableau(q) =>
      if |g.tableau[q]| == 0 then run[0].rank == King
      else CanStackOnTableau(run[0], g.tableau[q][|g.tableau[q]| - 1])
    case ToFoundation(q) =>
      && |run| == 1
      && CanStackOnFoundation(run[0], Top(g.foundations[q]))
      && (|g.foundations[q]| == 0 || run[0].suit == g.foundations[q][|g.foundations[q]| - 1].suit)
  }

  /** The source with the run taken off. */
  function Lift(g: GameState, src: MoveSource): (h: GameState)
    requires WellShaped(g) && (src.FromFoundation? ==> src.pile < 4) && SourceReady(g, src)
    ensures WellShaped(h)
    ensures h == g.(tableau := h.tableau, foundations := h.foundations, waste := h.waste)
  {
    match src
    case FromWaste => g.(waste := g.waste[..|g.waste| - 1])
    case FromTableau(p, i) => g.(tableau := g.tableau[p := g.tableau[p][..i]])
    case FromFoundation(p) =>
      g.(foundations := g.foundations[p := g.foundations[p][..|g.foundations[p]| - 1]])
  }

  /** The destination with the run appended in order. */
  function Place(g: GameState, dst: MoveDestination, run: seq<Card>): (h: GameState)
    requires WellShaped(g) && IndicesOk(FromWaste, dst)
    ensures WellShaped(h)
    ensures h == g.(tableau := h.tableau, foundations := h.foundations)
  {
    match dst
    case ToTableau(q) => g.(tableau := g.tableau[q := g.tableau[q] + run])
    case ToFoundation(q) => g.(foundations := g.foundations[q := g.foundations[q] + run])
  }

  /** After the move, is the source tableau pile showing a face-down top? */
  predicate ExposedFaceDown(g: GameState, src: MoveSource)
    requires WellShaped(g)
  {
    src.FromTableau? && src.pile < 7 && |g.tableau[src.pile]| > 0
    && !g.tableau[src.pile][|g.tableau[src.pile]| - 1].faceUp
  }

  /** The auto-flip: turn the source pile's newly exposed top card face-up. */
  function AutoFlip(g: GameState, src: MoveSource): (h: GameState)
    requires WellShaped(g)
    ensures WellShaped(h)
    ensures h == g.(tableau := h.tableau)
  {
    if ExposedFaceDown(g, src) then
      g.(tableau := g.tableau[src.pile := SetTopFace(g.tableau[src.pile], true)])
    else g
  }

  /** `checkWin()`: the game is won once the foundations hold 52 cards. */
  function CheckWin(g: GameState): (h: GameState)
    ensures h == g.(isWon := h.isWon)
    ensures h.isWon <==> g.isWon || FoundationTotal(g) == 52
  {
    if FoundationTotal(g) == 52 then g.(isWon := true) else g
  }

  /** `executeMove(from:to:)`. A rejected move changes nothing. An accepted
      one lifts the run, appends it to the destination, flips the newly
      exposed tableau card, pushes one undo entry recording the run and the
      prior waste and stock, counts the move and checks for a win. */
  function ExecuteMove(s: Session, src: MoveSource, dst: MoveDestination): (res: MoveResult)
    requires WellShaped(s.game) && IndicesOk(src, dst)
    ensures WellShaped(res.after.game)
    ensures !res.moved ==> res.after == s
    ensures res.moved <==> SourceReady(s.game, src) && Accepts(s.game, Run(s.game, src), dst)
    ensures res.moved ==>
              && |res.after.undoStack| == |s.undoStack| + 1
              && res.after.undoStack[..|s.undoStack|] == s.undoStack
              && res.after.undoStack[|s.undoStack|].source == src
              && res.after.undoStack[|s.undoStack|].destination == dst
              && res.after.undoStack[|s.undoStack|].cards == Run(s.game, src)
              && res.after.undoStack[|s.undoStack|].previousWaste == s.game.waste
              && res.after.undoStack[|s.undoStack|].previousStock == s.game.stock
    ensures res.moved ==> res.after.game.moveCount == s.game.moveCount + 1
    ensures res.moved ==> (res.after.game.isWon <==> s.game.isWon || FoundationTotal(res.after.game) == 52)
    ensures res.moved ==> res.after.selected == s.selected && res.after.game.stock == s.game.stock
    ensures res.moved ==>
              && res.after.game.elapsedSeconds == s.game.elapsedSeconds
              && res.after.game.vegasScore == s.game.vegasScore
              && res.after.game.drawThreeMode == s.game.drawThreeMode
    ensures res.moved ==>
              res.after.game == s.game.(tableau := res.after.game.tableau, foundations := res.after.game.foundations,
                                        waste := res.after.game.waste, moveCount := res.after.game.moveCount,
                                        isWon := res.after.game.isWon)
  {
    var g := s.game;
    if !SourceReady(g, src) then MoveResult(false, s)
    else
      var run := Run(g, src);
      if !Accepts(g, run, dst) then MoveResult(false, s)
      else
        var placed := Place(Lift(g, src), dst, run);
        var flipped := ExposedFaceDown(placed, src);
        var entry := Move(src, dst, run, flipped, g.waste, g.stock);
        var h := CheckWin(AutoFlip(placed, src).(moveCount := g.moveCount + 1));
        MoveResult(true, Session(h, s.undoStack + [entry], s.selected))
  }

  /** Each of `executeMove`'s early returns: an empty source, a non-king onto
      an empty tableau pile, a failed tableau or foundation rule, or a run of
      more than one card onto a foundation is refused and changes nothing. */
  lemma ExecuteMoveRejects(s: Session, src: MoveSource, dst: MoveDestination)
    requires WellShaped(s.game) && IndicesOk(src, dst)
    ensures !SourceReady(s.game, src) ==> ExecuteMove(s, src, dst) == MoveResult(false, s)
    ensures (SourceReady(s.game, src) && dst.ToTableau? && s.game.tableau[dst.pile] == []
             && Run(s.game, src)[0].rank != King) ==> ExecuteMove(s, src, dst) == MoveResult(false, s)
    ensures (SourceReady(s.game, src) && dst.ToTableau? && s.game.tableau[dst.pile] != []
             && !CanStackOnTableau(Run(s.game, src)[0], s.game.tableau[dst.pile][|s.game.tableau[dst.pile]| - 1]))
            ==> ExecuteMove(s, src, dst) == MoveResult(false, s)
    ensures SourceReady(s.game, src) && dst.ToFoundation? && |Run(s.game, src)| > 1
            ==> ExecuteMove(s, src, dst) == MoveResult(false, s)
    ensures (SourceReady(s.game, src) && dst.ToFoundation?
             && !CanStackOnFoundation(Run(s.game, src)[0], Top(s.game.foundations[dst.pile])))
            ==> ExecuteMove(s, src, dst) == MoveResult(false, s)
  { }

  function Last<T>(s: seq<T>): T
    requires |s| > 0
  {
    s[|s| - 1]
  }

  // ---------------------------------------------------------------------
  // Undo

  predicate CanUndo(s: Session) {
    |s.undoStack| > 0
  }

  /** Undo step 1: turn the source pile's top back down if the move had flipped it. */
  function Unflip(g: GameState, m: Move): (h: GameState)
    requires WellShaped(g) && (m.source.FromTableau? ==> m.source.pile < 7)
    ensures WellShaped(h)
    ensures h == g.(tableau := h.tableau)
  {
    if m.flippedCard && m.source.FromTableau? && |g.tableau[m.source.pile]| > 0 then
      g.(tableau := g.tableau[m.source.pile := SetTopFace(g.tableau[m.source.pile], false)])
    else g
  }

  /** Does the destination hold at least as many cards as the entry moved? */
  predicate DestinationHolds(g: GameState, m: Move)
    requires WellShaped(g)
  {
    match m.destination
    case ToTableau(q) => q < 7 && |g.tableau[q]| >= |m.cards|
    case ToFoundation(q) => q < 4 && |g.foundations[q]| >= |m.cards|
  }

  /** Undo step 2: drop the moved cards from the destination's top. */
  function TakeBack(g: GameState, m: Move): (h: GameState)
    requires WellShaped(g) && DestinationHolds(g, m)
    ensures WellShaped(h)
    ensures h == g.(tableau := h.tableau, foundations := h.foundations)
  {
    match m.destination
    case ToTableau(q) => g.(tableau := g.tableau[q := g.tableau[q][..|g.tableau[q]| - |m.cards|]])
    case ToFoundation(q) =>
      g.(foundations := g.foundations[q := g.foundations[q][..|g.foundations[q]| - |m.cards|]])
  }

  predicate SourceIndexOk(m: Move) {
    match m.source
    case FromTableau(p, _) => p < 7
    case FromFoundation(p) => p < 4
    case FromWaste => true
  }

  /** Undo step 3: put the cards back at the source. The shipped code
      overwrites the waste with the saved snapshot (`snapshot` true); the
      fixed variant appends the moved cards to the current waste. */
  function PutBack(g: GameState, m: Move, snapshot: bool): (h: GameState)
    requires WellShaped(g) && SourceIndexOk(m)
    requires m.source.FromTableau? ==> m.source.cardIndex <= |g.tableau[m.source.pile]|
    ensures WellShaped(h)
    ensures h == g.(tableau := h.tableau, foundations := h.foundations, waste := h.waste)
    ensures !m.source.FromWaste? ==> h.waste == g.waste
  {
    match m.source
    case FromWaste =>
      if snapshot then g.(waste := m.previousWaste) else g.(waste := g.waste + m.cards)
    case FromTableau(p, i) => g.(tableau := g.tableau[p := g.tableau[p][..i] + m.cards + g.tableau[p][i..]])
    case FromFoundation(p) => g.(foundations := g.foundations[p := g.foundations[p] + m.cards])
  }

  /** The conditions under which `undo()` does not trap on entry `m`. */
  predicate EntryFits(g: GameState, m: Move)
    requires WellShaped(g)
  {
    && SourceIndexOk(m)
    && DestinationHolds(Unflip(g, m), m)
    && (m.source.FromTableau? ==>
          m.source.cardIndex <= |TakeBack(Unflip(g, m), m).tableau[m.source.pile]|)
  }

  predicate UndoReady(s: Session) {
    WellShaped(s.game) && (|s.undoStack| > 0 ==> EntryFits(s.game, Last(s.undoStack)))
  }

  /** Does entry `m` move cards off or onto tableau pile `j` / foundation `j`? */
  predicate TouchesTableau(m: Move, j: nat) {
    (m.source.FromTableau? && m.source.pile == j) || m.destination == ToTableau(j)
  }

  predicate TouchesFoundation(m: Move, j: nat) {
    m.source == FromFoundation(j) || m.destination == ToFoundation(j)
  }

  /** A tableau source pile as undo sees it: its top turned back down when
      the move had turned it up. */
  function Unflipped(p: seq<Card>, m: Move): seq<Card> {
    if m.flippedCard && |p| > 0 then SetTopFace(p, false) else p
  }

  /** What undoing entry `m` does to the piles of `g`, pile by pile: the
      destination loses its last `|m.cards|` cards, a tableau source gets the
      cards back at `cardIndex` (after its top is turned back down), a
      foundation source gets them back on top, and every pile the entry did
      not touch is as it was. */
  predicate PilesUndone(g: GameState, m: Move, h: GameState)
    requires WellShaped(g) && WellShaped(h)
  {
    UntouchedKept(g, m, h) && DestinationShrunk(g, m, h) && SourceRefilled(g, m, h)
  }

  predicate UntouchedKept(g: GameState, m: Move, h: GameState)
    requires WellShaped(g) && WellShaped(h)
  {
    && (forall j :: 0 <= j < 7 && !TouchesTableau(m, j) ==> h.tableau[j] == g.tableau[j])
    && (forall j :: 0 <= j < 4 && !TouchesFoundation(m, j) ==> h.foundations[j] == g.foundations[j])
  }

  /** The destination, when it is not also the source, loses the moved cards from its top. */
  predicate DestinationShrunk(g: GameState, m: Move, h: GameState)
    requires WellShaped(g) && WellShaped(h)
  {
    var n := |m.cards|;
    match m.destination
    case ToTableau(q) =>
      !(m.source.FromTableau? && m.source.pile == q) ==>
        q < 7 && n <= |g.tableau[q]| && h.tableau[q] == g.tableau[q][..|g.tableau[q]| - n]
    case ToFoundation(q) =>
      m.source != FromFoundation(q) ==>
        q < 4 && n <= |g.foundations[q]| && h.foundations[q] == g.foundations[q][..|g.foundations[q]| - n]
  }

  /** The source gets the moved cards back: at `cardIndex` in a tableau pile,
      on top of a foundation (after the destination part is removed when
      source and destination are the same pile). */
  predicate SourceRefilled(g: GameState, m: Move, h: GameState)
    requires WellShaped(g) && WellShaped(h)
  {
    var n := |m.cards|;
    match m.source
    case FromWaste => true
    case FromTableau(p, i) =>
      p < 7 &&
      var w := Unflipped(g.tableau[p], m);
      if m.destination == ToTableau(p) then
        n <= |w| && i <= |w| - n && h.tableau[p] == w[..|w| - n][..i] + m.cards + w[..|w| - n][i..]
      else i <= |w| && h.tableau[p] == w[..i] + m.cards + w[i..]
    case FromFoundation(p) =>
      p < 4 &&
      var f := g.foundations[p];
      if m.destination == ToFoundation(p) then n <= |f| && h.foundations[p] == f[..|f| - n] + m.cards
      else h.foundations[p] == f + m.cards
  }

  lemma UnflipPiles(g: GameState, m: Move)
    requires WellShaped(g) && SourceIndexOk(m)
    ensures Unflip(g, m).foundations == g.foundations
    ensures forall j :: 0 <= j < 7 && !(m.source.FromTableau? && m.source.pile == j) ==>
              Unflip(g, m).tableau[j] == g.tableau[j]
    ensures m.source.FromTableau? ==>
              Unflip(g, m).tableau[m.source.pile] == Unflipped(g.tableau[m.source.pile], m)
  {
  }

  lemma TakeBackPiles(u: GameState, m: Move)
    requires WellShaped(u) && DestinationHolds(u, m)
    ensures forall j :: 0 <= j < 7 && m.destination != ToTableau(j) ==> TakeBack(u, m).tableau[j] == u.tableau[j]
    ensures forall j :: 0 <= j < 4 && m.destination != ToFoundation(j) ==>
              TakeBack(u, m).foundations[j] == u.foundations[j]
    ensures m.destination.ToTableau? ==>
              var q := m.destination.pile;
              TakeBack(u, m).tableau[q] == u.tableau[q][..|u.tableau[q]| - |m.cards|]
    ensures m.destination.ToFoundation? ==>
              var q := m.destination.pile;
              TakeBack(u, m).foundations[q] == u.foundations[q][..|u.foundations[q]| - |m.cards|]
  {
  }

  lemma PutBackPiles(t: GameState, m: Move, snapshot: bool)
    requires WellShaped(t) && SourceIndexOk(m)
    requires m.source.FromTableau? ==> m.source.cardIndex <= |t.tableau[m.source.pile]|
    ensures forall j :: 0 <= j < 7 && !(m.source.FromTableau? && m.source.pile == j) ==>
              PutBack(t, m, snapshot).tableau[j] == t.tableau[j]
    ensures forall j :: 0 <= j < 4 && m.source != FromFoundation(j) ==>
              PutBack(t, m, snapshot).foundations[j] == t.foundations[j]
    ensures m.source.FromTableau? ==>
              var p, i := m.source.pile, m.source.cardIndex;
              PutBack(t, m, snapshot).tableau[p] == t.tableau[p][..i] + m.cards + t.tableau[p][i..]
    ensures m.source.FromFoundation? ==>
              var p := m.source.pile;
              PutBack(t, m, snapshot).foundations[p] == t.foundations[p] + m.cards
  {
  }

  /** The three undo steps, pile by pile. */
  lemma UndoStepsPiles(g: GameState, m: Move, snapshot: bool)
    requires WellShaped(g) && EntryFits(g, m)
    ensures PilesUndone(g, m, PutBack(TakeBack(Unflip(g, m), m), m, snapshot))
  {
    UndoStepsUntouched(g, m, snapshot);
    UndoStepsDestination(g, m, snapshot);
    UndoStepsSource(g, m, snapshot);
  }

  lemma UndoStepsUntouched(g: GameState, m: Move, snapshot: bool)
    requires WellShaped(g) && EntryFits(g, m)
    ensures UntouchedKept(g, m, PutBack(TakeBack(Unflip(g, m), m), m, snapshot))
  {
    var u := Unflip(g, m);
    UnflipPiles(g, m);
    TakeBackPiles(u, m);
    PutBackPiles(TakeBack(u, m), m, snapshot);
  }

  lemma UndoStepsDestination(g: GameState, m: Move, snapshot: bool)
    requires WellShaped(g) && EntryFits(g, m)
    ensures DestinationShrunk(g, m, PutBack(TakeBack(Unflip(g, m), m), m, snapshot))
  {
    var u := Unflip(g, m);
    UnflipPiles(g, m);
    TakeBackPiles(u, m);
    PutBackPiles(TakeBack(u, m), m, snapshot);
  }

  lemma UndoStepsSource(g: GameState, m: Move, snapshot: bool)
    requires WellShaped(g) && EntryFits(g, m)
    ensures SourceRefilled(g, m, PutBack(TakeBack(Unflip(g, m), m), m, snapshot))
  {
    match m.source {
      case FromWaste =>
      case FromTableau(p, i) => RefillTableau(g, m, snapshot);
      case FromFoundation(p) => RefillFoundation(g, m, snapshot);
    }
  }

  lemma RefillTableau(g: GameState, m: Move, snapshot: bool)
    requires WellShaped(g) && EntryFits(g, m) && m.source.FromTableau?
    ensures SourceRefilled(g, m, PutBack(TakeBack(Unflip(g, m), m), m, snapshot))
  {
    var p, i := m.source.pile, m.source.cardIndex;
    var u := Unflip(g, m);
    var t := TakeBack(u, m);
    var w := Unflipped(g.tableau[p], m);
    assert u.tableau[p] == w;
    if m.destination == ToTableau(p) {
      assert t.tableau[p] == w[..|w| - |m.cards|];
    } else {
      assert t.tableau[p] == w;
    }
    assert PutBack(t, m, snapshot).tableau[p] == t.tableau[p][..i] + m.cards + t.tableau[p][i..];
  }

  lemma RefillFoundation(g: GameState, m: Move, snapshot: bool)
    requires WellShaped(g) && EntryFits(g, m) && m.source.FromFoundation?
    ensures SourceRefilled(g, m, PutBack(TakeBack(Unflip(g, m), m), m, snapshot))
  {
    var p := m.source.pile;
    var u := Unflip(g, m);
    var t := TakeBack(u, m);
    assert u.foundations == g.foundations;
    var f := g.foundations[p];
    if m.destination == ToFoundation(p) {
      assert t.foundations[p] == f[..|f| - |m.cards|];
    } else {
      assert t.foundations[p] == f;
    }
    assert PutBack(t, m, snapshot).foundations[p] == t.foundations[p] + m.cards;
  }

  /** The piles after undoing entry `m`: turn the flipped card back down,
      take the cards off the destination and put them back on the source.
      Only the piles change. */
  function UndoPiles(g: GameState, m: Move, snapshot: bool): (h: GameState)
    requires WellShaped(g) && EntryFits(g, m)
    ensures WellShaped(h) && PilesUndone(g, m, h)
    ensures h == g.(tableau := h.tableau, foundations := h.foundations, waste := h.waste)
    ensures !m.source.FromWaste? ==> h.waste == g.waste
  {
    UndoStepsPiles(g, m, snapshot);
    PutBack(TakeBack(Unflip(g, m), m), m, snapshot)
  }

  function UndoWith(s: Session, snapshot: bool): (r: Session)
    requires UndoReady(s)
    ensures WellShaped(r.game)
    ensures |s.undoStack| > 0 ==> PilesUndone(s.game, Last(s.undoStack), r.game)
    ensures r.game == s.game.(tableau := r.game.tableau, foundations := r.game.foundations,
                              waste := r.game.waste, moveCount := r.game.moveCount)
    ensures |s.undoStack| > 0 && !Last(s.undoStack).source.FromWaste? ==> r.game.waste == s.game.waste
  {
    if |s.undoStack| == 0 then s
    else
      var m := Last(s.undoStack);
      var g := UndoPiles(s.game, m, snapshot);
      Session(g.(moveCount := if s.game.moveCount - 1 > 0 then s.game.moveCount - 1 else 0),
              s.undoStack[..|s.undoStack| - 1], None)
  }

  /** `undo()` as shipped: a waste-sourced entry restores the waste from its snapshot. */
  function Undo(s: Session): (r: Session)
    requires UndoReady(s)
    ensures |s.undoStack| == 0 ==> r == s
    ensures |s.undoStack| > 0 ==> r.undoStack == s.undoStack[..|s.undoStack| - 1] && r.selected == None
    ensures |s.undoStack| > 0 ==> r.game.moveCount == (if s.game.moveCount >= 1 then s.game.moveCount - 1 else 0)
    ensures |s.undoStack| > 0 && Last(s.undoStack).source.FromWaste? ==>
              r.game.waste == Last(s.undoStack).previousWaste
    ensures r.game.stock == s.game.stock && r.game.isWon == s.game.isWon
    ensures WellShaped(r.game)
    ensures |s.undoStack| > 0 ==> PilesUndone(s.game, Last(s.undoStack), r.game)
    ensures r.game == s.game.(tableau := r.game.tableau, foundations := r.game.foundations,
                              waste := r.game.waste, moveCount := r.game.moveCount)
    ensures |s.undoStack| > 0 && !Last(s.undoStack).source.FromWaste? ==> r.game.waste == s.game.waste
  {
    UndoWith(s, true)
  }

  /** `undo()` with the waste restored by appending the moved card back. */
  function UndoFixed(s: Session): (r: Session)
    requires UndoReady(s)
    ensures |s.undoStack| == 0 ==> r == s
    ensures |s.undoStack| > 0 ==> r.undoStack == s.undoStack[..|s.undoStack| - 1] && r.selected == None
    ensures |s.undoStack| > 0 ==> r.game.moveCount == (if s.game.moveCount >= 1 then s.game.moveCount - 1 else 0)
    ensures |s.undoStack| > 0 && Last(s.undoStack).source.FromWaste? ==>
              r.game.waste == s.game.waste + Last(s.undoStack).cards
    ensures r.game.stock == s.game.stock && r.game.isWon == s.game.isWon
    ensures WellShaped(r.game)
    ensures |s.undoStack| > 0 ==> PilesUndone(s.game, Last(s.undoStack), r.game)
    ensures r.game == s.game.(tableau := r.game.tableau, foundations := r.game.foundations,
                              waste := r.game.waste, moveCount := r.game.moveCount)
    ensures |s.undoStack| > 0 && !Last(s.undoStack).source.FromWaste? ==> r.game.waste == s.game.waste
  {
    UndoWith(s, false)
  }

  // ---------------------------------------------------------------------
  // Tap selection

  /** `topCardForSource`: for a tableau source the card at the given index. */
  function TopCardForSource(g: GameState, src: MoveSource): (c: Option<Card>)
    requires WellShaped(g) && (src.FromFoundation? ==> src.pile < 4)
    ensures c.Some? <==> SourceReady(g, src)
    ensures c.Some? ==> c.value == Run(g, src)[0]
  {
    match src
    case FromWaste => Top(g.waste)
    case FromTableau(p, i) => if p < 7 && i < |g.tableau[p]| then Some(g.tableau[p][i]) else None
    case FromFoundation(p) => Top(g.foundations[p])
  }

  /** `destinationFromTap`: the pile a tap names, if it can receive cards. */
  function DestinationFromTap(src: MoveSource): (d: Option<MoveDestination>)
    ensures d.None? <==> src.FromWaste?
    ensures src.FromTableau? ==> d == Some(ToTableau(src.pile))
    ensures src.FromFoundation? ==> d == Some(ToFoundation(src.pile))
  {
    match src
    case FromTableau(p, _) => Some(ToTableau(p))
    case FromFoundation(p) => Some(ToFoundation(p))
    case FromWaste => None
  }

  /** Would foundation pile `f` take `card` (the test `tryAutoFoundation` and `autoComplete` make)? */
  predicate FoundationTakes(card: Card, f: seq<Card>) {
    && CanStackOnFoundation(card, Top(f))
    && (|f| == 0 || f[|f| - 1].suit == card.suit)
  }

  /** The first foundation, scanning from index `from` up to 3, that takes `card`. */
  function FirstFoundationFor(g: GameState, card: Card, from: nat): (q: Option<nat>)
    requires WellShaped(g)
    ensures q.Some? ==> from <= q.value < 4 && FoundationTakes(card, g.foundations[q.value])
    ensures q.Some? ==> forall j :: from <= j < q.value ==> !FoundationTakes(card, g.foundations[j])
    ensures q.None? ==> forall j :: from <= j < 4 ==> !FoundationTakes(card, g.foundations[j])
    decreases 4 - from
  {
    if from >= 4 then None
    else if FoundationTakes(card, g.foundations[from]) then Some(from)
    else FirstFoundationFor(g, card, from + 1)
  }

  /** `tryAutoFoundation(from:)`: move the source's card to the first
      foundation that takes it; the move can still fail if the source names a
      card that is not the top of its pile. */
  function TryAutoFoundation(s: Session, src: MoveSource): (res: MoveResult)
    requires WellShaped(s.game) && (src.FromFoundation? ==> src.pile < 4)
    ensures WellShaped(res.after.game)
    ensures !res.moved ==> res.after == s
    ensures res.moved ==> exists q :: 0 <= q < 4 && res == ExecuteMove(s, src, ToFoundation(q))
    ensures res.moved ==> |res.after.undoStack| == |s.undoStack| + 1
    ensures TopCardForSource(s.game, src).None? ==> res == MoveResult(false, s)
    ensures TopCardForSource(s.game, src).Some? ==>
              var q := FirstFoundationFor(s.game, TopCardForSource(s.game, src).value, 0);
              && (q.None? ==> res == MoveResult(false, s))
              && (q.Some? ==> res == ExecuteMove(s, src, ToFoundation(q.value)))
  {
    match TopCardForSource(s.game, src)
    case None => MoveResult(false, s)
    case Some(card) =>
      match FirstFoundationFor(s.game, card, 0)
      case None => MoveResult(false, s)
      case Some(q) => ExecuteMove(s, src, ToFoundation(q))
  }

  /** A tap or selection that indexes piles in range. */
  predicate TapOk(src: MoveSource) {
    && (src.FromTableau? ==> src.pile < 7)
    && (src.FromFoundation? ==> src.pile < 4)
  }

  /** `tapCard(source:)`: the first tap selects; tapping the selection again
      tries the foundations and clears it; tapping another pile tries to move
      the selection there, and selects the tapped card when that fails or
      when the waste was tapped. */
  function TapCard(s: Session, src: MoveSource): (r: Session)
    requires WellShaped(s.game) && TapOk(src)
    requires s.selected.Some? ==> TapOk(s.selected.value)
    ensures WellShaped(r.game)
    ensures r.selected.Some? ==> TapOk(r.selected.value)
    ensures s.game.isWon ==> r == s
    ensures !s.game.isWon && s.selected.None? ==> r == s.(selected := Some(src))
    ensures !s.game.isWon && s.selected == Some(src) ==>
              r.selected == None && (r.game == s.game || |r.undoStack| == |s.undoStack| + 1)
    ensures !s.game.isWon && s.selected.Some? && s.selected != Some(src) && src.FromWaste? ==>
              r == s.(selected := Some(src))
    ensures !s.game.isWon && s.selected.Some? && s.selected != Some(src) ==>
              || r == s.(selected := Some(src))
              || (r.selected == None && |r.undoStack| == |s.undoStack| + 1)
    ensures !s.game.isWon && s.selected == Some(src) ==> r == TryAutoFoundation(s, src).after.(selected := None)
    ensures !s.game.isWon && s.selected.Some? && s.selected != Some(src) && !src.FromWaste? ==>
              var d := DestinationFromTap(src).value;
              && (ExecuteMove(s, s.selected.value, d).moved ==> r == ExecuteMove(s, s.selected.value, d).after.(selected := None))
              && (!ExecuteMove(s, s.selected.value, d).moved ==> r == s.(selected := Some(src)))
    ensures r.undoStack == s.undoStack || (|s.undoStack| < |r.undoStack| && r.undoStack[..|s.undoStack|] == s.undoStack)
  {
    if s.game.isWon then s
    else match s.selected
      case None => s.(selected := Some(src))
      case Some(sel) =>
        if sel == src then TryAutoFoundation(s, src).after.(selected := None)
        else match DestinationFromTap(src)
          case None => s.(selected := Some(src))
          case Some(dst) =>
            var res := ExecuteMove(s, sel, dst);
            if res.moved then res.after.(selected := None) else s.(selected := Some(src))
  }

  /** `doubleTapCard(source:)`: clear the selection and try the foundations. */
  function DoubleTapCard(s: Session, src: MoveSource): (r: Session)
    requires WellShaped(s.game) && TapOk(src)
    ensures s.game.isWon ==> r == s
    ensures !s.game.isWon ==> r.selected == None
    ensures !s.game.isWon ==> r.game == s.game || |r.undoStack| == |s.undoStack| + 1
    ensures !s.game.isWon ==> r == TryAutoFoundation(s.(selected := None), src).after
  {
    if s.game.isWon then s else TryAutoFoundation(s.(selected := None), src).after
  }

  /** A lone top card that some foundation takes always moves, and it goes
      to the first foundation (by index) that takes it. */
  lemma AutoFoundationMovesLoneCard(s: Session, src: MoveSource)
    requires WellShaped(s.game) && (src.FromFoundation? ==> src.pile < 4)
    requires SourceReady(s.game, src) && |Run(s.game, src)| == 1
    requires exists j :: 0 <= j < 4 && FoundationTakes(Run(s.game, src)[0], s.game.foundations[j])
    ensures TryAutoFoundation(s, src).moved
    ensures exists q :: && 0 <= q < 4 && FoundationTakes(Run(s.game, src)[0], s.game.foundations[q])
                        && (forall j :: 0 <= j < q ==> !FoundationTakes(Run(s.game, src)[0], s.game.foundations[j]))
                        && TryAutoFoundation(s, src) == ExecuteMove(s, src, ToFoundation(q))
  {
    var card := Run(s.game, src)[0];
    var q := FirstFoundationFor(s.game, card, 0);
    assert q.Some?;
    assert Accepts(s.game, Run(s.game, src), ToFoundation(q.value));
  }

  /** Tapping a card and then tapping it again does what a double tap does. */
  lemma TapTwiceIsDoubleTap(s: Session, src: MoveSource)
    requires WellShaped(s.game) && TapOk(src) && s.selected.None?
    ensures TapCard(TapCard(s, src), src) == DoubleTapCard(s, src)
  {
    if !s.game.isWon {
      var once := TapCard(s, src);
      assert once == s.(selected := Some(src));
      var res := TryAutoFoundation(once, src);
      if res.moved {
        var q :| 0 <= q < 4 && res == ExecuteMove(once, src, ToFoundation(q));
        SelectionIrrelevant(s, Some(src), src, ToFoundation(q));
      }
    }
  }

  /** Selecting a source and then tapping a pile that accepts its run makes
      exactly that move and clears the selection. */
  lemma TapThenTapMoves(s: Session, sel: MoveSource, src: MoveSource)
    requires WellShaped(s.game) && TapOk(sel) && TapOk(src) && s.selected.None? && !s.game.isWon
    requires sel != src && DestinationFromTap(src).Some?
    requires SourceReady(s.game, sel) && Accepts(s.game, Run(s.game, sel), DestinationFromTap(src).value)
    ensures TapCard(TapCard(s, sel), src) == ExecuteMove(s, sel, DestinationFromTap(src).value).after
    ensures |TapCard(TapCard(s, sel), src).undoStack| == |s.undoStack| + 1
  {
    SelectionIrrelevant(s, Some(sel), sel, DestinationFromTap(src).value);
  }

  /** `executeMove` does not look at the selection and leaves it as it was. */
  lemma SelectionIrrelevant(s: Session, selected: Option<MoveSource>, src: MoveSource, dst: MoveDestination)
    requires WellShaped(s.game) && IndicesOk(src, dst)
    ensures ExecuteMove(s.(selected := selected), src, dst).moved == ExecuteMove(s, src, dst).moved
    ensures ExecuteMove(s.(selected := selected), src, dst).after
            == ExecuteMove(s, src, dst).after.(selected := selected)
  {
  }

  // ---------------------------------------------------------------------
  // Auto-complete

  /** `canAutoComplete`: every tableau card face-up and the stock empty. */
  predicate CanAutoComplete(g: GameState) {
    (forall p :: 0 <= p < |g.tableau| ==> forall i :: 0 <= i < |g.tableau[p]| ==> g.tableau[p][i].faceUp)
    && |g.stock| == 0
  }

  /** The foundation the waste top would go to, if any: the lowest-numbered one that takes it. */
  function WasteTarget(g: GameState): (q: Option<nat>)
    requires WellShaped(g)
    ensures q.Some? ==> |g.waste| > 0 && q.value < 4 && FoundationTakes(g.waste[|g.waste| - 1], g.foundations[q.value])
    ensures q.Some? ==> forall j :: 0 <= j < q.value ==> !FoundationTakes(g.waste[|g.waste| - 1], g.foundations[j])
    ensures q.None? && |g.waste| > 0 ==> forall j :: 0 <= j < 4 ==> !FoundationTakes(g.waste[|g.waste| - 1], g.foundations[j])
  {
    if |g.waste| == 0 then None else FirstFoundationFor(g, g.waste[|g.waste| - 1], 0)
  }

  /** The tableau half of one auto-complete pass: piles are scanned in
      order, empty ones skipped; the first pile whose top some foundation
      takes is moved. When the waste already moved in this pass the scan
      stops after the first non-empty pile. */
  function TableauTarget(g: GameState, from: nat, wasteMoved: bool): (t: Option<(nat, nat)>)
    requires WellShaped(g)
    ensures t.Some? ==>
              && from <= t.value.0 < 7 && t.value.1 < 4 && |g.tableau[t.value.0]| > 0
              && FoundationTakes(g.tableau[t.value.0][|g.tableau[t.value.0]| - 1], g.foundations[t.value.1])
    ensures t.Some? ==>
              forall j :: 0 <= j < t.value.1 ==>
                !FoundationTakes(g.tableau[t.value.0][|g.tableau[t.value.0]| - 1], g.foundations[j])
    ensures t.Some? ==> TopsUntaken(g, from, t.value.0)
    ensures t.Some? && wasteMoved ==> AllEmpty(g, from, t.value.0)
    ensures t.None? && !wasteMoved ==> TopsUntaken(g, from, 7)
    ensures t.None? && wasteMoved ==> FirstNonEmptyUntaken(g, from)
    decreases 7 - from
  {
    if from >= 7 then None
    else if |g.tableau[from]| == 0 then
      var t := TableauTarget(g, from + 1, wasteMoved);
      EmptySkipped(g, from, if t.Some? then t.value.0 else 7);
      t
    else match FirstFoundationFor(g, g.tableau[from][|g.tableau[from]| - 1], 0)
      case Some(q) => Some((from, q))
      case None =>
        if wasteMoved then
          assert FirstNonEmptyUntaken(g, from) by {
            forall p | from < p < 7 ensures !AllEmpty(g, from, p) { assert |g.tableau[from]| > 0; }
          }
          None
        else
          var t := TableauTarget(g, from + 1, wasteMoved);
          UntakenSkipped(g, from, if t.Some? then t.value.0 else 7);
          t
  }

  /** No non-empty pile in `[lo, hi)` has a top card some foundation takes. */
  predicate TopsUntaken(g: GameState, lo: nat, hi: nat)
    requires WellShaped(g) && hi <= 7
  {
    forall p, j :: lo <= p < hi && 0 <= j < 4 && |g.tableau[p]| > 0 ==>
      !FoundationTakes(g.tableau[p][|g.tableau[p]| - 1], g.foundations[j])
  }

  /** Every pile in `[lo, hi)` is empty. */
  predicate AllEmpty(g: GameState, lo: nat, hi: nat)
    requires WellShaped(g) && hi <= 7
  {
    forall k :: lo <= k < hi ==> |g.tableau[k]| == 0
  }

  /** The first non-empty pile at or after `from`, if there is one, has a
      top card no foundation takes. */
  predicate FirstNonEmptyUntaken(g: GameState, from: nat)
    requires WellShaped(g)
  {
    forall p, j :: from <= p < 7 && 0 <= j < 4 && |g.tableau[p]| > 0 && AllEmpty(g, from, p) ==>
      !FoundationTakes(g.tableau[p][|g.tableau[p]| - 1], g.foundations[j])
  }

  /** The scan steps over an empty pile without changing any of its facts. */
  lemma EmptySkipped(g: GameState, from: nat, hi: nat)
    requires WellShaped(g) && from < 7 && from < hi <= 7 && |g.tableau[from]| == 0
    ensures TopsUntaken(g, from + 1, hi) ==> TopsUntaken(g, from, hi)
    ensures AllEmpty(g, from + 1, hi) ==> AllEmpty(g, from, hi)
    ensures FirstNonEmptyUntaken(g, from + 1) ==> FirstNonEmptyUntaken(g, from)
  {
    forall p | from < p < 7 && AllEmpty(g, from, p) ensures AllEmpty(g, from + 1, p) { }
  }

  /** The scan steps over a non-empty pile whose top card no foundation takes. */
  lemma UntakenSkipped(g: GameState, from: nat, hi: nat)
    requires WellShaped(g) && from < 7 && from < hi <= 7 && |g.tableau[from]| > 0
    requires forall j :: 0 <= j < 4 ==> !FoundationTakes(g.tableau[from][|g.tableau[from]| - 1], g.foundations[j])
    ensures TopsUntaken(g, from + 1, hi) ==> TopsUntaken(g, from, hi)
  {
  }

  /** No waste or tableau top card can go to a foundation. */
  ghost predicate NoFoundationMove(g: GameState)
    requires WellShaped(g)
  {
    && (|g.waste| > 0 ==> forall j :: 0 <= j < 4 ==> !FoundationTakes(g.waste[|g.waste| - 1], g.foundations[j]))
    && (forall p, j :: 0 <= p < 7 && 0 <= j < 4 && |g.tableau[p]| > 0 ==>
          !FoundationTakes(g.tableau[p][|g.tableau[p]| - 1], g.foundations[j]))
  }

  /** A foundation move of a top card the scan found is always accepted, and
      it takes exactly one card out of play. */
  lemma FoundationStepSucceeds(s: Session, src: MoveSource, q: nat)
    requires WellShaped(s.game) && q < 4 && !src.FromFoundation?
    requires src.FromWaste? ==> |s.game.waste| > 0
    requires src.FromTableau? ==> src.pile < 7 && src.cardIndex + 1 == |s.game.tableau[src.pile]|
    requires FoundationTakes(Run(s.game, src)[0], s.game.foundations[q])
    ensures ExecuteMove(s, src, ToFoundation(q)).moved
    ensures var h := ExecuteMove(s, src, ToFoundation(q)).after.game;
            && CardsInPlay(h) + 1 == CardsInPlay(s.game)
            && FoundationTotal(h) == FoundationTotal(s.game) + 1
            && h.stock == s.game.stock
  {
    var g := s.game;
    var run := Run(g, src);
    var lifted := Lift(g, src);
    var placed := Place(lifted, ToFoundation(q), run);
    assert |run| == 1;
    assert Accepts(g, run, ToFoundation(q));
    var h := ExecuteMove(s, src, ToFoundation(q)).after.game;
    assert h.tableau == AutoFlip(placed, src).tableau && h.waste == placed.waste
        && h.stock == placed.stock && h.foundations == placed.foundations;
    LiftCounts(g, src);
    PlaceCounts(lifted, q, run);
    FlipCounts(placed, src);
  }

  /** Lifting a single card off the waste or a tableau pile takes one card
      out of play and leaves the foundations alone. */
  lemma LiftCounts(g: GameState, src: MoveSource)
    requires WellShaped(g) && !src.FromFoundation? && SourceReady(g, src) && |Run(g, src)| == 1
    ensures CardsInPlay(Lift(g, src)) + 1 == CardsInPlay(g)
    ensures Lift(g, src).foundations == g.foundations && Lift(g, src).stock == g.stock
  {
    if src.FromTableau? {
      SumSizesUpdate(g.tableau, src.pile, g.tableau[src.pile][..src.cardIndex]);
    }
  }

  lemma PlaceCounts(g: GameState, q: nat, run: seq<Card>)
    requires WellShaped(g) && q < 4
    ensures FoundationTotal(Place(g, ToFoundation(q), run)) == FoundationTotal(g) + |run|
    ensures CardsInPlay(Place(g, ToFoundation(q), run)) == CardsInPlay(g)
    ensures Place(g, ToFoundation(q), run).stock == g.stock
  {
    SumSizesUpdate(g.foundations, q, g.foundations[q] + run);
  }

  lemma FlipCounts(g: GameState, src: MoveSource)
    requires WellShaped(g)
    ensures CardsInPlay(AutoFlip(g, src)) == CardsInPlay(g)
    ensures AutoFlip(g, src).foundations == g.foundations && AutoFlip(g, src).stock == g.stock
  {
    if ExposedFaceDown(g, src) {
      SumSizesUpdate(g.tableau, src.pile, SetTopFace(g.tableau[src.pile], true));
    }
  }

  lemma {:induction false} SumSizesUpdate(ps: seq<seq<Card>>, i: nat, p: seq<Card>)
    requires i < |ps|
    ensures SumSizes(ps[i := p]) + |ps[i]| == SumSizes(ps) + |p|
  {
    SumSizesIsFlattenLength(ps);
    SumSizesIsFlattenLength(ps[i := p]);
    FlattenUpdateSize(ps, i, p);
  }

  /** `autoComplete()`: only when every tableau card is face-up and the stock
      is empty, repeatedly move the waste top and then a tableau top to a
      foundation until a whole pass moves nothing. Each productive pass takes
      at least one card out of play, which bounds the loop. On return no waste
      or tableau top card can go to a foundation, every move made is on the
      undo stack, and no card was lost. */
  method AutoComplete(s: Session) returns (r: Session)
    requires WellShaped(s.game)
    ensures WellShaped(r.game)
    ensures !CanAutoComplete(s.game) ==> r == s
    ensures CanAutoComplete(s.game) ==> NoFoundationMove(r.game)
    ensures r.game.stock == s.game.stock
    ensures FoundationTotal(r.game) >= FoundationTotal(s.game)
    ensures |r.undoStack| == |s.undoStack| + (FoundationTotal(r.game) - FoundationTotal(s.game))
    ensures r.undoStack[..|s.undoStack|] == s.undoStack
    ensures r.game.moveCount == s.game.moveCount + (FoundationTotal(r.game) - FoundationTotal(s.game))
    ensures r.game.isWon <==> s.game.isWon || FoundationTotal(s.game) < 52 <= FoundationTotal(r.game)
    ensures r.selected == s.selected
    ensures r.game == s.game.(tableau := r.game.tableau, foundations := r.game.foundations, waste := r.game.waste,
                              moveCount := r.game.moveCount, isWon := r.game.isWon)
    ensures SameCards(AllCards(r.game), AllCards(s.game))
  {
    if !CanAutoComplete(s.game) {
      return s;
    }
    r := s;
    var madeMove := true;
    while madeMove
      invariant WellShaped(r.game) && Progressed(s, r)
      invariant !madeMove ==> NoFoundationMove(r.game)
      decreases CardsInPlay(r.game), madeMove
    {
      madeMove := false;
      var start := r;
      var w := WasteTarget(r.game);
      if w.Some? {
        r := FoundationStep(s, r, FromWaste, w.value);
        madeMove := true;
      }
      var t := TableauTarget(r.game, 0, madeMove);
      if t.Some? {
        var p, q := t.value.0, t.value.1;
        r := FoundationStep(s, r, FromTableau(p, |r.game.tableau[p]| - 1), q);
        madeMove := true;
      }
      if !madeMove {
        assert r == start;
      }
    }
  }

  /** What auto-complete has done to `s` so far: only foundation moves, each
      pushing one entry, counting one move and checking for a win. */
  ghost predicate Progressed(s: Session, r: Session)
    requires WellShaped(s.game) && WellShaped(r.game)
  {
    && FoundationTotal(r.game) >= FoundationTotal(s.game)
    && |r.undoStack| == |s.undoStack| + (FoundationTotal(r.game) - FoundationTotal(s.game))
    && r.undoStack[..|s.undoStack|] == s.undoStack
    && r.game.moveCount == s.game.moveCount + (FoundationTotal(r.game) - FoundationTotal(s.game))
    && (r.game.isWon <==> s.game.isWon || FoundationTotal(s.game) < 52 <= FoundationTotal(r.game))
    && r.selected == s.selected
    && r.game == s.game.(tableau := r.game.tableau, foundations := r.game.foundations, waste := r.game.waste,
                         moveCount := r.game.moveCount, isWon := r.game.isWon)
    && SameCards(AllCards(r.game), AllCards(s.game))
  }

  /** One card moved to a foundation by the auto-complete pass: the move is
      accepted, takes one card out of play and keeps `Progressed`. */
  method FoundationStep(s: Session, r: Session, src: MoveSource, q: nat) returns (r': Session)
    requires WellShaped(s.game) && WellShaped(r.game) && Progressed(s, r)
    requires q < 4 && !src.FromFoundation?
    requires src.FromWaste? ==> |r.game.waste| > 0
    requires src.FromTableau? ==> src.pile < 7 && src.cardIndex + 1 == |r.game.tableau[src.pile]|
    requires FoundationTakes(Run(r.game, src)[0], r.game.foundations[q])
    ensures WellShaped(r'.game) && Progressed(s, r')
    ensures r' == ExecuteMove(r, src, ToFoundation(q)).after
    ensures CardsInPlay(r'.game) + 1 == CardsInPlay(r.game)
  {
    FoundationStepSucceeds(r, src, q);
    ExecuteMoveConserves(r, src, ToFoundation(q));
    r' := ExecuteMove(r, src, ToFoundation(q)).after;
    assert r'.undoStack[..|s.undoStack|] == r.undoStack[..|r.undoStack|][..|s.undoStack|];
  }

  // ---------------------------------------------------------------------
  // Conservation

  lemma PlaceKeys(g: GameState, dst: MoveDestination, run: seq<Card>)
    requires WellShaped(g) && IndicesOk(FromWaste, dst)
    ensures Keys(AllCards(Place(g, dst, run))) == Keys(AllCards(g)) + Keys(run)
  {
    var h := Place(g, dst, run);
    AllCardsKeys(g);
    AllCardsKeys(h);
    match dst {
      case ToTableau(q) =>
        FlattenUpdateKeys(g.tableau, q, g.tableau[q] + run);
        KeysAppend(g.tableau[q], run);
        MultisetCancel(Keys(Flatten(h.tableau)), Keys(g.tableau[q]), Keys(Flatten(g.tableau)) + Keys(run));
      case ToFoundation(q) =>
        FlattenUpdateKeys(g.foundations, q, g.foundations[q] + run);
        KeysAppend(g.foundations[q], run);
        MultisetCancel(Keys(Flatten(h.foundations)), Keys(g.foundations[q]),
                       Keys(Flatten(g.foundations)) + Keys(run));
    }
  }

  lemma LiftKeys(g: GameState, src: MoveSource)
    requires WellShaped(g) && (src.FromFoundation? ==> src.pile < 4) && SourceReady(g, src)
    ensures Keys(AllCards(Lift(g, src))) + Keys(Run(g, src)) == Keys(AllCards(g))
  {
    match src {
      case FromWaste => LiftWasteKeys(g);
      case FromTableau(p, i) => LiftTableauKeys(g, p, i);
      case FromFoundation(p) => LiftFoundationKeys(g, p);
    }
  }

  lemma LiftWasteKeys(g: GameState)
    requires WellShaped(g) && |g.waste| > 0
    ensures Keys(AllCards(Lift(g, FromWaste))) + Keys(Run(g, FromWaste)) == Keys(AllCards(g))
  {
    var h := Lift(g, FromWaste);
    var run := Run(g, FromWaste);
    var rest := Keys(Flatten(g.tableau)) + Keys(Flatten(g.foundations));
    AllCardsKeys(g);
    AllCardsKeys(h);
    assert Keys(AllCards(h)) == Keys(g.stock) + Keys(h.waste) + rest;
    assert Keys(AllCards(g)) == Keys(g.stock) + Keys(g.waste) + rest;
    KeysAppend(h.waste, run);
    MultisetRegroup(Keys(g.stock) + rest, Keys(h.waste), Keys(g.waste), Keys(run));
  }

  lemma LiftTableauKeys(g: GameState, p: nat, i: nat)
    requires WellShaped(g) && p < 7 && i < |g.tableau[p]|
    ensures Keys(AllCards(Lift(g, FromTableau(p, i)))) + Keys(Run(g, FromTableau(p, i))) == Keys(AllCards(g))
  {
    var h := Lift(g, FromTableau(p, i));
    var run := Run(g, FromTableau(p, i));
    var outer := Keys(g.stock) + Keys(g.waste) + Keys(Flatten(g.foundations));
    AllCardsKeys(g);
    AllCardsKeys(h);
    assert Keys(AllCards(h)) == outer + Keys(Flatten(h.tableau));
    assert Keys(AllCards(g)) == outer + Keys(Flatten(g.tableau));
    CutPileKeys(g.tableau, p, g.tableau[p][..i], run);
    MultisetRegroup(outer, Keys(Flatten(h.tableau)), Keys(Flatten(g.tableau)), Keys(run));
  }

  lemma LiftFoundationKeys(g: GameState, p: nat)
    requires WellShaped(g) && p < 4 && |g.foundations[p]| > 0
    ensures Keys(AllCards(Lift(g, FromFoundation(p)))) + Keys(Run(g, FromFoundation(p))) == Keys(AllCards(g))
  {
    var h := Lift(g, FromFoundation(p));
    var run := Run(g, FromFoundation(p));
    var front := Keys(g.stock) + Keys(g.waste) + Keys(Flatten(g.tableau));
    AllCardsKeys(g);
    AllCardsKeys(h);
    assert Keys(AllCards(h)) == front + Keys(Flatten(h.foundations));
    CutPileKeys(g.foundations, p, h.foundations[p], run);
    MultisetRegroup(front, Keys(Flatten(h.foundations)), Keys(Flatten(g.foundations)), Keys(run));
  }

  lemma AutoFlipKeys(g: GameState, src: MoveSource)
    requires WellShaped(g)
    ensures Keys(AllCards(AutoFlip(g, src))) == Keys(AllCards(g))
  {
    if ExposedFaceDown(g, src) {
      var h := AutoFlip(g, src);
      var p := src.pile;
      AllCardsKeys(g);
      AllCardsKeys(h);
      FlattenUpdateKeys(g.tableau, p, h.tableau[p]);
      MultisetCancel(Keys(Flatten(h.tableau)), Keys(g.tableau[p]), Keys(Flatten(g.tableau)));
    }
  }

  /** A move never creates, loses or duplicates a card. */
  lemma ExecuteMoveConserves(s: Session, src: MoveSource, dst: MoveDestination)
    requires WellShaped(s.game) && IndicesOk(src, dst)
    ensures SameCards(AllCards(ExecuteMove(s, src, dst).after.game), AllCards(s.game))
    ensures Conserved(s.game) ==> Conserved(ExecuteMove(s, src, dst).after.game)
  {
    var g := s.game;
    if SourceReady(g, src) && Accepts(g, Run(g, src), dst) {
      var run := Run(g, src);
      var lifted := Lift(g, src);
      var placed := Place(lifted, dst, run);
      LiftKeys(g, src);
      PlaceKeys(lifted, dst, run);
      AutoFlipKeys(placed, src);
      var h := ExecuteMove(s, src, dst).after.game;
      assert AllCards(h) == AllCards(AutoFlip(placed, src));
    }
  }
}

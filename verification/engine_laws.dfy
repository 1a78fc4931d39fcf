/** Laws of the engine: what a move does to the piles, that undo reverses
    it, that the orientation and foundation-order invariants survive moves,
    when the game counts as won, and the waste-snapshot defect of the
    shipped undo next to the append-based repair. */
module EngineLaws {
  import opened Cards
  import opened Piles
  import opened GameModel
  import opened Engine

  /** The four card-holding parts agree. */
  ghost predicate SamePiles(a: GameState, b: GameState) {
    a.tableau == b.tableau && a.foundations == b.foundations && a.waste == b.waste && a.stock == b.stock
  }

  /** The state an accepted move has produced before the flip, win check and count. */
  function Placed(g: GameState, src: MoveSource, dst: MoveDestination): (h: GameState)
    requires WellShaped(g) && IndicesOk(src, dst) && SourceReady(g, src)
    ensures WellShaped(h)
  {
    Place(Lift(g, src), dst, Run(g, src))
  }

  lemma AfterIsPlaced(s: Session, src: MoveSource, dst: MoveDestination)
    requires WellShaped(s.game) && IndicesOk(src, dst) && ExecuteMove(s, src, dst).moved
    ensures var r := ExecuteMove(s, src, dst).after;
            && SourceReady(s.game, src)
            && r.game.tableau == AutoFlip(Placed(s.game, src, dst), src).tableau
            && r.game.foundations == Placed(s.game, src, dst).foundations
            && r.game.waste == Placed(s.game, src, dst).waste
            && r.game.stock == s.game.stock
            && r.undoStack[|s.undoStack|].flippedCard == ExposedFaceDown(Placed(s.game, src, dst), src)
  {
  }

  // ---------------------------------------------------------------------
  // Where the run goes

  /** An accepted move between two different piles puts the run on top of the
      destination, leaves the source holding what was under the run (its new
      top turned face-up exactly when it was face-down, which the undo entry
      records), and touches no other pile. */
  lemma MoveRelocatesRun(s: Session, src: MoveSource, dst: MoveDestination, q: nat)
    requires WellShaped(s.game) && IndicesOk(src, dst) && ExecuteMove(s, src, dst).moved
    requires src.FromTableau? && dst.ToTableau? ==> src.pile != dst.pile
    ensures var g, r := s.game, ExecuteMove(s, src, dst).after;
            var run := Run(g, src);
            && (dst.ToTableau? ==> r.game.tableau[dst.pile] == g.tableau[dst.pile] + run)
            && (dst.ToFoundation? ==> r.game.foundations[dst.pile] == g.foundations[dst.pile] + run)
            && (src.FromWaste? ==> g.waste == r.game.waste + run)
            && (!src.FromWaste? ==> r.game.waste == g.waste)
            && (src.FromFoundation? ==> g.foundations[src.pile] == r.game.foundations[src.pile] + run)
            && (src.FromTableau? ==>
                  var p, i := src.pile, src.cardIndex;
                  && (r.undoStack[|s.undoStack|].flippedCard <==> i > 0 && !g.tableau[p][i - 1].faceUp)
                  && r.game.tableau[p]
                     == (if i > 0 && !g.tableau[p][i - 1].faceUp
                         then SetTopFace(g.tableau[p][..i], true) else g.tableau[p][..i]))
            && (q < 7 && !(src.FromTableau? && src.pile == q) && dst != ToTableau(q) ==>
                  r.game.tableau[q] == g.tableau[q])
            && (q < 4 && src != FromFoundation(q) && dst != ToFoundation(q) ==>
                  r.game.foundations[q] == g.foundations[q])
  {
    AfterIsPlaced(s, src, dst);
  }

  // ---------------------------------------------------------------------
  // Undo reverses a move

  lemma UnflipUndoesAutoFlip(u: GameState, placed: GameState, m: Move)
    requires WellShaped(u) && WellShaped(placed)
    requires m.source.FromTableau? ==> m.source.pile < 7
    requires u.tableau == AutoFlip(placed, m.source).tableau && u.foundations == placed.foundations
    requires m.flippedCard == ExposedFaceDown(placed, m.source)
    ensures Unflip(u, m).tableau == placed.tableau && Unflip(u, m).foundations == placed.foundations
  {
    if m.flippedCard {
      var p := m.source.pile;
      var pile := placed.tableau[p];
      var back := SetTopFace(SetTopFace(pile, true), false);
      assert back == pile by {
        assert back[..|pile| - 1] == pile[..|pile| - 1];
        assert pile == pile[..|pile| - 1] + [pile[|pile| - 1]];
        assert back == back[..|pile| - 1] + [back[|pile| - 1]];
      }
      assert u.tableau[p := back] == placed.tableau;
    }
  }

  lemma TakeBackUndoesPlace(u: GameState, lifted: GameState, m: Move)
    requires WellShaped(u) && WellShaped(lifted) && IndicesOk(FromWaste, m.destination)
    requires u.tableau == Place(lifted, m.destination, m.cards).tableau
    requires u.foundations == Place(lifted, m.destination, m.cards).foundations
    ensures DestinationHolds(u, m)
    ensures TakeBack(u, m).tableau == lifted.tableau && TakeBack(u, m).foundations == lifted.foundations
  {
    match m.destination {
      case ToTableau(q) =>
        assert (lifted.tableau[q] + m.cards)[..|lifted.tableau[q]|] == lifted.tableau[q];
        assert lifted.tableau[q := lifted.tableau[q]] == lifted.tableau;
      case ToFoundation(q) =>
        assert (lifted.foundations[q] + m.cards)[..|lifted.foundations[q]|] == lifted.foundations[q];
        assert lifted.foundations[q := lifted.foundations[q]] == lifted.foundations;
    }
  }

  lemma PutBackUndoesLift(t: GameState, g: GameState, m: Move, snapshot: bool)
    requires WellShaped(g) && WellShaped(t) && (m.source.FromFoundation? ==> m.source.pile < 4)
    requires SourceReady(g, m.source) && m.cards == Run(g, m.source)
    requires t.tableau == Lift(g, m.source).tableau && t.foundations == Lift(g, m.source).foundations
    ensures SourceIndexOk(m)
    ensures m.source.FromTableau? ==> m.source.cardIndex <= |t.tableau[m.source.pile]|
    ensures var h := PutBack(t, m, snapshot);
            && h.tableau == g.tableau && h.foundations == g.foundations && h.stock == t.stock
            && (m.source.FromWaste? ==> h.waste == (if snapshot then m.previousWaste else t.waste + m.cards))
            && (!m.source.FromWaste? ==> h.waste == t.waste)
  {
    match m.source {
      case FromWaste =>
      case FromTableau(p, i) =>
        PutBackTableau(t, g, p, i, m.cards);
      case FromFoundation(p) =>
        PutBackFoundation(t, g, p, m.cards);
    }
  }

  /** Putting a lifted tableau run back on its pile restores the tableau. */
  lemma PutBackTableau(t: GameState, g: GameState, p: nat, i: nat, run: seq<Card>)
    requires WellShaped(g) && WellShaped(t) && p < 7 && i < |g.tableau[p]|
    requires run == g.tableau[p][i..] && t.tableau == g.tableau[p := g.tableau[p][..i]]
    ensures i <= |t.tableau[p]|
    ensures t.tableau[p := t.tableau[p][..i] + run + t.tableau[p][i..]] == g.tableau
  {
    assert t.tableau[p][..i] + run + t.tableau[p][i..] == g.tableau[p];
    assert g.tableau[p := g.tableau[p]] == g.tableau;
  }

  /** Putting a lifted foundation card back restores the foundations. */
  lemma PutBackFoundation(t: GameState, g: GameState, p: nat, run: seq<Card>)
    requires WellShaped(g) && WellShaped(t) && p < 4 && |g.foundations[p]| > 0
    requires run == [g.foundations[p][|g.foundations[p]| - 1]]
    requires t.foundations == g.foundations[p := g.foundations[p][..|g.foundations[p]| - 1]]
    ensures t.foundations[p := t.foundations[p] + run] == g.foundations
  {
    var f := g.foundations[p];
    assert f[..|f| - 1] + run == f;
    assert g.foundations[p := f] == g.foundations;
  }

  /** The undo entry an accepted move pushes. */
  function EntryFor(g: GameState, src: MoveSource, dst: MoveDestination): (m: Move)
    requires WellShaped(g) && IndicesOk(src, dst) && SourceReady(g, src)
    ensures m.source == src && m.destination == dst && m.cards == Run(g, src)
  {
    Move(src, dst, Run(g, src), ExposedFaceDown(Placed(g, src, dst), src), g.waste, g.stock)
  }

  lemma EntryOfMove(s: Session, src: MoveSource, dst: MoveDestination)
    requires WellShaped(s.game) && IndicesOk(src, dst) && ExecuteMove(s, src, dst).moved
    ensures SourceReady(s.game, src)
    ensures var r := ExecuteMove(s, src, dst).after;
            && r.undoStack == s.undoStack + [EntryFor(s.game, src, dst)]
            && r.game.tableau == AutoFlip(Placed(s.game, src, dst), src).tableau
            && r.game.foundations == Placed(s.game, src, dst).foundations
            && r.game.waste == Lift(s.game, src).waste
            && r.game.stock == s.game.stock
            && r.game.moveCount == s.game.moveCount + 1
  {
  }

  /** Undo's three pile steps applied to the entry of a move from `g`, on a
      state whose tableau and foundations are still as that move left them. */
  lemma EntryStepsRestore(xg: GameState, g: GameState, src: MoveSource, dst: MoveDestination, snapshot: bool)
    requires WellShaped(g) && IndicesOk(src, dst) && SourceReady(g, src) && WellShaped(xg)
    requires xg.tableau == AutoFlip(Placed(g, src, dst), src).tableau
    requires xg.foundations == Placed(g, src, dst).foundations
    ensures EntryFits(xg, EntryFor(g, src, dst))
    ensures var m := EntryFor(g, src, dst);
            var h := PutBack(TakeBack(Unflip(xg, m), m), m, snapshot);
            && h.tableau == g.tableau && h.foundations == g.foundations && h.stock == xg.stock
            && (src.FromWaste? ==> h.waste == (if snapshot then g.waste else xg.waste + Run(g, src)))
            && (!src.FromWaste? ==> h.waste == xg.waste)
  {
    var m := EntryFor(g, src, dst);
    var placed := Placed(g, src, dst);
    var lifted := Lift(g, src);
    UnflipUndoesAutoFlip(xg, placed, m);
    var u := Unflip(xg, m);
    assert u.waste == xg.waste && u.stock == xg.stock;
    TakeBackUndoesPlace(u, lifted, m);
    var t := TakeBack(u, m);
    assert t.waste == xg.waste && t.stock == xg.stock;
    PutBackUndoesLift(t, g, m, snapshot);
  }

  /** Undoing the entry of a move from `g`, in any session whose tableau and
      foundations are still as that move left them: the tableau and
      foundations return to those of `g`; a waste-sourced run goes back by
      snapshot or by appending, other sources leave the waste alone. */
  lemma UndoOfEntry(x: Session, g: GameState, src: MoveSource, dst: MoveDestination,
                    base: seq<Move>, snapshot: bool)
    requires WellShaped(g) && IndicesOk(src, dst) && SourceReady(g, src) && WellShaped(x.game)
    requires x.undoStack == base + [EntryFor(g, src, dst)]
    requires x.game.tableau == AutoFlip(Placed(g, src, dst), src).tableau
    requires x.game.foundations == Placed(g, src, dst).foundations
    ensures UndoReady(x)
    ensures var u := UndoWith(x, snapshot);
            && u.undoStack == base
            && u.game.tableau == g.tableau && u.game.foundations == g.foundations
            && u.game.stock == x.game.stock
            && u.game.moveCount == (if x.game.moveCount >= 1 then x.game.moveCount - 1 else 0)
            && (src.FromWaste? ==> u.game.waste == (if snapshot then g.waste else x.game.waste + Run(g, src)))
            && (!src.FromWaste? ==> u.game.waste == x.game.waste)
  {
    var m := EntryFor(g, src, dst);
    assert Last(x.undoStack) == m;
    EntryStepsRestore(x.game, g, src, dst, snapshot);
    assert x.undoStack[..|x.undoStack| - 1] == base;
  }

  /** Undo right after an accepted move restores every pile (face
      orientation included), the undo stack and the move count; this holds for
      the shipped undo and for the repaired one alike. */
  lemma UndoReversesMove(s: Session, src: MoveSource, dst: MoveDestination)
    requires WellShaped(s.game) && IndicesOk(src, dst) && ExecuteMove(s, src, dst).moved
    requires s.game.moveCount >= 0
    ensures UndoReady(ExecuteMove(s, src, dst).after)
    ensures var u := Undo(ExecuteMove(s, src, dst).after);
            SamePiles(u.game, s.game) && u.undoStack == s.undoStack && u.game.moveCount == s.game.moveCount
    ensures var u := UndoFixed(ExecuteMove(s, src, dst).after);
            SamePiles(u.game, s.game) && u.undoStack == s.undoStack && u.game.moveCount == s.game.moveCount
  {
    var r := ExecuteMove(s, src, dst).after;
    EntryOfMove(s, src, dst);
    UndoOfEntry(r, s.game, src, dst, s.undoStack, true);
    UndoOfEntry(r, s.game, src, dst, s.undoStack, false);
  }

  // ---------------------------------------------------------------------
  // The undo defect

  /** The identities held by tableau and foundations together. */
  function TF(g: GameState): multiset<Key> {
    Keys(Flatten(g.tableau)) + Keys(Flatten(g.foundations))
  }

  lemma LiftTF(g: GameState, src: MoveSource)
    requires WellShaped(g) && (src.FromFoundation? ==> src.pile < 4) && SourceReady(g, src)
    ensures TF(Lift(g, src)) + (if src.FromWaste? then multiset{} else Keys(Run(g, src))) == TF(g)
  {
    var run := Run(g, src);
    match src {
      case FromWaste =>
      case FromTableau(p, i) =>
        CutPileKeys(g.tableau, p, g.tableau[p][..i], run);
      case FromFoundation(p) =>
        CutPileKeys(g.foundations, p, Lift(g, src).foundations[p], run);
    }
  }

  lemma PlaceTF(g: GameState, dst: MoveDestination, run: seq<Card>)
    requires WellShaped(g) && IndicesOk(FromWaste, dst)
    ensures TF(Place(g, dst, run)) == TF(g) + Keys(run)
  {
    match dst {
      case ToTableau(q) =>
        CutPileKeys(g.tableau[q := g.tableau[q] + run], q, g.tableau[q], run);
        assert g.tableau[q := g.tableau[q] + run][q := g.tableau[q]] == g.tableau;
      case ToFoundation(q) =>
        CutPileKeys(g.foundations[q := g.foundations[q] + run], q, g.foundations[q], run);
        assert g.foundations[q := g.foundations[q] + run][q := g.foundations[q]] == g.foundations;
    }
  }

  lemma AutoFlipTF(g: GameState, src: MoveSource)
    requires WellShaped(g)
    ensures TF(AutoFlip(g, src)) == TF(g)
  {
    if ExposedFaceDown(g, src) {
      var h := AutoFlip(g, src);
      var p := src.pile;
      FlattenUpdateKeys(g.tableau, p, h.tableau[p]);
      MultisetCancel(Keys(Flatten(h.tableau)), Keys(g.tableau[p]), Keys(Flatten(g.tableau)));
    }
  }

  /** What an accepted move does to the identities held by tableau and
      foundations together: a waste card joins them, otherwise they are kept. */
  lemma TableauFoundationKeys(g: GameState, src: MoveSource, dst: MoveDestination)
    requires WellShaped(g) && IndicesOk(src, dst) && SourceReady(g, src)
    ensures TF(AutoFlip(Placed(g, src, dst), src))
            == TF(g) + (if src.FromWaste? then Keys(Run(g, src)) else multiset{})
  {
    LiftTF(g, src);
    PlaceTF(Lift(g, src), dst, Run(g, src));
    AutoFlipTF(Placed(g, src, dst), src);
  }

  lemma AllCardsTF(g: GameState)
    ensures Keys(AllCards(g)) == Keys(g.stock) + Keys(g.waste) + TF(g)
  {
    AllCardsKeys(g);
  }

  /** The repaired undo conserves every card however many draws came between
      the move and the undo. */
  lemma UndoFixedConservesAfterDraws(s: Session, src: MoveSource, dst: MoveDestination, k: nat)
    requires WellShaped(s.game) && IndicesOk(src, dst) && ExecuteMove(s, src, dst).moved
    ensures UndoReady(DrawTimes(ExecuteMove(s, src, dst).after, k))
    ensures SameCards(AllCards(UndoFixed(DrawTimes(ExecuteMove(s, src, dst).after, k)).game), AllCards(s.game))
  {
    var r := ExecuteMove(s, src, dst).after;
    var d := DrawTimes(r, k);
    EntryOfMove(s, src, dst);
    ExecuteMoveConserves(s, src, dst);
    DrawTimesConserves(r, k);
    FixedUndoKeepsKeys(d, s.game, src, dst, s.undoStack);
  }

  /** The appending undo of a move's entry, on any state whose tableau and
      foundations are still as the move left them, keeps the identities. */
  lemma FixedUndoKeepsKeys(d: Session, g: GameState, src: MoveSource, dst: MoveDestination, base: seq<Move>)
    requires WellShaped(g) && IndicesOk(src, dst) && SourceReady(g, src) && WellShaped(d.game)
    requires d.undoStack == base + [EntryFor(g, src, dst)]
    requires d.game.tableau == AutoFlip(Placed(g, src, dst), src).tableau
    requires d.game.foundations == Placed(g, src, dst).foundations
    ensures UndoReady(d)
    ensures Keys(AllCards(UndoFixed(d).game)) == Keys(AllCards(d.game))
  {
    FixedUndoParts(d, g, src, dst, base);
    var u := UndoFixed(d).game;
    var x := if src.FromWaste? then Keys(Run(g, src)) else multiset{};
    AllCardsTF(u);
    AllCardsTF(d.game);
    KeysAppend(d.game.waste, Run(g, src));
    assert Keys(u.waste) == Keys(d.game.waste) + x;
    MultisetShift(Keys(d.game.stock), Keys(d.game.waste), TF(g), x);
  }

  /** Each part after the appending undo: the stock is untouched, tableau and
      foundations are those before the move, and a waste run is back on the
      waste. */
  lemma FixedUndoParts(d: Session, g: GameState, src: MoveSource, dst: MoveDestination, base: seq<Move>)
    requires WellShaped(g) && IndicesOk(src, dst) && SourceReady(g, src) && WellShaped(d.game)
    requires d.undoStack == base + [EntryFor(g, src, dst)]
    requires d.game.tableau == AutoFlip(Placed(g, src, dst), src).tableau
    requires d.game.foundations == Placed(g, src, dst).foundations
    ensures UndoReady(d)
    ensures var u := UndoFixed(d).game;
            && u.stock == d.game.stock
            && TF(u) == TF(g)
            && TF(d.game) == TF(g) + (if src.FromWaste? then Keys(Run(g, src)) else multiset{})
            && u.waste == (if src.FromWaste? then d.game.waste + Run(g, src) else d.game.waste)
  {
    UndoOfEntry(d, g, src, dst, base, false);
    TableauFoundationKeys(g, src, dst);
    assert TF(d.game) == TF(AutoFlip(Placed(g, src, dst), src));
  }

  /** Two states differing only in one card missing from the stock's top. */
  lemma StockShortByOne(g: GameState, u: GameState, c: Card)
    requires u.tableau == g.tableau && u.foundations == g.foundations && u.waste == g.waste
    requires |g.stock| > 0 && u.stock == g.stock[..|g.stock| - 1] && c == g.stock[|g.stock| - 1]
    ensures Keys(AllCards(u)) + multiset{KeyOf(c)} == Keys(AllCards(g))
    ensures TotalCards(u) + 1 == TotalCards(g)
  {
    assert g.stock == u.stock + [c];
    KeysAppend(u.stock, [c]);
    assert Keys([c]) == multiset{KeyOf(c)};
    AllCardsTF(g);
    AllCardsTF(u);
    assert TF(u) == TF(g);
    MultisetRotate(Keys(u.stock), Keys([c]), Keys(u.waste), TF(u));
  }

  /** The shipped undo, after a waste card was moved and one more card drawn,
      overwrites the waste with its snapshot: the drawn card is gone from the
      game. */
  lemma ShippedUndoLosesDrawnCard(s: Session, dst: MoveDestination)
    requires WellShaped(s.game) && IndicesOk(FromWaste, dst) && ExecuteMove(s, FromWaste, dst).moved
    requires !ExecuteMove(s, FromWaste, dst).after.game.isWon && |s.game.stock| > 0
    ensures UndoReady(DrawFromStock(ExecuteMove(s, FromWaste, dst).after))
    ensures var u := Undo(DrawFromStock(ExecuteMove(s, FromWaste, dst).after)).game;
            && Keys(AllCards(u)) + multiset{KeyOf(s.game.stock[|s.game.stock| - 1])} == Keys(AllCards(s.game))
            && TotalCards(u) + 1 == TotalCards(s.game)
  {
    var g := s.game;
    var r := ExecuteMove(s, FromWaste, dst).after;
    EntryOfMove(s, FromWaste, dst);
    var d := DrawFromStock(r);
    assert d.undoStack == r.undoStack && d.game.tableau == r.game.tableau;
    assert d.game.foundations == r.game.foundations;
    assert d.game.stock == g.stock[..|g.stock| - 1];
    UndoOfEntry(d, g, FromWaste, dst, s.undoStack, true);
    var u := Undo(d).game;
    assert u.stock == d.game.stock;
    StockShortByOne(g, u, g.stock[|g.stock| - 1]);
  }

  /** In the same situation the repaired undo keeps every card. */
  lemma FixedUndoKeepsDrawnCard(s: Session, dst: MoveDestination)
    requires WellShaped(s.game) && IndicesOk(FromWaste, dst) && ExecuteMove(s, FromWaste, dst).moved
    ensures UndoReady(DrawFromStock(ExecuteMove(s, FromWaste, dst).after))
    ensures var u := UndoFixed(DrawFromStock(ExecuteMove(s, FromWaste, dst).after)).game;
            SameCards(AllCards(u), AllCards(s.game)) && TotalCards(u) == TotalCards(s.game)
  {
    var r := ExecuteMove(s, FromWaste, dst).after;
    assert DrawFromStock(r) == DrawTimes(r, 1);
    UndoFixedConservesAfterDraws(s, FromWaste, dst, 1);
    var u := UndoFixed(DrawFromStock(r)).game;
    TotalCardsCountsAllCards(s.game);
    TotalCardsCountsAllCards(u);
    KeysSize(AllCards(u));
    KeysSize(AllCards(s.game));
  }

  // ---------------------------------------------------------------------
  // Orientation

  /** A move whose run starts at a face-up card (the view only lets face-up
      cards be tapped or dragged) keeps the orientation invariant: stock
      face-down, waste and foundations face-up, each tableau pile face-down
      under face-up with its top showing. */
  lemma ExecuteMoveKeepsOrientation(s: Session, src: MoveSource, dst: MoveDestination)
    requires WellShaped(s.game) && IndicesOk(src, dst) && Oriented(s.game)
    requires src.FromTableau? && src.pile < 7 && src.cardIndex < |s.game.tableau[src.pile]| ==>
               s.game.tableau[src.pile][src.cardIndex].faceUp
    ensures Oriented(ExecuteMove(s, src, dst).after.game)
  {
    var g := s.game;
    if ExecuteMove(s, src, dst).moved {
      AfterIsPlaced(s, src, dst);
      var r := ExecuteMove(s, src, dst).after.game;
      LiftedClosed(g, src);
      forall p | 0 <= p < 7 ensures WellFormedPile(r.tableau[p]) {
        PlacedPileShape(g, src, dst, p);
      }
      forall q | 0 <= q < 4 ensures AllFaceUp(r.foundations[q]) {
        PlacedFoundationUp(g, src, dst, q);
      }
      assert AllFaceUp(r.waste) by {
        assert r.waste == Lift(g, src).waste;
      }
    }
  }

  /** Lifting a run that starts face-up leaves every tableau pile closed
      upwards, and the run itself face-up. */
  lemma LiftedClosed(g: GameState, src: MoveSource)
    requires WellShaped(g) && (src.FromFoundation? ==> src.pile < 4) && SourceReady(g, src) && Oriented(g)
    requires src.FromTableau? ==> g.tableau[src.pile][src.cardIndex].faceUp
    ensures AllFaceUp(Run(g, src))
    ensures forall p :: 0 <= p < 7 ==> FaceUpClosed(Lift(g, src).tableau[p])
  {
    var lifted := Lift(g, src);
    forall p | 0 <= p < 7 ensures FaceUpClosed(lifted.tableau[p]) {
      if src.FromTableau? && p == src.pile {
        PrefixClosed(g.tableau[p], src.cardIndex);
      } else {
        assert lifted.tableau[p] == g.tableau[p];
      }
    }
  }

  lemma PlacedPileShape(g: GameState, src: MoveSource, dst: MoveDestination, p: nat)
    requires WellShaped(g) && IndicesOk(src, dst) && SourceReady(g, src) && Oriented(g) && p < 7
    requires AllFaceUp(Run(g, src))
    requires forall p :: 0 <= p < 7 ==> FaceUpClosed(Lift(g, src).tableau[p])
    ensures WellFormedPile(AutoFlip(Placed(g, src, dst), src).tableau[p])
  {
    var lifted := Lift(g, src);
    var placed := Placed(g, src, dst);
    var flipped := AutoFlip(placed, src);
    if dst == ToTableau(p) {
      assert placed.tableau[p] == lifted.tableau[p] + Run(g, src);
      StackShape(lifted.tableau[p], Run(g, src));
      if src.FromTableau? && src.pile == p {
        FlipTopShape(placed.tableau[p]);
      }
    } else if src.FromTableau? && p == src.pile {
      FlipTopShape(placed.tableau[p]);
    } else {
      UntouchedPile(g, src, dst, p);
    }
  }

  /** A tableau pile that is neither the source nor the destination of a
      move is left as it was. */
  lemma UntouchedPile(g: GameState, src: MoveSource, dst: MoveDestination, p: nat)
    requires WellShaped(g) && IndicesOk(src, dst) && SourceReady(g, src) && p < 7
    requires dst != ToTableau(p) && !(src.FromTableau? && src.pile == p)
    ensures AutoFlip(Placed(g, src, dst), src).tableau[p] == g.tableau[p]
  {
    var placed := Placed(g, src, dst);
    assert Lift(g, src).tableau[p] == g.tableau[p];
    assert placed.tableau[p] == g.tableau[p];
  }

  lemma PlacedFoundationUp(g: GameState, src: MoveSource, dst: MoveDestination, q: nat)
    requires WellShaped(g) && IndicesOk(src, dst) && SourceReady(g, src) && Oriented(g) && q < 4
    requires AllFaceUp(Run(g, src))
    ensures AllFaceUp(Placed(g, src, dst).foundations[q])
  {
    var lifted := Lift(g, src);
    assert AllFaceUp(lifted.foundations[q]);
    if dst == ToFoundation(q) {
      assert Placed(g, src, dst).foundations[q] == lifted.foundations[q] + Run(g, src);
    } else {
      assert Placed(g, src, dst).foundations[q] == lifted.foundations[q];
    }
  }

  // ---------------------------------------------------------------------
  // Foundations and the win

  /** Moves keep every foundation ace-up in a single suit. */
  lemma ExecuteMoveKeepsFoundationsOrdered(s: Session, src: MoveSource, dst: MoveDestination)
    requires WellShaped(s.game) && IndicesOk(src, dst) && FoundationsOrdered(s.game)
    ensures FoundationsOrdered(ExecuteMove(s, src, dst).after.game)
  {
    if ExecuteMove(s, src, dst).moved {
      EntryOfMove(s, src, dst);
      PlacedKeepsOrder(s.game, src, dst);
    }
  }

  lemma PlacedKeepsOrder(g: GameState, src: MoveSource, dst: MoveDestination)
    requires WellShaped(g) && IndicesOk(src, dst) && SourceReady(g, src) && FoundationsOrdered(g)
    requires Accepts(g, Run(g, src), dst)
    ensures forall q :: 0 <= q < 4 ==> FoundationOrdered(Placed(g, src, dst).foundations[q])
  {
    var lifted := Lift(g, src);
    var run := Run(g, src);
    var placed := Placed(g, src, dst);
    LiftKeepsOrder(g, src);
    if dst.ToFoundation? {
      var q := dst.pile;
      assert lifted.foundations[q] == g.foundations[q] by {
        if src.FromFoundation? && src.pile == q {
          assert false;
        }
      }
      assert run == [run[0]];
      OrderedAfterPlace(lifted.foundations[q], run[0]);
      forall j | 0 <= j < 4 ensures FoundationOrdered(placed.foundations[j]) {
        if j != q {
          assert placed.foundations[j] == lifted.foundations[j];
        }
      }
    } else {
      assert placed.foundations == lifted.foundations;
    }
  }

  lemma LiftKeepsOrder(g: GameState, src: MoveSource)
    requires WellShaped(g) && (src.FromFoundation? ==> src.pile < 4) && SourceReady(g, src) && FoundationsOrdered(g)
    ensures forall q :: 0 <= q < 4 ==> FoundationOrdered(Lift(g, src).foundations[q])
  {
    if src.FromFoundation? {
      OrderedPrefix(g.foundations[src.pile], |g.foundations[src.pile]| - 1);
    }
  }

  /** With legally built foundations, 52 cards in the foundations is the same
      as all four foundations holding thirteen (each ending in its king). */
  lemma WonIffFoundationsFull(g: GameState)
    requires WellShaped(g) && FoundationsOrdered(g)
    ensures FoundationTotal(g) == 52 <==> forall q :: 0 <= q < 4 ==> |g.foundations[q]| == 13
  {
    SumOfFour(g.foundations);
    OrderedFoundationSize(g.foundations[0]);
    OrderedFoundationSize(g.foundations[1]);
    OrderedFoundationSize(g.foundations[2]);
    OrderedFoundationSize(g.foundations[3]);
  }

  /** When no card is lost or duplicated, the cards still in play are exactly
      the 52 not yet on a foundation; this is the auto-complete loop's bound. */
  lemma InPlayIsComplementOfFoundations(g: GameState)
    requires Conserved(g)
    ensures CardsInPlay(g) == 52 - FoundationTotal(g)
  {
    FullSetSize(AllCards(g));
    TotalCardsCountsAllCards(g);
  }
}

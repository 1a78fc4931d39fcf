/** The standalone game simulation (test_gameplay.swift): its own table
    record, deal, draw-one/draw-three, the two placement rules, the four
    move functions, the legal-move enumeration and the card validator. The
    random driver loop is left out; its per-step check is what the lemmas
    here state for every step. */
module Simulation {
  import opened Cards
  import opened Piles
  import Deck

  datatype Table = Table(
    stock: seq<Card>,
    waste: seq<Card>,
    tableau: seq<seq<Card>>,
    foundations: seq<seq<Card>>,
    drawThreeMode: bool)

  /** The result of a `moveFrom…` call: whether it moved, and the table afterwards. */
  datatype Outcome = Outcome(ok: bool, table: Table)

  predicate Shaped(t: Table) {
    |t.tableau| == 7 && |t.foundations| == 4
  }

  /** Every card on the table, in the validator's order. */
  function TableCards(t: Table): seq<Card> {
    t.stock + t.waste + Flatten(t.tableau) + Flatten(t.foundations)
  }

  /** `totalCards`. */
  function TotalCards(t: Table): nat {
    |t.stock| + |t.waste| + SumSizes(t.tableau) + SumSizes(t.foundations)
  }

  lemma TotalCardsCountsTable(t: Table)
    ensures TotalCards(t) == |TableCards(t)|
  {
    SumSizesIsFlattenLength(t.tableau);
    SumSizesIsFlattenLength(t.foundations);
  }

  lemma TableCardsKeys(t: Table)
    ensures Keys(TableCards(t))
            == Keys(t.stock) + Keys(t.waste) + Keys(Flatten(t.tableau)) + Keys(Flatten(t.foundations))
  {
    KeysAppend(t.stock, t.waste);
    KeysAppend(t.stock + t.waste, Flatten(t.tableau));
    KeysAppend(t.stock + t.waste + Flatten(t.tableau), Flatten(t.foundations));
  }

  /** Stock face-down, waste and foundations face-up, tableau piles face-down
      under face-up with the top showing. */
  ghost predicate TableOriented(t: Table) {
    && AllFaceDown(t.stock)
    && AllFaceUp(t.waste)
    && (forall q :: 0 <= q < |t.foundations| ==> AllFaceUp(t.foundations[q]))
    && (forall p :: 0 <= p < |t.tableau| ==> WellFormedPile(t.tableau[p]))
  }

  // ---------------------------------------------------------------------
  // Deal and draw

  /** `deal()`, with `deck` standing for the shuffled full deck: the tableau
      as the app deals it, every remaining card to the stock face-down,
      empty waste and foundations. */
  method Deal(t: Table, deck: seq<Card>) returns (r: Table)
    requires |deck| >= 28
    ensures Shaped(r) && r.drawThreeMode == t.drawThreeMode
    ensures forall c :: 0 <= c < 7 ==> r.tableau[c] == Deck.DealtColumn(deck, c)
    ensures r.stock == TurnAll(deck[..|deck| - 28], false) && r.waste == []
    ensures forall q :: 0 <= q < 4 ==> r.foundations[q] == []
    ensures SameCards(TableCards(r), deck)
    ensures IsFullSet(deck) ==> IsFullSet(TableCards(r)) && |r.stock| == 24
    ensures TableOriented(r)
  {
    var tableau, rest := Deck.DealTableau(deck);
    r := Table(TurnAll(rest, false), [], tableau, [[], [], [], []], t.drawThreeMode);
    FlattenEmpties(r.foundations);
    TableCardsKeys(r);
    TurnAllKeys(rest, false);
    KeysAppend(rest, Flatten(tableau));
    if IsFullSet(deck) {
      FullSetSize(deck);
    }
  }

  function Min(a: int, b: int): int {
    if a <= b then a else b
  }

  /** How many cards one `draw()` takes from a non-empty stock. */
  function DrawCount(t: Table): (n: nat)
    requires |t.stock| > 0
    ensures 1 <= n <= |t.stock| && n <= 3
    ensures t.drawThreeMode && |t.stock| >= 3 ==> n == 3
    ensures !t.drawThreeMode ==> n == 1
  {
    if t.drawThreeMode then Min(3, |t.stock|) else 1
  }

  /** n cards popped one by one from the stock's end and pushed face-up on
      the waste: the waste gains the stock's last n cards in reverse order. */
  function DrawCards(stock: seq<Card>, waste: seq<Card>, n: nat): (r: (seq<Card>, seq<Card>))
    requires n <= |stock|
    ensures r.0 == stock[..|stock| - n]
    ensures r.1 == waste + TurnAll(Reverse(stock[|stock| - n..]), true)
    decreases n
  {
    if n == 0 then (stock, waste)
    else
      var m := |stock|;
      var rest := stock[..m - 1];
      var r := DrawCards(rest, waste + [WithFace(stock[m - 1], true)], n - 1);
      assert rest[..m - 1 - (n - 1)] == stock[..m - n];
      assert rest[m - 1 - (n - 1)..] == stock[m - n..m - 1];
      assert Reverse(stock[m - n..]) == [stock[m - 1]] + Reverse(stock[m - n..m - 1]);
      assert TurnAll([stock[m - 1]] + Reverse(stock[m - n..m - 1]), true)
             == [WithFace(stock[m - 1], true)] + TurnAll(Reverse(stock[m - n..m - 1]), true);
      r
  }

  /** `draw()`: an empty stock takes the whole waste back, reversed and
      face-down; otherwise one card, or up to three in draw-three mode,
      moves to the waste face-up. */
  function Draw(t: Table): (r: Table)
    ensures r.tableau == t.tableau && r.foundations == t.foundations && r.drawThreeMode == t.drawThreeMode
    ensures |t.stock| == 0 ==> r.stock == Recycle(t.waste) && r.waste == []
    ensures |t.stock| > 0 ==>
              && r.stock == t.stock[..|t.stock| - DrawCount(t)]
              && r.waste == t.waste + TurnAll(Reverse(t.stock[|t.stock| - DrawCount(t)..]), true)
  {
    if |t.stock| == 0 then t.(stock := Recycle(t.waste), waste := [])
    else
      var r := DrawCards(t.stock, t.waste, DrawCount(t));
      t.(stock := r.0, waste := r.1)
  }

  /** Drawing neither loses nor makes a card and keeps the orientation invariant. */
  lemma DrawConserves(t: Table)
    ensures SameCards(TableCards(Draw(t)), TableCards(t))
    ensures TotalCards(Draw(t)) == TotalCards(t)
    ensures TableOriented(t) ==> TableOriented(Draw(t))
  {
    var r := Draw(t);
    TableCardsKeys(t);
    TableCardsKeys(r);
    DrawPileKeys(t);
    assert Keys(TableCards(r)) == Keys(TableCards(t));
    TotalCardsCountsTable(t);
    TotalCardsCountsTable(r);
    KeysSize(TableCards(t));
    KeysSize(TableCards(r));
    if TableOriented(t) {
      DrawOriented(t);
    }
  }

  lemma DrawOriented(t: Table)
    requires TableOriented(t)
    ensures TableOriented(Draw(t))
  {
    var r := Draw(t);
    if |t.stock| > 0 {
      var n := DrawCount(t);
      assert AllFaceUp(TurnAll(Reverse(t.stock[|t.stock| - n..]), true));
      assert r.waste == t.waste + TurnAll(Reverse(t.stock[|t.stock| - n..]), true);
    }
  }

  /** Stock and waste together keep their identities across a draw. */
  lemma DrawPileKeys(t: Table)
    ensures Keys(Draw(t).stock) + Keys(Draw(t).waste) == Keys(t.stock) + Keys(t.waste)
  {
    if |t.stock| == 0 {
      RecycleKeys(t.waste);
    } else {
      DrawnKeys(t.stock, t.waste, DrawCount(t));
    }
  }

  /** Moving the stock's last n cards, reversed and face-up, onto the waste
      keeps the identities of the two piles together. */
  lemma DrawnKeys(stock: seq<Card>, waste: seq<Card>, n: nat)
    requires n <= |stock|
    ensures Keys(stock[..|stock| - n]) + Keys(waste + TurnAll(Reverse(stock[|stock| - n..]), true))
            == Keys(stock) + Keys(waste)
  {
    var rest := stock[..|stock| - n];
    var top := stock[|stock| - n..];
    assert stock == rest + top;
    KeysAppend(rest, top);
    KeysAppend(waste, TurnAll(Reverse(top), true));
    TurnAllKeys(Reverse(top), true);
    ReverseKeys(top);
    MultisetShift(Keys(rest), multiset{}, Keys(waste), Keys(top));
  }

  lemma ReverseKeys(cs: seq<Card>)
    ensures Keys(Reverse(cs)) == Keys(cs)
  {
    assert KeySeq(Reverse(cs)) == Reverse(KeySeq(cs));
    ReverseMultiset(KeySeq(cs));
  }

  // ---------------------------------------------------------------------
  // Placement rules

  /** `canMoveToFoundation`: the same rule as the app's foundation rule. */
  function CanMoveToFoundation(t: Table, card: Card, pile: nat): (ok: bool)
    requires Shaped(t) && pile < 4
    ensures ok == CanStackOnFoundation(card, Top(t.foundations[pile]))
  {
    var f := t.foundations[pile];
    if |f| == 0 then card.rank == Ace
    else card.suit == f[|f| - 1].suit && card.rank == f[|f| - 1].rank + 1
  }

  /** `canMoveToTableau`: a king onto an empty pile, otherwise the app's tableau rule. */
  function CanMoveToTableau(t: Table, card: Card, pile: nat): (ok: bool)
    requires Shaped(t) && pile < 7
    ensures t.tableau[pile] == [] ==> (ok <==> card.rank == King)
    ensures t.tableau[pile] != [] ==> ok == CanStackOnTableau(card, t.tableau[pile][|t.tableau[pile]| - 1])
  {
    var p := t.tableau[pile];
    if |p| == 0 then card.rank == King
    else
      var top := p[|p| - 1];
      top.faceUp && (Color(card.suit) == Red) != (Color(top.suit) == Red) && card.rank == top.rank - 1
  }

  // ---------------------------------------------------------------------
  // Moves

  /** Turn the source pile's new top face-up if it is face-down. */
  function FlipTop(t: Table, src: nat): (r: Table)
    requires Shaped(t) && src < 7
    ensures Shaped(r) && r.stock == t.stock && r.waste == t.waste && r.foundations == t.foundations
    ensures forall p :: 0 <= p < 7 && p != src ==> r.tableau[p] == t.tableau[p]
    ensures SameCards(Flatten(r.tableau), Flatten(t.tableau))
  {
    var p := t.tableau[src];
    if |p| > 0 && !p[|p| - 1].faceUp then
      var r := t.(tableau := t.tableau[src := SetTopFace(p, true)]);
      FlattenUpdateKeys(t.tableau, src, SetTopFace(p, true));
      MultisetCancel(Keys(Flatten(r.tableau)), Keys(p), Keys(Flatten(t.tableau)));
      r
    else t
  }

  function MoveWasteToFoundation(t: Table, pile: nat): (r: Outcome)
    requires Shaped(t) && pile < 4
    ensures Shaped(r.table)
    ensures !r.ok ==> r.table == t
    ensures r.ok <==> |t.waste| > 0 && CanMoveToFoundation(t, t.waste[|t.waste| - 1], pile)
    ensures r.ok ==> r.table.foundations[pile] == t.foundations[pile] + [t.waste[|t.waste| - 1]]
                     && r.table.waste == t.waste[..|t.waste| - 1]
    ensures r.ok ==> && r.table.stock == t.stock && r.table.tableau == t.tableau
                     && r.table.drawThreeMode == t.drawThreeMode
                     && forall f :: 0 <= f < 4 && f != pile ==> r.table.foundations[f] == t.foundations[f]
  {
    if |t.waste| == 0 || !CanMoveToFoundation(t, t.waste[|t.waste| - 1], pile) then Outcome(false, t)
    else
      var card := t.waste[|t.waste| - 1];
      Outcome(true, t.(waste := t.waste[..|t.waste| - 1],
                       foundations := t.foundations[pile := t.foundations[pile] + [card]]))
  }

  function MoveWasteToTableau(t: Table, pile: nat): (r: Outcome)
    requires Shaped(t) && pile < 7
    ensures Shaped(r.table)
    ensures !r.ok ==> r.table == t
    ensures r.ok <==> |t.waste| > 0 && CanMoveToTableau(t, t.waste[|t.waste| - 1], pile)
    ensures r.ok ==> r.table.tableau[pile] == t.tableau[pile] + [WithFace(t.waste[|t.waste| - 1], true)]
                     && r.table.waste == t.waste[..|t.waste| - 1]
    ensures r.ok ==> && r.table.stock == t.stock && r.table.foundations == t.foundations
                     && r.table.drawThreeMode == t.drawThreeMode
                     && forall p :: 0 <= p < 7 && p != pile ==> r.table.tableau[p] == t.tableau[p]
  {
    if |t.waste| == 0 || !CanMoveToTableau(t, t.waste[|t.waste| - 1], pile) then Outcome(false, t)
    else
      var moved := WithFace(t.waste[|t.waste| - 1], true);
      Outcome(true, t.(waste := t.waste[..|t.waste| - 1],
                       tableau := t.tableau[pile := t.tableau[pile] + [moved]]))
  }

  /** Only the top card of a tableau pile goes to a foundation. The index is
      a Swift `Int`: -1 on an empty pile passes the index guard and is then
      refused because the pile has no last card. */
  function MoveTableauToFoundation(t: Table, src: nat, cardIndex: int, dst: nat): (r: Outcome)
    requires Shaped(t) && src < 7 && dst < 4
    ensures Shaped(r.table)
    ensures !r.ok ==> r.table == t
    ensures r.ok <==> && cardIndex == |t.tableau[src]| - 1 && |t.tableau[src]| > 0
                      && CanMoveToFoundation(t, t.tableau[src][cardIndex], dst)
    ensures r.ok ==> r.table.foundations[dst] == t.foundations[dst] + [t.tableau[src][cardIndex]]
    ensures r.ok ==> r.table.tableau[src] == SetTopFace(t.tableau[src][..cardIndex], true)
    ensures r.ok ==> && r.table.stock == t.stock && r.table.waste == t.waste
                     && r.table.drawThreeMode == t.drawThreeMode
                     && (forall p :: 0 <= p < 7 && p != src ==> r.table.tableau[p] == t.tableau[p])
                     && (forall f :: 0 <= f < 4 && f != dst ==> r.table.foundations[f] == t.foundations[f])
  {
    var p := t.tableau[src];
    if cardIndex != |p| - 1 || |p| == 0 || !CanMoveToFoundation(t, p[|p| - 1], dst) then Outcome(false, t)
    else
      var lifted := t.(tableau := t.tableau[src := p[..|p| - 1]],
                       foundations := t.foundations[dst := t.foundations[dst] + [p[|p| - 1]]]);
      Outcome(true, FlipTop(lifted, src))
  }

  /** The cards from `cardIndex` up move onto another pile; the source's
      new top is turned face-up. */
  function MoveTableauToTableau(t: Table, src: nat, cardIndex: nat, dst: nat): (r: Outcome)
    requires Shaped(t) && src < 7 && dst < 7
    ensures Shaped(r.table)
    ensures !r.ok ==> r.table == t
    ensures r.ok <==> cardIndex < |t.tableau[src]| && CanMoveToTableau(t, t.tableau[src][cardIndex], dst)
    ensures r.ok && src != dst ==> r.table.tableau[dst] == t.tableau[dst] + t.tableau[src][cardIndex..]
    ensures r.ok && src != dst ==> r.table.tableau[src] == SetTopFace(t.tableau[src][..cardIndex], true)
    ensures r.ok && src == dst ==> r.table == t
    ensures r.ok ==> && r.table.stock == t.stock && r.table.waste == t.waste
                     && r.table.foundations == t.foundations && r.table.drawThreeMode == t.drawThreeMode
                     && forall p :: 0 <= p < 7 && p != src && p != dst ==> r.table.tableau[p] == t.tableau[p]
  {
    var p := t.tableau[src];
    if cardIndex >= |p| || !CanMoveToTableau(t, p[cardIndex], dst) then Outcome(false, t)
    else
      var cut := t.tableau[src := p[..cardIndex]];
      var moved := t.(tableau := cut[dst := cut[dst] + p[cardIndex..]]);
      SamePileMoveIsIdentity(t, src, cardIndex, dst);
      OtherPileMove(t, src, cardIndex, dst);
      Outcome(true, FlipTop(moved, src))
  }

  /** A run moved onto its own pile lands where it was, and the pile's top
      was already face-up (the tableau rule asked for that). */
  lemma SamePileMoveIsIdentity(t: Table, src: nat, cardIndex: nat, dst: nat)
    requires Shaped(t) && src < 7 && dst < 7 && cardIndex < |t.tableau[src]|
    requires CanMoveToTableau(t, t.tableau[src][cardIndex], dst)
    ensures var p := t.tableau[src];
            var cut := t.tableau[src := p[..cardIndex]];
            src == dst ==> FlipTop(t.(tableau := cut[dst := cut[dst] + p[cardIndex..]]), src) == t
  {
    var p := t.tableau[src];
    if src == dst {
      assert p[..cardIndex] + p[cardIndex..] == p;
      var cut := t.tableau[src := p[..cardIndex]];
      assert cut[dst := cut[dst] + p[cardIndex..]] == t.tableau;
    }
  }

  /** A run moved onto another pile: the source is cut and its new top
      turned up, the destination grows by the run, nothing else changes. */
  lemma OtherPileMove(t: Table, src: nat, cardIndex: nat, dst: nat)
    requires Shaped(t) && src < 7 && dst < 7 && cardIndex < |t.tableau[src]|
    ensures var p := t.tableau[src];
            var cut := t.tableau[src := p[..cardIndex]];
            var r := FlipTop(t.(tableau := cut[dst := cut[dst] + p[cardIndex..]]), src);
            && r.stock == t.stock && r.waste == t.waste
            && r.foundations == t.foundations && r.drawThreeMode == t.drawThreeMode
            && (forall q :: 0 <= q < 7 && q != src && q != dst ==> r.tableau[q] == t.tableau[q])
            && (src != dst ==> r.tableau[dst] == t.tableau[dst] + p[cardIndex..])
            && (src != dst ==> r.tableau[src] == SetTopFace(p[..cardIndex], true))
  {
    var p := t.tableau[src];
    var cut := t.tableau[src := p[..cardIndex]];
    var moved := t.(tableau := cut[dst := cut[dst] + p[cardIndex..]]);
    if src != dst {
      assert moved.tableau[src] == p[..cardIndex];
      FlipTopSets(moved, src);
    }
  }

  /** `FlipTop` leaves the source pile with its top face-up. */
  lemma FlipTopSets(t: Table, src: nat)
    requires Shaped(t) && src < 7
    ensures FlipTop(t, src).tableau[src] == SetTopFace(t.tableau[src], true)
  {
    var p := t.tableau[src];
    if |p| > 0 && p[|p| - 1].faceUp {
      assert WithFace(p[|p| - 1], true) == p[|p| - 1];
      assert SetTopFace(p, true) == p;
    }
  }

  // ---------------------------------------------------------------------
  // Enumerated moves

  /** A move as `findAllMoves` lists it. */
  datatype SimMove =
    | WasteToFoundation(f: nat)
    | WasteToTableau(p: nat)
    | TableauToFoundation(src: nat, cardIndex: nat, f: nat)
    | TableauToTableau(src: nat, cardIndex: nat, p: nat)

  predicate MoveInRange(m: SimMove) {
    match m
    case WasteToFoundation(f) => f < 4
    case WasteToTableau(p) => p < 7
    case TableauToFoundation(s, _, f) => s < 7 && f < 4
    case TableauToTableau(s, _, p) => s < 7 && p < 7
  }

  /** Run a listed move's closure. */
  function Apply(t: Table, m: SimMove): (r: Outcome)
    requires Shaped(t) && MoveInRange(m)
    ensures Shaped(r.table)
  {
    match m
    case WasteToFoundation(f) => MoveWasteToFoundation(t, f)
    case WasteToTableau(p) => MoveWasteToTableau(t, p)
    case TableauToFoundation(s, i, f) => MoveTableauToFoundation(t, s, i, f)
    case TableauToTableau(s, i, p) => MoveTableauToTableau(t, s, i, p)
  }

  /** The moves `findAllMoves` offers, stated directly: waste top to any
      accepting foundation or tableau pile; for every tableau pile showing at
      least one face-up card, its top to any accepting foundation, and every
      card from the first face-up one up to any other accepting pile. */
  ghost predicate Listed(t: Table, m: SimMove)
    requires Shaped(t)
  {
    match m
    case WasteToFoundation(f) =>
      f < 4 && |t.waste| > 0 && CanMoveToFoundation(t, t.waste[|t.waste| - 1], f)
    case WasteToTableau(p) =>
      p < 7 && |t.waste| > 0 && CanMoveToTableau(t, t.waste[|t.waste| - 1], p)
    case TableauToFoundation(s, i, f) =>
      && s < 7 && f < 4 && |t.tableau[s]| > 0 && FirstFaceUp(t.tableau[s]) < |t.tableau[s]|
      && i == |t.tableau[s]| - 1 && CanMoveToFoundation(t, t.tableau[s][i], f)
    case TableauToTableau(s, i, p) =>
      && s < 7 && p < 7 && p != s && FirstFaceUp(t.tableau[s]) <= i < |t.tableau[s]|
      && CanMoveToTableau(t, t.tableau[s][i], p)
  }

  function WasteFoundationMoves(t: Table, f: nat): (ms: seq<SimMove>)
    requires Shaped(t) && |t.waste| > 0
    ensures forall m :: m in ms <==> m.WasteToFoundation? && f <= m.f && Listed(t, m)
    decreases 4 - f
  {
    if f >= 4 then []
    else (if CanMoveToFoundation(t, t.waste[|t.waste| - 1], f) then [WasteToFoundation(f)] else [])
         + WasteFoundationMoves(t, f + 1)
  }

  function WasteTableauMoves(t: Table, p: nat): (ms: seq<SimMove>)
    requires Shaped(t) && |t.waste| > 0
    ensures forall m :: m in ms <==> m.WasteToTableau? && p <= m.p && Listed(t, m)
    decreases 7 - p
  {
    if p >= 7 then []
    else (if CanMoveToTableau(t, t.waste[|t.waste| - 1], p) then [WasteToTableau(p)] else [])
         + WasteTableauMoves(t, p + 1)
  }

  function TopFoundationMoves(t: Table, s: nat, f: nat): (ms: seq<SimMove>)
    requires Shaped(t) && s < 7 && |t.tableau[s]| > 0
    ensures forall m :: m in ms <==>
              m.TableauToFoundation? && m.src == s && f <= m.f < 4 && m.cardIndex == |t.tableau[s]| - 1
              && CanMoveToFoundation(t, t.tableau[s][m.cardIndex], m.f)
    decreases 4 - f
  {
    if f >= 4 then []
    else
      var i := |t.tableau[s]| - 1;
      (if CanMoveToFoundation(t, t.tableau[s][i], f) then [TableauToFoundation(s, i, f)] else [])
      + TopFoundationMoves(t, s, f + 1)
  }

  function CardTableauMoves(t: Table, s: nat, i: nat, p: nat): (ms: seq<SimMove>)
    requires Shaped(t) && s < 7 && i < |t.tableau[s]|
    ensures forall m :: m in ms <==>
              m.TableauToTableau? && m.src == s && m.cardIndex == i && p <= m.p < 7 && m.p != s
              && CanMoveToTableau(t, t.tableau[s][i], m.p)
    decreases 7 - p
  {
    if p >= 7 then []
    else (if p != s && CanMoveToTableau(t, t.tableau[s][i], p) then [TableauToTableau(s, i, p)] else [])
         + CardTableauMoves(t, s, i, p + 1)
  }

  function RunTableauMoves(t: Table, s: nat, i: nat): (ms: seq<SimMove>)
    requires Shaped(t) && s < 7 && i <= |t.tableau[s]|
    ensures forall m :: m in ms <==>
              m.TableauToTableau? && m.src == s && i <= m.cardIndex < |t.tableau[s]| && m.p < 7 && m.p != s
              && CanMoveToTableau(t, t.tableau[s][m.cardIndex], m.p)
    decreases |t.tableau[s]| - i
  {
    if i == |t.tableau[s]| then []
    else CardTableauMoves(t, s, i, 0) + RunTableauMoves(t, s, i + 1)
  }

  /** The moves out of tableau pile `s`: nothing unless it shows a face-up
      card; then its top to the foundations and every face-up card onward
      to the other piles. */
  function SourceMoves(t: Table, s: nat): (ms: seq<SimMove>)
    requires Shaped(t) && s < 7
    ensures forall m :: m in ms <==> (m.TableauToFoundation? || m.TableauToTableau?) && m.src == s && Listed(t, m)
  {
    if |t.tableau[s]| == 0 || FirstFaceUp(t.tableau[s]) == |t.tableau[s]| then
      HiddenPileHasNoMoves(t, s);
      []
    else
      TopMovesListed(t, s);
      RunMovesListed(t, s);
      TopFoundationMoves(t, s, 0) + RunTableauMoves(t, s, FirstFaceUp(t.tableau[s]))
  }

  lemma HiddenPileHasNoMoves(t: Table, s: nat)
    requires Shaped(t) && s < 7 && FirstFaceUp(t.tableau[s]) == |t.tableau[s]|
    ensures forall m: SimMove :: (m.TableauToFoundation? || m.TableauToTableau?) && m.src == s ==> !Listed(t, m)
  {
  }

  lemma TopMovesListed(t: Table, s: nat)
    requires Shaped(t) && s < 7 && FirstFaceUp(t.tableau[s]) < |t.tableau[s]|
    ensures forall m :: m in TopFoundationMoves(t, s, 0) <==> m.TableauToFoundation? && m.src == s && Listed(t, m)
  {
  }

  lemma RunMovesListed(t: Table, s: nat)
    requires Shaped(t) && s < 7 && FirstFaceUp(t.tableau[s]) < |t.tableau[s]|
    ensures forall m :: m in RunTableauMoves(t, s, FirstFaceUp(t.tableau[s])) <==> m.TableauToTableau? && m.src == s && Listed(t, m)
  {
  }

  function PileMoves(t: Table, s: nat): (ms: seq<SimMove>)
    requires Shaped(t)
    ensures forall m :: m in ms <==> (m.TableauToFoundation? || m.TableauToTableau?) && s <= m.src && Listed(t, m)
    decreases 7 - s
  {
    if s >= 7 then []
    else SourceMoves(t, s) + PileMoves(t, s + 1)
  }

  /** The moves off the waste top. */
  function WasteMoves(t: Table): (ms: seq<SimMove>)
    requires Shaped(t)
    ensures forall m :: m in ms <==> (m.WasteToFoundation? || m.WasteToTableau?) && Listed(t, m)
  {
    if |t.waste| > 0 then WasteFoundationMoves(t, 0) + WasteTableauMoves(t, 0) else []
  }

  /** `findAllMoves()`: exactly the listed moves. */
  function FindAllMoves(t: Table): (ms: seq<SimMove>)
    requires Shaped(t)
    ensures forall m :: m in ms <==> Listed(t, m)
  {
    WasteMoves(t) + PileMoves(t, 0)
  }

  /** Every move `findAllMoves` offers succeeds when run on the same table. */
  lemma ListedMoveSucceeds(t: Table, m: SimMove)
    requires Shaped(t) && Listed(t, m)
    ensures MoveInRange(m) && Apply(t, m).ok
  {
  }

  // ---------------------------------------------------------------------
  // Invariants the simulation checks after every step

  lemma FlipTopOriented(t: Table, src: nat)
    requires Shaped(t) && src < 7 && FaceUpClosed(t.tableau[src])
    requires forall p :: 0 <= p < 7 && p != src ==> WellFormedPile(t.tableau[p])
    ensures forall p :: 0 <= p < 7 ==> WellFormedPile(FlipTop(t, src).tableau[p])
  {
  }

  /** Every move conserves the 52 identities, whether it succeeds or not. */
  lemma ApplyConserves(t: Table, m: SimMove)
    requires Shaped(t) && MoveInRange(m)
    ensures SameCards(TableCards(Apply(t, m).table), TableCards(t))
  {
    if Apply(t, m).ok {
      var r := Apply(t, m).table;
      match m {
        case WasteToFoundation(f) => WasteToFoundationKeys(t, f);
        case WasteToTableau(p) => WasteToTableauKeys(t, p);
        case TableauToFoundation(s, i, f) => TableauToFoundationKeys(t, s, i, f);
        case TableauToTableau(s, i, p) => TableauToTableauKeys(t, s, i, p);
      }
      TableKeysFromParts(t, r);
    }
  }

  /** The four piles of `r` hold the identities the four piles of `t` hold. */
  ghost predicate PartsKept(t: Table, r: Table) {
    Keys(r.stock) + Keys(r.waste) + Keys(Flatten(r.tableau)) + Keys(Flatten(r.foundations))
    == Keys(t.stock) + Keys(t.waste) + Keys(Flatten(t.tableau)) + Keys(Flatten(t.foundations))
  }

  /** Conservation of the whole table follows from conservation of the
      piles a move touches. */
  lemma TableKeysFromParts(t: Table, r: Table)
    requires PartsKept(t, r)
    ensures SameCards(TableCards(r), TableCards(t))
  {
    TableCardsKeys(t);
    TableCardsKeys(r);
  }

  lemma WasteToFoundationKeys(t: Table, f: nat)
    requires Shaped(t) && f < 4 && MoveWasteToFoundation(t, f).ok
    ensures var r := MoveWasteToFoundation(t, f).table;
            && r.stock == t.stock && r.tableau == t.tableau
            && Keys(r.waste) + Keys(Flatten(r.foundations)) == Keys(t.waste) + Keys(Flatten(t.foundations))
            && PartsKept(t, r)
  {
    var r := MoveWasteToFoundation(t, f).table;
    var c := t.waste[|t.waste| - 1];
    assert t.waste == r.waste + [c];
    KeysAppend(r.waste, [c]);
    CutPileKeys(r.foundations, f, t.foundations[f], [c]);
    assert r.foundations[f := t.foundations[f]] == t.foundations;
  }

  lemma WasteToTableauKeys(t: Table, p: nat)
    requires Shaped(t) && p < 7 && MoveWasteToTableau(t, p).ok
    ensures var r := MoveWasteToTableau(t, p).table;
            && r.stock == t.stock && r.foundations == t.foundations
            && Keys(r.waste) + Keys(Flatten(r.tableau)) == Keys(t.waste) + Keys(Flatten(t.tableau))
            && PartsKept(t, r)
  {
    var r := MoveWasteToTableau(t, p).table;
    var c := t.waste[|t.waste| - 1];
    var up := WithFace(c, true);
    assert t.waste == r.waste + [c];
    KeysAppend(r.waste, [c]);
    assert Keys([up]) == Keys([c]) by {
      assert KeySeq([up]) == KeySeq([c]);
    }
    CutPileKeys(r.tableau, p, t.tableau[p], [up]);
    assert r.tableau[p := t.tableau[p]] == t.tableau;
  }

  lemma TableauToFoundationKeys(t: Table, s: nat, i: int, f: nat)
    requires Shaped(t) && s < 7 && f < 4 && MoveTableauToFoundation(t, s, i, f).ok
    ensures var r := MoveTableauToFoundation(t, s, i, f).table;
            && r.stock == t.stock && r.waste == t.waste
            && Keys(Flatten(r.tableau)) + Keys(Flatten(r.foundations))
               == Keys(Flatten(t.tableau)) + Keys(Flatten(t.foundations))
            && PartsKept(t, r)
  {
    var pile := t.tableau[s];
    var c := pile[i];
    var lifted := t.(tableau := t.tableau[s := pile[..i]],
                     foundations := t.foundations[f := t.foundations[f] + [c]]);
    assert pile == pile[..i] + [c];
    CutPileKeys(t.tableau, s, pile[..i], [c]);
    CutPileKeys(lifted.foundations, f, t.foundations[f], [c]);
    assert lifted.foundations[f := t.foundations[f]] == t.foundations;
  }

  lemma TableauToTableauKeys(t: Table, s: nat, i: nat, p: nat)
    requires Shaped(t) && s < 7 && p < 7 && MoveTableauToTableau(t, s, i, p).ok
    ensures var r := MoveTableauToTableau(t, s, i, p).table;
            && r.stock == t.stock && r.waste == t.waste && r.foundations == t.foundations
            && Keys(Flatten(r.tableau)) == Keys(Flatten(t.tableau))
            && PartsKept(t, r)
  {
    if s != p {
      var pile := t.tableau[s];
      var run := pile[i..];
      var cut := t.tableau[s := pile[..i]];
      var moved := cut[p := cut[p] + run];
      assert pile == pile[..i] + run;
      CutPileKeys(t.tableau, s, pile[..i], run);
      CutPileKeys(moved, p, cut[p], run);
      assert moved[p := cut[p]] == cut;
    }
  }

  /** A listed move keeps the orientation invariant. */
  lemma ListedMoveOriented(t: Table, m: SimMove)
    requires Shaped(t) && Listed(t, m) && TableOriented(t)
    ensures TableOriented(Apply(t, m).table)
  {
    match m {
      case WasteToFoundation(f) =>
        var r := Apply(t, m).table;
        assert r.foundations[f] == t.foundations[f] + [t.waste[|t.waste| - 1]];
      case WasteToTableau(p) =>
        var r := Apply(t, m).table;
        assert r.tableau[p] == t.tableau[p] + [WithFace(t.waste[|t.waste| - 1], true)];
      case TableauToFoundation(s, i, f) =>
        TopToFoundationOriented(t, s, i, f);
      case TableauToTableau(s, i, p) =>
        RunToPileOriented(t, s, i, p);
    }
  }

  lemma TopToFoundationOriented(t: Table, s: nat, i: nat, f: nat)
    requires Shaped(t) && s < 7 && f < 4 && TableOriented(t)
    requires i < |t.tableau[s]| && t.tableau[s][i].faceUp && MoveTableauToFoundation(t, s, i, f).ok
    ensures TableOriented(MoveTableauToFoundation(t, s, i, f).table)
  {
    var pile := t.tableau[s];
    var lifted := t.(tableau := t.tableau[s := pile[..i]],
                     foundations := t.foundations[f := t.foundations[f] + [pile[i]]]);
    PrefixClosed(pile, i);
    FlipTopOriented(lifted, s);
    assert MoveTableauToFoundation(t, s, i, f).table == FlipTop(lifted, s);
  }

  lemma RunToPileOriented(t: Table, s: nat, i: nat, p: nat)
    requires Shaped(t) && s < 7 && p < 7 && p != s && TableOriented(t)
    requires FirstFaceUp(t.tableau[s]) <= i < |t.tableau[s]| && MoveTableauToTableau(t, s, i, p).ok
    ensures TableOriented(MoveTableauToTableau(t, s, i, p).table)
  {
    var pile := t.tableau[s];
    var run := pile[i..];
    var cut := t.tableau[s := pile[..i]];
    var moved := t.(tableau := cut[p := cut[p] + run]);
    assert AllFaceUp(run) by {
      forall k | i <= k < |pile| ensures pile[k].faceUp {
        WellFormedSplit(pile, k);
      }
    }
    PrefixClosed(pile, i);
    StackShape(t.tableau[p], run);
    FlipTopOriented(moved, s);
    assert MoveTableauToTableau(t, s, i, p).table == FlipTop(moved, s);
  }

  /** Every move keeps each foundation ace-up in one suit. */
  lemma ApplyKeepsFoundationsOrdered(t: Table, m: SimMove)
    requires Shaped(t) && MoveInRange(m)
    requires forall q :: 0 <= q < 4 ==> FoundationOrdered(t.foundations[q])
    ensures forall q :: 0 <= q < 4 ==> FoundationOrdered(Apply(t, m).table.foundations[q])
  {
    var r := Apply(t, m);
    if r.ok {
      match m {
        case WasteToFoundation(f) =>
          OrderedAfterPlace(t.foundations[f], t.waste[|t.waste| - 1]);
        case WasteToTableau(_) =>
        case TableauToFoundation(s, i, f) =>
          OrderedAfterPlace(t.foundations[f], t.tableau[s][i]);
        case TableauToTableau(_, _, _) =>
      }
    }
  }

  /** The script's win test (all four foundations at 13) agrees with a
      foundation total of 52 once foundations are built legally. */
  lemma WinTestAgrees(t: Table)
    requires Shaped(t) && forall q :: 0 <= q < 4 ==> FoundationOrdered(t.foundations[q])
    ensures (forall q :: 0 <= q < 4 ==> |t.foundations[q]| == 13) <==> SumSizes(t.foundations) == 52
  {
    SumOfFour(t.foundations);
    OrderedFoundationSize(t.foundations[0]);
    OrderedFoundationSize(t.foundations[1]);
    OrderedFoundationSize(t.foundations[2]);
    OrderedFoundationSize(t.foundations[3]);
  }

  // ---------------------------------------------------------------------
  // The validator

  /** The 52 identities in the validator's loop order: suits, then ranks. */
  function KeyOrder(): seq<Key> {
    KeySeq(FullDeck())
  }

  function MissingKeys(cs: seq<Card>, ks: seq<Key>): (r: seq<Key>)
    ensures forall k :: k in r <==> k in ks && Deck.CountKey(cs, k) == 0
  {
    if |ks| == 0 then []
    else (if Deck.CountKey(cs, ks[0]) == 0 then [ks[0]] else []) + MissingKeys(cs, ks[1..])
  }

  function DuplicateKeys(cs: seq<Card>, ks: seq<Key>): (r: seq<(Key, nat)>)
    ensures forall k, n :: (k, n) in r <==> k in ks && n == Deck.CountKey(cs, k) && n > 1
  {
    if |ks| == 0 then []
    else
      var n := Deck.CountKey(cs, ks[0]);
      (if n > 1 then [(ks[0], n)] else []) + DuplicateKeys(cs, ks[1..])
  }

  /** `validateCards()`: the missing identities, the duplicated ones with
      their counts, and whether both lists are empty. */
  function ValidateCards(t: Table): (r: (bool, seq<Key>, seq<(Key, nat)>))
    ensures r.0 <==> r.1 == [] && r.2 == []
  {
    var cs := TableCards(t);
    var missing := MissingKeys(cs, KeyOrder());
    var duplicates := DuplicateKeys(cs, KeyOrder());
    (missing == [] && duplicates == [], missing, duplicates)
  }

  lemma EveryKeyInOrder(k: Key)
    ensures k in KeyOrder()
  {
    FullDeckContents();
    assert Keys(FullDeck())[k] == 1;
  }

  /** The validator passes exactly when every (suit, rank) is on the table once. */
  lemma ValidateCardsExact(t: Table)
    ensures ValidateCards(t).0 <==> IsFullSet(TableCards(t))
  {
    var cs := TableCards(t);
    var r := ValidateCards(t);
    if r.0 {
      forall k: Key
        ensures Keys(cs)[k] == 1
      {
        EveryKeyInOrder(k);
        Deck.CountKeyIsMultiplicity(cs, k);
        assert k !in r.1;
        assert (k, Deck.CountKey(cs, k)) !in r.2;
      }
    }
    if IsFullSet(cs) {
      if r.1 != [] {
        var k := r.1[0];
        assert k in r.1;
        Deck.CountKeyIsMultiplicity(cs, k);
      }
      if r.2 != [] {
        var e := r.2[0];
        assert e in r.2;
        Deck.CountKeyIsMultiplicity(cs, e.0);
      }
    }
  }
}

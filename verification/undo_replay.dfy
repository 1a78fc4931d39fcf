/** The undo reproduction script (test_undo_bug.swift): a stock, a waste
    and one tableau column, a draw that turns one card, a move from the
    waste onto the column, and the two undo variants side by side: the
    one that restores the waste from a snapshot, and the one that appends
    the moved cards back. */
module UndoReplay {
  import opened Cards
  import opened Piles

  /** An undo entry: the moved run, whether it came from the waste, and the
      waste as it was when the move was made. */
  datatype ReplayMove = ReplayMove(cards: seq<Card>, fromWaste: bool, previousWaste: seq<Card>)

  /** The script's table. Its tableau only ever holds one column, which is
      `column` here. */
  datatype Replay = Replay(stock: seq<Card>, waste: seq<Card>, column: seq<Card>, undoStack: seq<ReplayMove>)

  datatype Moved = Moved(ok: bool, after: Replay)

  function Min(a: nat, b: nat): nat {
    if a <= b then a else b
  }

  /** `totalCards`. */
  function TotalCards(s: Replay): nat {
    |s.stock| + |s.waste| + |s.column|
  }

  /** The identities on the table. */
  function TableKeys(s: Replay): multiset<Key> {
    Keys(s.stock) + Keys(s.waste) + Keys(s.column)
  }

  lemma TableKeysSize(s: Replay)
    ensures |TableKeys(s)| == TotalCards(s)
  {
    KeysSize(s.stock);
    KeysSize(s.waste);
    KeysSize(s.column);
  }

  /** Two tables that differ only in their stocks differ in identities by
      exactly what the stocks differ by. */
  lemma StockShortfall(u: Replay, s: Replay, missing: multiset<Key>)
    requires u.waste == s.waste && u.column == s.column
    requires Keys(u.stock) + missing == Keys(s.stock)
    ensures TableKeys(u) + missing == TableKeys(s)
  {
  }

  /** The script's set-up: the first 26 cards of the shuffled deck form the
      stock, the last 26 the column (Swift's `prefix` and `suffix` clamp to
      the deck's length). */
  function Setup(deck: seq<Card>): (s: Replay)
    ensures s.waste == [] && s.undoStack == []
    ensures |deck| == 52 ==> deck == s.stock + s.column && TotalCards(s) == 52
  {
    Replay(deck[..Min(26, |deck|)], [], deck[|deck| - Min(26, |deck|)..], [])
  }

  /** `draw()`: the stock's last card goes face-up onto the waste; nothing
      happens on an empty stock. */
  function Draw(s: Replay): (r: Replay)
    ensures |s.stock| == 0 ==> r == s
    ensures |s.stock| > 0 ==>
              && r.stock + [s.stock[|s.stock| - 1]] == s.stock
              && r.waste == s.waste + [WithFace(s.stock[|s.stock| - 1], true)]
    ensures r.column == s.column && r.undoStack == s.undoStack
    ensures Keys(r.stock) + Keys(r.waste) == Keys(s.stock) + Keys(s.waste)
    ensures TotalCards(r) == TotalCards(s)
  {
    if |s.stock| == 0 then s
    else
      var card := s.stock[|s.stock| - 1];
      var r := s.(stock := s.stock[..|s.stock| - 1], waste := s.waste + [WithFace(card, true)]);
      assert s.stock == r.stock + [card];
      KeysAppend(r.stock, [card]);
      KeysAppend(s.waste, [WithFace(card, true)]);
      assert KeySeq([WithFace(card, true)]) == KeySeq([card]);
      r
  }

  /** `k` draws in a row: the stock loses its last `k` cards (or all of
      them, if it holds fewer), and those cards are now on the waste. */
  function DrawTimes(s: Replay, k: nat): (r: Replay)
    ensures r.stock == s.stock[..|s.stock| - Min(k, |s.stock|)]
    ensures r.column == s.column && r.undoStack == s.undoStack
    ensures Keys(r.stock) + Keys(r.waste) == Keys(s.stock) + Keys(s.waste)
    ensures TotalCards(r) == TotalCards(s)
    decreases k
  {
    if k == 0 then s
    else if |s.stock| == 0 then DrawTimes(s, k - 1)
    else
      var d := Draw(s);
      DrawnPrefix(s, k);
      DrawTimes(d, k - 1)
  }

  /** One draw then `k - 1` more takes the same prefix of the stock as `k`. */
  lemma DrawnPrefix(s: Replay, k: nat)
    requires k > 0 && |s.stock| > 0
    ensures var n := |s.stock|;
            Draw(s).stock[..n - 1 - Min(k - 1, n - 1)] == s.stock[..n - Min(k, n)]
  {
    var n := |s.stock|;
    assert Draw(s).stock == s.stock[..n - 1];
  }

  /** `moveFromWaste()`: the waste's top card goes onto the column, and the
      entry remembers that card and the waste as it was. */
  function MoveFromWaste(s: Replay): (r: Moved)
    ensures r.ok <==> |s.waste| > 0
    ensures !r.ok ==> r.after == s
    ensures r.ok ==>
              && r.after.waste + [s.waste[|s.waste| - 1]] == s.waste
              && r.after.column == s.column + [s.waste[|s.waste| - 1]]
              && r.after.stock == s.stock
              && r.after.undoStack == s.undoStack + [ReplayMove([s.waste[|s.waste| - 1]], true, s.waste)]
  {
    if |s.waste| == 0 then Moved(false, s)
    else
      var card := s.waste[|s.waste| - 1];
      var r := s.(undoStack := s.undoStack + [ReplayMove([card], true, s.waste)],
                  waste := s.waste[..|s.waste| - 1],
                  column := s.column + [card]);
      assert s.waste == r.waste + [card];
      Moved(true, r)
  }

  /** Swift's `removeLast(k)` traps when the column is shorter than the
      entry's run; callers must not ask for that. */
  predicate UndoFits(s: Replay) {
    |s.undoStack| == 0 || |s.undoStack[|s.undoStack| - 1].cards| <= |s.column|
  }

  /** `undoBuggy()`: pop the entry, take its run off the column, and for a
      waste move put back the waste snapshot. */
  function UndoBuggy(s: Replay): (r: Replay)
    requires UndoFits(s)
    ensures |s.undoStack| == 0 ==> r == s
    ensures |s.undoStack| > 0 ==>
              var m := s.undoStack[|s.undoStack| - 1];
              && r.undoStack == s.undoStack[..|s.undoStack| - 1]
              && r.column == s.column[..|s.column| - |m.cards|]
              && r.stock == s.stock
              && r.waste == (if m.fromWaste then m.previousWaste else s.waste)
  {
    if |s.undoStack| == 0 then s
    else
      var m := s.undoStack[|s.undoStack| - 1];
      var popped := s.(undoStack := s.undoStack[..|s.undoStack| - 1],
                       column := s.column[..|s.column| - |m.cards|]);
      if m.fromWaste then popped.(waste := m.previousWaste) else popped
  }

  /** `undoFixed()`: as `undoBuggy`, but the moved run is appended back to
      the waste instead of overwriting it. */
  function UndoFixed(s: Replay): (r: Replay)
    requires UndoFits(s)
    ensures |s.undoStack| == 0 ==> r == s
    ensures |s.undoStack| > 0 ==>
              var m := s.undoStack[|s.undoStack| - 1];
              && r.undoStack == s.undoStack[..|s.undoStack| - 1]
              && r.column == s.column[..|s.column| - |m.cards|]
              && r.stock == s.stock
              && r.waste == (if m.fromWaste then s.waste + m.cards else s.waste)
  {
    if |s.undoStack| == 0 then s
    else
      var m := s.undoStack[|s.undoStack| - 1];
      var popped := s.(undoStack := s.undoStack[..|s.undoStack| - 1],
                       column := s.column[..|s.column| - |m.cards|]);
      if m.fromWaste then popped.(waste := s.waste + m.cards) else popped
  }

  // ---------------------------------------------------------------------
  // The two undos compared

  /** Right after a move, the fixed undo puts the waste and the column back
      exactly as they were. */
  lemma UndoFixedRestoresMove(s: Replay)
    requires |s.waste| > 0
    ensures UndoFits(MoveFromWaste(s).after)
    ensures var u := UndoFixed(MoveFromWaste(s).after);
            u.waste == s.waste && u.column == s.column && u.stock == s.stock && u.undoStack == s.undoStack
  {
    var m := MoveFromWaste(s).after;
    assert m.undoStack[..|m.undoStack| - 1] == s.undoStack;
    assert m.column[..|m.column| - 1] == s.column;
  }

  /** A move from the waste followed by `k` draws: the entry on top still
      records the moved card, the column holds it on top of the old column,
      and the stock and waste hold the other cards of the old stock and waste. */
  lemma MoveThenDraws(s: Replay, k: nat)
    requires |s.waste| > 0
    ensures var card := s.waste[|s.waste| - 1];
            var d := DrawTimes(MoveFromWaste(s).after, k);
            && |d.undoStack| > 0
            && d.undoStack[|d.undoStack| - 1] == ReplayMove([card], true, s.waste)
            && d.undoStack[..|d.undoStack| - 1] == s.undoStack
            && d.column == s.column + [card]
            && d.stock == s.stock[..|s.stock| - Min(k, |s.stock|)]
            && Keys(d.stock) + Keys(d.waste) + Keys([card]) == Keys(s.stock) + Keys(s.waste)
  {
    var card := s.waste[|s.waste| - 1];
    var m := MoveFromWaste(s).after;
    var d := DrawTimes(m, k);
    assert m.undoStack[..|m.undoStack| - 1] == s.undoStack;
    KeysAppend(m.waste, [card]);
    MultisetRegroup(Keys(m.stock), Keys(m.waste), Keys(s.waste), Keys([card]));
  }

  /** However many draws come between the move and the fixed undo, every
      identity is on the table again afterwards. */
  lemma UndoFixedConservesAfterDraws(s: Replay, k: nat)
    requires |s.waste| > 0
    ensures UndoFits(DrawTimes(MoveFromWaste(s).after, k))
    ensures var u := UndoFixed(DrawTimes(MoveFromWaste(s).after, k));
            TableKeys(u) == TableKeys(s) && TotalCards(u) == TotalCards(s)
  {
    var card := s.waste[|s.waste| - 1];
    var d := DrawTimes(MoveFromWaste(s).after, k);
    MoveThenDraws(s, k);
    var u := UndoFixed(d);
    assert d.column[..|d.column| - 1] == s.column;
    assert u.waste == d.waste + [card] && u.column == s.column && u.stock == d.stock;
    KeysAppend(d.waste, [card]);
    MultisetRegroup(Keys(d.stock), Keys(d.waste), Keys(u.waste), Keys([card]));
    TableKeysSize(s);
    TableKeysSize(u);
  }

  /** The snapshot undo after a move and `k` further draws (from a stock of
      at least `k` cards) leaves exactly the `k` drawn cards off the table. */
  lemma UndoBuggyLosesDraws(s: Replay, k: nat)
    requires |s.waste| > 0 && k <= |s.stock|
    ensures UndoFits(DrawTimes(MoveFromWaste(s).after, k))
    ensures var u := UndoBuggy(DrawTimes(MoveFromWaste(s).after, k));
            && TableKeys(u) + Keys(s.stock[|s.stock| - k..]) == TableKeys(s)
            && TotalCards(u) + k == TotalCards(s)
  {
    var d := DrawTimes(MoveFromWaste(s).after, k);
    MoveThenDraws(s, k);
    var u := UndoBuggy(d);
    assert d.column[..|d.column| - 1] == s.column;
    assert u.stock == s.stock[..|s.stock| - k] && u.waste == s.waste && u.column == s.column;
    var drawn := s.stock[|s.stock| - k..];
    KeysSplit(s.stock, |s.stock| - k);
    KeysSize(drawn);
    StockShortfall(u, s, Keys(drawn));
    TableKeysSize(s);
    TableKeysSize(u);
  }

  /** The script's scenario on a 52-card deck: draw, move from the waste,
      draw twice, undo. The snapshot undo ends with 50 cards, the fixed one
      with all 52. */
  lemma ScenarioTotals(deck: seq<Card>)
    requires |deck| == 52
    ensures var s := Draw(Setup(deck));
            && |s.waste| == 1 && |s.stock| == 25
            && var after := DrawTimes(MoveFromWaste(s).after, 2);
            && UndoFits(after)
            && TotalCards(UndoBuggy(after)) == 50
            && TotalCards(UndoFixed(after)) == 52
  {
    var s := Draw(Setup(deck));
    UndoBuggyLosesDraws(s, 2);
    UndoFixedConservesAfterDraws(s, 2);
  }
}

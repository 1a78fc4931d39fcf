/** The commentator's move classifier (Commentator.swift): an ordered rule
    table that maps a move, and the game as the move left it, to a mood.
    Only the mood is modelled; the comment strings are drawn at random. */
module Commentary {
  import opened Cards
  import opened Piles
  import opened GameModel
  import opened Engine
  import opened EngineLaws

  datatype Mood = Roast | Praise | Neutral | Brilliant | Terrible

  /** `Array[safe:]`: the element when the index is in range, nothing otherwise. */
  function SafeGet<T>(s: seq<T>, i: int): (r: Option<T>)
    ensures r.Some? <==> 0 <= i < |s|
    ensures r.Some? ==> r.value == s[i]
  {
    if 0 <= i < |s| then Some(s[i]) else None
  }

  /** `destPileWasEmpty`: every card of the pile is a king and there is at
      most one of them. */
  function DestPileWasEmpty(pile: seq<Card>): (r: bool)
    ensures r <==> pile == [] || (|pile| == 1 && pile[0].rank == King)
  {
    (forall c :: c in pile ==> c.rank == King) && |pile| <= 1
  }

  /** The repaired emptiness test: seen after the move, the destination was
      empty before it exactly when it holds nothing but the moved run. */
  function DestPileWasEmptyFixed(pile: seq<Card>, cards: seq<Card>): bool {
    |pile| == |cards|
  }

  /** The classifier subscripts the destination pile, and the source pile
      when it gets that far; both must exist. */
  predicate Indexable(g: GameState, source: MoveSource, destination: MoveDestination) {
    destination.ToTableau? ==>
      destination.pile < |g.tableau| && (source.FromTableau? ==> source.pile < |g.tableau|)
  }

  /** The king-to-empty-pile rule, with the shipped or the repaired emptiness test. */
  predicate KingToEmpty(cards: seq<Card>, destination: MoveDestination, g: GameState, fixed: bool)
    requires |cards| > 0 && Indexable(g, FromWaste, destination)
  {
    && destination.ToTableau?
    && cards[0].rank == King
    && var pile := g.tableau[destination.pile];
       pile == [] || (if fixed then DestPileWasEmptyFixed(pile, cards) else DestPileWasEmpty(pile))
  }

  /** The reveal rule: the card under the moved run is still face-down. */
  predicate Reveals(source: MoveSource, g: GameState)
    requires source.FromTableau? ==> source.pile < |g.tableau|
  {
    && source.FromTableau?
    && source.cardIndex > 0
    && match SafeGet(g.tableau[source.pile], source.cardIndex - 1)
       case Some(below) => !below.faceUp
       case None => false
  }

  /** The bury rule: the destination tableau pile holds more than five cards. */
  predicate Buries(destination: MoveDestination, g: GameState)
    requires Indexable(g, FromWaste, destination)
  {
    destination.ToTableau? && |g.tableau[destination.pile]| > 5
  }

  /** `analyzeMove`, mood only, with the shipped or the repaired emptiness
      test; `cards.first!` makes an empty run a crash. */
  function AnalyzeMoveWith(cards: seq<Card>, source: MoveSource, destination: MoveDestination,
                           g: GameState, fixed: bool): (mood: Mood)
    requires |cards| > 0 && Indexable(g, source, destination)
    ensures destination.ToFoundation? ==> (mood == Praise || mood == Brilliant)
    ensures destination.ToFoundation? ==> (mood == Brilliant <==> cards[0].rank == King)
    ensures mood == Brilliant ==> destination.ToFoundation?
    ensures mood == Roast ==> Buries(destination, g) && !Reveals(source, g)
    ensures mood == Terrible ==> source.FromFoundation? && destination.ToTableau? && !Buries(destination, g)
    ensures mood == Neutral ==>
              && destination.ToTableau? && |cards| < 3 && !source.FromFoundation?
              && !KingToEmpty(cards, destination, g, fixed) && !Reveals(source, g) && !Buries(destination, g)
  {
    var card := cards[0];
    if destination.ToFoundation? then
      if card.rank == Ace then Praise
      else if card.rank == King then Brilliant
      else Praise
    else if KingToEmpty(cards, destination, g, fixed) then Praise
    else if source.FromTableau? && source.cardIndex > 0
            && SafeGet(g.tableau[source.pile], source.cardIndex - 1).Some?
            && !SafeGet(g.tableau[source.pile], source.cardIndex - 1).value.faceUp then Praise
    else if |g.tableau[destination.pile]| > 5 then Roast
    else if source.FromFoundation? then Terrible
    else if |cards| >= 3 then Praise
    else Neutral
  }

  /** The classifier as the app ships it. */
  function AnalyzeMove(cards: seq<Card>, source: MoveSource, destination: MoveDestination, g: GameState): (mood: Mood)
    requires |cards| > 0 && Indexable(g, source, destination)
    ensures destination.ToFoundation? ==> (mood == Brilliant <==> cards[0].rank == King)
    ensures mood == Neutral ==> !KingToEmpty(cards, destination, g, false)
  {
    AnalyzeMoveWith(cards, source, destination, g, false)
  }

  /** The classifier with the repaired emptiness test. */
  function AnalyzeMoveFixed(cards: seq<Card>, source: MoveSource, destination: MoveDestination, g: GameState): (mood: Mood)
    requires |cards| > 0 && Indexable(g, source, destination)
    ensures destination.ToFoundation? ==> (mood == Brilliant <==> cards[0].rank == King)
    ensures mood == Neutral ==> !KingToEmpty(cards, destination, g, true)
  {
    AnalyzeMoveWith(cards, source, destination, g, true)
  }

  // ---------------------------------------------------------------------
  // The rule table

  /** The rules in priority order, each a guard and the mood it gives. */
  function Rules(cards: seq<Card>, source: MoveSource, destination: MoveDestination,
                 g: GameState, fixed: bool): (rules: seq<(bool, Mood)>)
    requires |cards| > 0 && Indexable(g, source, destination)
    ensures |rules| == 7
  {
    var toFoundation := destination.ToFoundation?;
    [ (toFoundation && cards[0].rank == King, Brilliant),
      (toFoundation, Praise),
      (KingToEmpty(cards, destination, g, fixed), Praise),
      (destination.ToTableau? && Reveals(source, g), Praise),
      (Buries(destination, g), Roast),
      (source.FromFoundation?, Terrible),
      (|cards| >= 3, Praise) ]
  }

  /** The mood of the first rule whose guard holds, or neutral. */
  function FirstMatch(rules: seq<(bool, Mood)>): (mood: Mood)
    ensures (forall i :: 0 <= i < |rules| ==> !rules[i].0) ==> mood == Neutral
    ensures forall i :: 0 <= i < |rules| && rules[i].0 && (forall j :: 0 <= j < i ==> !rules[j].0) ==>
              mood == rules[i].1
  {
    if |rules| == 0 then Neutral
    else if rules[0].0 then rules[0].1
    else FirstMatch(rules[1..])
  }

  /** The classifier is the first match of its rule table: the rules apply in
      that fixed priority and the first that fires decides. */
  lemma AnalyzeFollowsRules(cards: seq<Card>, source: MoveSource, destination: MoveDestination,
                            g: GameState, fixed: bool)
    requires |cards| > 0 && Indexable(g, source, destination)
    ensures AnalyzeMoveWith(cards, source, destination, g, fixed) == FirstMatch(Rules(cards, source, destination, g, fixed))
  {
    var rules := Rules(cards, source, destination, g, fixed);
    FirstMatchOfSeven(rules);
  }

  /** A seven-rule table, unfolded into its chain of guards. */
  lemma FirstMatchOfSeven(rules: seq<(bool, Mood)>)
    requires |rules| == 7
    ensures FirstMatch(rules) ==
            if rules[0].0 then rules[0].1 else if rules[1].0 then rules[1].1
            else if rules[2].0 then rules[2].1 else if rules[3].0 then rules[3].1
            else if rules[4].0 then rules[4].1 else if rules[5].0 then rules[5].1
            else if rules[6].0 then rules[6].1 else Neutral
  {
    var r1, r2, r3 := rules[1..], rules[2..], rules[3..];
    var r4, r5, r6, r7 := rules[4..], rules[5..], rules[6..], rules[7..];
    assert r1[1..] == r2 && r2[1..] == r3 && r3[1..] == r4;
    assert r4[1..] == r5 && r5[1..] == r6 && r6[1..] == r7 && r7 == [];
  }

  // ---------------------------------------------------------------------
  // Classifying the state `executeMove` leaves behind

  /** `executeMove` calls the classifier after turning up the card under the
      run, so the reveal rule never fires for a move between two different
      piles. */
  lemma RevealNeverFiresAfterMove(s: Session, src: MoveSource, dst: MoveDestination)
    requires WellShaped(s.game) && IndicesOk(src, dst) && ExecuteMove(s, src, dst).moved
    requires src.FromTableau? && dst.ToTableau? ==> src.pile != dst.pile
    requires src.FromTableau? ==> src.pile < 7
    ensures !Reveals(src, ExecuteMove(s, src, dst).after.game)
  {
    if src.FromTableau? {
      MoveRelocatesRun(s, src, dst, 0);
      EntryOfMove(s, src, dst);
      var p, i := src.pile, src.cardIndex;
      var pile := s.game.tableau[p];
      var after := ExecuteMove(s, src, dst).after.game.tableau[p];
      if i > 0 {
        assert |after| == i;
        if !pile[i - 1].faceUp {
          assert after[i - 1] == WithFace(pile[i - 1], true);
        } else {
          assert after[i - 1] == pile[i - 1];
        }
      }
    }
  }

  /** Seen after the move, the shipped king rule fires exactly for a king
      moved alone onto an empty pile. */
  lemma KingRuleAfterMove(s: Session, src: MoveSource, dst: MoveDestination)
    requires WellShaped(s.game) && IndicesOk(src, dst) && ExecuteMove(s, src, dst).moved
    requires dst.ToTableau? && (src.FromTableau? ==> src.pile != dst.pile)
    ensures SourceReady(s.game, src)
    ensures var run := Run(s.game, src);
            KingToEmpty(run, dst, ExecuteMove(s, src, dst).after.game, false)
            <==> run[0].rank == King && s.game.tableau[dst.pile] == [] && |run| == 1
  {
    KingRuleFacts(s, src, dst);
    var run := Run(s.game, src);
    var after := ExecuteMove(s, src, dst).after.game;
    LoneKingOnto(s.game.tableau[dst.pile], run, after.tableau[dst.pile]);
  }

  /** A run of at least one card put onto `pre` passes the shipped
      emptiness test exactly when `pre` was empty and the run is one card. */
  lemma LoneKingOnto(pre: seq<Card>, run: seq<Card>, pile: seq<Card>)
    requires |run| > 0 && pile == pre + run
    ensures (pile == [] || DestPileWasEmpty(pile)) && run[0].rank == King
            <==> run[0].rank == King && pre == [] && |run| == 1
  {
    if pre == [] && |run| == 1 {
      assert pile == [run[0]];
    }
    if |pile| == 1 {
      assert pile[0] == run[0] || |pre| == 1;
    }
  }

  /** With the repaired test the king rule fires for every king-led run
      moved onto an empty pile. */
  lemma KingRuleFixedAfterMove(s: Session, src: MoveSource, dst: MoveDestination)
    requires WellShaped(s.game) && IndicesOk(src, dst) && ExecuteMove(s, src, dst).moved
    requires dst.ToTableau? && (src.FromTableau? ==> src.pile != dst.pile)
    ensures SourceReady(s.game, src)
    ensures var run := Run(s.game, src);
            KingToEmpty(run, dst, ExecuteMove(s, src, dst).after.game, true)
            <==> run[0].rank == King && s.game.tableau[dst.pile] == []
  {
    KingRuleFacts(s, src, dst);
  }

  /** After a move onto a tableau pile, that pile is what it held before
      with the run on top. */
  lemma KingRuleFacts(s: Session, src: MoveSource, dst: MoveDestination)
    requires WellShaped(s.game) && IndicesOk(src, dst) && ExecuteMove(s, src, dst).moved
    requires dst.ToTableau? && (src.FromTableau? ==> src.pile != dst.pile)
    ensures SourceReady(s.game, src)
    ensures var after := ExecuteMove(s, src, dst).after.game;
            var run := Run(s.game, src);
            && WellShaped(after)
            && after.tableau[dst.pile] == s.game.tableau[dst.pile] + run
            && (s.game.tableau[dst.pile] == [] ==> after.tableau[dst.pile][0] == run[0])
            && |after.tableau[dst.pile]| == |s.game.tableau[dst.pile]| + |run|
  {
    MoveRelocatesRun(s, src, dst, 0);
    EntryOfMove(s, src, dst);
  }

  /** A king carrying one more card from the bottom of a pile onto an empty
      pile: the shipped classifier calls it neutral, the repaired one praises it. */
  lemma KingPairMissesPraise(s: Session, p: nat, q: nat)
    requires WellShaped(s.game) && p < 7 && q < 7 && p != q
    requires s.game.tableau[q] == [] && |s.game.tableau[p]| == 2
    requires ExecuteMove(s, FromTableau(p, 0), ToTableau(q)).moved
    ensures var after := ExecuteMove(s, FromTableau(p, 0), ToTableau(q)).after.game;
            && AnalyzeMove(s.game.tableau[p], FromTableau(p, 0), ToTableau(q), after) == Neutral
            && AnalyzeMoveFixed(s.game.tableau[p], FromTableau(p, 0), ToTableau(q), after) == Praise
  {
    var src, dst := FromTableau(p, 0), ToTableau(q);
    KingRuleAfterMove(s, src, dst);
    KingRuleFixedAfterMove(s, src, dst);
    MoveRelocatesRun(s, src, dst, 0);
    assert Run(s.game, src) == s.game.tableau[p];
  }
}

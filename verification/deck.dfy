/** Deck preparation and the deal (test_deck.swift; the same deal loop is
    used by TrashTalkSolitaire/ViewModels/GameViewModel.swift and
    test_gameplay.swift). Random shuffles are modelled as caller-supplied
    lists of index swaps: a Fisher-Yates shuffle is one such list, and any
    permutation can be reached by one. */
module Deck {
  import opened Cards
  import opened Piles

  // ---------------------------------------------------------------------
  // Swaps

  function Swap<T>(s: seq<T>, i: nat, j: nat): (r: seq<T>)
    requires i < |s| && j < |s|
    ensures |r| == |s| && r[i] == s[j] && r[j] == s[i]
    ensures forall k :: 0 <= k < |s| && k != i && k != j ==> r[k] == s[k]
  {
    s[i := s[j]][j := s[i]]
  }

  lemma SwapMultiset<T>(s: seq<T>, i: nat, j: nat)
    requires i < |s| && j < |s|
    ensures multiset(Swap(s, i, j)) == multiset(s)
  {
    if i != j {
      var t := s[i := s[j]];
      assert multiset(t) == multiset(s) - multiset{s[i]} + multiset{s[j]};
    }
  }

  lemma SwapKeys(s: seq<Card>, i: nat, j: nat)
    requires i < |s| && j < |s|
    ensures Keys(Swap(s, i, j)) == Keys(s)
  {
    assert KeySeq(Swap(s, i, j)) == Swap(KeySeq(s), i, j);
    SwapMultiset(KeySeq(s), i, j);
  }

  ghost predicate SwapsWithin(swaps: seq<(nat, nat)>, n: nat) {
    forall k :: 0 <= k < |swaps| ==> swaps[k].0 < n && swaps[k].1 < n
  }

  /** `swapAt` applied for each pair in turn. */
  function ApplySwaps(s: seq<Card>, swaps: seq<(nat, nat)>): (r: seq<Card>)
    requires SwapsWithin(swaps, |s|)
    ensures |r| == |s|
    decreases |swaps|
  {
    if |swaps| == 0 then s
    else ApplySwaps(Swap(s, swaps[0].0, swaps[0].1), swaps[1..])
  }

  /** Swapping never gains, loses or changes the orientation of a card. */
  lemma {:induction false} ApplySwapsPermutes(s: seq<Card>, swaps: seq<(nat, nat)>)
    requires SwapsWithin(swaps, |s|)
    ensures Keys(ApplySwaps(s, swaps)) == Keys(s)
    ensures AllFaceDown(s) ==> AllFaceDown(ApplySwaps(s, swaps))
    decreases |swaps|
  {
    if |swaps| > 0 {
      var t := Swap(s, swaps[0].0, swaps[0].1);
      SwapKeys(s, swaps[0].0, swaps[0].1);
      ApplySwapsPermutes(t, swaps[1..]);
    }
  }

  /** The medium shuffle: the full deck in an arbitrary order. */
  function ShuffleMedium(swaps: seq<(nat, nat)>): (deck: seq<Card>)
    requires SwapsWithin(swaps, 52)
    ensures |deck| == 52 && IsFullSet(deck) && AllFaceDown(deck)
  {
    FullDeckContents();
    ApplySwapsPermutes(FullDeck(), swaps);
    ApplySwaps(FullDeck(), swaps)
  }

  // ---------------------------------------------------------------------
  // The easy shuffle: high cards first, low cards (rank <= 4) last

  predicate IsLow(c: Card) {
    c.rank <= 4
  }

  /** Swift `filter { $0.rank.rawValue <= 4 }`. */
  function LowCards(s: seq<Card>): (r: seq<Card>)
    ensures forall i :: 0 <= i < |r| ==> IsLow(r[i])
    decreases |s|
  {
    if |s| == 0 then []
    else if IsLow(s[0]) then [s[0]] + LowCards(s[1..])
    else LowCards(s[1..])
  }

  /** Swift `filter { $0.rank.rawValue > 4 }`. */
  function HighCards(s: seq<Card>): (r: seq<Card>)
    ensures forall i :: 0 <= i < |r| ==> !IsLow(r[i])
    decreases |s|
  {
    if |s| == 0 then []
    else if !IsLow(s[0]) then [s[0]] + HighCards(s[1..])
    else HighCards(s[1..])
  }

  lemma {:induction false} FilterAppend(a: seq<Card>, b: seq<Card>)
    ensures LowCards(a + b) == LowCards(a) + LowCards(b)
    ensures HighCards(a + b) == HighCards(a) + HighCards(b)
    decreases |a|
  {
    if |a| > 0 {
      var ab := a + b;
      assert ab[0] == a[0];
      assert ab[1..] == a[1..] + b;
      FilterAppend(a[1..], b);
      if IsLow(a[0]) {
        assert LowCards(ab) == [a[0]] + LowCards(a[1..] + b);
        assert HighCards(ab) == HighCards(a[1..] + b);
      } else {
        assert LowCards(ab) == LowCards(a[1..] + b);
        assert HighCards(ab) == [a[0]] + HighCards(a[1..] + b);
      }
    } else {
      assert a + b == b;
    }
  }

  lemma SingletonKeys(c: Card)
    ensures Keys([c]) == multiset{KeyOf(c)}
  {
    assert KeySeq([c]) == [KeyOf(c)];
  }

  /** Low cards are kept with their multiplicity, high cards dropped. */
  lemma {:induction false} LowKeys(s: seq<Card>, k: Key)
    ensures Keys(LowCards(s))[k] == if k.rank <= 4 then Keys(s)[k] else 0
    decreases |s|
  {
    if |s| > 0 {
      var t := s[1..];
      assert s == [s[0]] + t;
      KeysAppend([s[0]], t);
      SingletonKeys(s[0]);
      LowKeys(t, k);
      if IsLow(s[0]) {
        KeysAppend([s[0]], LowCards(t));
      } else {
        assert LowCards(s) == LowCards(t);
      }
    }
  }

  /** High cards are kept with their multiplicity, low cards dropped. */
  lemma {:induction false} HighKeys(s: seq<Card>, k: Key)
    ensures Keys(HighCards(s))[k] == if k.rank <= 4 then 0 else Keys(s)[k]
    decreases |s|
  {
    if |s| > 0 {
      var t := s[1..];
      assert s == [s[0]] + t;
      KeysAppend([s[0]], t);
      SingletonKeys(s[0]);
      HighKeys(t, k);
      if !IsLow(s[0]) {
        KeysAppend([s[0]], HighCards(t));
      } else {
        assert HighCards(s) == HighCards(t);
      }
    }
  }

  lemma {:induction false} FilterFaceDown(s: seq<Card>)
    requires AllFaceDown(s)
    ensures AllFaceDown(LowCards(s)) && AllFaceDown(HighCards(s))
    decreases |s|
  {
    if |s| > 0 {
      FilterFaceDown(s[1..]);
    }
  }

  lemma FilterPartition(s: seq<Card>)
    ensures Keys(LowCards(s)) + Keys(HighCards(s)) == Keys(s)
  {
    forall k: Key
      ensures (Keys(LowCards(s)) + Keys(HighCards(s)))[k] == Keys(s)[k]
    {
      LowKeys(s, k);
      HighKeys(s, k);
    }
  }

  lemma RowFilterSizes(x: Suit)
    ensures |LowCards(SuitRow(x))| == 4 && |HighCards(SuitRow(x))| == 9
  {
    var row := SuitRow(x);
    var lo, hi := row[..4], row[4..];
    assert row == lo + hi;
    FilterAppend(lo, hi);
    AllLow(lo);
    AllHigh(hi);
  }

  lemma {:induction false} AllLow(s: seq<Card>)
    requires forall i :: 0 <= i < |s| ==> IsLow(s[i])
    ensures LowCards(s) == s && HighCards(s) == []
    decreases |s|
  {
    if |s| > 0 {
      AllLow(s[1..]);
      assert s == [s[0]] + s[1..];
    }
  }

  lemma {:induction false} AllHigh(s: seq<Card>)
    requires forall i :: 0 <= i < |s| ==> !IsLow(s[i])
    ensures LowCards(s) == [] && HighCards(s) == s
    decreases |s|
  {
    if |s| > 0 {
      AllHigh(s[1..]);
      assert s == [s[0]] + s[1..];
    }
  }

  lemma FullDeckFilterSizes()
    ensures |LowCards(FullDeck())| == 16 && |HighCards(FullDeck())| == 36
  {
    var c, di, h, sp := SuitRow(Clubs), SuitRow(Diamonds), SuitRow(Hearts), SuitRow(Spades);
    FilterAppend(c, di);
    FilterAppend(c + di, h);
    FilterAppend(c + di + h, sp);
    RowFilterSizes(Clubs);
    RowFilterSizes(Diamonds);
    RowFilterSizes(Hearts);
    RowFilterSizes(Spades);
  }

  /** Filtering two sequences with the same identities gives equally long results. */
  lemma FilterSizesAgree(s: seq<Card>, d: seq<Card>)
    requires Keys(s) == Keys(d)
    ensures |LowCards(s)| == |LowCards(d)| && |HighCards(s)| == |HighCards(d)|
  {
    forall k: Key
      ensures Keys(LowCards(s))[k] == Keys(LowCards(d))[k]
    {
      LowKeys(s, k);
      LowKeys(d, k);
    }
    forall k: Key
      ensures Keys(HighCards(s))[k] == Keys(HighCards(d))[k]
    {
      HighKeys(s, k);
      HighKeys(d, k);
    }
    assert Keys(LowCards(s)) == Keys(LowCards(d));
    assert Keys(HighCards(s)) == Keys(HighCards(d));
    KeysSize(LowCards(s));
    KeysSize(LowCards(d));
    KeysSize(HighCards(s));
    KeysSize(HighCards(d));
  }

  /** In any full deck there are 16 low cards and 36 high ones. */
  lemma FilterSizes(s: seq<Card>)
    requires IsFullSet(s)
    ensures |LowCards(s)| == 16 && |HighCards(s)| == 36
  {
    FullDeckContents();
    FullDeckFilterSizes();
    assert Keys(s) == Keys(FullDeck());
    FilterSizesAgree(s, FullDeck());
  }

  ghost predicate RanksWithin(s: seq<Card>, lo: int, hi: int) {
    forall i :: 0 <= i < |s| ==> lo <= s[i].rank <= hi
  }

  lemma {:induction false} ApplySwapsKeepsRanks(s: seq<Card>, swaps: seq<(nat, nat)>, lo: int, hi: int)
    requires SwapsWithin(swaps, |s|) && RanksWithin(s, lo, hi)
    ensures RanksWithin(ApplySwaps(s, swaps), lo, hi)
    decreases |swaps|
  {
    if |swaps| > 0 {
      ApplySwapsKeepsRanks(Swap(s, swaps[0].0, swaps[0].1), swaps[1..], lo, hi);
    }
  }

  /** The easy deck before its final ten swaps: a shuffled deck split into
      its high cards, shuffled, followed by its low cards, shuffled. */
  function EasyArrangement(first: seq<(nat, nat)>, highSwaps: seq<(nat, nat)>,
                           lowSwaps: seq<(nat, nat)>): (deck: seq<Card>)
    requires SwapsWithin(first, 52) && SwapsWithin(highSwaps, 36) && SwapsWithin(lowSwaps, 16)
    ensures |deck| == 52 && IsFullSet(deck) && AllFaceDown(deck)
    ensures forall i :: 0 <= i < 36 ==> deck[i].rank > 4
    ensures forall i :: 36 <= i < 52 ==> deck[i].rank <= 4
  {
    var shuffled := ShuffleMedium(first);
    FilterSizes(shuffled);
    var high := ApplySwaps(HighCards(shuffled), highSwaps);
    var low := ApplySwaps(LowCards(shuffled), lowSwaps);
    EasyFacts(shuffled, highSwaps, lowSwaps);
    high + low
  }

  lemma EasyFacts(shuffled: seq<Card>, highSwaps: seq<(nat, nat)>, lowSwaps: seq<(nat, nat)>)
    requires IsFullSet(shuffled) && AllFaceDown(shuffled)
    requires |HighCards(shuffled)| == 36 && |LowCards(shuffled)| == 16
    requires SwapsWithin(highSwaps, 36) && SwapsWithin(lowSwaps, 16)
    ensures var d := ApplySwaps(HighCards(shuffled), highSwaps) + ApplySwaps(LowCards(shuffled), lowSwaps);
      && IsFullSet(d) && AllFaceDown(d)
      && (forall i :: 0 <= i < 36 ==> d[i].rank > 4)
      && (forall i :: 36 <= i < 52 ==> d[i].rank <= 4)
  {
    var h0, l0 := HighCards(shuffled), LowCards(shuffled);
    var high := ApplySwaps(h0, highSwaps);
    var low := ApplySwaps(l0, lowSwaps);
    FilterPartition(shuffled);
    FilterFaceDown(shuffled);
    ApplySwapsPermutes(h0, highSwaps);
    ApplySwapsPermutes(l0, lowSwaps);
    ApplySwapsKeepsRanks(h0, highSwaps, 5, 13);
    ApplySwapsKeepsRanks(l0, lowSwaps, 1, 4);
    KeysAppend(high, low);
    assert Keys(high + low) == Keys(shuffled);
  }

  /** The easy shuffle: the arrangement above with ten arbitrary swaps. */
  function ShuffleEasy(first: seq<(nat, nat)>, highSwaps: seq<(nat, nat)>,
                       lowSwaps: seq<(nat, nat)>, finalSwaps: seq<(nat, nat)>): (deck: seq<Card>)
    requires SwapsWithin(first, 52) && SwapsWithin(highSwaps, 36) && SwapsWithin(lowSwaps, 16)
    requires SwapsWithin(finalSwaps, 52) && |finalSwaps| == 10
    ensures |deck| == 52 && IsFullSet(deck) && AllFaceDown(deck)
  {
    var arranged := EasyArrangement(first, highSwaps, lowSwaps);
    ApplySwapsPermutes(arranged, finalSwaps);
    ApplySwaps(arranged, finalSwaps)
  }

  // ---------------------------------------------------------------------
  // The deal

  /** Cards dealt before column c: 0 + 1 + ... + c. */
  function Dealt(c: nat): nat {
    if c == 0 then 0 else Dealt(c - 1) + c
  }

  /** Column c of a deal: c + 1 cards taken one by one from the deck's tail,
      only the last of them face-up. */
  function DealtColumn(deck: seq<Card>, c: nat): (col: seq<Card>)
    requires c < 7 && |deck| >= 28
    ensures |col| == c + 1 && Dealt(c) + c < 28
    ensures forall r :: 0 <= r <= c ==> col[r] == WithFace(deck[|deck| - 1 - Dealt(c) - r], r == c)
  {
    assert Dealt(c) + c < 28 by { DealtBound(c); }
    seq(c + 1, r requires 0 <= r <= c => WithFace(deck[|deck| - 1 - Dealt(c) - r], r == c))
  }

  lemma DealtBound(c: nat)
    requires c < 7
    ensures Dealt(c) + c < 28 && Dealt(c + 1) == Dealt(c) + c + 1
  {
    assert Dealt(1) == 1;
    assert Dealt(2) == 3;
    assert Dealt(3) == 6;
    assert Dealt(4) == 10;
    assert Dealt(5) == 15;
    assert Dealt(6) == 21;
    assert Dealt(7) == 28;
  }

  lemma DealtColumnShape(deck: seq<Card>, c: nat)
    requires c < 7 && |deck| >= 28
    ensures |DealtColumn(deck, c)| == c + 1
    ensures forall r :: 0 <= r <= c ==> (DealtColumn(deck, c)[r].faceUp <==> r == c)
    ensures WellFormedPile(DealtColumn(deck, c))
  {
  }

  lemma DealStepKeys(deck: seq<Card>, tableau: seq<seq<Card>>, col: nat, card: Card)
    requires |deck| > 0 && col < |tableau| && KeyOf(card) == KeyOf(deck[|deck| - 1])
    ensures Keys(deck[..|deck| - 1]) + Keys(Flatten(tableau[col := tableau[col] + [card]]))
            == Keys(deck) + Keys(Flatten(tableau))
  {
    var n := |deck|;
    var t' := tableau[col := tableau[col] + [card]];
    assert deck == deck[..n - 1] + [deck[n - 1]];
    KeysAppend(deck[..n - 1], [deck[n - 1]]);
    KeysAppend(tableau[col], [card]);
    SingletonKeys(card);
    SingletonKeys(deck[n - 1]);
    FlattenUpdateKeys(tableau, col, tableau[col] + [card]);
    MultisetCancel(Keys(Flatten(t')), Keys(tableau[col]), Keys(Flatten(tableau)) + multiset{KeyOf(card)});
    assert Keys(Flatten(t')) == Keys(Flatten(tableau)) + multiset{KeyOf(card)};
    assert Keys(deck) == Keys(deck[..n - 1]) + multiset{KeyOf(card)};
  }

  /** `deal(deck:)`: column c receives c + 1 cards from the deck's tail, only
      the last face-up; the deck loses exactly its last 28 cards; no card is
      lost or duplicated, so dealing from a full deck passes `validate`. */
  method DealTableau(deck0: seq<Card>) returns (tableau: seq<seq<Card>>, deck: seq<Card>)
    requires |deck0| >= 28
    ensures |tableau| == 7
    ensures forall c :: 0 <= c < 7 ==> tableau[c] == DealtColumn(deck0, c)
    ensures forall c :: 0 <= c < 7 ==> |tableau[c]| == c + 1 && WellFormedPile(tableau[c])
    ensures deck == deck0[..|deck0| - 28]
    ensures Keys(deck) + Keys(Flatten(tableau)) == Keys(deck0)
    ensures IsFullSet(deck0) ==> Validate(deck, tableau)
  {
    tableau := [[], [], [], [], [], [], []];
    deck := deck0;
    FlattenEmpties(tableau);
    var col := 0;
    while col < 7
      invariant 0 <= col <= 7 && |tableau| == 7
      invariant Dealt(col) <= 28 && deck == deck0[..|deck0| - Dealt(col)]
      invariant forall c :: 0 <= c < col ==> tableau[c] == DealtColumn(deck0, c)
      invariant forall c :: col <= c < 7 ==> tableau[c] == []
      invariant Keys(deck) + Keys(Flatten(tableau)) == Keys(deck0)
    {
      DealtBound(col);
      var before := tableau;
      tableau, deck := DealColumn(deck0, col, tableau, deck);
      ColumnsSoFar(deck0, col, before, tableau);
      col := col + 1;
    }
    DealtShapes(deck0, tableau);
    if IsFullSet(deck0) {
      KeysAppend(deck, Flatten(tableau));
      ValidateExact(deck, tableau);
    }
  }

  lemma ColumnsSoFar(deck0: seq<Card>, col: nat, before: seq<seq<Card>>, after: seq<seq<Card>>)
    requires col < 7 && |deck0| >= 28 && |before| == 7
    requires forall c :: 0 <= c < col ==> before[c] == DealtColumn(deck0, c)
    requires forall c :: col <= c < 7 ==> before[c] == []
    requires after == before[col := DealtColumn(deck0, col)]
    ensures forall c :: 0 <= c < col + 1 ==> after[c] == DealtColumn(deck0, c)
    ensures forall c :: col + 1 <= c < 7 ==> after[c] == []
  {
  }

  lemma DealtShapes(deck0: seq<Card>, tableau: seq<seq<Card>>)
    requires |deck0| >= 28 && |tableau| == 7
    requires forall c :: 0 <= c < 7 ==> tableau[c] == DealtColumn(deck0, c)
    ensures forall c :: 0 <= c < 7 ==> |tableau[c]| == c + 1 && WellFormedPile(tableau[c])
  {
    forall c | 0 <= c < 7
      ensures |tableau[c]| == c + 1 && WellFormedPile(tableau[c])
    {
      DealtColumnShape(deck0, c);
    }
  }

  /** One pass of the outer deal loop: column `col` filled from the deck's tail. */
  method DealColumn(deck0: seq<Card>, col: nat, tableau0: seq<seq<Card>>, deckIn: seq<Card>)
    returns (tableau: seq<seq<Card>>, deck: seq<Card>)
    requires col < 7 && |deck0| >= 28 && |tableau0| == 7 && tableau0[col] == []
    requires Dealt(col) + col < 28 && deckIn == deck0[..|deck0| - Dealt(col)]
    ensures |tableau| == 7 && tableau == tableau0[col := DealtColumn(deck0, col)]
    ensures deck == deck0[..|deck0| - Dealt(col) - col - 1]
    ensures Keys(deck) + Keys(Flatten(tableau)) == Keys(deckIn) + Keys(Flatten(tableau0))
  {
    tableau, deck := tableau0, deckIn;
    var row := 0;
    while row <= col
      invariant 0 <= row <= col + 1
      invariant deck == deck0[..|deck0| - Dealt(col) - row]
      invariant tableau == tableau0[col := DealtColumn(deck0, col)[..row]]
      invariant Keys(deck) + Keys(Flatten(tableau)) == Keys(deckIn) + Keys(Flatten(tableau0))
    {
      var card := WithFace(deck[|deck| - 1], row == col);
      DealStepKeys(deck, tableau, col, card);
      assert DealtColumn(deck0, col)[..row + 1] == DealtColumn(deck0, col)[..row] + [card];
      deck := deck[..|deck| - 1];
      tableau := tableau[col := tableau[col] + [card]];
      row := row + 1;
    }
    assert DealtColumn(deck0, col)[..row] == DealtColumn(deck0, col);
  }

  // ---------------------------------------------------------------------
  // The validator

  /** How many cards of `cs` carry identity k (Swift `filter { ... }.count`). */
  function CountKey(cs: seq<Card>, k: Key): (n: nat)
    decreases |cs|
  {
    if |cs| == 0 then 0
    else (if KeyOf(cs[0]) == k then 1 else 0) + CountKey(cs[1..], k)
  }

  lemma {:induction false} CountKeyIsMultiplicity(cs: seq<Card>, k: Key)
    ensures CountKey(cs, k) == Keys(cs)[k]
    decreases |cs|
  {
    if |cs| > 0 {
      assert cs == [cs[0]] + cs[1..];
      KeysAppend([cs[0]], cs[1..]);
      CountKeyIsMultiplicity(cs[1..], k);
    }
  }

  /** `validate(deck:tableau:)`: 52 cards in all, the six of clubs present,
      and no (suit, rank) missing or duplicated. */
  function Validate(deck: seq<Card>, tableau: seq<seq<Card>>): bool {
    var all := deck + Flatten(tableau);
    && |all| == 52
    && CountKey(all, Key(Clubs, 6)) != 0
    && (forall si, r: Rank | 0 <= si < 4 :: CountKey(all, Key(AllSuits[si], r)) == 1)
  }

  /** `validate` accepts exactly the piles that hold every identity once. */
  lemma ValidateExact(deck: seq<Card>, tableau: seq<seq<Card>>)
    ensures Validate(deck, tableau) <==> IsFullSet(deck + Flatten(tableau))
  {
    var all := deck + Flatten(tableau);
    if Validate(deck, tableau) {
      forall k: Key
        ensures Keys(all)[k] == 1
      {
        var si := SuitIndex(k.suit);
        assert AllSuits[si] == k.suit;
        CountKeyIsMultiplicity(all, Key(AllSuits[si], k.rank));
      }
    }
    if IsFullSet(all) {
      FullSetSize(all);
      CountKeyIsMultiplicity(all, Key(Clubs, 6));
      forall si, r: Rank | 0 <= si < 4
        ensures CountKey(all, Key(AllSuits[si], r)) == 1
      {
        CountKeyIsMultiplicity(all, Key(AllSuits[si], r));
      }
    }
  }
}

/** Playing cards: suits, colours, ranks, the two stacking rules and the
    52-card deck (TrashTalkSolitaire/Models/Card.swift). A card's identity
    for conservation is its (suit, rank) key; the UUID the app attaches to
    every card is not modelled. */
module Cards {

  datatype Option<T> = None | Some(value: T)

  /** Declaration order is the Swift raw-value order 0..3, which fixes the deck order. */
  datatype Suit = Clubs | Diamonds | Hearts | Spades

  datatype CardColor = Red | Black

  const AllSuits: seq<Suit> := [Clubs, Diamonds, Hearts, Spades]

  /** Ranks are the raw values 1 (ace) to 13 (king). */
  type Rank = r: int | 1 <= r <= 13 witness 1

  const Ace: Rank := 1
  const King: Rank := 13

  datatype Card = Card(suit: Suit, rank: Rank, faceUp: bool)

  function Color(s: Suit): CardColor {
    match s
    case Clubs => Black
    case Spades => Black
    case Diamonds => Red
    case Hearts => Red
  }

  function CardColorOf(c: Card): CardColor {
    Color(c.suit)
  }

  function Opposite(c: CardColor): (o: CardColor)
    ensures o != c
    ensures o.Red? <==> c.Black?
  {
    match c
    case Red => Black
    case Black => Red
  }

  lemma OppositeIsInvolution(c: CardColor)
    ensures Opposite(Opposite(c)) == c
    ensures Opposite(c) != c
  {
  }

  /** Clubs and spades are black, diamonds and hearts red: two suits of each colour. */
  lemma SuitColors()
    ensures Color(Clubs) == Black && Color(Spades) == Black
    ensures Color(Diamonds) == Red && Color(Hearts) == Red
    ensures |set s | s in AllSuits && Color(s) == Black| == 2
    ensures |set s | s in AllSuits && Color(s) == Red| == 2
  {
    var blacks := set s | s in AllSuits && Color(s) == Black;
    var reds := set s | s in AllSuits && Color(s) == Red;
    assert blacks == {Clubs, Spades};
    assert reds == {Diamonds, Hearts};
  }

  /** May `c` be laid on `other` in a tableau pile? */
  function CanStackOnTableau(c: Card, other: Card): (ok: bool)
    ensures ok ==> other.faceUp
    ensures ok ==> CardColorOf(other) == Opposite(CardColorOf(c))
    ensures ok ==> c.rank != King && other.rank != Ace
    ensures ok ==> other.rank == c.rank + 1
  {
    other.faceUp && CardColorOf(c) != CardColorOf(other) && c.rank == other.rank - 1
  }

  /** May `c` be laid on a foundation whose top card is `top` (None: empty)? */
  function CanStackOnFoundation(c: Card, top: Option<Card>): (ok: bool)
    ensures top.None? ==> (ok <==> c.rank == Ace)
    ensures top.Some? && ok ==> c.suit == top.value.suit && c.rank != Ace && top.value.rank != King
    ensures top.Some? && ok ==> top.value.rank == c.rank - 1
  {
    match top
    case Some(other) => c.suit == other.suit && c.rank == other.rank + 1
    case None => c.rank == Ace
  }

  /** A king never goes on a tableau card, and nothing goes on a king in a foundation. */
  lemma KingRules(k: Card, c: Card)
    requires k.rank == King
    ensures !CanStackOnTableau(k, c)
    ensures !CanStackOnFoundation(c, Some(k))
  {
  }

  // ---------------------------------------------------------------------
  // Card identity

  datatype Key = Key(suit: Suit, rank: Rank)

  function KeyOf(c: Card): Key {
    Key(c.suit, c.rank)
  }

  function KeySeq(cs: seq<Card>): (ks: seq<Key>)
    ensures |ks| == |cs|
    ensures forall i :: 0 <= i < |cs| ==> ks[i] == KeyOf(cs[i])
  {
    seq(|cs|, i requires 0 <= i < |cs| => KeyOf(cs[i]))
  }

  /** The multiset of identities held by a sequence of cards. */
  function Keys(cs: seq<Card>): multiset<Key> {
    multiset(KeySeq(cs))
  }

  lemma KeysAppend(a: seq<Card>, b: seq<Card>)
    ensures Keys(a + b) == Keys(a) + Keys(b)
  {
    assert KeySeq(a + b) == KeySeq(a) + KeySeq(b);
  }

  /** Cutting a sequence of cards splits its identities. */
  lemma KeysSplit(cs: seq<Card>, i: nat)
    requires i <= |cs|
    ensures Keys(cs) == Keys(cs[..i]) + Keys(cs[i..])
  {
    assert cs == cs[..i] + cs[i..];
    KeysAppend(cs[..i], cs[i..]);
  }

  lemma KeysSize(cs: seq<Card>)
    ensures |Keys(cs)| == |cs|
  {
  }

  /** Every one of the 52 identities occurs exactly once. */
  ghost predicate IsFullSet(cs: seq<Card>) {
    forall k: Key :: Keys(cs)[k] == 1
  }

  /** Sequences with the same identities in any order. */
  ghost predicate SameCards(a: seq<Card>, b: seq<Card>) {
    Keys(a) == Keys(b)
  }

  // ---------------------------------------------------------------------
  // The deck

  /** The thirteen cards of one suit, ace to king, face-down. */
  function SuitRow(s: Suit): (row: seq<Card>)
    ensures |row| == 13
    ensures forall i :: 0 <= i < 13 ==> row[i] == Card(s, i + 1, false)
  {
    seq(13, i requires 0 <= i < 13 => Card(s, i + 1, false))
  }

  /** Suits in declaration order, each with its ranks ace to king. */
  function FullDeck(): seq<Card> {
    SuitRow(Clubs) + SuitRow(Diamonds) + SuitRow(Hearts) + SuitRow(Spades)
  }

  function SuitIndex(s: Suit): nat {
    match s
    case Clubs => 0
    case Diamonds => 1
    case Hearts => 2
    case Spades => 3
  }

  lemma {:induction false} DistinctCount<T>(xs: seq<T>, x: T)
    requires forall i, j :: 0 <= i < j < |xs| ==> xs[i] != xs[j]
    ensures multiset(xs)[x] == if x in xs then 1 else 0
  {
    if |xs| > 0 {
      assert xs == [xs[0]] + xs[1..];
      DistinctCount(xs[1..], x);
      if x == xs[0] {
        assert x !in xs[1..];
      }
    }
  }

  lemma RowKeys(s: Suit, k: Key)
    ensures Keys(SuitRow(s))[k] == if k.suit == s then 1 else 0
  {
    var ks := KeySeq(SuitRow(s));
    assert forall i, j :: 0 <= i < j < |ks| ==> ks[i].rank != ks[j].rank;
    DistinctCount(ks, k);
    if k.suit == s {
      assert ks[k.rank - 1] == k;
    }
  }

  lemma FullDeckLayout(s: Suit, r: Rank)
    ensures |FullDeck()| == 52
    ensures FullDeck()[13 * SuitIndex(s) + r - 1] == Card(s, r, false)
  {
    var d := FullDeck();
    var c, di, h, sp := SuitRow(Clubs), SuitRow(Diamonds), SuitRow(Hearts), SuitRow(Spades);
    assert d == c + di + h + sp;
    match s
    case Clubs => assert d[r - 1] == c[r - 1];
    case Diamonds => assert d[13 + r - 1] == di[r - 1];
    case Hearts => assert d[26 + r - 1] == h[r - 1];
    case Spades => assert d[39 + r - 1] == sp[r - 1];
  }

  lemma FullDeckKey(k: Key)
    ensures Keys(FullDeck())[k] == 1
  {
    var c, di, h, sp := SuitRow(Clubs), SuitRow(Diamonds), SuitRow(Hearts), SuitRow(Spades);
    KeysAppend(c, di);
    KeysAppend(c + di, h);
    KeysAppend(c + di + h, sp);
    RowKeys(Clubs, k);
    RowKeys(Diamonds, k);
    RowKeys(Hearts, k);
    RowKeys(Spades, k);
  }

  /** The deck has 52 face-down cards, card 13*s + (r-1) being rank r of suit s,
      and every (suit, rank) pair exactly once. */
  lemma FullDeckContents()
    ensures |FullDeck()| == 52
    ensures forall i :: 0 <= i < 52 ==> !FullDeck()[i].faceUp
    ensures forall s: Suit, r: Rank :: FullDeck()[13 * SuitIndex(s) + r - 1] == Card(s, r, false)
    ensures IsFullSet(FullDeck())
  {
    forall s: Suit, r: Rank
      ensures FullDeck()[13 * SuitIndex(s) + r - 1] == Card(s, r, false)
    {
      FullDeckLayout(s, r);
    }
    forall k: Key
      ensures Keys(FullDeck())[k] == 1
    {
      FullDeckKey(k);
    }
  }

  /** A sequence holding every identity once has exactly 52 cards. */
  lemma FullSetSize(cs: seq<Card>)
    requires IsFullSet(cs)
    ensures |cs| == 52
  {
    FullDeckContents();
    assert Keys(cs) == Keys(FullDeck());
    KeysSize(cs);
    KeysSize(FullDeck());
  }

  /** Replacing one summand `c` by `b + r` (with `b + r == c`) in a sum,
      stated over bare multisets so that callers need not unfold anything. */
  lemma MultisetRegroup<T>(a: multiset<T>, b: multiset<T>, c: multiset<T>, r: multiset<T>)
    requires b + r == c
    ensures a + b + r == a + c
  {
  }

  /** A part moved from the front of a three-part sum to its end. */
  lemma MultisetRotate<T>(a: multiset<T>, x: multiset<T>, b: multiset<T>, c: multiset<T>)
    ensures (a + x) + b + c == a + b + c + x
  {
  }

  /** Moving a summand `x` from one part of a sum to another. */
  lemma MultisetShift<T>(a: multiset<T>, b: multiset<T>, c: multiset<T>, x: multiset<T>)
    ensures a + (b + x) + c == a + b + (c + x)
  {
  }

  lemma MultisetCancel<T>(a: multiset<T>, b: multiset<T>, c: multiset<T>)
    requires a + b == c + b
    ensures a == c
  {
    forall x: T
      ensures a[x] == c[x]
    {
      assert (a + b)[x] == (c + b)[x];
    }
  }

  /** Being a full set depends only on the identities held. */
  lemma FullSetBySameCards(a: seq<Card>, b: seq<Card>)
    requires IsFullSet(a) && SameCards(a, b)
    ensures IsFullSet(b)
  {
  }
}

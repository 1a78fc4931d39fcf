/** Sequences of piles and the orientation helpers shared by the engine and
    the standalone scripts: concatenation of piles, pile-size sums, the
    reversed face-down recycle, flipping a pile's top card, and the
    "face-down prefix, face-up suffix" shape of a tableau pile. */
module Piles {
  import opened Cards

  /** All piles laid end to end, first pile first (Swift `flatMap { $0 }`). */
  function Flatten(ps: seq<seq<Card>>): seq<Card>
    decreases |ps|
  {
    if |ps| == 0 then [] else ps[0] + Flatten(ps[1..])
  }

  /** Pile sizes added up (Swift `reduce(0) { $0 + $1.count }`). */
  function SumSizes(ps: seq<seq<Card>>): (n: nat)
    decreases |ps|
  {
    if |ps| == 0 then 0 else SumSizes(ps[..|ps| - 1]) + |ps[|ps| - 1]|
  }

  lemma {:induction false} FlattenAppend(ps: seq<seq<Card>>, p: seq<Card>)
    ensures Flatten(ps + [p]) == Flatten(ps) + p
    decreases |ps|
  {
    if |ps| == 0 {
      assert ps + [p] == [p];
    } else {
      assert (ps + [p])[1..] == ps[1..] + [p];
      FlattenAppend(ps[1..], p);
    }
  }

  lemma {:induction false} SumSizesIsFlattenLength(ps: seq<seq<Card>>)
    ensures SumSizes(ps) == |Flatten(ps)|
    decreases |ps|
  {
    if |ps| > 0 {
      var init := ps[..|ps| - 1];
      assert ps == init + [ps[|ps| - 1]];
      SumSizesIsFlattenLength(init);
      FlattenAppend(init, ps[|ps| - 1]);
    }
  }

  /** Replacing pile i by p exchanges exactly the identities of the two piles. */
  lemma {:induction false} FlattenUpdateKeys(ps: seq<seq<Card>>, i: nat, p: seq<Card>)
    requires i < |ps|
    ensures Keys(Flatten(ps[i := p])) + Keys(ps[i]) == Keys(Flatten(ps)) + Keys(p)
    decreases |ps|
  {
    var qs := ps[i := p];
    if i == 0 {
      assert qs[1..] == ps[1..];
      KeysAppend(p, Flatten(ps[1..]));
      KeysAppend(ps[0], Flatten(ps[1..]));
    } else {
      var rest, rest' := Flatten(ps[1..]), Flatten(qs[1..]);
      assert qs[1..] == ps[1..][i - 1 := p];
      assert ps[1..][i - 1] == ps[i];
      FlattenUpdateKeys(ps[1..], i - 1, p);
      assert Keys(rest') + Keys(ps[i]) == Keys(rest) + Keys(p);
      KeysAppend(ps[0], rest');
      KeysAppend(ps[0], rest);
      calc {
        Keys(Flatten(qs)) + Keys(ps[i]);
        Keys(ps[0] + rest') + Keys(ps[i]);
        Keys(ps[0]) + (Keys(rest') + Keys(ps[i]));
        Keys(ps[0]) + (Keys(rest) + Keys(p));
        Keys(ps[0] + rest) + Keys(p);
        Keys(Flatten(ps)) + Keys(p);
      }
    }
  }

  lemma {:induction false} FlattenUpdateSize(ps: seq<seq<Card>>, i: nat, p: seq<Card>)
    requires i < |ps|
    ensures |Flatten(ps[i := p])| + |ps[i]| == |Flatten(ps)| + |p|
    decreases |ps|
  {
    var qs := ps[i := p];
    if i > 0 {
      assert qs[1..] == ps[1..][i - 1 := p];
      FlattenUpdateSize(ps[1..], i - 1, p);
    } else {
      assert qs[1..] == ps[1..];
    }
  }

  /** Seven (or any number of) empty piles hold no cards. */
  lemma {:induction false} FlattenEmpties(ps: seq<seq<Card>>)
    requires forall i :: 0 <= i < |ps| ==> ps[i] == []
    ensures Flatten(ps) == []
    decreases |ps|
  {
    if |ps| > 0 {
      FlattenEmpties(ps[1..]);
    }
  }

  // ---------------------------------------------------------------------
  // Orientation

  function WithFace(c: Card, up: bool): (d: Card)
    ensures KeyOf(d) == KeyOf(c) && d.faceUp == up
  {
    c.(faceUp := up)
  }

  function Reverse<T>(s: seq<T>): (r: seq<T>)
    ensures |r| == |s|
    ensures forall i :: 0 <= i < |s| ==> r[i] == s[|s| - 1 - i]
  {
    seq(|s|, i requires 0 <= i < |s| => s[|s| - 1 - i])
  }

  lemma {:induction false} ReverseMultiset<T>(s: seq<T>)
    ensures multiset(Reverse(s)) == multiset(s)
    decreases |s|
  {
    if |s| > 0 {
      var init := s[..|s| - 1];
      assert s == init + [s[|s| - 1]];
      assert Reverse(s) == [s[|s| - 1]] + Reverse(init);
      ReverseMultiset(init);
    }
  }

  /** Every card turned face-down (or face-up), order kept. */
  function TurnAll(cs: seq<Card>, up: bool): (r: seq<Card>)
    ensures |r| == |cs|
    ensures forall i :: 0 <= i < |cs| ==> r[i] == WithFace(cs[i], up)
  {
    seq(|cs|, i requires 0 <= i < |cs| => WithFace(cs[i], up))
  }

  lemma TurnAllKeys(cs: seq<Card>, up: bool)
    ensures Keys(TurnAll(cs, up)) == Keys(cs)
  {
    assert KeySeq(TurnAll(cs, up)) == KeySeq(cs);
  }

  /** The waste recycled into a stock: reversed and every card face-down. */
  function Recycle(waste: seq<Card>): (stock: seq<Card>)
    ensures |stock| == |waste|
    ensures forall i :: 0 <= i < |waste| ==> stock[i] == WithFace(waste[|waste| - 1 - i], false)
  {
    TurnAll(Reverse(waste), false)
  }

  lemma RecycleKeys(waste: seq<Card>)
    ensures Keys(Recycle(waste)) == Keys(waste)
  {
    TurnAllKeys(Reverse(waste), false);
    assert KeySeq(Reverse(waste)) == Reverse(KeySeq(waste));
    ReverseMultiset(KeySeq(waste));
  }

  /** Recycling twice gives back the waste with every card face-down. */
  lemma RecycleTwice(waste: seq<Card>)
    ensures Recycle(Recycle(waste)) == TurnAll(waste, false)
  {
  }

  function Top(p: seq<Card>): Option<Card> {
    if |p| == 0 then None else Some(p[|p| - 1])
  }

  /** The pile with its top card turned to `up`; an empty pile is left alone. */
  function SetTopFace(p: seq<Card>, up: bool): (q: seq<Card>)
    ensures |q| == |p| && Keys(q) == Keys(p)
    ensures |p| > 0 ==> q[..|p| - 1] == p[..|p| - 1] && q[|p| - 1] == WithFace(p[|p| - 1], up)
    ensures |p| == 0 ==> q == p
  {
    if |p| == 0 then p
    else
      var q := p[|p| - 1 := WithFace(p[|p| - 1], up)];
      assert KeySeq(q) == KeySeq(p);
      q
  }

  /** Once a card is face-up, every card above it is. */
  ghost predicate FaceUpClosed(p: seq<Card>) {
    forall i, j :: 0 <= i < j < |p| && p[i].faceUp ==> p[j].faceUp
  }

  /** A tableau pile's shape: face-up cards closed upwards, and a non-empty
      pile shows its top card. */
  ghost predicate WellFormedPile(p: seq<Card>) {
    FaceUpClosed(p) && (|p| > 0 ==> p[|p| - 1].faceUp)
  }

  ghost predicate AllFaceUp(cs: seq<Card>) {
    forall i :: 0 <= i < |cs| ==> cs[i].faceUp
  }

  ghost predicate AllFaceDown(cs: seq<Card>) {
    forall i :: 0 <= i < |cs| ==> !cs[i].faceUp
  }

  /** Index of the first face-up card, |p| when there is none
      (Swift `firstIndex(where: { $0.isFaceUp })`). */
  function FirstFaceUp(p: seq<Card>): (k: nat)
    ensures k <= |p|
    ensures forall i :: 0 <= i < k ==> !p[i].faceUp
    ensures k < |p| ==> p[k].faceUp
    decreases |p|
  {
    if |p| == 0 then 0
    else if p[0].faceUp then 0
    else 1 + FirstFaceUp(p[1..])
  }

  /** In a well-formed pile the face-up cards are exactly those from FirstFaceUp on. */
  lemma WellFormedSplit(p: seq<Card>, i: nat)
    requires WellFormedPile(p) && i < |p|
    ensures p[i].faceUp <==> i >= FirstFaceUp(p)
  {
  }

  /** Turning the top face-up, cutting the pile, or stacking a face-up run
      on it keeps the face-down-under-face-up shape. */
  lemma FlipTopShape(p: seq<Card>)
    requires FaceUpClosed(p)
    ensures WellFormedPile(SetTopFace(p, true))
    ensures |p| > 0 && p[|p| - 1].faceUp ==> WellFormedPile(p)
  {
  }

  lemma PrefixClosed(p: seq<Card>, i: nat)
    requires FaceUpClosed(p) && i <= |p|
    ensures FaceUpClosed(p[..i])
  {
  }

  lemma StackShape(p: seq<Card>, run: seq<Card>)
    requires FaceUpClosed(p) && AllFaceUp(run) && |run| > 0
    ensures WellFormedPile(p + run)
  {
  }

  /** Cutting a pile down to `pre` where it was `pre + run` removes exactly
      the run's identities from the flattened piles. */
  lemma CutPileKeys(ps: seq<seq<Card>>, i: nat, pre: seq<Card>, run: seq<Card>)
    requires i < |ps| && ps[i] == pre + run
    ensures Keys(Flatten(ps[i := pre])) + Keys(run) == Keys(Flatten(ps))
  {
    FlattenUpdateKeys(ps, i, pre);
    KeysAppend(pre, run);
    MultisetCancel(Keys(Flatten(ps[i := pre])) + Keys(run), Keys(pre), Keys(Flatten(ps)));
  }

  // ---------------------------------------------------------------------
  // Foundations

  /** A foundation built legally: ace upwards in one suit. */
  ghost predicate FoundationOrdered(f: seq<Card>) {
    forall j :: 0 <= j < |f| ==> f[j].rank == j + 1 && f[j].suit == f[0].suit
  }

  /** A legally built foundation holds at most the thirteen cards of its suit. */
  lemma OrderedFoundationSize(f: seq<Card>)
    requires FoundationOrdered(f)
    ensures |f| <= 13
    ensures |f| == 13 ==> f[12].rank == King
  {
    if |f| > 0 {
      assert f[|f| - 1].rank == |f|;
    }
  }

  /** A card the foundation rule accepts keeps a foundation ordered. */
  lemma OrderedAfterPlace(f: seq<Card>, c: Card)
    requires FoundationOrdered(f) && CanStackOnFoundation(c, Top(f))
    ensures FoundationOrdered(f + [c])
  {
  }

  lemma OrderedPrefix(f: seq<Card>, n: nat)
    requires FoundationOrdered(f) && n <= |f|
    ensures FoundationOrdered(f[..n])
  {
  }

  lemma SumOfFour(fs: seq<seq<Card>>)
    requires |fs| == 4
    ensures SumSizes(fs) == |fs[0]| + |fs[1]| + |fs[2]| + |fs[3]|
  {
    assert fs[..3][..2] == fs[..2] && fs[..2][..1] == fs[..1] && fs[..1][..0] == [];
    assert SumSizes(fs[..1]) == |fs[0]|;
    assert SumSizes(fs[..2]) == |fs[0]| + |fs[1]|;
    assert SumSizes(fs[..3]) == |fs[0]| + |fs[1]| + |fs[2]|;
  }
}

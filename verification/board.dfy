/**
 * The whole game state as a value: stock, waste, the four foundations keyed by suit,
 * the seven tableau piles and the score (klondike.py:43-48). Every pile lists its cards
 * bottom first, so the last card is the top (klondike.py:30-40).
 */
module Boards {
  import opened Cards
  import opened Names

  datatype Board = Board(
    stock: seq<Card>,
    waste: seq<Card>,
    foundations: map<Suit, seq<Card>>,
    tableau: seq<seq<Card>>,
    score: int)

  /** One foundation per suit and seven tableau piles. */
  predicate WellFormed(b: Board) {
    (forall s: Suit :: s in b.foundations) && |b.tableau| == 7
  }

  const NoFoundations: map<Suit, seq<Card>> := map[Hearts := [], Diamonds := [], Clubs := [], Spades := []]

  lemma NoFoundationsEmpty()
    ensures forall s: Suit :: s in NoFoundations && NoFoundations[s] == []
  {
    forall s: Suit ensures s in NoFoundations && NoFoundations[s] == [] {
      match s
      case Hearts =>
      case Diamonds =>
      case Clubs =>
      case Spades =>
    }
  }

  /** The cards of the pile a reference names. */
  function Get(b: Board, r: PileRef): seq<Card>
    requires WellFormed(b)
  {
    match r
    case WasteRef => b.waste
    case StockRef => b.stock
    case FoundationRef(s) => b.foundations[s]
    case TableauRef(i) => b.tableau[i]
  }

  /** The board with one pile's cards replaced and everything else as it was. */
  function Set(b: Board, r: PileRef, cs: seq<Card>): (b': Board)
    requires WellFormed(b)
    ensures WellFormed(b') && b'.score == b.score
    ensures Get(b', r) == cs
    ensures forall o: PileRef :: o != r ==> Get(b', o) == Get(b, o)
  {
    match r
    case WasteRef => b.(waste := cs)
    case StockRef => b.(stock := cs)
    case FoundationRef(s) => b.(foundations := b.foundations[s := cs])
    case TableauRef(i) => b.(tableau := b.tableau[i := cs])
  }

  /** Two boards that agree on every pile and on the score are the same board. */
  lemma {:induction false} BoardsEqual(a: Board, b: Board)
    requires WellFormed(a) && WellFormed(b) && a.score == b.score
    requires forall r: PileRef :: Get(a, r) == Get(b, r)
    ensures a == b
  {
    assert a.stock == Get(a, StockRef) && a.waste == Get(a, WasteRef);
    forall s: Suit ensures a.foundations[s] == b.foundations[s] {
      assert Get(a, FoundationRef(s)) == Get(b, FoundationRef(s));
    }
    forall i | 0 <= i < 7 ensures a.tableau[i] == b.tableau[i] {
      assert Get(a, TableauRef(i)) == Get(b, TableauRef(i));
    }
  }

  /** Writing back what a pile already holds changes nothing. */
  lemma SetOfGet(b: Board, r: PileRef)
    requires WellFormed(b)
    ensures Set(b, r, Get(b, r)) == b
  {
    BoardsEqual(Set(b, r, Get(b, r)), b);
  }

  /** A second write to the same pile replaces the first. */
  lemma SetTwice(b: Board, r: PileRef, x: seq<Card>, y: seq<Card>)
    requires WellFormed(b)
    ensures Set(Set(b, r, x), r, y) == Set(b, r, y)
  {
    BoardsEqual(Set(Set(b, r, x), r, y), Set(b, r, y));
  }

  /** The cards of a list of piles, by identity. */
  function PilesIds(ps: seq<seq<Card>>): multiset<CardId> {
    if ps == [] then multiset{} else Ids(ps[0]) + PilesIds(ps[1..])
  }

  /** Every pile of a board, stock first, then the waste, the foundations in suit order and the tableau. */
  function Piles(b: Board): (ps: seq<seq<Card>>)
    requires WellFormed(b)
    ensures |ps| == 13
  {
    var f := b.foundations;
    [b.stock, b.waste, f[Hearts], f[Diamonds], f[Clubs], f[Spades]] + b.tableau
  }

  /** Where a pile sits in Piles. */
  function Slot(r: PileRef): (k: nat)
    ensures k < 13
  {
    match r
    case StockRef => 0
    case WasteRef => 1
    case FoundationRef(s) => 2 + SuitIndex(s)
    case TableauRef(i) => 6 + i
  }

  /** Every card on the board, by identity. */
  function AllIds(b: Board): multiset<CardId>
    requires WellFormed(b)
  {
    PilesIds(Piles(b))
  }

  /** Replacing one pile of a list changes the list's cards by exactly that pile's. */
  lemma {:induction false} PilesIdsUpdate(ps: seq<seq<Card>>, i: nat, cs: seq<Card>)
    requires i < |ps|
    ensures PilesIds(ps[i := cs]) + Ids(ps[i]) == PilesIds(ps) + Ids(cs)
  {
    var qs := ps[i := cs];
    if i == 0 {
      assert qs[1..] == ps[1..];
    } else {
      assert qs[1..] == ps[1..][i - 1 := cs];
      PilesIdsUpdate(ps[1..], i - 1, cs);
      calc {
        PilesIds(qs) + Ids(ps[i]);
        Ids(ps[0]) + (PilesIds(ps[1..][i - 1 := cs]) + Ids(ps[1..][i - 1]));
        Ids(ps[0]) + (PilesIds(ps[1..]) + Ids(cs));
      }
    }
  }

  /** Writing a pile writes its slot in Piles. */
  lemma PilesOfSet(b: Board, r: PileRef, cs: seq<Card>)
    requires WellFormed(b)
    ensures Piles(Set(b, r, cs)) == Piles(b)[Slot(r) := cs]
    ensures Piles(b)[Slot(r)] == Get(b, r)
  {
    var f, t := b.foundations, b.tableau;
    var ps, qs := Piles(b), Piles(Set(b, r, cs));
    match r
    case StockRef =>
    case WasteRef =>
    case FoundationRef(s) =>
      match s {
        case Hearts =>
        case Diamonds =>
        case Clubs =>
        case Spades =>
      }
    case TableauRef(i) =>
      var six := [b.stock, b.waste, f[Hearts], f[Diamonds], f[Clubs], f[Spades]];
      assert qs == six + t[i := cs];
      forall k | 0 <= k < 13 ensures qs[k] == ps[6 + i := cs][k] {
        if k >= 6 {
          assert qs[k] == t[i := cs][k - 6];
        }
      }
  }

  /** Replacing one pile changes the board's cards by exactly that pile's. */
  lemma SetIds(b: Board, r: PileRef, cs: seq<Card>)
    requires WellFormed(b)
    ensures AllIds(Set(b, r, cs)) + Ids(Get(b, r)) == AllIds(b) + Ids(cs)
  {
    PilesOfSet(b, r, cs);
    PilesIdsUpdate(Piles(b), Slot(r), cs);
  }

  function TableauIds(t: seq<seq<Card>>): multiset<CardId>
    requires |t| == 7
  {
    Ids(t[0]) + Ids(t[1]) + Ids(t[2]) + Ids(t[3]) + Ids(t[4]) + Ids(t[5]) + Ids(t[6])
  }

  function FoundationIds(f: map<Suit, seq<Card>>): multiset<CardId>
    requires forall s: Suit :: s in f
  {
    Ids(f[Hearts]) + Ids(f[Diamonds]) + Ids(f[Clubs]) + Ids(f[Spades])
  }

  lemma TableauIdsSum(t: seq<seq<Card>>)
    requires |t| == 7
    ensures PilesIds(t) == TableauIds(t)
  {
    forall k | 0 <= k < 7 ensures PilesIds(t[k..]) == Ids(t[k]) + PilesIds(t[k + 1..]) {
      assert t[k..][1..] == t[k + 1..];
    }
    assert t[7..] == [] && t[0..] == t;
  }

  /** The board's cards, pile kind by pile kind. */
  lemma AllIdsSum(b: Board)
    requires WellFormed(b)
    ensures AllIds(b) == Ids(b.stock) + Ids(b.waste) + FoundationIds(b.foundations) + TableauIds(b.tableau)
  {
    var f, t, ps := b.foundations, b.tableau, Piles(b);
    PilesIdsHead(ps);
    assert ps[6..] == t;
    TableauIdsSum(t);
    assert ps[0] == b.stock && ps[1] == b.waste && ps[2] == f[Hearts];
    assert ps[3] == f[Diamonds] && ps[4] == f[Clubs] && ps[5] == f[Spades];
  }

  /** The first six piles of a list, counted one by one. */
  lemma PilesIdsHead(ps: seq<seq<Card>>)
    requires |ps| >= 6
    ensures PilesIds(ps) == Ids(ps[0]) + Ids(ps[1]) + (Ids(ps[2]) + Ids(ps[3]) + Ids(ps[4]) + Ids(ps[5])) + PilesIds(ps[6..])
  {
    forall k | 0 <= k < 6 ensures PilesIds(ps[k..]) == Ids(ps[k]) + PilesIds(ps[k + 1..]) {
      assert ps[k..][1..] == ps[k + 1..];
    }
    assert ps[0..] == ps;
  }

  /** The score is not a card. */
  lemma AllIdsIgnoresScore(b: Board, score: int)
    requires WellFormed(b)
    ensures AllIds(b.(score := score)) == AllIds(b)
  {
    assert Piles(b.(score := score)) == Piles(b);
  }

  lemma Cancel(x: multiset<CardId>, y: multiset<CardId>, z: multiset<CardId>)
    requires x + z == y + z
    ensures x == y
  {
    assert forall e :: x[e] == (x + z)[e] - z[e];
  }

  /** Putting cards on top of a pile adds exactly those cards to the board. */
  lemma AddOnTopIds(b: Board, to: PileRef, moved: seq<Card>)
    requires WellFormed(b)
    ensures AllIds(Set(b, to, Get(b, to) + moved)) == AllIds(b) + Ids(moved)
  {
    var d := Get(b, to);
    var x, a, dm, m, di := AllIds(Set(b, to, d + moved)), AllIds(b), Ids(d + moved), Ids(moved), Ids(d);
    IdsAppend(d, moved);
    SetIds(b, to, d + moved);
    assert x + di == a + dm;
    assert dm == di + m;
    assert x + di == (a + m) + di;
    Cancel(x, a + m, di);
  }

  /** Taking cards off the top of a pile removes exactly those cards from the board. */
  lemma TakeOffTopIds(b: Board, from: PileRef, keep: seq<Card>, moved: seq<Card>)
    requires WellFormed(b) && Get(b, from) == keep + moved
    ensures AllIds(Set(b, from, keep)) + Ids(moved) == AllIds(b)
  {
    var x, a, km, k, m := AllIds(Set(b, from, keep)), AllIds(b), Ids(keep + moved), Ids(keep), Ids(moved);
    IdsAppend(keep, moved);
    SetIds(b, from, keep);
    assert x + km == a + k;
    assert km == k + m;
    assert (x + m) + k == a + k;
    Cancel(x + m, a, k);
  }

  /** Moving cards off the top of one pile onto another keeps the board's cards, in either order of the two writes. */
  lemma TransferKeepsIds(b: Board, from: PileRef, to: PileRef, keep: seq<Card>, moved: seq<Card>)
    requires WellFormed(b) && from != to && Get(b, from) == keep + moved
    ensures AllIds(Set(Set(b, to, Get(b, to) + moved), from, keep)) == AllIds(b)
    ensures AllIds(Set(Set(b, from, keep), to, Get(b, to) + moved)) == AllIds(b)
  {
    var m := Ids(moved);
    var b1 := Set(b, to, Get(b, to) + moved);
    AddOnTopIds(b, to, moved);
    assert Get(b1, from) == keep + moved;
    TakeOffTopIds(b1, from, keep, moved);
    assert AllIds(Set(b1, from, keep)) + m == AllIds(b) + m;
    Cancel(AllIds(Set(b1, from, keep)), AllIds(b), m);
    var c1 := Set(b, from, keep);
    TakeOffTopIds(b, from, keep, moved);
    assert Get(c1, to) == Get(b, to);
    AddOnTopIds(c1, to, moved);
  }

  /** The cards a player has won: all four foundations hold thirteen cards (klondike.py:137-139). */
  predicate IsWon(b: Board)
    requires WellFormed(b)
    ensures IsWon(b) ==> forall k :: 0 <= k < |Suits| ==> |b.foundations[Suits[k]]| == 13
  {
    forall s: Suit :: |b.foundations[s]| == 13
  }

  /** Winning checks the four suits one by one, as the source's loop over its suit list does. */
  lemma IsWonBySuit(b: Board)
    requires WellFormed(b)
    ensures IsWon(b) <==>
      |b.foundations[Hearts]| == 13 && |b.foundations[Diamonds]| == 13 &&
      |b.foundations[Clubs]| == 13 && |b.foundations[Spades]| == 13
  {
    if |b.foundations[Hearts]| == 13 && |b.foundations[Diamonds]| == 13 &&
       |b.foundations[Clubs]| == 13 && |b.foundations[Spades]| == 13 {
      forall s: Suit ensures |b.foundations[s]| == 13 {
        match s
        case Hearts =>
        case Diamonds =>
        case Clubs =>
        case Spades =>
      }
    }
  }

  /**
   * With the 52 cards of a deck on the board, a won game has nothing left in the stock,
   * the waste or the tableau.
   */
  lemma WonLeavesNothingElse(b: Board)
    requires WellFormed(b) && |AllIds(b)| == 52 && IsWon(b)
    ensures b.stock == [] && b.waste == []
    ensures forall i :: 0 <= i < 7 ==> b.tableau[i] == []
  {
    AllIdsSum(b);
    var f := b.foundations;
    IdsSize(f[Hearts]);
    IdsSize(f[Diamonds]);
    IdsSize(f[Clubs]);
    IdsSize(f[Spades]);
    IdsSize(b.stock);
    IdsSize(b.waste);
    var t := b.tableau;
    IdsSize(t[0]);
    IdsSize(t[1]);
    IdsSize(t[2]);
    IdsSize(t[3]);
    IdsSize(t[4]);
    IdsSize(t[5]);
    IdsSize(t[6]);
    assert |FoundationIds(f)| == 52;
  }
}

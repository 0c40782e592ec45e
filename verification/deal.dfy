/**
 * The opening deal of Game.setup (klondike.py:51-62) on a deck already shuffled: the
 * deal takes cards from the end of the deck, pile by pile, and the 24 cards left go to
 * the stock in deck order.
 */
module Dealing {
  import opened Cards
  import opened Names
  import opened Boards

  /** Cards dealt to the first n tableau piles: 1 + 2 + ... + n. */
  function Dealt(n: nat): nat {
    if n == 0 then 0 else Dealt(n - 1) + n
  }

  lemma DealtValues()
    ensures Dealt(0) == 0 && Dealt(1) == 1 && Dealt(2) == 3 && Dealt(3) == 6
    ensures Dealt(4) == 10 && Dealt(5) == 15 && Dealt(6) == 21 && Dealt(7) == 28
  {
  }

  lemma DealtBound(i: TableauIndex)
    ensures Dealt(i) + i <= 27
  {
    DealtValues();
  }

  /**
   * Tableau pile i as dealt: the deck's cards from position 51 - Dealt(i) downwards,
   * i + 1 of them, with only the last one face up.
   */
  function DealtPile(deck: seq<Card>, i: TableauIndex): (p: seq<Card>)
    requires |deck| == 52
    ensures |p| == i + 1
  {
    DealtBound(i);
    seq(i + 1, j requires 0 <= j <= i => deck[51 - Dealt(i) - j].(faceUp := j == i))
  }

  /** The board setup leaves behind. */
  function Deal(deck: seq<Card>): (b: Board)
    requires |deck| == 52
    ensures WellFormed(b)
  {
    NoFoundationsEmpty();
    Board(deck[..24], [], NoFoundations, seq(7, i requires 0 <= i < 7 => DealtPile(deck, i)), 0)
  }

  /** A deck as the shuffle leaves it: the 52 distinct cards, all face down. */
  predicate IsShuffledDeck(deck: seq<Card>) {
    |deck| == 52 && Ids(deck) == Ids(FullDeck()) && forall k :: 0 <= k < |deck| ==> !deck[k].faceUp
  }

  /** The unshuffled deck is one of them. */
  lemma FullDeckIsShuffledDeck()
    ensures IsShuffledDeck(FullDeck())
  {
  }

  /**
   * After the deal pile i holds i + 1 cards with only its top face up, the stock holds the
   * other 24 face down, and the waste, the foundations and the score start empty.
   */
  lemma DealShape(deck: seq<Card>)
    requires |deck| == 52 && forall k :: 0 <= k < 52 ==> !deck[k].faceUp
    ensures var b := Deal(deck);
      && |b.stock| == 24 && (forall k :: 0 <= k < 24 ==> !b.stock[k].faceUp)
      && b.waste == [] && (forall s: Suit :: b.foundations[s] == []) && b.score == 0
      && (forall i :: 0 <= i < 7 ==> |b.tableau[i]| == i + 1 && b.tableau[i][i].faceUp)
      && (forall i, j :: 0 <= j < i < 7 ==> !b.tableau[i][j].faceUp)
  {
  }

  lemma IdsSplit(cs: seq<Card>, k: nat)
    requires k <= |cs|
    ensures Ids(cs) == Ids(cs[..k]) + Ids(cs[k..])
  {
    assert cs == cs[..k] + cs[k..];
    IdsAppend(cs[..k], cs[k..]);
  }

  /** Pile i holds, turned round, the deck's cards between positions 51 - Dealt(i) - i and 52 - Dealt(i). */
  lemma DealtPileIds(deck: seq<Card>, i: TableauIndex)
    requires |deck| == 52
    ensures Dealt(i) + i <= 27
    ensures Ids(DealtPile(deck, i)) == Ids(deck[51 - Dealt(i) - i..52 - Dealt(i)])
  {
    DealtBound(i);
    var seg := deck[51 - Dealt(i) - i..52 - Dealt(i)];
    assert IdSeq(DealtPile(deck, i)) == IdSeq(Reversed(seg));
    IdsReversed(seg);
  }

  /** The deck's cards after the 24 left for the stock, cut where the deal cuts them. */
  lemma DealtPartIds(deck: seq<Card>)
    requires |deck| == 52
    ensures Ids(deck[24..]) == Ids(deck[24..31]) + Ids(deck[31..37]) + Ids(deck[37..42])
      + Ids(deck[42..46]) + Ids(deck[46..49]) + Ids(deck[49..51]) + Ids(deck[51..52])
  {
    var d := deck[24..];
    IdsSplit(d, 7);
    IdsSplit(d[7..], 6);
    IdsSplit(d[13..], 5);
    IdsSplit(d[18..], 4);
    IdsSplit(d[22..], 3);
    IdsSplit(d[25..], 2);
    assert d[..7] == deck[24..31] && d[7..][..6] == deck[31..37] && d[13..][..5] == deck[37..42];
    assert d[18..][..4] == deck[42..46] && d[22..][..3] == deck[46..49] && d[25..][..2] == deck[49..51];
    assert d[7..][6..] == d[13..] && d[13..][5..] == d[18..] && d[18..][4..] == d[22..];
    assert d[22..][3..] == d[25..] && d[25..][2..] == deck[51..52];
  }

  /** Pile i of the deal, named by the deck positions its cards come from. */
  lemma DealtPileSegment(deck: seq<Card>, i: TableauIndex, lo: nat, hi: nat)
    requires |deck| == 52 && hi == 52 - Dealt(i) && lo + i + 1 == hi
    ensures lo <= hi <= 52
    ensures Ids(Deal(deck).tableau[i]) == Ids(deck[lo..hi])
  {
    DealtPileIds(deck, i);
  }

  /** The dealt tableau holds exactly the deck's cards after the first 24. */
  lemma TableauDealtIds(deck: seq<Card>)
    requires |deck| == 52
    ensures TableauIds(Deal(deck).tableau) == Ids(deck[24..])
  {
    var t := Deal(deck).tableau;
    DealtValues();
    DealtPileSegment(deck, 0, 51, 52);
    DealtPileSegment(deck, 1, 49, 51);
    DealtPileSegment(deck, 2, 46, 49);
    DealtPileSegment(deck, 3, 42, 46);
    DealtPileSegment(deck, 4, 37, 42);
    DealtPileSegment(deck, 5, 31, 37);
    DealtPileSegment(deck, 6, 24, 31);
    DealtPartIds(deck);
  }

  /** The deal neither loses nor duplicates a card: the board holds exactly the deck's cards. */
  lemma DealKeepsEveryCard(deck: seq<Card>)
    requires |deck| == 52
    ensures AllIds(Deal(deck)) == Ids(deck)
  {
    var b := Deal(deck);
    TableauDealtIds(deck);
    IdsSplit(deck, 24);
    NoFoundationsEmpty();
    assert FoundationIds(b.foundations) == multiset{};
    AllIdsSum(b);
    calc {
      AllIds(b);
      Ids(deck[..24]) + Ids([]) + FoundationIds(b.foundations) + TableauIds(b.tableau);
      Ids(deck[..24]) + Ids(deck[24..]);
    }
  }

  /** A game dealt from a shuffled deck holds 52 cards, each of the 52 (rank, suit) pairs exactly once. */
  lemma DealHoldsEachCardOnce(deck: seq<Card>, id: CardId)
    requires IsShuffledDeck(deck)
    ensures AllIds(Deal(deck))[id] == 1 && |AllIds(Deal(deck))| == 52
  {
    DealKeepsEveryCard(deck);
    FullDeckHasEachCardOnce(id);
    IdsSize(deck);
  }
}

/**
 * Suits, colours, ranks and cards of the 52-card deck (klondike.py:5-24, 52).
 *
 * A card's rank is kept as its index in the source's rank list A, 2, ..., 10, J, Q, K,
 * which is what every rule of the game compares.
 */
module Cards {
  import opened Wrappers

  datatype Suit = Hearts | Diamonds | Clubs | Spades

  /** The suits in the order the source lists them; the deck is built in this order. */
  const Suits: seq<Suit> := [Hearts, Diamonds, Clubs, Spades]

  /** The one-letter key the source uses for a suit. */
  function SuitKey(s: Suit): char {
    match s
    case Hearts => 'H'
    case Diamonds => 'D'
    case Clubs => 'C'
    case Spades => 'S'
  }

  /** The suit a key letter stands for; None where the source's dictionary has no such key. */
  function SuitOfKey(c: char): (r: Option<Suit>)
    ensures r.Some? ==> SuitKey(r.value) == c
    ensures r.None? <==> forall s: Suit :: SuitKey(s) != c
  {
    if c == 'H' then Some(Hearts)
    else if c == 'D' then Some(Diamonds)
    else if c == 'C' then Some(Clubs)
    else if c == 'S' then Some(Spades)
    else None
  }

  lemma SuitKeyRoundTrip(s: Suit)
    ensures SuitOfKey(SuitKey(s)) == Some(s)
  {
  }

  datatype Color = Red | Black

  /** The source's colour table: hearts and diamonds are red, clubs and spades black. */
  function SuitColor(s: Suit): (c: Color)
    ensures c == Red <==> SuitKey(s) == 'H' || SuitKey(s) == 'D'
  {
    if s == Hearts || s == Diamonds then Red else Black
  }

  /** Position of a rank in A, 2, ..., 10, J, Q, K. */
  type Rank = r: int | 0 <= r < 13

  const Ace: Rank := 0
  const King: Rank := 12

  /** The source's rank names, in order. */
  const RankNames: seq<string> := ["A", "2", "3", "4", "5", "6", "7", "8", "9", "10", "J", "Q", "K"]

  /** The source's RANKS.index: the position of a rank name, None where the name is not a rank. */
  function RankIndex(name: string): (r: Option<Rank>)
    ensures r.Some? ==> RankNames[r.value] == name
  {
    RankIndexFrom(name, 0)
  }

  function RankIndexFrom(name: string, from: nat): (r: Option<Rank>)
    requires from <= 13
    ensures r.Some? ==> from <= r.value && RankNames[r.value] == name
    ensures r.None? ==> forall k :: from <= k < 13 ==> RankNames[k] != name
    decreases 13 - from
  {
    if from == 13 then None
    else if RankNames[from] == name then Some(from)
    else RankIndexFrom(name, from + 1)
  }

  /** Ranks are named without repetition, so comparing indices is comparing the source's rank strings. */
  lemma RankIndexOfName(r: Rank)
    ensures RankIndex(RankNames[r]) == Some(r)
  {
    assert forall i, j :: 0 <= i < j < 13 ==> RankNames[i] != RankNames[j];
  }

  /** A card as the source's dataclass holds it: rank, suit and whether it is face up. */
  datatype Card = Card(rank: Rank, suit: Suit, faceUp: bool) {
    function Color(): Color {
      SuitColor(suit)
    }
  }

  /** What identifies a card in the deck: its rank and suit, but not which way up it lies. */
  datatype CardId = CardId(rank: Rank, suit: Suit)

  function Id(c: Card): CardId {
    CardId(c.rank, c.suit)
  }

  function IdSeq(cs: seq<Card>): (r: seq<CardId>)
    ensures |r| == |cs|
  {
    seq(|cs|, k requires 0 <= k < |cs| => Id(cs[k]))
  }

  /** The multiset of card identities in a pile. */
  function Ids(cs: seq<Card>): multiset<CardId> {
    multiset(IdSeq(cs))
  }

  lemma IdsAppend(a: seq<Card>, b: seq<Card>)
    ensures Ids(a + b) == Ids(a) + Ids(b)
  {
    assert IdSeq(a + b) == IdSeq(a) + IdSeq(b);
  }

  lemma IdsSize(cs: seq<Card>)
    ensures |Ids(cs)| == |cs|
  {
  }

  /** The cards in reverse order: what pushing every card of a pile onto another, top first, yields. */
  function Reversed(cs: seq<Card>): (r: seq<Card>)
    ensures |r| == |cs|
  {
    seq(|cs|, k requires 0 <= k < |cs| => cs[|cs| - 1 - k])
  }

  lemma {:induction false} IdsReversed(cs: seq<Card>)
    ensures Ids(Reversed(cs)) == Ids(cs)
  {
    if cs != [] {
      var n := |cs|;
      assert Reversed(cs) == [cs[n - 1]] + Reversed(cs[..n - 1]);
      assert cs == cs[..n - 1] + [cs[n - 1]];
      IdsReversed(cs[..n - 1]);
      IdsAppend([cs[n - 1]], Reversed(cs[..n - 1]));
      IdsAppend(cs[..n - 1], [cs[n - 1]]);
    }
  }

  /** Every card turned to the given side. */
  function Turned(cs: seq<Card>, up: bool): (r: seq<Card>)
    ensures |r| == |cs|
    ensures forall k :: 0 <= k < |r| ==> r[k].faceUp == up
  {
    seq(|cs|, k requires 0 <= k < |cs| => cs[k].(faceUp := up))
  }

  lemma IdsTurned(cs: seq<Card>, up: bool)
    ensures Ids(Turned(cs, up)) == Ids(cs)
  {
    assert IdSeq(Turned(cs, up)) == IdSeq(cs);
  }

  /** The deck in the order klondike.py:52 builds it: suit by suit, each from Ace to King, all face down. */
  function FullDeck(): (r: seq<Card>)
    ensures |r| == 52
    ensures forall k :: 0 <= k < |r| ==> !r[k].faceUp
  {
    seq(52, k requires 0 <= k < 52 => Card(k % 13, Suits[k / 13], false))
  }

  function SuitIndex(s: Suit): (r: nat)
    ensures r < 4 && Suits[r] == s
  {
    match s
    case Hearts => 0
    case Diamonds => 1
    case Clubs => 2
    case Spades => 3
  }

  /** Where a card sits in the unshuffled deck. */
  function DeckPosition(id: CardId): (r: nat)
    ensures r < 52 && Id(FullDeck()[r]) == id
  {
    var r := SuitIndex(id.suit) * 13 + id.rank;
    assert r % 13 == id.rank && r / 13 == SuitIndex(id.suit);
    r
  }

  lemma {:induction false} FullDeckPrefix(n: nat, id: CardId)
    requires n <= 52
    ensures Ids(FullDeck()[..n])[id] == if DeckPosition(id) < n then 1 else 0
  {
    if n > 0 {
      var deck := FullDeck();
      assert deck[..n] == deck[..n - 1] + [deck[n - 1]];
      IdsAppend(deck[..n - 1], [deck[n - 1]]);
      FullDeckPrefix(n - 1, id);
      var m := n - 1;
      if Id(deck[m]) == id {
        assert DeckPosition(id) == m by {
          var p := DeckPosition(id);
          assert p % 13 == m % 13 && p / 13 == m / 13;
        }
      } else {
        assert DeckPosition(id) != m;
      }
    }
  }

  /** The built deck holds each of the 52 (rank, suit) pairs exactly once. */
  lemma FullDeckHasEachCardOnce(id: CardId)
    ensures Ids(FullDeck())[id] == 1
  {
    FullDeckPrefix(52, id);
    assert FullDeck()[..52] == FullDeck();
  }
}

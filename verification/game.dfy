/**
 * The game object of klondike.py: piles that are changed in place and a Game whose
 * methods deal, draw and move by popping, pushing, extending and cutting those piles.
 * Every method is proved against the board-level functions of the other modules through
 * State(), the value the object currently stands for.
 */
module Engine {
  import opened Wrappers
  import opened Cards
  import opened Rules
  import opened Names
  import opened Boards
  import opened Dealing
  import opened Drawing
  import opened Moving

  /** A pile of cards, bottom first (klondike.py:26-40). */
  class Pile {
    var cards: seq<Card>

    constructor ()
      ensures cards == []
    {
      cards := [];
    }

    /** The top card, or None on an empty pile. */
    function Top(): (r: Option<Card>)
      reads this
      ensures r.Some? <==> cards != []
      ensures r.Some? ==> r.value == cards[|cards| - 1]
    {
      if cards == [] then None else Some(cards[|cards| - 1])
    }

    predicate IsEmpty()
      reads this
      ensures IsEmpty() <==> Top() == None
    {
      |cards| == 0
    }

    method Push(card: Card)
      modifies this
      ensures cards == old(cards) + [card]
    {
      cards := cards + [card];
    }

    /** Takes the top card off, or returns None and changes nothing on an empty pile. */
    method Pop() returns (r: Option<Card>)
      modifies this
      ensures old(cards) == [] ==> r == None && cards == []
      ensures old(cards) != [] ==> r.Some? && old(cards) == cards + [r.value]
    {
      if cards == [] {
        r := None;
      } else {
        r := Some(cards[|cards| - 1]);
        cards := cards[..|cards| - 1];
      }
    }
  }

  class Game {
    const stock: Pile
    const waste: Pile
    const foundations: map<Suit, Pile>
    var tableau: seq<seq<Card>>
    var score: int

    /** One distinct pile object each for the stock, the waste and every suit, and seven tableau piles. */
    ghost predicate Valid()
      reads this
    {
      && (forall s: Suit :: s in foundations)
      && |tableau| == 7
      && stock != waste
      && (forall s: Suit :: foundations[s] != stock && foundations[s] != waste)
      && (forall s: Suit, u: Suit :: s != u ==> foundations[s] != foundations[u])
    }

    /** The board this game stands for. */
    ghost function State(): (b: Board)
      requires Valid()
      reads this, stock, waste, foundations.Values
      ensures WellFormed(b)
    {
      Board(stock.cards, waste.cards, map s: Suit :: foundations[s].cards, tableau, score)
    }

    /** A new game, dealt from the given shuffled deck (klondike.py:43-49). */
    constructor (deck: seq<Card>)
      requires IsShuffledDeck(deck)
      ensures Valid() && State() == Deal(deck)
      ensures fresh(stock) && fresh(waste) && fresh(foundations.Values)
    {
      stock := new Pile();
      waste := new Pile();
      var f := NewFoundations();
      foundations := f;
      tableau := [[], [], [], [], [], [], []];
      score := 0;
      new;
      Setup(deck);
      NoFoundationsEmpty();
      assert State().foundations == NoFoundations;
      BoardsEqual(State(), Deal(deck));
    }

    /** One new, empty pile per suit. */
    static method NewFoundations() returns (f: map<Suit, Pile>)
      ensures forall u: Suit :: u in f && fresh(f[u]) && f[u].cards == []
      ensures forall u: Suit, v: Suit :: u != v ==> f[u] != f[v]
    {
      var h := new Pile();
      var d := new Pile();
      var c := new Pile();
      var s := new Pile();
      f := map[Hearts := h, Diamonds := d, Clubs := c, Spades := s];
      forall u: Suit ensures u in f && fresh(f[u]) && f[u].cards == [] {
        match u
        case Hearts =>
        case Diamonds =>
        case Clubs =>
        case Spades =>
      }
      forall u: Suit, v: Suit | u != v ensures f[u] != f[v] {
        match u
        case Hearts =>
        case Diamonds =>
        case Clubs =>
        case Spades =>
      }
    }

    /**
     * Game.setup (klondike.py:51-62) on an already shuffled deck: cards are popped off the
     * end of the deck onto the tableau, i + 1 of them for pile i and only the last face up;
     * the cards left over are pushed on the stock in deck order.
     */
    method Setup(deck: seq<Card>)
      requires Valid() && |deck| == 52
      modifies this, stock
      ensures Valid()
      ensures stock.cards == old(stock.cards) + deck[..24]
      ensures forall i :: 0 <= i < 7 ==> tableau[i] == old(tableau[i]) + DealtPile(deck, i)
      ensures score == old(score)
    {
      ghost var t0 := tableau;
      var rest := deck;
      DealtValues();
      for i := 0 to 7
        modifies this
        invariant |tableau| == 7 && Dealt(i) <= 28 && score == old(score)
        invariant rest == deck[..52 - Dealt(i)]
        invariant forall k :: 0 <= k < i ==> tableau[k] == t0[k] + DealtPile(deck, k)
        invariant forall k :: i <= k < 7 ==> tableau[k] == t0[k]
      {
        DealtBound(i);
        ghost var t1 := tableau;
        for j := 0 to i + 1
          modifies this
          invariant |tableau| == 7 && score == old(score)
          invariant rest == deck[..52 - Dealt(i) - j]
          invariant tableau[i] == t0[i] + DealtPile(deck, i)[..j]
          invariant forall k :: 0 <= k < 7 && k != i ==> tableau[k] == t1[k]
        {
          var card := rest[|rest| - 1];
          rest := rest[..|rest| - 1];
          card := card.(faceUp := j == i);
          assert DealtPile(deck, i)[..j + 1] == DealtPile(deck, i)[..j] + [card];
          tableau := tableau[i := tableau[i] + [card]];
        }
        assert DealtPile(deck, i)[..i + 1] == DealtPile(deck, i);
      }
      DealtValues();
      ghost var s0 := stock.cards;
      for k := 0 to |rest|
        modifies stock
        invariant stock.cards == s0 + rest[..k]
      {
        stock.Push(rest[k]);
      }
      assert rest[..|rest|] == deck[..24];
    }
    /** The cards of the pile a reference names. */
    function PileCards(r: PileRef): (cs: seq<Card>)
      requires Valid()
      reads this, stock, waste, foundations.Values
      ensures cs == Get(State(), r)
    {
      match r
      case WasteRef => waste.cards
      case StockRef => stock.cards
      case FoundationRef(s) => foundations[s].cards
      case TableauRef(i) => tableau[i]
    }

    /** Gives one pile new cards and leaves every other pile and the score alone. */
    method Replace(r: PileRef, cs: seq<Card>)
      requires Valid()
      modifies this, stock, waste, foundations.Values
      ensures Valid() && State() == Set(old(State()), r, cs)
    {
      match r
      case WasteRef => waste.cards := cs;
      case StockRef => stock.cards := cs;
      case FoundationRef(s) => foundations[s].cards := cs;
      case TableauRef(i) => tableau := tableau[i := cs];
      BoardsEqual(State(), Set(old(State()), r, cs));
    }

    /**
     * Game.draw (klondike.py:64-76): with an empty stock, pops every waste card, turns it
     * down and pushes it on the stock, then takes 15 points; otherwise pops the stock's
     * top card, turns it up and pushes it on the waste.
     */
    method Draw()
      requires Valid()
      modifies this, stock, waste
      ensures Valid() && State() == Drawing.Draw(old(State()))
    {
      if stock.IsEmpty() {
        ghost var w0 := waste.cards;
        while !waste.IsEmpty()
          modifies stock, waste
          invariant waste.cards == w0[..|waste.cards|]
          invariant stock.cards == Turned(Reversed(w0[|waste.cards|..]), false)
          decreases |waste.cards|
        {
          ghost var m := |waste.cards|;
          var card := waste.Pop();
          assert card.value == w0[m - 1];
          stock.Push(card.value.(faceUp := false));
          assert Reversed(w0[m - 1..]) == Reversed(w0[m..]) + [w0[m - 1]];
        }
        score := score - 15;
      } else {
        var card := stock.Pop();
        waste.Push(card.value.(faceUp := true));
      }
    }

    /**
     * Game.move (klondike.py:90-135): both names are looked up, the cards are taken by
     * the block path or the single-card path, and a successful move is settled: a
     * face-down card left on top of a tableau source is turned up, then the move scores.
     */
    method Move(source: string, target: string, count: int) returns (outcome: Outcome)
      requires Valid() && IsUpper(source) && IsUpper(target)
      modifies this, stock, waste, foundations.Values
      ensures Valid() && MoveResult(outcome, State()) == Moving.Move(old(State()), source, target, count)
    {
      var s, t := GetPile(source), GetPile(target);
      if s == Raises || t == Raises {
        return Raised;
      }
      if s == NoPile || t == NoPile {
        return Rejected;
      }
      var src, dst := s.pile, t.pile;
      if StartsWith(source, 'T') && count > 1 {
        outcome := ShiftBlock(src, dst, source, target, count);
      } else {
        outcome := ShiftCard(src, dst, source, target);
      }
      if outcome == Applied {
        SettleMove(src, source, target);
      }
    }

    /**
     * The block path (klondike.py:97-106): the top count cards of the source, all face up
     * and accepted by the tableau rule on the target, are added to the target and cut
     * from the source. The settling is left to the caller.
     */
    method ShiftBlock(src: PileRef, dst: PileRef, source: string, target: string, count: int) returns (outcome: Outcome)
      requires Valid() && count > 1
      modifies this, stock, waste, foundations.Values
      ensures Valid()
      ensures var r := MoveBlock(old(State()), src, dst, source, target, count);
        outcome == r.outcome && (outcome != Applied ==> State() == r.board)
      ensures outcome == Applied ==> MoveBlock(old(State()), src, dst, source, target, count).board == Settle(State(), src, source, target)
    {
      var movable := TopCards(PileCards(src), count);
      if !AllFaceUp(movable) {
        return Rejected;
      }
      if movable == [] {
        return Raised;
      }
      if !CanMoveToTableau(movable[0], PileCards(dst)) {
        return Rejected;
      }
      Replace(dst, PileCards(dst) + movable);
      Replace(src, WithoutTop(PileCards(src), count));
      return Applied;
    }

    /**
     * The single-card path (klondike.py:107-124): the source's top card is popped and
     * pushed on a tableau pile or foundation whose rule takes it; otherwise it is pushed
     * back. The settling is left to the caller.
     */
    method ShiftCard(src: PileRef, dst: PileRef, source: string, target: string) returns (outcome: Outcome)
      requires Valid() && IsUpper(target) && GetPile(target) == Found(dst)
      modifies this, stock, waste, foundations.Values
      ensures Valid()
      ensures var r := MoveCard(old(State()), src, dst, source, target);
        outcome == r.outcome && (outcome != Applied ==> State() == r.board)
      ensures outcome == Applied ==> MoveCard(old(State()), src, dst, source, target).board == Settle(State(), src, source, target)
    {
      var pile := PileCards(src);
      if pile == [] {
        return Raised;
      }
      var card := pile[|pile| - 1];
      Replace(src, pile[..|pile| - 1]);
      if StartsWith(target, 'T') {
        if !CanMoveToTableau(card, PileCards(dst)) {
          Replace(src, PileCards(src) + [card]);
          return Rejected;
        }
        Replace(dst, PileCards(dst) + [card]);
      } else if StartsWith(target, 'F') {
        ResolvedNameLetters(target, dst);
        SuitKeyRoundTrip(dst.suit);
        var f := FoundationRef(SuitOfKey(target[1]).value);
        if !CanMoveToFoundation(card, PileCards(f)) {
          Replace(src, PileCards(src) + [card]);
          return Rejected;
        }
        Replace(f, PileCards(f) + [card]);
      } else {
        Replace(src, PileCards(src) + [card]);
        return Rejected;
      }
      return Applied;
    }

    /** The end of a successful move (klondike.py:125-134): turn up an exposed tableau card, then score. */
    method SettleMove(src: PileRef, source: string, target: string)
      requires Valid()
      modifies this, stock, waste, foundations.Values
      ensures Valid() && State() == Settle(old(State()), src, source, target)
    {
      var flipped := TurnUpExposed(src, StartsWith(source, 'T'));
      var points := if StartsWith(target, 'F') then 10 else 5;
      if flipped {
        points := points + 5;
      }
      AddScore(points);
    }

    /** Adds to the score and changes nothing else. */
    method AddScore(points: int)
      requires Valid()
      modifies this
      ensures Valid() && State() == old(State()).(score := old(State()).score + points)
    {
      score := score + points;
    }

    /** Turns up the top card of a tableau source when the move has left it face down (klondike.py:125-128). */
    method TurnUpExposed(src: PileRef, fromTableau: bool) returns (flipped: bool)
      requires Valid()
      modifies this, stock, waste, foundations.Values
      ensures Valid() && flipped == Exposes(old(State()), src, fromTableau)
      ensures State() == if flipped then Set(old(State()), src, TurnTopUp(Get(old(State()), src))) else old(State())
    {
      flipped := false;
      if fromTableau && PileCards(src) != [] {
        var pile := PileCards(src);
        if !pile[|pile| - 1].faceUp {
          Replace(src, TurnTopUp(pile));
          flipped := true;
        }
      }
    }

    /** Whether every foundation holds thirteen cards (klondike.py:137-139). */
    function IsWon(): (r: bool)
      requires Valid()
      reads this, stock, waste, foundations.Values
      ensures r == Boards.IsWon(State())
    {
      IsWonBySuit(State());
      && |foundations[Hearts].cards| == 13 && |foundations[Diamonds].cards| == 13
      && |foundations[Clubs].cards| == 13 && |foundations[Spades].cards| == 13
    }
  }
}

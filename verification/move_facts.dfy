/** What Game.move does and does not do, proved about the board-level model of it. */
module MoveFacts {
  import opened Wrappers
  import opened Cards
  import opened Rules
  import opened Names
  import opened Boards
  import opened Moving

  /** Whether a move leaves a face-down card on top of a tableau source: the one case that turns a card up. */
  predicate Flips(src: PileRef, rest: seq<Card>) {
    src.TableauRef? && rest != [] && !rest[|rest| - 1].faceUp
  }

  /** The source pile once the moved cards are gone and any exposed tableau card is turned up. */
  function Uncovered(src: PileRef, rest: seq<Card>): seq<Card> {
    if Flips(src, rest) then TurnTopUp(rest) else rest
  }

  /** Points a successful move earns, by the kind of pile the target names. */
  function MovePoints(dst: PileRef, src: PileRef, rest: seq<Card>): int {
    (if dst.FoundationRef? then 10 else 5) + (if Flips(src, rest) then 5 else 0)
  }

  /** For a resolved upper-case source, Flips is the test Moving.Exposes makes on the board. */
  lemma FlipsIsExposes(b: Board, src: PileRef, source: string)
    requires WellFormed(b) && IsUpper(source) && GetPile(source) == Found(src)
    ensures Flips(src, Get(b, src)) <==> Exposes(b, src, StartsWith(source, 'T'))
  {
    ResolvedNameLetters(source, src);
  }

  /** For a resolved upper-case target, MovePoints is Moving.Points plus the bonus for a flip. */
  lemma MovePointsIsPoints(dst: PileRef, src: PileRef, rest: seq<Card>, target: string)
    requires IsUpper(target) && GetPile(target) == Found(dst)
    ensures MovePoints(dst, src, rest) == Points(target) + (if Flips(src, rest) then 5 else 0)
  {
    ResolvedNameLetters(target, dst);
  }

  lemma IdsTurnTopUp(cs: seq<Card>)
    requires cs != []
    ensures Ids(TurnTopUp(cs)) == Ids(cs)
  {
    assert IdSeq(TurnTopUp(cs)) == IdSeq(cs);
  }

  /** Settling touches the source's top card and the score, and nothing else. */
  lemma SettleFacts(b: Board, src: PileRef, source: string, target: string)
    requires WellFormed(b) && IsUpper(source) && GetPile(source) == Found(src)
    ensures var r := Settle(b, src, source, target);
      && (forall o: PileRef :: o != src ==> Get(r, o) == Get(b, o))
      && Get(r, src) == Uncovered(src, Get(b, src))
      && r.score == b.score + Points(target) + (if Flips(src, Get(b, src)) then 5 else 0)
      && AllIds(r) == AllIds(b)
  {
    ResolvedNameLetters(source, src);
    var p := Get(b, src);
    var r := Settle(b, src, source, target);
    if Flips(src, p) {
      var b1 := Set(b, src, TurnTopUp(p));
      IdsTurnTopUp(p);
      SetIds(b, src, TurnTopUp(p));
      Cancel(AllIds(b1), AllIds(b), Ids(p));
      AllIdsIgnoresScore(b1, r.score);
    } else {
      AllIdsIgnoresScore(b, r.score);
    }
  }

  /** A move that is not applied, whether refused or stopped by an exception, leaves the board as it was. */
  lemma MoveFailureChangesNothing(b: Board, source: string, target: string, count: int)
    requires WellFormed(b) && IsUpper(source) && IsUpper(target)
    ensures var r := Move(b, source, target, count);
      r.outcome != Applied ==> r.board == b
  {
    var s, t := GetPile(source), GetPile(target);
    if s.Found? && t.Found? && !IsBlockMove(source, count) {
      var src := s.pile;
      var p := Get(b, src);
      if p != [] {
        var n := |p| - 1;
        assert p[..n] + [p[n]] == p;
        SetTwice(b, src, p[..n], p);
        SetOfGet(b, src);
      }
    }
  }

  /**
   * A name that resolves to no pile makes the move refused, and one that raises stops
   * it, with the board untouched either way; a raising name wins over an unknown one.
   */
  lemma MoveUnresolvedName(b: Board, source: string, target: string, count: int)
    requires WellFormed(b) && IsUpper(source) && IsUpper(target)
    requires !GetPile(source).Found? || !GetPile(target).Found?
    ensures var r := Move(b, source, target, count);
      && r.board == b
      && (r.outcome == Raised <==> GetPile(source) == Raises || GetPile(target) == Raises)
      && (r.outcome == Rejected <==> GetPile(source) != Raises && GetPile(target) != Raises)
  {
  }

  /** The count is read only for a tableau source: from any other pile a move takes one card. */
  lemma CountIgnoredOffTableau(b: Board, source: string, target: string, count: int)
    requires WellFormed(b) && IsUpper(source) && IsUpper(target)
    requires !StartsWith(source, 'T')
    ensures Move(b, source, target, count) == Move(b, source, target, 1)
  {
  }

  /** Whether a pile of the given kind takes a card by its own rule: only tableau piles and foundations take single cards. */
  predicate Accepts(dst: PileRef, card: Card, cards: seq<Card>) {
    (dst.TableauRef? && CanMoveToTableau(card, cards)) || (dst.FoundationRef? && CanMoveToFoundation(card, cards))
  }

  /** The single-card path between two different piles, in terms of the piles the names resolve to. */
  lemma MoveCardSteps(b: Board, source: string, target: string, count: int, src: PileRef, dst: PileRef)
    requires WellFormed(b) && IsUpper(source) && IsUpper(target)
    requires GetPile(source) == Found(src) && GetPile(target) == Found(dst) && src != dst
    requires !IsBlockMove(source, count) && Get(b, src) != []
    ensures var p := Get(b, src);
      var card, rest := p[|p| - 1], p[..|p| - 1];
      var moved := Set(Set(b, src, rest), dst, Get(b, dst) + [card]);
      var r := Move(b, source, target, count);
      && (Accepts(dst, card, Get(b, dst)) ==> r == MoveResult(Applied, Settle(moved, src, source, target)))
      && (!Accepts(dst, card, Get(b, dst)) ==> r.outcome == Rejected)
  {
    ResolvedNameLetters(target, dst);
    var p := Get(b, src);
    var b1 := Set(b, src, p[..|p| - 1]);
    assert Get(b1, dst) == Get(b, dst);
    assert Move(b, source, target, count) == MoveCard(b, src, dst, source, target);
    if dst.FoundationRef? {
      SuitKeyRoundTrip(dst.suit);
      assert FoundationRef(SuitOfKey(target[1]).value) == dst;
    }
  }

  /**
   * A single card moving between two different piles: the source's top card is applied
   * exactly when the target is a tableau pile whose rule accepts it or a foundation whose
   * rule accepts it; any other target refuses it. Once applied, the card sits on the target,
   * the source has lost it (its new top turned up if it is a tableau pile and was face down),
   * the score rises by 10 for a foundation and 5 otherwise, plus 5 for the turned card, and
   * no other pile changes. The stock is a source like any other.
   */
  lemma MoveCardEffect(b: Board, source: string, target: string, count: int, src: PileRef, dst: PileRef)
    requires WellFormed(b) && IsUpper(source) && IsUpper(target)
    requires GetPile(source) == Found(src) && GetPile(target) == Found(dst) && src != dst
    requires !IsBlockMove(source, count) && Get(b, src) != []
    ensures var r := Move(b, source, target, count);
      var p := Get(b, src);
      var card, rest := p[|p| - 1], p[..|p| - 1];
      && r.outcome != Raised
      && (r.outcome == Applied <==> Accepts(dst, card, Get(b, dst)))
      && (r.outcome == Applied ==>
            && Get(r.board, dst) == Get(b, dst) + [card]
            && Get(r.board, src) == Uncovered(src, rest)
            && r.board.score == b.score + MovePoints(dst, src, rest)
            && forall o: PileRef :: o != src && o != dst ==> Get(r.board, o) == Get(b, o))
  {
    MoveCardSteps(b, source, target, count, src, dst);
    ResolvedNameLetters(target, dst);
    var p := Get(b, src);
    var card, rest := p[|p| - 1], p[..|p| - 1];
    var b2 := Set(Set(b, src, rest), dst, Get(b, dst) + [card]);
    assert Get(b2, src) == rest && Get(b2, dst) == Get(b, dst) + [card];
    SettleFacts(b2, src, source, target);
  }

  /** The block path between two different piles, in terms of the piles the names resolve to. */
  lemma MoveBlockSteps(b: Board, source: string, target: string, count: int, src: PileRef, dst: PileRef)
    requires WellFormed(b) && IsUpper(source) && IsUpper(target)
    requires GetPile(source) == Found(src) && GetPile(target) == Found(dst) && src != dst
    requires IsBlockMove(source, count)
    ensures src.TableauRef?
    ensures var p := Get(b, src);
      var movable := TopCards(p, count);
      var moved := Set(Set(b, dst, Get(b, dst) + movable), src, WithoutTop(p, count));
      var r := Move(b, source, target, count);
      && (p == [] ==> r.outcome == Raised)
      && (p != [] && !(AllFaceUp(movable) && CanMoveToTableau(movable[0], Get(b, dst))) ==> r.outcome == Rejected)
      && (p != [] && AllFaceUp(movable) && CanMoveToTableau(movable[0], Get(b, dst)) ==>
            r == MoveResult(Applied, Settle(moved, src, source, target)))
  {
    ResolvedNameLetters(source, src);
    var p := Get(b, src);
    var b1 := Set(b, dst, Get(b, dst) + TopCards(p, count));
    assert Get(b1, src) == p;
    assert Move(b, source, target, count) == MoveBlock(b, src, dst, source, target, count);
  }

  /**
   * A block of the top count cards of a tableau pile (the whole pile if it is shorter)
   * moving to a different pile: it raises on an empty pile; otherwise it is applied exactly
   * when every card of the block is face up and the tableau rule accepts the block's lowest
   * card on the target, whatever kind of pile the target is. Once applied, the block sits
   * on the target in the same order, the source has lost exactly those cards (its new top
   * turned up if face down), the score rises as for a single card, and no other pile changes.
   */
  lemma MoveBlockEffect(b: Board, source: string, target: string, count: int, src: PileRef, dst: PileRef)
    requires WellFormed(b) && IsUpper(source) && IsUpper(target)
    requires GetPile(source) == Found(src) && GetPile(target) == Found(dst) && src != dst
    requires IsBlockMove(source, count)
    ensures src.TableauRef?
    ensures var r := Move(b, source, target, count);
      var p := Get(b, src);
      var movable := TopCards(p, count);
      var rest := p[..|p| - |movable|];
      && (r.outcome == Raised <==> p == [])
      && (r.outcome == Applied <==> p != [] && AllFaceUp(movable) && CanMoveToTableau(movable[0], Get(b, dst)))
      && (r.outcome == Applied ==>
            && Get(r.board, dst) == Get(b, dst) + movable
            && Get(r.board, src) == Uncovered(src, rest)
            && r.board.score == b.score + MovePoints(dst, src, rest)
            && forall o: PileRef :: o != src && o != dst ==> Get(r.board, o) == Get(b, o))
  {
    MoveBlockSteps(b, source, target, count, src, dst);
    ResolvedNameLetters(target, dst);
    var p := Get(b, src);
    var movable := TopCards(p, count);
    var rest := WithoutTop(p, count);
    assert rest == p[..|p| - |movable|];
    var b2 := Set(Set(b, dst, Get(b, dst) + movable), src, rest);
    assert Get(b2, src) == rest && Get(b2, dst) == Get(b, dst) + movable;
    SettleFacts(b2, src, source, target);
  }

  /**
   * A single card moved onto its own pile is popped, checked against the pile beneath it
   * and pushed back: the engine has no same-pile guard (only the graphical shell has one).
   * If the rule accepts it, the pile keeps its cards (a face-down card on top of a tableau
   * pile is turned up) and the move scores as any other.
   */
  lemma MoveSelfCard(b: Board, source: string, target: string, count: int, pile: PileRef)
    requires WellFormed(b) && IsUpper(source) && IsUpper(target)
    requires GetPile(source) == Found(pile) && GetPile(target) == Found(pile)
    requires !IsBlockMove(source, count) && Get(b, pile) != []
    ensures var r := Move(b, source, target, count);
      var p := Get(b, pile);
      && r.outcome != Raised
      && (r.outcome == Applied <==> Accepts(pile, p[|p| - 1], p[..|p| - 1]))
      && (r.outcome == Applied ==>
            && Get(r.board, pile) == Uncovered(pile, p)
            && r.board.score == b.score + MovePoints(pile, pile, p)
            && forall o: PileRef :: o != pile ==> Get(r.board, o) == Get(b, o))
  {
    ResolvedNameLetters(source, pile);
    ResolvedNameLetters(target, pile);
    var p := Get(b, pile);
    var n := |p| - 1;
    var b1 := Set(b, pile, p[..n]);
    assert p[..n] + [p[n]] == p;
    SetTwice(b, pile, p[..n], p);
    SetOfGet(b, pile);
    assert Set(b1, pile, Get(b1, pile) + [p[n]]) == b;
    assert Move(b, source, target, count) == MoveCard(b, pile, pile, source, target);
    if pile.FoundationRef? {
      SuitKeyRoundTrip(pile.suit);
      assert FoundationRef(SuitOfKey(target[1]).value) == pile;
    }
    SettleFacts(b, pile, source, target);
  }

  /**
   * A block moved onto its own tableau pile, no longer than the pile: the block is
   * appended to the pile and the same number of cards cut off again, so the pile keeps
   * its cards and the move scores 5 whenever the rule accepts the block's lowest card on
   * the pile's own top.
   */
  lemma MoveSelfBlock(b: Board, source: string, target: string, count: int, pile: PileRef)
    requires WellFormed(b) && IsUpper(source) && IsUpper(target)
    requires GetPile(source) == Found(pile) && GetPile(target) == Found(pile)
    requires IsBlockMove(source, count) && count <= |Get(b, pile)|
    ensures var r := Move(b, source, target, count);
      var p := Get(b, pile);
      var movable := TopCards(p, count);
      && (r.outcome == Applied <==> AllFaceUp(movable) && CanMoveToTableau(movable[0], p))
      && (r.outcome == Applied ==> r.board == b.(score := b.score + 5))
      && (r.outcome != Applied ==> r.board == b)
  {
    ResolvedNameLetters(source, pile);
    ResolvedNameLetters(target, pile);
    var p := Get(b, pile);
    var movable := TopCards(p, count);
    var b1 := Set(b, pile, p + movable);
    assert Get(b1, pile) == p + movable;
    assert WithoutTop(p + movable, count) == p;
    SetTwice(b, pile, p + movable, p);
    SetOfGet(b, pile);
    assert Move(b, source, target, count) == MoveBlock(b, pile, pile, source, target, count);
    if AllFaceUp(movable) && CanMoveToTableau(movable[0], p) {
      assert p[|p| - 1] == movable[|movable| - 1];
      assert !Exposes(b, pile, StartsWith(source, 'T'));
    }
  }

  /** A foundation that is a run takes its own top card back: FH onto FH is applied and scores 10. */
  lemma FoundationSelfMoveScores(b: Board, s: Suit)
    requires WellFormed(b) && b.foundations[s] != [] && IsSuitRun(b.foundations[s])
    ensures var name := PileName(FoundationRef(s));
      Move(b, name, name, 1) == MoveResult(Applied, b.(score := b.score + 10))
  {
    var name := PileName(FoundationRef(s));
    var pile := FoundationRef(s);
    GetPileOfName(pile);
    assert IsUpper(name);
    var f := b.foundations[s];
    var n := |f| - 1;
    FoundationExtendsRun(f[n], f[..n]);
    assert f[..n] + [f[n]] == f;
    assert IsSuitRun(f[..n]);
    MoveSelfCard(b, name, name, 1, pile);
    var r := Move(b, name, name, 1);
    BoardsEqual(r.board, b.(score := b.score + 10));
  }

  /** A tableau pile topped by a face-up card on the face-up card it builds on takes its own top card back for 5 points. */
  lemma TableauSelfMoveScores(b: Board, i: TableauIndex)
    requires WellFormed(b) && |b.tableau[i]| >= 2
    requires var p := b.tableau[i]; var n := |p| - 1;
      p[n].faceUp && p[n - 1].faceUp && Carries(p[n - 1], p[n])
    ensures var name := PileName(TableauRef(i));
      Move(b, name, name, 1) == MoveResult(Applied, b.(score := b.score + 5))
  {
    var name := PileName(TableauRef(i));
    var pile := TableauRef(i);
    GetPileOfName(pile);
    assert IsUpper(name);
    MoveSelfCard(b, name, name, 1, pile);
    var r := Move(b, name, name, 1);
    BoardsEqual(r.board, b.(score := b.score + 5));
  }

  /**
   * The exception to card conservation: a block moved onto its own pile with a count above
   * the pile's size is appended whole and then count cards are cut off, so cards vanish.
   * With a five of hearts under a six of spades in the first tableau pile, moving three
   * cards from T1 to T1 is applied, leaves only the five and loses the six.
   */
  lemma SelfBlockOverrunLosesCards(b: Board)
    requires WellFormed(b)
    requires b.tableau[0] == [Card(4, Hearts, true), Card(5, Spades, true)]
    ensures SelfBlockOverrun(b, "T1", "T1", 3)
    ensures var r := Move(b, "T1", "T1", 3);
      && r.outcome == Applied
      && r.board.tableau[0] == [Card(4, Hearts, true)]
      && AllIds(r.board) + multiset{CardId(5, Spades)} == AllIds(b)
  {
    var pile := TableauRef(0);
    var p := b.tableau[0];
    var five := [p[0]];
    var b2 := Set(b, pile, five);
    SelfBlockOverrunResult(b);
    SetIds(b, pile, five);
    TwoCardIds(p);
    var lost := multiset{CardId(5, Spades)};
    Cancel(AllIds(b2) + lost, AllIds(b), Ids(five));
    AllIdsIgnoresScore(b2, b2.score + 5);
  }

  /** The cards of a two-card pile are its bottom card and the identity of its top card. */
  lemma TwoCardIds(p: seq<Card>)
    requires |p| == 2
    ensures Ids(p) == Ids([p[0]]) + multiset{Id(p[1])}
  {
    assert p == [p[0]] + [p[1]];
    IdsAppend([p[0]], [p[1]]);
    assert IdSeq([p[1]]) == [Id(p[1])];
  }

  /** What the overrunning self-move of SelfBlockOverrunLosesCards computes. */
  lemma SelfBlockOverrunResult(b: Board)
    requires WellFormed(b)
    requires b.tableau[0] == [Card(4, Hearts, true), Card(5, Spades, true)]
    ensures SelfBlockOverrun(b, "T1", "T1", 3)
    ensures var b2 := Set(b, TableauRef(0), [b.tableau[0][0]]);
      Move(b, "T1", "T1", 3) == MoveResult(Applied, b2.(score := b2.score + 5))
  {
    GetPileTableauNumbers();
    var pile := TableauRef(0);
    var p := b.tableau[0];
    var five := [p[0]];
    assert TopCards(p, 3) == p;
    assert WithoutTop(p + p, 3) == five;
    SetTwice(b, pile, p + p, five);
  }

  /** A block move whose source and target are the same pile and whose count exceeds that pile. */
  predicate SelfBlockOverrun(b: Board, source: string, target: string, count: int)
    requires WellFormed(b)
  {
    var s := GetPile(source);
    s.Found? && GetPile(target) == s && IsBlockMove(source, count) && count > |Get(b, s.pile)|
  }

  lemma BlockKeepsEveryCard(b: Board, source: string, target: string, count: int, src: PileRef, dst: PileRef)
    requires WellFormed(b) && IsUpper(source) && IsUpper(target)
    requires GetPile(source) == Found(src) && GetPile(target) == Found(dst) && src != dst
    requires IsBlockMove(source, count)
    ensures AllIds(Move(b, source, target, count).board) == AllIds(b)
  {
    MoveBlockSteps(b, source, target, count, src, dst);
    MoveFailureChangesNothing(b, source, target, count);
    var p := Get(b, src);
    var movable, rest := TopCards(p, count), WithoutTop(p, count);
    if p != [] && AllFaceUp(movable) && CanMoveToTableau(movable[0], Get(b, dst)) {
      var b2 := Set(Set(b, dst, Get(b, dst) + movable), src, rest);
      TransferKeepsIds(b, src, dst, rest, movable);
      SettleFacts(b2, src, source, target);
    }
  }

  lemma CardTransferKeepsIds(b: Board, src: PileRef, dst: PileRef, source: string, target: string)
    requires WellFormed(b) && IsUpper(source) && GetPile(source) == Found(src) && src != dst
    requires Get(b, src) != []
    ensures var p := Get(b, src);
      AllIds(Settle(Set(Set(b, src, p[..|p| - 1]), dst, Get(b, dst) + [p[|p| - 1]]), src, source, target)) == AllIds(b)
  {
    var p := Get(b, src);
    var card, rest := p[|p| - 1], p[..|p| - 1];
    assert rest + [card] == p;
    TransferKeepsIds(b, src, dst, rest, [card]);
    SettleFacts(Set(Set(b, src, rest), dst, Get(b, dst) + [card]), src, source, target);
  }

  lemma CardAppliedKeepsIds(b: Board, source: string, target: string, count: int, src: PileRef, dst: PileRef)
    requires WellFormed(b) && IsUpper(source) && IsUpper(target)
    requires GetPile(source) == Found(src) && GetPile(target) == Found(dst) && src != dst
    requires !IsBlockMove(source, count)
    requires var p := Get(b, src); p != [] && Accepts(dst, p[|p| - 1], Get(b, dst))
    ensures AllIds(Move(b, source, target, count).board) == AllIds(b)
  {
    var p := Get(b, src);
    var moved := Set(Set(b, src, p[..|p| - 1]), dst, Get(b, dst) + [p[|p| - 1]]);
    MoveCardSteps(b, source, target, count, src, dst);
    assert Move(b, source, target, count).board == Settle(moved, src, source, target);
    CardTransferKeepsIds(b, src, dst, source, target);
  }

  lemma CardKeepsEveryCard(b: Board, source: string, target: string, count: int, src: PileRef, dst: PileRef)
    requires WellFormed(b) && IsUpper(source) && IsUpper(target)
    requires GetPile(source) == Found(src) && GetPile(target) == Found(dst) && src != dst
    requires !IsBlockMove(source, count)
    ensures AllIds(Move(b, source, target, count).board) == AllIds(b)
  {
    var p := Get(b, src);
    if p != [] && Accepts(dst, p[|p| - 1], Get(b, dst)) {
      CardAppliedKeepsIds(b, source, target, count, src, dst);
    } else {
      if p != [] {
        MoveCardSteps(b, source, target, count, src, dst);
      }
      MoveFailureChangesNothing(b, source, target, count);
    }
  }

  /** A move from a pile onto itself keeps the board's cards, unless it is a block longer than the pile. */
  lemma SelfMoveKeepsEveryCard(b: Board, source: string, target: string, count: int, pile: PileRef)
    requires WellFormed(b) && IsUpper(source) && IsUpper(target)
    requires GetPile(source) == Found(pile) && GetPile(target) == Found(pile)
    requires !SelfBlockOverrun(b, source, target, count)
    ensures AllIds(Move(b, source, target, count).board) == AllIds(b)
  {
    if IsBlockMove(source, count) {
      SelfBlockKeepsEveryCard(b, source, target, count, pile);
    } else {
      SelfCardKeepsEveryCard(b, source, target, count, pile);
    }
  }

  lemma SelfBlockKeepsEveryCard(b: Board, source: string, target: string, count: int, pile: PileRef)
    requires WellFormed(b) && IsUpper(source) && IsUpper(target)
    requires GetPile(source) == Found(pile) && GetPile(target) == Found(pile)
    requires IsBlockMove(source, count) && count <= |Get(b, pile)|
    ensures AllIds(Move(b, source, target, count).board) == AllIds(b)
  {
    MoveSelfBlock(b, source, target, count, pile);
    AllIdsIgnoresScore(b, b.score + 5);
  }

  lemma SelfCardKeepsEveryCard(b: Board, source: string, target: string, count: int, pile: PileRef)
    requires WellFormed(b) && IsUpper(source) && IsUpper(target)
    requires GetPile(source) == Found(pile) && GetPile(target) == Found(pile)
    requires !IsBlockMove(source, count)
    ensures AllIds(Move(b, source, target, count).board) == AllIds(b)
  {
    var r := Move(b, source, target, count);
    MoveFailureChangesNothing(b, source, target, count);
    if r.outcome == Applied {
      assert Get(b, pile) != [];
      MoveSelfCard(b, source, target, count, pile);
      SettleFacts(b, pile, source, target);
      BoardsEqual(r.board, Settle(b, pile, source, target));
    }
  }

  /**
   * Every move keeps the board's cards, by identity, except a block moved onto its own
   * pile with a count larger than the pile (see SelfBlockOverrunLosesCards).
   */
  lemma MoveKeepsEveryCard(b: Board, source: string, target: string, count: int)
    requires WellFormed(b) && IsUpper(source) && IsUpper(target)
    requires !SelfBlockOverrun(b, source, target, count)
    ensures AllIds(Move(b, source, target, count).board) == AllIds(b)
  {
    MoveFailureChangesNothing(b, source, target, count);
    var r := Move(b, source, target, count);
    var s, t := GetPile(source), GetPile(target);
    if r.outcome == Applied {
      var src, dst := s.pile, t.pile;
      if src == dst {
        SelfMoveKeepsEveryCard(b, source, target, count, src);
      } else if IsBlockMove(source, count) {
        BlockKeepsEveryCard(b, source, target, count, src, dst);
      } else {
        CardKeepsEveryCard(b, source, target, count, src, dst);
      }
    }
  }
}

/**
 * Game.move (klondike.py:90-135) on a board value. Both names are looked up first; a
 * tableau source with a count above one moves a block of its top cards, checked only
 * with the tableau rule whatever the target is; everything else moves the source's top
 * card, which only a tableau or a foundation target can take. A successful move turns
 * up a face-down card it leaves on top of a tableau source and then scores.
 */
module Moving {
  import opened Wrappers
  import opened Cards
  import opened Rules
  import opened Names
  import opened Boards

  /** A move is applied (True), rejected (False) or stopped by an exception. */
  datatype Outcome = Applied | Rejected | Raised

  datatype MoveResult = MoveResult(outcome: Outcome, board: Board)

  function Min(a: int, b: int): int {
    if a < b then a else b
  }

  /** Python's pile[-count:] for a positive count: the top count cards, or the whole pile. */
  function TopCards(cs: seq<Card>, count: int): (r: seq<Card>)
    requires count >= 1
    ensures |r| == Min(count, |cs|) && cs == cs[..|cs| - |r|] + r
  {
    cs[|cs| - Min(count, |cs|)..]
  }

  /** Python's del pile[-count:] for a positive count. */
  function WithoutTop(cs: seq<Card>, count: int): (r: seq<Card>)
    requires count >= 1
    ensures |r| == |cs| - Min(count, |cs|) && r == cs[..|r|]
  {
    cs[..|cs| - Min(count, |cs|)]
  }

  predicate AllFaceUp(cs: seq<Card>) {
    forall k :: 0 <= k < |cs| ==> cs[k].faceUp
  }

  function TurnTopUp(cs: seq<Card>): (r: seq<Card>)
    requires cs != []
    ensures |r| == |cs| && r[..|r| - 1] == cs[..|cs| - 1]
    ensures r[|r| - 1] == cs[|cs| - 1].(faceUp := true)
  {
    cs[..|cs| - 1] + [cs[|cs| - 1].(faceUp := true)]
  }

  /** Points for a successful move: 10 onto a foundation, 5 otherwise (klondike.py:129-132). */
  function Points(target: string): int {
    if StartsWith(target, 'F') then 10 else 5
  }

  /** Whether a move from a tableau pile has left a face-down card on top of it. */
  predicate Exposes(b: Board, src: PileRef, fromTableau: bool)
    requires WellFormed(b)
  {
    var p := Get(b, src);
    fromTableau && p != [] && !p[|p| - 1].faceUp
  }

  /** The end of every successful move: turn up the source's new top, then score (klondike.py:125-134). */
  function Settle(b: Board, src: PileRef, source: string, target: string): (r: Board)
    requires WellFormed(b)
    ensures WellFormed(r)
  {
    if Exposes(b, src, StartsWith(source, 'T')) then
      var b1 := Set(b, src, TurnTopUp(Get(b, src)));
      b1.(score := b1.score + Points(target) + 5)
    else
      b.(score := b.score + Points(target))
  }

  /** The block path (klondike.py:97-106). */
  function MoveBlock(b: Board, src: PileRef, dst: PileRef, source: string, target: string, count: int): (r: MoveResult)
    requires WellFormed(b) && count > 1
    ensures WellFormed(r.board)
    ensures r.outcome == Raised <==> Get(b, src) == []
    ensures r.outcome != Applied ==> r.board == b
  {
    var movable := TopCards(Get(b, src), count);
    if !AllFaceUp(movable) then MoveResult(Rejected, b)
    else if movable == [] then MoveResult(Raised, b)
    else if !CanMoveToTableau(movable[0], Get(b, dst)) then MoveResult(Rejected, b)
    else
      var b1 := Set(b, dst, Get(b, dst) + movable);
      var b2 := Set(b1, src, WithoutTop(Get(b1, src), count));
      MoveResult(Applied, Settle(b2, src, source, target))
  }

  /** The single-card path (klondike.py:107-124): pop, check, and push back on failure. */
  function MoveCard(b: Board, src: PileRef, dst: PileRef, source: string, target: string): (r: MoveResult)
    requires WellFormed(b) && IsUpper(target) && GetPile(target) == Found(dst)
    ensures WellFormed(r.board)
    ensures r.outcome == Raised <==> Get(b, src) == []
    ensures r.outcome == Raised ==> r.board == b
  {
    var pile := Get(b, src);
    if pile == [] then MoveResult(Raised, b)
    else
      var card := pile[|pile| - 1];
      var b1 := Set(b, src, pile[..|pile| - 1]);
      var restored := Set(b1, src, Get(b1, src) + [card]);
      if StartsWith(target, 'T') then
        if CanMoveToTableau(card, Get(b1, dst)) then
          MoveResult(Applied, Settle(Set(b1, dst, Get(b1, dst) + [card]), src, source, target))
        else MoveResult(Rejected, restored)
      else if StartsWith(target, 'F') then
        ResolvedNameLetters(target, dst);
        SuitKeyRoundTrip(dst.suit);
        var f := FoundationRef(SuitOfKey(target[1]).value);
        if CanMoveToFoundation(card, Get(b1, f)) then
          MoveResult(Applied, Settle(Set(b1, f, Get(b1, f) + [card]), src, source, target))
        else MoveResult(Rejected, restored)
      else MoveResult(Rejected, restored)
  }

  /** Whether a move takes the block path. */
  predicate IsBlockMove(source: string, count: int) {
    StartsWith(source, 'T') && count > 1
  }

  /** Game.move on upper-case names. */
  function Move(b: Board, source: string, target: string, count: int): (r: MoveResult)
    requires WellFormed(b) && IsUpper(source) && IsUpper(target)
    ensures WellFormed(r.board)
    ensures r.outcome == Raised ==> r.board == b
    ensures GetPile(source) == NoPile && GetPile(target) != Raises ==> r == MoveResult(Rejected, b)
  {
    var s, t := GetPile(source), GetPile(target);
    if s == Raises || t == Raises then MoveResult(Raised, b)
    else if s == NoPile || t == NoPile then MoveResult(Rejected, b)
    else if IsBlockMove(source, count) then MoveBlock(b, s.pile, t.pile, source, target, count)
    else MoveCard(b, s.pile, t.pile, source, target)
  }
}

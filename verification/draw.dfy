/**
 * Game.draw (klondike.py:64-76): turn the stock's top card onto the waste, or, when the
 * stock is empty, turn the whole waste back over into the stock for a 15-point penalty.
 */
module Drawing {
  import opened Cards
  import opened Boards

  function Draw(b: Board): (r: Board)
    requires WellFormed(b)
    ensures WellFormed(r)
    ensures r.foundations == b.foundations && r.tableau == b.tableau
  {
    if b.stock == [] then
      b.(stock := Turned(Reversed(b.waste), false), waste := [], score := b.score - 15)
    else
      var n := |b.stock| - 1;
      b.(stock := b.stock[..n], waste := b.waste + [b.stock[n].(faceUp := true)])
  }

  /**
   * With cards in the stock, one draw moves exactly the stock's top card onto the waste,
   * face up; with none, it turns the waste over into the stock, face down, empties the
   * waste and costs 15 points, also when the waste is empty.
   */
  lemma DrawEffect(b: Board)
    requires WellFormed(b)
    ensures var r := Draw(b);
      b.stock != [] ==>
      && |r.stock| == |b.stock| - 1 && r.stock == b.stock[..|r.stock|]
      && |r.waste| == |b.waste| + 1 && r.waste[..|b.waste|] == b.waste
      && r.waste[|b.waste|] == b.stock[|r.stock|].(faceUp := true)
      && r.score == b.score
    ensures var r := Draw(b);
      b.stock == [] ==>
      && r.waste == [] && |r.stock| == |b.waste| && r.score == b.score - 15
      && forall k :: 0 <= k < |r.stock| ==> r.stock[k] == b.waste[|b.waste| - 1 - k].(faceUp := false)
  {
    var r := Draw(b);
    if b.stock != [] {
      assert r.waste[..|b.waste|] == b.waste;
    }
  }

  /** Drawing neither loses nor duplicates a card. */
  lemma DrawKeepsEveryCard(b: Board)
    requires WellFormed(b)
    ensures AllIds(Draw(b)) == AllIds(b)
  {
    var r := Draw(b);
    var fi, ti := FoundationIds(b.foundations), TableauIds(b.tableau);
    AllIdsSum(b);
    AllIdsSum(r);
    if b.stock == [] {
      IdsTurned(Reversed(b.waste), false);
      IdsReversed(b.waste);
      calc {
        AllIds(r);
        Ids(Turned(Reversed(b.waste), false)) + Ids([]) + fi + ti;
        Ids([]) + Ids(b.waste) + fi + ti;
      }
    } else {
      var n := |b.stock| - 1;
      var top := b.stock[n];
      assert b.stock == b.stock[..n] + [top];
      IdsAppend(b.stock[..n], [top]);
      IdsAppend(b.waste, [top.(faceUp := true)]);
      assert Ids([top.(faceUp := true)]) == Ids([top]);
      calc {
        AllIds(r);
        Ids(b.stock[..n]) + (Ids(b.waste) + Ids([top])) + fi + ti;
        (Ids(b.stock[..n]) + Ids([top])) + Ids(b.waste) + fi + ti;
      }
    }
  }

  /** The board after n draws. */
  function DrawTimes(b: Board, n: nat): (r: Board)
    requires WellFormed(b)
    ensures WellFormed(r)
  {
    if n == 0 then b else Draw(DrawTimes(b, n - 1))
  }

  /**
   * Drawing k cards of the stock moves its top k cards to the waste, turned face up and
   * in the order they were drawn, and changes nothing else.
   */
  lemma {:induction false} DrawingThroughStock(b: Board, k: nat)
    requires WellFormed(b) && k <= |b.stock|
    ensures var n := |b.stock|;
      DrawTimes(b, k) == b.(stock := b.stock[..n - k], waste := b.waste + Turned(Reversed(b.stock[n - k..]), true))
  {
    var s, w, n := b.stock, b.waste, |b.stock|;
    if k == 0 {
      assert Turned(Reversed(s[n..]), true) == [];
    } else {
      DrawingThroughStock(b, k - 1);
      var prev := DrawTimes(b, k - 1);
      assert prev.stock == s[..n - k + 1] && prev.stock != [];
      var top := s[n - k];
      assert prev.stock[|prev.stock| - 1] == top;
      assert prev.stock[..|prev.stock| - 1] == s[..n - k];
      assert Turned(Reversed(s[n - k..]), true) == Turned(Reversed(s[n - k + 1..]), true) + [top.(faceUp := true)];
    }
  }

  /**
   * Drawing the whole stock and once more puts every card back in the stock face down:
   * the old stock in its old order at the bottom, the old waste turned over on top of it,
   * and costs the 15-point recycling penalty.
   */
  lemma DrawRoundTrip(b: Board)
    requires WellFormed(b)
    ensures var r := DrawTimes(b, |b.stock| + 1);
      r == b.(stock := Turned(b.stock, false) + Turned(Reversed(b.waste), false), waste := [], score := b.score - 15)
  {
    var s, w, n := b.stock, b.waste, |b.stock|;
    DrawingThroughStock(b, n);
    assert s[..0] == [] && s[0..] == s;
    var drawn := w + Turned(Reversed(s), true);
    var mid := DrawTimes(b, n);
    assert mid == b.(stock := [], waste := drawn);
    assert DrawTimes(b, n + 1) == Draw(mid);
    TurnOverDrawn(s, w);
  }

  /** Turning over a waste that holds the drawn stock on top of the old waste. */
  lemma TurnOverDrawn(s: seq<Card>, w: seq<Card>)
    ensures Turned(Reversed(w + Turned(Reversed(s), true)), false) == Turned(s, false) + Turned(Reversed(w), false)
  {
    var drawn := w + Turned(Reversed(s), true);
    var lhs, rhs := Turned(Reversed(drawn), false), Turned(s, false) + Turned(Reversed(w), false);
    assert |lhs| == |rhs|;
    forall k | 0 <= k < |lhs|
      ensures lhs[k] == rhs[k]
    {
      if k < |s| {
        assert lhs[k] == drawn[|drawn| - 1 - k].(faceUp := false);
      }
    }
  }

  /** So from an empty waste and a face-down stock, the stock comes back exactly as it was. */
  lemma DrawRoundTripRestoresStock(b: Board)
    requires WellFormed(b) && b.waste == [] && forall k :: 0 <= k < |b.stock| ==> !b.stock[k].faceUp
    ensures DrawTimes(b, |b.stock| + 1) == b.(score := b.score - 15)
  {
    DrawRoundTrip(b);
    assert Turned(b.stock, false) == b.stock;
    assert Turned(Reversed(b.waste), false) == [];
  }
}

/**
 * The two legality predicates of klondike.py:78-88 and the pile shapes they keep:
 * a tableau build (face-up cards descending by one in alternating colours) and
 * a foundation run (Ace upwards in one suit).
 */
module Rules {
  import opened Cards

  /** Whether a card may be placed on a tableau pile (klondike.py:78-82). */
  function CanMoveToTableau(card: Card, dest: seq<Card>): (r: bool)
    ensures r ==> (dest == [] <==> card.rank == King)
  {
    if dest == [] then card.rank == King
    else
      var top := dest[|dest| - 1];
      top.faceUp && top.Color() != card.Color() && card.rank + 1 == top.rank
  }

  /** Whether a card may be placed on a foundation pile (klondike.py:84-88). */
  function CanMoveToFoundation(card: Card, foundation: seq<Card>): (r: bool)
    ensures r ==> (foundation == [] <==> card.rank == Ace)
  {
    if foundation == [] then card.rank == Ace
    else
      var top := foundation[|foundation| - 1];
      top.suit == card.suit && card.rank == top.rank + 1
  }

  /** `upper` may carry `lower` in a build: opposite colour and one rank higher. */
  predicate Carries(upper: Card, lower: Card) {
    upper.Color() != lower.Color() && lower.rank + 1 == upper.rank
  }

  /** A face-up run in which every card carries the next one. */
  predicate IsBuild(run: seq<Card>) {
    (forall k :: 0 <= k < |run| ==> run[k].faceUp) &&
    (forall k :: 0 < k < |run| ==> Carries(run[k - 1], run[k]))
  }

  /** A foundation as the game means it: Ace, 2, 3, ... of one suit, in order. */
  predicate IsSuitRun(f: seq<Card>) {
    forall k :: 0 <= k < |f| ==> f[k].rank == k && f[k].suit == f[0].suit
  }

  /** Each card is of the suit of the one below it and one rank higher, whatever the first card is. */
  predicate IsSuitStep(run: seq<Card>) {
    forall k :: 0 < k < |run| ==> run[k].suit == run[k - 1].suit && run[k].rank == run[k - 1].rank + 1
  }

  /** Only a King may open an empty tableau pile, whatever its suit or side. */
  lemma TableauEmptyTakesKing(card: Card)
    ensures CanMoveToTableau(card, []) <==> card.rank == King
    ensures card.faceUp && card.rank == King ==> IsBuild([card])
  {
  }

  /**
   * On a pile whose face-up part from position k on is a build, a face-up card is
   * accepted exactly when it extends that build.
   */
  lemma TableauExtendsBuild(card: Card, dest: seq<Card>, k: nat)
    requires k < |dest| && IsBuild(dest[k..]) && card.faceUp
    ensures CanMoveToTableau(card, dest) <==> IsBuild(dest[k..] + [card])
  {
    var run := dest[k..];
    var ext := run + [card];
    assert run[|run| - 1] == dest[|dest| - 1];
    if CanMoveToTableau(card, dest) {
      forall i | 0 < i < |ext| ensures Carries(ext[i - 1], ext[i]) {
        if i < |run| {
          assert ext[i - 1] == run[i - 1] && ext[i] == run[i];
        }
      }
    }
    if IsBuild(ext) {
      assert Carries(ext[|run| - 1], ext[|run|]);
    }
  }

  /**
   * The rule never reads which way up the moving card lies, so a face-down card (one
   * drawn straight from the stock) is judged as if it were face up: it is accepted
   * exactly when, turned up, it extends the build.
   */
  lemma TableauExtendsBuildAnySide(card: Card, dest: seq<Card>, k: nat)
    requires k < |dest| && IsBuild(dest[k..])
    ensures CanMoveToTableau(card, dest) <==> IsBuild(dest[k..] + [card.(faceUp := true)])
  {
    TableauExtendsBuild(card.(faceUp := true), dest, k);
  }

  /** A face-down top refuses every card. */
  lemma TableauFaceDownTopRefuses(card: Card, dest: seq<Card>)
    requires dest != [] && !dest[|dest| - 1].faceUp
    ensures !CanMoveToTableau(card, dest)
  {
  }

  /**
   * On a foundation that is a run, a card is accepted exactly when the run stays a run.
   * The foundation's own suit key plays no part: an empty foundation takes any Ace.
   */
  lemma FoundationExtendsRun(card: Card, f: seq<Card>)
    requires IsSuitRun(f)
    ensures CanMoveToFoundation(card, f) <==> IsSuitRun(f + [card])
  {
    var ext := f + [card];
    if CanMoveToFoundation(card, f) {
      forall i | 0 <= i < |ext| ensures ext[i].rank == i && ext[i].suit == ext[0].suit {
        if i < |f| {
          assert ext[i] == f[i];
        }
      }
    }
    if IsSuitRun(ext) {
      assert ext[|f|] == card;
      if f != [] {
        assert ext[|f| - 1] == f[|f| - 1];
      }
    }
  }

  /**
   * On any non-empty foundation, run or not, whose cards from position k on climb one
   * suit by one rank, a card is accepted exactly when it continues that climb; with
   * k = |f| - 1 this covers every non-empty foundation.
   */
  lemma FoundationExtendsStep(card: Card, f: seq<Card>, k: nat)
    requires k < |f| && IsSuitStep(f[k..])
    ensures CanMoveToFoundation(card, f) <==> IsSuitStep(f[k..] + [card])
  {
    var run := f[k..];
    var ext := run + [card];
    assert run[|run| - 1] == f[|f| - 1];
    if CanMoveToFoundation(card, f) {
      forall i | 0 < i < |ext| ensures ext[i].suit == ext[i - 1].suit && ext[i].rank == ext[i - 1].rank + 1 {
        if i < |run| {
          assert ext[i - 1] == run[i - 1] && ext[i] == run[i];
        }
      }
    }
    if IsSuitStep(ext) {
      assert ext[|run| - 1] == run[|run| - 1] && ext[|run|] == card;
    }
  }
}

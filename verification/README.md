# Klondike rules engine in Dafny

This project models the rules engine of a command-line Klondike solitaire game
(`klondike.py`) and proves what it does. The engine covers:

- the 52-card deck and its colour and rank tables;
- piles that are pushed and popped in place;
- the opening deal;
- drawing from the stock and recycling the waste;
- the two legality rules, for tableau piles and foundations;
- the resolution of pile names such as `T3`, `FH`, `W` and `STOCK`;
- the `move` command with its block path and its single-card path;
- the win test.

The model has two layers:

- **A value layer.** `Boards.Board` is the whole game state. The functions `Dealing.Deal`,
  `Drawing.Draw` and `Moving.Move` say what setup, draw and move do to it. Most of the
  properties are proved about these functions.
- **An object layer.** `Engine.Pile` and `Engine.Game` are classes whose methods change
  piles in place, as the source does:
  - pop, push, extend and cut off the end of a pile;
  - a deal made of two nested loops that pop from the end of the deck;
  - a draw whose loop moves the waste back onto the stock card by card.

  Each of these methods is proved to leave the object in the state the value-layer
  function computes, through the ghost function `Engine.Game.State()`.

A move ends in one of three outcomes: `Applied` (the source returns True), `Rejected`
(it returns False) or `Raised` (it raises an exception). For upper-case names, every
exception `move` can raise happens before any pile is touched, and the model proves that
a move that is not applied leaves the board exactly as it was. A lower-case foundation
target breaks this in the source: `move('T1', 'Fh')` resolves `Fh` to the hearts
foundation, pops the card, and then raises KeyError on the key `h` with the card already
off its pile (klondike.py:108, 116).

Two behaviours of the code are easy to overlook:

- **Self-moves.** The engine has no guard against moving a pile onto itself; only the
  graphical shell filters self-moves (klondike_gui.py:86).
  - A single card moved onto its own pile is popped, checked against the rest of the pile
    and pushed back. If the rule accepts it, the move scores.
  - A block moved onto its own pile is appended and then cut off again.
  - When the count exceeds the pile's size and the move is applied, that self-move loses
    cards. `MoveFacts.SelfBlockOverrunLosesCards` exhibits it.
- **Block targets.** The block path never checks the target's kind: a block accepted by
  the tableau rule lands on a foundation, the waste or the stock just the same.

## Model

| member | source | states |
|---|---|---|
| Cards.SuitOfKey | klondike.py:5-11 | a key letter names a suit exactly when some suit has that key (H, D, C or S), and the suit found has that key |
| Cards.SuitColor | klondike.py:6-11 | the red suits are exactly those keyed H and D; `Card.Color` (klondike.py:20-21) reads it through the card's suit |
| Cards.SuitKeyRoundTrip | klondike.py:5 | looking up a suit's own key finds that suit |
| Cards.RankIndexFrom | klondike.py:12 | the index found names the rank, and None means no rank from that position on has the name |
| Cards.RankIndexOfName | klondike.py:12 | RANKS.index of each rank name is that rank's position, so the rules compare ranks by index |
| Cards.IdsReversed | klondike.py:67-70 | turning a pile over keeps its cards |
| Cards.FullDeck | klondike.py:52 | the built deck has 52 cards, all face down; FullDeckHasEachCardOnce shows each (rank, suit) pair occurs once |
| Cards.FullDeckHasEachCardOnce | klondike.py:52 | the deck built suit by suit and rank by rank holds each (rank, suit) pair exactly once |
| Rules.CanMoveToTableau | klondike.py:78-82 | an accepted card is a King exactly when the pile is empty; TableauEmptyTakesKing (empty pile), TableauFaceDownTopRefuses (face-down top) and TableauExtendsBuildAnySide (face-up top, moving card of either side) state the rule for every pile |
| Rules.CanMoveToFoundation | klondike.py:84-88 | an accepted card is an Ace exactly when the foundation is empty; FoundationExtendsStep states the rule for every non-empty foundation, run or not, and FoundationExtendsRun what it means on an Ace-upwards run |
| Rules.TableauEmptyTakesKing | klondike.py:78-80 | an empty tableau pile takes a card exactly when it is a King, of any suit |
| Rules.TableauExtendsBuild | klondike.py:78-82 | on a pile whose upper part is a face-up build, a face-up card is accepted exactly when the build extended by it is still a build: top face up, opposite colour, one rank lower |
| Rules.TableauExtendsBuildAnySide | klondike.py:78-82 | the moving card's side is never read: any card, a face-down stock card included, is accepted on a face-up build exactly when, turned up, it extends that build |
| Rules.TableauFaceDownTopRefuses | klondike.py:81-82 | a face-down top card refuses every card |
| Rules.FoundationExtendsRun | klondike.py:84-88 | on a foundation that is an Ace-upwards run of one suit, a card is accepted exactly when the foundation stays such a run; an empty foundation takes any Ace, whatever its own key |
| Rules.FoundationExtendsStep | klondike.py:84-88 | on a foundation whose cards from some position on climb one suit by one rank, which with that position at the top card is every non-empty foundation, including one the block path has filled with a tableau build, a card is accepted exactly when it continues the climb |
| Names.UpperOfUpper | klondike.py:142 | a name is upper case exactly when upper-casing leaves it unchanged; upper-casing is idempotent |
| Names.DigitValue | klondike.py:148 | int() of one character succeeds exactly on a digit and gives its value |
| Names.ListIndex | klondike.py:148-149 | Python list indexing succeeds exactly for -len <= i < len and counts negative indices from the end |
| Names.GetPile | klondike.py:141-153 | a name that reaches a pile starts, once upper-cased, with that kind of pile's letter; GetPileNoPile, GetPileRaisesOnlyOnTOrF and GetPileTableauDigit state the other cases for every name |
| Names.GetPileNoPile | klondike.py:141-153 | a name reaches no pile exactly when, upper-cased, it is neither W nor STOCK and starts with neither T nor F |
| Names.GetPileRaisesOnlyOnTOrF | klondike.py:147-152 | only a name that starts, upper-cased, with T or F can raise |
| Names.GetPileTableauDigit | klondike.py:147-149 | T and any non-digit raises; T8 and T9 raise; T0 is the seventh pile and T1 to T7 the piles 1 to 7 |
| Names.GetPileOfName | klondike.py:141-153 | every pile is reached by its own name (W, STOCK, F and a suit key, T and 1-7) |
| Names.GetPileIgnoresCase | klondike.py:142 | lookup gives the same answer for a name and its upper-cased form |
| Names.GetPileReadsTwoCharacters | klondike.py:147-152 | after T or F only the second character is read |
| Names.GetPileTableauNumbers | klondike.py:147-149 | T1 is the first pile, T0 the seventh (index -1), T7 the seventh, T12 the first; T8, T9, T and TX raise |
| Names.GetPileFoundationKeys | klondike.py:143-153 | F with a suit key in either case names that foundation; any other letter after F, or a bare F, raises; X, WASTE and S name no pile |
| Names.ResolvedNameLetters | klondike.py:109-116 | for an upper-case name that resolves, the tests move makes on the raw name agree with the pile it resolves to |
| Boards.Set | klondike.py:90-135 | replacing one pile gives that pile the new cards and changes no other pile and not the score |
| Boards.SetIds | klondike.py:90-135 | replacing one pile changes the board's cards by exactly the old and new cards of that pile |
| Boards.AllIdsSum | klondike.py:43-47 | the board's cards are those of the stock, the waste, the four foundations and the seven tableau piles together |
| Boards.TransferKeepsIds | klondike.py:105-106 | taking cards off the top of one pile and adding them to another keeps the board's cards, in either order of the two writes |
| Boards.IsWon | klondike.py:137-139 | a won board has 13 cards on the foundation of every suit in the suit list; IsWonBySuit gives both directions and WonLeavesNothingElse what a win leaves |
| Boards.IsWonBySuit | klondike.py:137-139 | the game is won exactly when each of the four foundations holds 13 cards |
| Boards.WonLeavesNothingElse | klondike.py:137-139 | with the deck's 52 cards on the board, a won game has an empty stock, waste and tableau |
| Dealing.Deal | klondike.py:51-62 | the dealt board is well formed; DealShape, DealKeepsEveryCard and DealHoldsEachCardOnce state what it holds |
| Dealing.FullDeckIsShuffledDeck | klondike.py:52-53 | the built deck is one of the decks the shuffle can produce |
| Dealing.DealShape | klondike.py:51-62 | after the deal, pile i holds i + 1 cards and only its last is face up; the stock holds 24 cards face down; the waste and foundations are empty; the score is 0 |
| Dealing.DealKeepsEveryCard | klondike.py:55-62 | the dealt board holds exactly the deck's cards |
| Dealing.DealHoldsEachCardOnce | klondike.py:51-62 | a game dealt from a shuffled deck holds 52 cards, each (rank, suit) exactly once |
| Drawing.Draw | klondike.py:64-76 | drawing never touches the foundations or the tableau |
| Drawing.DrawEffect | klondike.py:64-76 | with cards in the stock, the stock loses its top card and the waste gains it face up, with the score unchanged; with none, the waste is turned over into the stock face down and emptied, and the score drops by 15 even when the waste was empty |
| Drawing.DrawKeepsEveryCard | klondike.py:64-76 | a draw neither loses nor duplicates a card |
| Drawing.DrawingThroughStock | klondike.py:74-76 | k draws move the stock's top k cards to the waste, face up, in the order drawn |
| Drawing.DrawRoundTrip | klondike.py:64-76 | drawing the whole stock and once more puts every card back in the stock face down: the old stock in its old order, with the old waste turned over on top, for a 15-point penalty |
| Drawing.DrawRoundTripRestoresStock | klondike.py:64-76 | from an empty waste and a face-down stock, that round trip restores the stock exactly |
| Moving.TopCards | klondike.py:98 | pile[-count:] is the top min(count, len) cards, and the pile is what lies below them followed by them |
| Moving.WithoutTop | klondike.py:106 | del pile[-count:] leaves the pile's first len - min(count, len) cards |
| Moving.Settle | klondike.py:125-134 | the settled board is well formed; SettleFacts states which pile and score change and that no card is lost |
| Moving.MoveBlock | klondike.py:97-106 | the block path raises exactly on an empty source and changes nothing unless applied; MoveBlockEffect gives the new board |
| Moving.MoveCard | klondike.py:107-124 | the single-card path raises exactly on an empty source, the pop of klondike.py:108, and then changes nothing; MoveCardEffect gives the rest |
| Moving.Move | klondike.py:90-135 | a raising move changes nothing, and an unknown source name with a target that does not raise is refused; MoveFailureChangesNothing and MoveKeepsEveryCard state the rest |
| MoveFacts.FlipsIsExposes | klondike.py:125-128 | the flip test used in the move lemmas is the one Moving.Settle makes |
| MoveFacts.MovePointsIsPoints | klondike.py:129-134 | the points used in the move lemmas are Moving.Points plus 5 for a flip |
| MoveFacts.SettleFacts | klondike.py:125-134 | settling changes only the source pile and the score: a face-down top of a tableau source is turned up, and the score rises by 10 for an F target, 5 otherwise, plus 5 for the turned card |
| MoveFacts.MoveFailureChangesNothing | klondike.py:93-124 | a move that is refused or raises leaves every pile and the score unchanged |
| MoveFacts.MoveUnresolvedName | klondike.py:91-95 | a name that resolves to no pile makes the move refused, a raising name makes it raise, and the board is untouched |
| MoveFacts.CountIgnoredOffTableau | klondike.py:97 | the count only matters for a tableau source; any other source moves one card |
| MoveFacts.MoveCardEffect | klondike.py:107-134 | between two different piles, the top card is moved exactly when the target is a tableau pile or foundation whose rule takes it; it then sits on the target, the source has lost it, and the score and turned card are as settled; no other pile changes; the stock is a legal source |
| MoveFacts.MoveBlockEffect | klondike.py:97-106 | a block from a tableau pile raises exactly on an empty pile and is applied exactly when all its cards are face up and the tableau rule takes its lowest card, whatever the target kind; it lands on the target in order and is cut from the source |
| MoveFacts.MoveSelfCard | klondike.py:107-124 | a card moved onto its own pile is checked against the pile beneath it and, if accepted, put back and scored |
| MoveFacts.MoveSelfBlock | klondike.py:97-106 | a block no longer than its pile, moved onto that pile, leaves the pile as it was and scores 5 when accepted |
| MoveFacts.FoundationSelfMoveScores | klondike.py:114-120 | moving the top card of a foundation run onto its own foundation is applied and scores 10 |
| MoveFacts.TableauSelfMoveScores | klondike.py:108-113 | a tableau top card that builds on the face-up card below it is put back onto its own pile for 5 points |
| MoveFacts.SelfBlockOverrunLosesCards | klondike.py:97-106 | with a five of hearts under a six of spades in T1, moving three cards from T1 to T1 is applied and loses the six |
| MoveFacts.SelfBlockOverrunResult | klondike.py:97-106 | moving three cards from a two-card T1 onto T1 is applied, leaves only the bottom card and scores 5 |
| MoveFacts.SelfBlockKeepsEveryCard | klondike.py:97-106 | a block no longer than its pile, moved onto that pile, keeps the board's cards |
| MoveFacts.SelfCardKeepsEveryCard | klondike.py:107-135 | a single card moved onto its own pile keeps the board's cards |
| MoveFacts.SelfMoveKeepsEveryCard | klondike.py:97-135 | a move from a pile onto itself keeps the board's cards, except a block longer than the pile |
| MoveFacts.MoveKeepsEveryCard | klondike.py:90-135 | every move keeps the board's cards, except a self-move of a block longer than its pile |
| Engine.Pile.constructor | klondike.py:26-28 | a new pile is empty |
| Engine.Pile.Top | klondike.py:30-31 | the top is the last card, or None exactly on an empty pile |
| Engine.Pile.IsEmpty | klondike.py:39-40 | a pile is empty exactly when it has no top card |
| Engine.Pile.Push | klondike.py:33-34 | the card is added on top |
| Engine.Pile.Pop | klondike.py:36-37 | an empty pile gives None and stays empty; otherwise the top card is taken off and returned |
| Engine.Game.constructor | klondike.py:43-49 | a new game, one distinct pile object per stock, waste and suit, is in the state the deal computes from the deck |
| Engine.Game.Setup | klondike.py:51-62 | the deal pops cards from the end of the deck onto the tableau, i + 1 for pile i with only the last face up, and pushes the remaining 24 on the stock in deck order |
| Engine.Game.Draw | klondike.py:64-76 | the game ends in the state Drawing.Draw computes from the state before |
| Engine.Game.Move | klondike.py:90-135 | the outcome and the new state are those Moving.Move computes from the state before |
| Engine.Game.ShiftBlock | klondike.py:97-106 | the block path's outcome, and the state before settling, agree with Moving.MoveBlock |
| Engine.Game.ShiftCard | klondike.py:107-124 | the single-card path's outcome, and the state before settling, agree with Moving.MoveCard |
| Engine.Game.TurnUpExposed | klondike.py:125-128 | the source's top is turned up exactly when it is a face-down card on a tableau source |
| Engine.Game.SettleMove | klondike.py:125-134 | a successful move's ending agrees with Moving.Settle |
| Engine.Game.AddScore | klondike.py:129-134 | adding points changes the score by exactly those points and nothing else |
| Engine.Game.PileCards | klondike.py:141-153 | the cards of the pile a reference names are that pile of the game's state |
| Engine.Game.Replace | klondike.py:105-124 | writing one pile changes the game's state by exactly that pile |
| Engine.Game.IsWon | klondike.py:137-139 | the game is won exactly when the state's four foundations hold 13 cards each |

## Left out

- The shuffle of klondike.py:53 is not modelled. Setup takes the shuffled deck as a parameter, and `Dealing.IsShuffledDeck` requires it to hold the 52 distinct cards face down.
- Every `print`, `Game.show`, `Card.__str__` and the interactive `main` loop are left out: they are console output and input.
- klondike_gui.py is left out: rendering and event handling. Its line 86 is the only place self-moves are filtered.
- Moving.Move: requires both names to be upper case. `move` tests the raw strings for `T` and `F` while `get_pile` upper-cases them. A lower-case name can therefore resolve to a pile and still take a different branch of `move`; that mix is not modelled. One such case loses a card: `move('T1', 'Fh')` pops the card at klondike.py:108 and then raises KeyError on `h` at klondike.py:116.
- Names.GetPile: upper-casing is modelled for ASCII letters only, and `int()` for ASCII digits only. Python's Unicode case mapping and Unicode digits are not modelled.
- Exceptions are modelled as the outcome `Raised` with the board unchanged, not as exception objects. The exceptions are an out-of-range or non-digit tableau number, an unknown suit letter, a bare `T` or `F` with nothing after it (IndexError at klondike.py:148 and 151), a pop from an empty pile, and an empty block.
- Cards are values. Turning a card over replaces it in its pile instead of changing a shared object. The source never holds one card object in two piles, so no aliasing is lost.
- MoveFacts.MoveKeepsEveryCard: does not cover a block moved onto its own pile with a count above the pile's size. That move loses cards; `MoveFacts.SelfBlockOverrunLosesCards` shows it.
- Whether that move can happen in a game dealt by setup is not proved either way.

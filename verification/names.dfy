/**
 * Resolution of the pile names a player types (klondike.py:141-153): "W", "STOCK",
 * "T" followed by a pile number and "F" followed by a suit letter.
 */
module Names {
  import opened Wrappers
  import opened Cards

  /** A position in the seven-pile tableau. */
  type TableauIndex = i: int | 0 <= i < 7

  /** The piles a name can stand for. */
  datatype PileRef = WasteRef | StockRef | FoundationRef(suit: Suit) | TableauRef(index: TableauIndex)

  /**
   * The outcome of looking a name up: a pile, no pile (the source returns None), or a
   * name whose lookup raises (a missing or non-digit pile number, an index past the
   * tableau, an unknown suit letter).
   */
  datatype Lookup = Found(pile: PileRef) | NoPile | Raises

  /** Upper-casing of one character; only the ASCII letters change. */
  function UpperChar(c: char): (r: char)
    ensures 'a' <= c <= 'z' ==> 'A' <= r <= 'Z' && r as int == c as int - 32
    ensures !('a' <= c <= 'z') ==> r == c
  {
    if 'a' <= c <= 'z' then (c as int - 32) as char else c
  }

  function Upper(s: string): (r: string)
    ensures |r| == |s|
    ensures forall k :: 0 <= k < |s| ==> r[k] == UpperChar(s[k])
  {
    seq(|s|, k requires 0 <= k < |s| => UpperChar(s[k]))
  }

  /** A name with no lower-case letter, so upper-casing leaves it as it is. */
  predicate IsUpper(s: string) {
    forall k :: 0 <= k < |s| ==> !('a' <= s[k] <= 'z')
  }

  lemma UpperOfUpper(s: string)
    ensures IsUpper(s) <==> Upper(s) == s
    ensures IsUpper(Upper(s)) && Upper(Upper(s)) == Upper(s)
  {
    if Upper(s) == s {
      forall k | 0 <= k < |s| ensures !('a' <= s[k] <= 'z') {
        assert Upper(s)[k] == s[k];
      }
    }
  }

  predicate StartsWith(s: string, c: char) {
    |s| > 0 && s[0] == c
  }

  /** Python's int() of a one-character string; ASCII digits only, None where int() raises. */
  function DigitValue(c: char): (r: Option<nat>)
    ensures r.Some? <==> '0' <= c <= '9'
    ensures r.Some? ==> r.value < 10 && r.value == c as int - '0' as int
  {
    if '0' <= c <= '9' then Some(c as int - '0' as int) else None
  }

  /** Python's list indexing: negative indices count from the end; None where it raises. */
  function ListIndex(i: int, len: nat): (r: Option<nat>)
    ensures r.Some? <==> -(len as int) <= i < len
    ensures r.Some? ==> r.value < len && (r.value == i || r.value == i + len)
  {
    if 0 <= i < len then Some(i)
    else if -(len as int) <= i < 0 then Some(i + len)
    else None
  }

  /** The pile a name stands for (klondike.py:141-153). */
  function GetPile(name: string): (r: Lookup)
    ensures r.Found? ==> |name| > 0 && Letter(r.pile) == Upper(name)[0]
  {
    var n := Upper(name);
    if n == "W" then Found(WasteRef)
    else if n == "STOCK" then Found(StockRef)
    else if StartsWith(n, 'T') then
      if |n| < 2 then Raises
      else match DigitValue(n[1])
        case None => Raises
        case Some(d) =>
          match ListIndex(d - 1, 7)
          case None => Raises
          case Some(i) => Found(TableauRef(i))
    else if StartsWith(n, 'F') then
      if |n| < 2 then Raises
      else match SuitOfKey(n[1])
        case None => Raises
        case Some(s) => Found(FoundationRef(s))
    else NoPile
  }

  /** The first letter of every name that reaches a pile. */
  function Letter(r: PileRef): char {
    match r
    case WasteRef => 'W'
    case StockRef => 'S'
    case FoundationRef(_) => 'F'
    case TableauRef(_) => 'T'
  }

  /** The name the interface shows for a pile: W, STOCK, F and a suit key, T and the pile number 1-7. */
  function PileName(r: PileRef): string {
    match r
    case WasteRef => "W"
    case StockRef => "STOCK"
    case FoundationRef(s) => ['F', SuitKey(s)]
    case TableauRef(i) => ['T', ('1' as int + i) as char]
  }

  /** Every pile is reached by its own name. */
  lemma GetPileOfName(r: PileRef)
    ensures GetPile(PileName(r)) == Found(r)
  {
    var n := PileName(r);
    assert Upper(n) == n;
    match r
    case WasteRef =>
    case StockRef =>
    case FoundationRef(s) =>
      assert n != "W" && n != "STOCK" && !StartsWith(n, 'T');
    case TableauRef(i) =>
      assert n != "W" && n != "STOCK";
  }

  /** Lookup does not depend on letter case. */
  lemma GetPileIgnoresCase(name: string)
    ensures GetPile(Upper(name)) == GetPile(name)
  {
    UpperOfUpper(name);
  }

  /** After T or F only the second character is read: "T12" is pile 1, "FHX" the H foundation. */
  lemma GetPileReadsTwoCharacters(name: string)
    requires |name| >= 2 && (StartsWith(Upper(name), 'T') || StartsWith(Upper(name), 'F'))
    ensures GetPile(name) == GetPile(name[..2])
  {
    var n, m := Upper(name), Upper(name[..2]);
    assert m == n[..2];
    assert m[0] == n[0] && m[1] == n[1];
    assert m != "W" && m != "STOCK" && n != "W" && n != "STOCK";
  }

  /**
   * The tableau number is a single digit minus one, read as a Python list index:
   * "T0" is index -1, the seventh pile; "T8", "T9", "T" and "TX" raise.
   */
  lemma GetPileTableauNumbers()
    ensures GetPile("T0") == Found(TableauRef(6))
    ensures GetPile("T1") == Found(TableauRef(0))
    ensures GetPile("T7") == Found(TableauRef(6))
    ensures GetPile("T12") == Found(TableauRef(0))
    ensures GetPile("t3") == Found(TableauRef(2))
    ensures GetPile("T8") == Raises && GetPile("T9") == Raises
    ensures GetPile("T") == Raises && GetPile("TX") == Raises
  {
    assert Upper("t3") == "T3";
    assert "T12"[..2] == "T1";
    GetPileReadsTwoCharacters("T12");
  }

  /**
   * A foundation name is F and a suit key in either case; any other second letter raises,
   * as does a bare F. Names that start with neither T nor F and are not W or STOCK name no pile.
   */
  lemma GetPileFoundationKeys(c: char)
    ensures var r := GetPile(['F', c]);
      match SuitOfKey(UpperChar(c))
      case Some(s) => r == Found(FoundationRef(s))
      case None => r == Raises
    ensures GetPile("F") == Raises
    ensures GetPile("X") == NoPile && GetPile("WASTE") == NoPile && GetPile("S") == NoPile
  {
    var n := Upper(['F', c]);
    assert n == ['F', UpperChar(c)];
    assert n != "W" && n != "STOCK" && !StartsWith(n, 'T');
    assert Upper("F") == "F";
    assert Upper("WASTE") == "WASTE";
  }

  /** A name reaches no pile exactly when, upper-cased, it is not W or STOCK and starts with neither T nor F. */
  lemma GetPileNoPile(name: string)
    ensures GetPile(name) == NoPile <==>
      var n := Upper(name);
      n != "W" && n != "STOCK" && !StartsWith(n, 'T') && !StartsWith(n, 'F')
  {
  }

  /** Only a tableau or a foundation name can raise. */
  lemma GetPileRaisesOnlyOnTOrF(name: string)
    ensures GetPile(name) == Raises ==> StartsWith(Upper(name), 'T') || StartsWith(Upper(name), 'F')
  {
  }

  /**
   * T followed by any character: a non-digit raises, 8 and 9 fall past the tableau and
   * raise, 0 is index -1 (the seventh pile) and 1 to 7 name piles 1 to 7.
   */
  lemma GetPileTableauDigit(c: char)
    ensures var r := GetPile(['T', c]);
      match DigitValue(UpperChar(c))
      case None => r == Raises
      case Some(d) => if d <= 7 then r == Found(TableauRef((d + 6) % 7)) else r == Raises
  {
    assert Upper(['T', c]) == ['T', UpperChar(c)];
  }

  /**
   * For an upper-case name that resolves, its first letter tells the kind of pile, and a
   * foundation name's second letter is the key of the foundation it resolves to: the tests
   * that `move` makes on the raw names agree with the lookup.
   */
  lemma ResolvedNameLetters(name: string, r: PileRef)
    requires IsUpper(name) && GetPile(name) == Found(r)
    ensures StartsWith(name, 'T') <==> r.TableauRef?
    ensures StartsWith(name, 'F') <==> r.FoundationRef?
    ensures r.FoundationRef? ==> |name| >= 2 && name[1] == SuitKey(r.suit)
  {
    UpperOfUpper(name);
  }
}

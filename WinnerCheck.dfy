/** The winning-pattern engine: given a card, the set of numbers drawn so far
    and the session's rules, report the first enabled pattern the card
    satisfies, in a fixed priority order. */
module WinnerCheck {

  import opened Wrappers
  import opened BingoTypes
  import opened JsText
  import opened Rpc

  type Grid = seq<seq<int>>

  // ---------------------------------------------------------------------------
  // Cell coverage

  /** `isDrawn`: a cell is covered when its value has been drawn, or when it
      is the free cell, which needs both the position (2, 2) and the stored
      value 0. */
  predicate IsDrawn(value: int, row: int, col: int, drawn: set<int>) {
    (value == 0 && row == 2 && col == 2) || value in drawn
  }

  /** The free cell holding 0 is covered whatever has been drawn; any other
      cell, including a centre cell holding another value, is covered exactly
      when its value is in the drawn set. */
  lemma IsDrawnFreeCell(value: int, row: int, col: int, drawn: set<int>)
    ensures row == 2 && col == 2 && value == 0 ==> IsDrawn(value, row, col, drawn)
    ensures !(row == 2 && col == 2 && value == 0) ==> (IsDrawn(value, row, col, drawn) <==> value in drawn)
  {
  }

  predicate Covered(g: Grid, drawn: set<int>, r: int, c: int)
    requires IsCard(g) && InGrid(r, c)
  {
    IsDrawn(g[r][c], r, c, drawn)
  }

  predicate RowComplete(g: Grid, drawn: set<int>, r: int)
    requires IsCard(g) && 0 <= r < 5
  {
    forall c :: 0 <= c < 5 ==> Covered(g, drawn, r, c)
  }

  predicate ColumnComplete(g: Grid, drawn: set<int>, c: int)
    requires IsCard(g) && 0 <= c < 5
  {
    forall r :: 0 <= r < 5 ==> Covered(g, drawn, r, c)
  }

  predicate MainDiagonalComplete(g: Grid, drawn: set<int>)
    requires IsCard(g)
  {
    forall i :: 0 <= i < 5 ==> Covered(g, drawn, i, i)
  }

  predicate AntiDiagonalComplete(g: Grid, drawn: set<int>)
    requires IsCard(g)
  {
    forall r, c :: 0 <= r < 5 && 0 <= c < 5 && r + c == 4 ==> Covered(g, drawn, r, c)
  }

  // ---------------------------------------------------------------------------
  // Line patterns: the specifications and the loops that decide them

  /** Every one of the 25 cells is covered. */
  predicate IsFullHouse(g: Grid, drawn: set<int>)
    requires IsCard(g)
  {
    forall r, c :: 0 <= r < 5 && 0 <= c < 5 ==> Covered(g, drawn, r, c)
  }

  /** Some row or some column is complete (diagonals do not count). */
  predicate HasLine(g: Grid, drawn: set<int>)
    requires IsCard(g)
  {
    (exists r :: 0 <= r < 5 && RowComplete(g, drawn, r)) ||
    (exists c :: 0 <= c < 5 && ColumnComplete(g, drawn, c))
  }

  /** The complete rows among the first `k`. */
  function RowsBelow(g: Grid, drawn: set<int>, k: int): set<int>
    requires IsCard(g) && 0 <= k <= 5
  {
    set r | 0 <= r < k && RowComplete(g, drawn, r)
  }

  /** The complete columns among the first `k`. */
  function ColumnsBelow(g: Grid, drawn: set<int>, k: int): set<int>
    requires IsCard(g) && 0 <= k <= 5
  {
    set c | 0 <= c < k && ColumnComplete(g, drawn, c)
  }

  function CompleteRows(g: Grid, drawn: set<int>): set<int>
    requires IsCard(g)
  {
    RowsBelow(g, drawn, 5)
  }

  function CompleteColumns(g: Grid, drawn: set<int>): set<int>
    requires IsCard(g)
  {
    ColumnsBelow(g, drawn, 5)
  }

  /** Complete rows and complete columns, counted separately, number at
      least two; a row and a column that cross both count. */
  predicate HasTwoLines(g: Grid, drawn: set<int>)
    requires IsCard(g)
  {
    |CompleteRows(g, drawn)| + |CompleteColumns(g, drawn)| >= 2
  }

  lemma RowsBelowStep(g: Grid, drawn: set<int>, k: int)
    requires IsCard(g) && 0 <= k < 5
    ensures |RowsBelow(g, drawn, k + 1)|
         == |RowsBelow(g, drawn, k)| + (if RowComplete(g, drawn, k) then 1 else 0)
  {
    if RowComplete(g, drawn, k) {
      assert RowsBelow(g, drawn, k + 1) == RowsBelow(g, drawn, k) + {k};
    } else {
      assert RowsBelow(g, drawn, k + 1) == RowsBelow(g, drawn, k);
    }
  }

  lemma ColumnsBelowStep(g: Grid, drawn: set<int>, k: int)
    requires IsCard(g) && 0 <= k < 5
    ensures |ColumnsBelow(g, drawn, k + 1)|
         == |ColumnsBelow(g, drawn, k)| + (if ColumnComplete(g, drawn, k) then 1 else 0)
  {
    if ColumnComplete(g, drawn, k) {
      assert ColumnsBelow(g, drawn, k + 1) == ColumnsBelow(g, drawn, k) + {k};
    } else {
      assert ColumnsBelow(g, drawn, k + 1) == ColumnsBelow(g, drawn, k);
    }
  }

  /** `checkFullHouse`: scan the card row by row and stop at the first cell
      that is not covered. */
  method CheckFullHouse(g: Grid, drawn: set<int>) returns (b: bool)
    requires IsCard(g)
    ensures b == IsFullHouse(g, drawn)
  {
    for r := 0 to 5
      invariant forall r', c :: 0 <= r' < r && 0 <= c < 5 ==> Covered(g, drawn, r', c)
    {
      for c := 0 to 5
        invariant forall c' :: 0 <= c' < c ==> Covered(g, drawn, r, c')
      {
        if !IsDrawn(g[r][c], r, c, drawn) {
          assert !Covered(g, drawn, r, c);
          return false;
        }
      }
    }
    return true;
  }

  /** `checkSingleLine`: try each row, then each column, and stop at the
      first complete one. */
  method CheckSingleLine(g: Grid, drawn: set<int>) returns (b: bool)
    requires IsCard(g)
    ensures b == HasLine(g, drawn)
  {
    for r := 0 to 5
      invariant forall r' :: 0 <= r' < r ==> !RowComplete(g, drawn, r')
    {
      if RowComplete(g, drawn, r) {
        return true;
      }
    }
    for c := 0 to 5
      invariant forall c' :: 0 <= c' < c ==> !ColumnComplete(g, drawn, c')
    {
      if ColumnComplete(g, drawn, c) {
        return true;
      }
    }
    return false;
  }

  /** `checkTwoLines`: count the complete rows and then the complete columns
      in one counter and compare it with two. */
  method CheckTwoLines(g: Grid, drawn: set<int>) returns (b: bool)
    requires IsCard(g)
    ensures b == HasTwoLines(g, drawn)
  {
    var lineCount := 0;
    for r := 0 to 5
      invariant lineCount == |RowsBelow(g, drawn, r)|
    {
      RowsBelowStep(g, drawn, r);
      if RowComplete(g, drawn, r) {
        lineCount := lineCount + 1;
      }
    }
    for c := 0 to 5
      invariant lineCount == |CompleteRows(g, drawn)| + |ColumnsBelow(g, drawn, c)|
    {
      ColumnsBelowStep(g, drawn, c);
      if ColumnComplete(g, drawn, c) {
        lineCount := lineCount + 1;
      }
    }
    return lineCount >= 2;
  }

  // ---------------------------------------------------------------------------
  // Shape patterns

  /** `checkDiagonal`: either diagonal is complete. */
  predicate CheckDiagonal(g: Grid, drawn: set<int>)
    requires IsCard(g)
  {
    MainDiagonalComplete(g, drawn) || AntiDiagonalComplete(g, drawn)
  }

  /** `checkXPattern`: both diagonals are complete. */
  predicate CheckXPattern(g: Grid, drawn: set<int>)
    requires IsCard(g)
  {
    MainDiagonalComplete(g, drawn) && AntiDiagonalComplete(g, drawn)
  }

  /** `checkPlusPattern`: the middle row and the middle column are complete. */
  predicate CheckPlusPattern(g: Grid, drawn: set<int>)
    requires IsCard(g)
  {
    RowComplete(g, drawn, 2) && ColumnComplete(g, drawn, 2)
  }

  /** `checkFourCorners`: the four corner cells are covered. */
  predicate CheckFourCorners(g: Grid, drawn: set<int>)
    requires IsCard(g)
  {
    Covered(g, drawn, 0, 0) && Covered(g, drawn, 0, 4) &&
    Covered(g, drawn, 4, 0) && Covered(g, drawn, 4, 4)
  }

  // ---------------------------------------------------------------------------
  // Custom numbers

  /** The filter step of the custom-number list: keep the parsed values that
      are numbers (not NaN) between 1 and 75, in order. */
  function KeepInRange(vals: seq<Option<int>>): (nums: seq<int>)
    ensures |nums| <= |vals|
  {
    if vals == [] then []
    else
      var rest := KeepInRange(vals[1..]);
      if vals[0].Some? && 1 <= vals[0].value <= 75 then [vals[0].value] + rest else rest
  }

  /** The filter keeps exactly the in-range numbers among the parsed values. */
  lemma {:induction false} KeepInRangeMembers(vals: seq<Option<int>>)
    ensures forall i :: 0 <= i < |KeepInRange(vals)| ==> 1 <= KeepInRange(vals)[i] <= 75
    ensures forall i :: 0 <= i < |vals| && vals[i].Some? && 1 <= vals[i].value <= 75 ==>
      vals[i].value in KeepInRange(vals)
    ensures forall x :: x in KeepInRange(vals) ==> exists i :: 0 <= i < |vals| && vals[i] == Some(x)
  {
    if vals != [] {
      KeepInRangeMembers(vals[1..]);
      assert forall i :: 1 <= i < |vals| ==> vals[i] == vals[1..][i - 1];
    }
  }

  /** What `parseInt(piece.trim())` gives for one piece of the text. */
  function PieceValue(piece: string): Option<int> {
    ParseInt(Trim(piece))
  }

  /** The map step: the parsed value of each comma-separated piece. */
  function PieceValues(parts: seq<string>): (vals: seq<Option<int>>)
    ensures |vals| == |parts|
  {
    if parts == [] then [] else [PieceValue(parts[0])] + PieceValues(parts[1..])
  }

  /** The map step keeps the pieces in place. */
  lemma {:induction false} PieceValuesAt(parts: seq<string>, i: int)
    requires 0 <= i < |parts|
    ensures PieceValues(parts)[i] == PieceValue(parts[i])
  {
    if i > 0 {
      PieceValuesAt(parts[1..], i - 1);
    }
  }

  /** The custom winning numbers of a rule text: split on commas, trim each
      piece, `parseInt` it, and keep the results in [1, 75]. */
  function CustomNumberList(text: string): seq<int> {
    KeepInRange(PieceValues(Split(text, ',')))
  }

  /** `checkCustomNumbers`: a non-empty custom list, all of whose numbers are
      in the drawn set (raw membership, no free-cell exemption). */
  predicate CheckCustomNumbers(drawn: set<int>, text: string) {
    var nums := CustomNumberList(text);
    if |nums| == 0 then false else forall i :: 0 <= i < |nums| ==> nums[i] in drawn
  }

  /** A piece of the custom text that `parseInt` reads as a number in [1, 75]. */
  predicate ValidPiece(piece: string) {
    var v := PieceValue(piece);
    v.Some? && 1 <= v.value <= 75
  }

  /** A valid piece contributes its value to the custom numbers. */
  lemma ValidPieceIsKept(text: string, i: int)
    requires 0 <= i < |Split(text, ',')| && ValidPiece(Split(text, ',')[i])
    ensures PieceValue(Split(text, ',')[i]).value in CustomNumberList(text)
  {
    var vals := PieceValues(Split(text, ','));
    KeepInRangeMembers(vals);
    PieceValuesAt(Split(text, ','), i);
  }

  /** Every custom number is the value of some valid piece. */
  lemma KeptIsValidPiece(text: string, x: int)
    requires x in CustomNumberList(text)
    ensures exists i :: (0 <= i < |Split(text, ',')| && ValidPiece(Split(text, ',')[i])
      && PieceValue(Split(text, ',')[i]) == Some(x))
  {
    var vals := PieceValues(Split(text, ','));
    KeepInRangeMembers(vals);
    var k :| 0 <= k < |CustomNumberList(text)| && CustomNumberList(text)[k] == x;
    assert 1 <= x <= 75;
    var i :| 0 <= i < |vals| && vals[i] == Some(x);
    PieceValuesAt(Split(text, ','), i);
  }

  /** The custom numbers are exactly the values of the valid pieces. */
  lemma CustomNumbersArePieceValues(text: string)
    ensures forall i :: 0 <= i < |CustomNumberList(text)| ==> 1 <= CustomNumberList(text)[i] <= 75
    ensures forall i :: 0 <= i < |Split(text, ',')| && ValidPiece(Split(text, ',')[i]) ==>
      PieceValue(Split(text, ',')[i]).value in CustomNumberList(text)
    ensures forall x :: x in CustomNumberList(text) ==>
      (exists i :: 0 <= i < |Split(text, ',')| && ValidPiece(Split(text, ',')[i])
        && PieceValue(Split(text, ',')[i]) == Some(x))
  {
    KeepInRangeMembers(PieceValues(Split(text, ',')));
    forall i | 0 <= i < |Split(text, ',')| && ValidPiece(Split(text, ',')[i])
      ensures PieceValue(Split(text, ',')[i]).value in CustomNumberList(text)
    {
      ValidPieceIsKept(text, i);
    }
    forall x | x in CustomNumberList(text)
      ensures exists i :: (0 <= i < |Split(text, ',')| && ValidPiece(Split(text, ',')[i])
        && PieceValue(Split(text, ',')[i]) == Some(x))
    {
      KeptIsValidPiece(text, x);
    }
  }

  /** The custom check in terms of the comma-separated pieces of the text:
      some piece reads as a number in [1, 75], and every piece that does has
      been drawn. */
  lemma CustomNumbersByPiece(drawn: set<int>, text: string)
    ensures var parts := Split(text, ',');
      CheckCustomNumbers(drawn, text) <==>
        (exists i :: 0 <= i < |parts| && ValidPiece(parts[i])) &&
        (forall i :: 0 <= i < |parts| && ValidPiece(parts[i]) ==> PieceValue(parts[i]).value in drawn)
  {
    var parts := Split(text, ',');
    var nums := CustomNumberList(text);
    CustomNumbersArePieceValues(text);
    if CheckCustomNumbers(drawn, text) {
      assert nums[0] in nums;
      forall i | 0 <= i < |parts| && ValidPiece(parts[i])
        ensures PieceValue(parts[i]).value in drawn
      {
        var x := PieceValue(parts[i]).value;
        assert x in nums;
      }
    }
    if (exists i :: 0 <= i < |parts| && ValidPiece(parts[i])) &&
       (forall i :: 0 <= i < |parts| && ValidPiece(parts[i]) ==> PieceValue(parts[i]).value in drawn)
    {
      var i :| 0 <= i < |parts| && ValidPiece(parts[i]);
      assert PieceValue(parts[i]).value in nums;
      forall k | 0 <= k < |nums| ensures nums[k] in drawn {
        assert nums[k] in nums;
      }
    }
  }

  /** Every piece of an all-whitespace text is all whitespace. */
  lemma {:induction false} SplitOfWhitespace(text: string)
    requires AllWhitespace(text)
    ensures forall i :: 0 <= i < |Split(text, ',')| ==> AllWhitespace(Split(text, ',')[i])
  {
    if text != [] {
      SplitOfWhitespace(text[1..]);
      var rest := Split(text[1..], ',');
      assert text[0] != ',';
      assert Split(text, ',') == [[text[0]] + rest[0]] + rest[1..];
      assert AllWhitespace([text[0]] + rest[0]) by {
        assert AllWhitespace(rest[0]);
      }
    }
  }

  /** A filter over values none of which is in range keeps nothing. */
  lemma {:induction false} KeepInRangeOfNone(vals: seq<Option<int>>)
    requires forall i :: 0 <= i < |vals| ==> !(vals[i].Some? && 1 <= vals[i].value <= 75)
    ensures KeepInRange(vals) == []
  {
    if vals != [] {
      assert !(vals[0].Some? && 1 <= vals[0].value <= 75);
      KeepInRangeOfNone(vals[1..]);
    }
  }

  /** A text that is empty or all whitespace never wins by custom numbers,
      whatever has been drawn: all its pieces trim to nothing and read as
      NaN. So the `trim()` guard in front of the custom check changes no
      result. */
  lemma WhitespaceTextNeverWins(drawn: set<int>, text: string)
    requires Trim(text) == []
    ensures CustomNumberList(text) == []
    ensures !CheckCustomNumbers(drawn, text)
  {
    TrimEmptyIff(text);
    SplitOfWhitespace(text);
    var parts := Split(text, ',');
    var vals := PieceValues(parts);
    forall i | 0 <= i < |vals| ensures !(vals[i].Some? && 1 <= vals[i].value <= 75) {
      TrimEmptyIff(parts[i]);
      assert Trim(parts[i]) == [];
      PieceValuesAt(parts, i);
    }
    KeepInRangeOfNone(vals);
  }

  /** A piece made of decimal digits alone reads as its decimal value. */
  lemma DigitPieceValue(ds: string)
    requires |ds| >= 1 && forall i :: 0 <= i < |ds| ==> IsDigit(ds[i], 10)
    ensures PieceValue(ds) == Some(DigitsValue(ds, 10) as int)
  {
    assert IsDigit(ds[0], 10) && IsDigit(ds[|ds| - 1], 10);
    TrimOfSolid(ds);
    ParseIntOfDigits(ds);
  }

  /** The decimal text of a number, as a piece, reads back as that number. */
  lemma NumberPieceValue(n: nat)
    ensures PieceValue(NatToString(n)) == Some(n)
  {
    DigitPieceValue(NatToString(n));
    NatToStringValue(n);
  }

  /** The text of two numbers joined by a comma splits back into the two. */
  lemma SplitTwoNumbers(a: nat, b: nat)
    ensures Split(NatToString(a) + "," + NatToString(b), ',') == [NatToString(a), NatToString(b)]
  {
    var sa, sb := NatToString(a), NatToString(b);
    assert ',' !in sa && ',' !in sb by {
      assert !IsDigit(',', 10);
    }
    SplitPiece(sa, sb, ',');
    SplitPiece(sb, [], ',');
    assert sa + "," + sb == sa + [','] + sb;
  }

  /** The map step on two pieces. */
  lemma PieceValuesOfTwo(p: string, q: string)
    ensures PieceValues([p, q]) == [PieceValue(p), PieceValue(q)]
  {
    assert [p, q][1..] == [q];
  }

  /** A text whose custom list is one number wins exactly when it is drawn. */
  lemma SingleCustomNumber(drawn: set<int>, text: string, a: int)
    requires CustomNumberList(text) == [a]
    ensures CheckCustomNumbers(drawn, text) <==> a in drawn
  {
    var nums := CustomNumberList(text);
    assert |nums| == 1 && nums[0] == a;
  }

  /** A number outside [1, 75] in the list is dropped in place: the text "a,b"
      with a in range and b above it has the custom list [a], and so wins
      exactly when a has been drawn. */
  lemma OutOfRangeNumberDropped(drawn: set<int>, a: nat, b: nat)
    requires 1 <= a <= 75 < b
    ensures CustomNumberList(NatToString(a) + "," + NatToString(b)) == [a]
    ensures CheckCustomNumbers(drawn, NatToString(a) + "," + NatToString(b)) <==> a in drawn
  {
    SplitTwoNumbers(a, b);
    PieceValuesOfTwo(NatToString(a), NatToString(b));
    NumberPieceValue(a);
    NumberPieceValue(b);
    var vals := [Some(a), Some(b)];
    assert vals[1..] == [Some(b)];
    assert KeepInRange(vals) == [a];
    SingleCustomNumber(drawn, NatToString(a) + "," + NatToString(b), a);
  }

  /** A text whose custom list is two numbers wins exactly when both are
      drawn. */
  lemma TwoCustomNumbers(drawn: set<int>, text: string, a: int, b: int)
    requires CustomNumberList(text) == [a, b]
    ensures CheckCustomNumbers(drawn, text) <==> a in drawn && b in drawn
  {
    var nums := CustomNumberList(text);
    assert |nums| == 2 && nums[0] == a && nums[1] == b;
  }

  /** "1,15,999,abc" splits into its four pieces. */
  lemma ExampleSplit()
    ensures Split("1,15,999,abc", ',') == ["1", "15", "999", "abc"]
  {
    var parts := ["1", "15", "999", "abc"];
    SplitJoin(parts, ',');
    assert Join(parts, ',') == "1,15,999,abc";
  }

  /** The map step on four pieces. */
  lemma PieceValuesOfFour(a: string, b: string, c: string, d: string)
    ensures PieceValues([a, b, c, d]) == [PieceValue(a), PieceValue(b), PieceValue(c), PieceValue(d)]
  {
    var p := [a, b, c, d];
    assert p[1..] == [b, c, d];
    assert p[1..][1..] == [c, d];
    assert p[1..][1..][1..] == [d];
    assert PieceValues([d]) == [PieceValue(d)];
    assert PieceValues([c, d]) == [PieceValue(c), PieceValue(d)];
    assert PieceValues([b, c, d]) == [PieceValue(b), PieceValue(c), PieceValue(d)];
  }

  lemma ExamplePieceOne()
    ensures PieceValue("1") == Some(1)
  {
    DigitPieceValue("1");
  }

  lemma ExamplePieceFifteen()
    ensures PieceValue("15") == Some(15)
  {
    DigitPieceValue("15");
  }

  lemma ExamplePieceOutOfRange()
    ensures PieceValue("999") == Some(999)
  {
    DigitPieceValue("999");
    assert "999"[..2] == "99" && "99"[..1] == "9";
    assert DigitsValue("99", 10) == 99;
  }

  /** A piece with no leading digit reads as NaN. */
  lemma ExamplePieceNaN()
    ensures PieceValue("abc") == None
  {
    TrimOfSolid("abc");
    assert TrimStart("abc") == "abc";
    assert DigitPrefix("abc", 10) == [];
  }

  lemma ExampleFilter()
    ensures KeepInRange([Some(1), Some(15), Some(999), None]) == [1, 15]
  {
    var vals := [Some(1), Some(15), Some(999), None];
    assert vals[1..] == [Some(15), Some(999), None];
    assert vals[1..][1..] == [Some(999), None];
    assert vals[1..][1..][1..] == [None];
  }

  /** Pieces that are out of range or not numbers are dropped, in place:
      "1,15,999,abc" leaves exactly 1 and 15, so it wins exactly when both
      have been drawn. */
  lemma CustomNumbersExample(drawn: set<int>)
    ensures CustomNumberList("1,15,999,abc") == [1, 15]
    ensures CheckCustomNumbers(drawn, "1,15,999,abc") <==> 1 in drawn && 15 in drawn
  {
    ExampleSplit();
    PieceValuesOfFour("1", "15", "999", "abc");
    ExamplePieceOne();
    ExamplePieceFifteen();
    ExamplePieceOutOfRange();
    ExamplePieceNaN();
    ExampleFilter();
    TwoCustomNumbers(drawn, "1,15,999,abc", 1, 15);
  }

  // ---------------------------------------------------------------------------
  // Orchestration

  /** Whether the rules switch a pattern on; the custom list is on when its
      text is not blank. */
  predicate Enabled(rules: WinningRules, p: Pattern) {
    match p
    case FullHouse => rules.fullHouse
    case TwoLines => rules.twoLines
    case XPattern => rules.xPattern
    case PlusPattern => rules.plusPattern
    case FourCorners => rules.fourCorners
    case Diagonal => rules.diagonal
    case SingleLine => rules.singleLine
    case CustomNumbers => Trim(rules.customNumbers) != []
  }

  /** Whether the card and drawn set satisfy a pattern. */
  predicate Holds(g: Grid, drawn: set<int>, rules: WinningRules, p: Pattern)
    requires IsCard(g)
  {
    match p
    case FullHouse => IsFullHouse(g, drawn)
    case TwoLines => HasTwoLines(g, drawn)
    case XPattern => CheckXPattern(g, drawn)
    case PlusPattern => CheckPlusPattern(g, drawn)
    case FourCorners => CheckFourCorners(g, drawn)
    case Diagonal => CheckDiagonal(g, drawn)
    case SingleLine => HasLine(g, drawn)
    case CustomNumbers => CheckCustomNumbers(drawn, rules.customNumbers)
  }

  predicate Qualifies(g: Grid, drawn: set<int>, rules: WinningRules, p: Pattern)
    requires IsCard(g)
  {
    Enabled(rules, p) && Holds(g, drawn, rules, p)
  }

  /** The order in which the engine tries the patterns. */
  const PriorityOrder: seq<Pattern> :=
    [FullHouse, TwoLines, XPattern, PlusPattern, FourCorners, Diagonal, SingleLine, CustomNumbers]

  /** The patterns the rules enable and the card satisfies. */
  function Winners(g: Grid, drawn: set<int>, rules: WinningRules): set<Pattern>
    requires IsCard(g)
  {
    set p | p in PriorityOrder && Qualifies(g, drawn, rules, p)
  }

  /** The first pattern of `order` that is in `marked`, if any. */
  function FirstIn(order: seq<Pattern>, marked: set<Pattern>): Option<Pattern> {
    if order == [] then None
    else if order[0] in marked then Some(order[0])
    else FirstIn(order[1..], marked)
  }

  /** The reference result: the first winner in priority order. */
  function WinningPattern(g: Grid, drawn: set<int>, rules: WinningRules): Option<Pattern>
    requires IsCard(g)
  {
    FirstIn(PriorityOrder, Winners(g, drawn, rules))
  }

  /** One step of `FirstIn`. */
  lemma FirstInCons(order: seq<Pattern>, marked: set<Pattern>)
    requires order != []
    ensures FirstIn(order, marked) == if order[0] in marked then Some(order[0]) else FirstIn(order[1..], marked)
  {
  }

  /** A pattern is a winner exactly when it qualifies. */
  lemma WinnersAreQualifying(g: Grid, drawn: set<int>, rules: WinningRules, p: Pattern)
    requires IsCard(g)
    ensures p in Winners(g, drawn, rules) <==> Qualifies(g, drawn, rules, p)
  {
    assert PriorityOrder[Rank(p)] == p;
  }

  /** The first marked pattern in priority order, as a chain of tests. */
  lemma FirstInPriority(marked: set<Pattern>)
    ensures FirstIn(PriorityOrder, marked) ==
      if FullHouse in marked then Some(FullHouse)
      else if TwoLines in marked then Some(TwoLines)
      else if XPattern in marked then Some(XPattern)
      else if PlusPattern in marked then Some(PlusPattern)
      else if FourCorners in marked then Some(FourCorners)
      else if Diagonal in marked then Some(Diagonal)
      else if SingleLine in marked then Some(SingleLine)
      else if CustomNumbers in marked then Some(CustomNumbers)
      else None
  {
    var o := PriorityOrder;
    FirstInCons(o, marked);
    FirstInCons(o[1..], marked);
    FirstInCons(o[1..][1..], marked);
    FirstInCons(o[1..][1..][1..], marked);
    FirstInCons(o[1..][1..][1..][1..], marked);
    FirstInCons(o[1..][1..][1..][1..][1..], marked);
    FirstInCons(o[1..][1..][1..][1..][1..][1..], marked);
    FirstInCons(o[1..][1..][1..][1..][1..][1..][1..], marked);
    assert o[1..] == [TwoLines, XPattern, PlusPattern, FourCorners, Diagonal, SingleLine, CustomNumbers];
    assert o[1..][1..] == [XPattern, PlusPattern, FourCorners, Diagonal, SingleLine, CustomNumbers];
    assert o[1..][1..][1..] == [PlusPattern, FourCorners, Diagonal, SingleLine, CustomNumbers];
    assert o[1..][1..][1..][1..] == [FourCorners, Diagonal, SingleLine, CustomNumbers];
    assert o[1..][1..][1..][1..][1..] == [Diagonal, SingleLine, CustomNumbers];
    assert o[1..][1..][1..][1..][1..][1..] == [SingleLine, CustomNumbers];
    assert o[1..][1..][1..][1..][1..][1..][1..] == [CustomNumbers];
  }

  /** The reference result as a chain of tests in priority order. */
  lemma WinningPatternChain(g: Grid, drawn: set<int>, rules: WinningRules)
    requires IsCard(g)
    ensures WinningPattern(g, drawn, rules) ==
      if Qualifies(g, drawn, rules, FullHouse) then Some(FullHouse)
      else if Qualifies(g, drawn, rules, TwoLines) then Some(TwoLines)
      else if Qualifies(g, drawn, rules, XPattern) then Some(XPattern)
      else if Qualifies(g, drawn, rules, PlusPattern) then Some(PlusPattern)
      else if Qualifies(g, drawn, rules, FourCorners) then Some(FourCorners)
      else if Qualifies(g, drawn, rules, Diagonal) then Some(Diagonal)
      else if Qualifies(g, drawn, rules, SingleLine) then Some(SingleLine)
      else if Qualifies(g, drawn, rules, CustomNumbers) then Some(CustomNumbers)
      else None
  {
    FirstInPriority(Winners(g, drawn, rules));
    WinnersAreQualifying(g, drawn, rules, FullHouse);
    WinnersAreQualifying(g, drawn, rules, TwoLines);
    WinnersAreQualifying(g, drawn, rules, XPattern);
    WinnersAreQualifying(g, drawn, rules, PlusPattern);
    WinnersAreQualifying(g, drawn, rules, FourCorners);
    WinnersAreQualifying(g, drawn, rules, Diagonal);
    WinnersAreQualifying(g, drawn, rules, SingleLine);
    WinnersAreQualifying(g, drawn, rules, CustomNumbers);
  }

  /** `checkWinningPattern`: test the enabled patterns in priority order and
      return the first that holds, or `null` (here `None`). */
  method CheckWinningPattern(g: Grid, drawn: set<int>, rules: WinningRules) returns (r: Option<Pattern>)
    requires IsCard(g)
    ensures r == WinningPattern(g, drawn, rules)
  {
    WinningPatternChain(g, drawn, rules);
    if rules.fullHouse {
      var b := CheckFullHouse(g, drawn);
      if b {
        return Some(FullHouse);
      }
    }
    if rules.twoLines {
      var b := CheckTwoLines(g, drawn);
      if b {
        return Some(TwoLines);
      }
    }
    if rules.xPattern && CheckXPattern(g, drawn) {
      return Some(XPattern);
    }
    if rules.plusPattern && CheckPlusPattern(g, drawn) {
      return Some(PlusPattern);
    }
    if rules.fourCorners && CheckFourCorners(g, drawn) {
      return Some(FourCorners);
    }
    if rules.diagonal && CheckDiagonal(g, drawn) {
      return Some(Diagonal);
    }
    if rules.singleLine {
      var b := CheckSingleLine(g, drawn);
      if b {
        return Some(SingleLine);
      }
    }
    if Trim(rules.customNumbers) != [] && CheckCustomNumbers(drawn, rules.customNumbers) {
      return Some(CustomNumbers);
    }
    return None;
  }

  /** The position of a pattern in the priority order. */
  function Rank(p: Pattern): (k: nat)
    ensures k < |PriorityOrder| && PriorityOrder[k] == p
  {
    match p
    case FullHouse => 0
    case TwoLines => 1
    case XPattern => 2
    case PlusPattern => 3
    case FourCorners => 4
    case Diagonal => 5
    case SingleLine => 6
    case CustomNumbers => 7
  }

  /** The first marked pattern in priority order is the marked pattern that
      no marked pattern outranks; there is none exactly when nothing is
      marked. */
  lemma FirstInByRank(marked: set<Pattern>, p: Pattern)
    ensures FirstIn(PriorityOrder, marked) == Some(p) <==>
      p in marked && forall q :: Rank(q) < Rank(p) ==> q !in marked
    ensures FirstIn(PriorityOrder, marked) == None <==> forall q :: q !in marked
  {
    FirstInPriority(marked);
    var r := FirstIn(PriorityOrder, marked);
    if r == Some(p) {
      forall q | Rank(q) < Rank(p) ensures q !in marked {
        match q
        case FullHouse => case TwoLines => case XPattern => case PlusPattern =>
        case FourCorners => case Diagonal => case SingleLine => case CustomNumbers =>
      }
    }
    if r == None {
      forall q ensures q !in marked {
        match q
        case FullHouse => case TwoLines => case XPattern => case PlusPattern =>
        case FourCorners => case Diagonal => case SingleLine => case CustomNumbers =>
      }
    }
  }

  /** The engine reports `p` exactly when `p` is enabled and holds and no
      pattern of higher priority is enabled and holds; it reports nothing
      exactly when no enabled pattern holds. */
  lemma WinnerIsFirstByPriority(g: Grid, drawn: set<int>, rules: WinningRules, p: Pattern)
    requires IsCard(g)
    ensures WinningPattern(g, drawn, rules) == Some(p) <==>
      Qualifies(g, drawn, rules, p) && forall q :: Rank(q) < Rank(p) ==> !Qualifies(g, drawn, rules, q)
    ensures WinningPattern(g, drawn, rules) == None <==>
      forall q :: !Qualifies(g, drawn, rules, q)
  {
    var w := Winners(g, drawn, rules);
    FirstInByRank(w, p);
    forall q ensures q in w <==> Qualifies(g, drawn, rules, q) {
      WinnersAreQualifying(g, drawn, rules, q);
    }
  }

  /** With a single pattern enabled, the engine reports that pattern exactly
      when it holds, and nothing otherwise. */
  lemma OnlyEnabledPattern(g: Grid, drawn: set<int>, rules: WinningRules, p: Pattern)
    requires IsCard(g)
    requires forall q :: Enabled(rules, q) <==> q == p
    ensures WinningPattern(g, drawn, rules) == (if Holds(g, drawn, rules, p) then Some(p) else None)
  {
    WinnerIsFirstByPriority(g, drawn, rules, p);
  }

  // ---------------------------------------------------------------------------
  // Relations between the patterns

  /** A full card satisfies every positional pattern. */
  lemma FullHouseImpliesAll(g: Grid, drawn: set<int>)
    requires IsCard(g)
    requires IsFullHouse(g, drawn)
    ensures HasTwoLines(g, drawn) && HasLine(g, drawn)
    ensures CheckXPattern(g, drawn) && CheckDiagonal(g, drawn)
    ensures CheckPlusPattern(g, drawn) && CheckFourCorners(g, drawn)
  {
    assert RowComplete(g, drawn, 0) && RowComplete(g, drawn, 1);
    assert {0, 1} <= CompleteRows(g, drawn);
    assert |{0, 1}| == 2;
  }

  /** With full house switched on, a full card is reported as full house,
      ahead of every other pattern it also satisfies. */
  lemma FullHouseWins(g: Grid, drawn: set<int>, rules: WinningRules)
    requires IsCard(g)
    requires rules.fullHouse && IsFullHouse(g, drawn)
    ensures WinningPattern(g, drawn, rules) == Some(FullHouse)
  {
  }

  /** With the free cell holding 0, full house means that every one of the
      other 24 values has been drawn. */
  lemma FullHouseIffAllValuesDrawn(g: Grid, drawn: set<int>)
    requires IsCard(g) && g[2][2] == 0
    ensures IsFullHouse(g, drawn) <==>
      forall r, c :: InGrid(r, c) && !(r == 2 && c == 2) ==> g[r][c] in drawn
  {
    if IsFullHouse(g, drawn) {
      forall r, c | InGrid(r, c) && !(r == 2 && c == 2) ensures g[r][c] in drawn {
        assert Covered(g, drawn, r, c);
      }
    }
    if forall r, c :: InGrid(r, c) && !(r == 2 && c == 2) ==> g[r][c] in drawn {
      forall r, c | 0 <= r < 5 && 0 <= c < 5 ensures Covered(g, drawn, r, c) {
        if !(r == 2 && c == 2) { assert g[r][c] in drawn; }
      }
    }
  }

  /** Two lines imply a single line. */
  lemma TwoLinesImpliesSingleLine(g: Grid, drawn: set<int>)
    requires IsCard(g)
    requires HasTwoLines(g, drawn)
    ensures HasLine(g, drawn)
  {
    if CompleteRows(g, drawn) != {} {
      var r :| r in CompleteRows(g, drawn);
    } else {
      var c :| c in CompleteColumns(g, drawn);
    }
  }

  /** One complete row and no complete column is a single line but not two
      lines. */
  lemma OneRowIsNotTwoLines(g: Grid, drawn: set<int>, row: int)
    requires IsCard(g) && 0 <= row < 5
    requires RowComplete(g, drawn, row)
    requires forall r :: 0 <= r < 5 && r != row ==> !RowComplete(g, drawn, r)
    requires forall c :: 0 <= c < 5 ==> !ColumnComplete(g, drawn, c)
    ensures HasLine(g, drawn) && !HasTwoLines(g, drawn)
  {
    assert CompleteRows(g, drawn) == {row};
    assert CompleteColumns(g, drawn) == {};
  }

  /** The X implies a diagonal. */
  lemma XPatternImpliesDiagonal(g: Grid, drawn: set<int>)
    requires IsCard(g)
    ensures CheckXPattern(g, drawn) ==> CheckDiagonal(g, drawn)
  {
  }

  /** Only the main diagonal covered: a diagonal, but not an X. */
  lemma MainDiagonalOnlyIsNotX(g: Grid, drawn: set<int>)
    requires IsCard(g)
    requires MainDiagonalComplete(g, drawn) && !AntiDiagonalComplete(g, drawn)
    ensures CheckDiagonal(g, drawn) && !CheckXPattern(g, drawn)
  {
  }

  /** The plus is the set of cells in row 2 or column 2, and the four
      corners are the four corner cells. */
  lemma PlusAndCornersByCells(g: Grid, drawn: set<int>)
    requires IsCard(g)
    ensures CheckPlusPattern(g, drawn) <==>
      forall r, c :: InGrid(r, c) && (r == 2 || c == 2) ==> Covered(g, drawn, r, c)
    ensures CheckFourCorners(g, drawn) <==>
      forall r, c :: InGrid(r, c) && (r == 0 || r == 4) && (c == 0 || c == 4) ==> Covered(g, drawn, r, c)
  {
  }

  // ---------------------------------------------------------------------------
  // Growth of the drawn set

  /** Drawing more numbers never uncovers a cell. */
  lemma CoveredGrows(g: Grid, drawn: set<int>, more: set<int>)
    requires IsCard(g) && drawn <= more
    ensures forall r, c :: InGrid(r, c) && Covered(g, drawn, r, c) ==> Covered(g, more, r, c)
  {
  }

  lemma SubsetSize(a: set<int>, b: set<int>)
    requires a <= b
    ensures |a| <= |b|
  {
    assert b == a + (b - a);
  }

  /** Drawing more numbers never undoes a pattern. */
  lemma HoldsMonotone(g: Grid, drawn: set<int>, more: set<int>, rules: WinningRules, p: Pattern)
    requires IsCard(g) && drawn <= more
    requires Holds(g, drawn, rules, p)
    ensures Holds(g, more, rules, p)
  {
    CoveredGrows(g, drawn, more);
    match p
    case FullHouse =>
    case TwoLines =>
      forall r | r in CompleteRows(g, drawn) ensures r in CompleteRows(g, more) {
        assert RowComplete(g, more, r);
      }
      forall c | c in CompleteColumns(g, drawn) ensures c in CompleteColumns(g, more) {
        assert ColumnComplete(g, more, c);
      }
      SubsetSize(CompleteRows(g, drawn), CompleteRows(g, more));
      SubsetSize(CompleteColumns(g, drawn), CompleteColumns(g, more));
    case XPattern =>
    case PlusPattern =>
      assert RowComplete(g, more, 2);
      assert ColumnComplete(g, more, 2);
    case FourCorners =>
    case Diagonal =>
    case SingleLine =>
      if exists r :: 0 <= r < 5 && RowComplete(g, drawn, r) {
        var r :| 0 <= r < 5 && RowComplete(g, drawn, r);
        assert RowComplete(g, more, r);
      } else {
        var c :| 0 <= c < 5 && ColumnComplete(g, drawn, c);
        assert ColumnComplete(g, more, c);
      }
    case CustomNumbers =>
  }

  /** Once the engine reports a win for a card, it keeps reporting one as
      more numbers are drawn (though possibly a better pattern). */
  lemma WinPersists(g: Grid, drawn: set<int>, more: set<int>, rules: WinningRules)
    requires IsCard(g) && drawn <= more
    requires WinningPattern(g, drawn, rules).Some?
    ensures WinningPattern(g, more, rules).Some?
    ensures Rank(WinningPattern(g, more, rules).value)
         <= Rank(WinningPattern(g, drawn, rules).value)
  {
    var p := WinningPattern(g, drawn, rules).value;
    WinnerIsFirstByPriority(g, drawn, rules, p);
    HoldsMonotone(g, drawn, more, rules, p);
    WinnerIsFirstByPriority(g, more, rules, p);
    var q := WinningPattern(g, more, rules);
    if q == None {
      assert false;
    } else {
      WinnerIsFirstByPriority(g, more, rules, q.value);
    }
  }

  // ---------------------------------------------------------------------------
  // Display names

  /** `getPatternName`: the display name of a tag; an unknown tag is shown
      as it is. */
  function GetPatternName(patternType: string): (name: string)
    ensures name == patternType <==> ParseTag(patternType).None?
    ensures |patternType| > 0 ==> |name| > 0
  {
    match ParseTag(patternType)
    case Some(SingleLine) => "Single Line"
    case Some(TwoLines) => "Two Lines"
    case Some(FullHouse) => "Full House"
    case Some(FourCorners) => "Four Corners"
    case Some(Diagonal) => "Diagonal"
    case Some(XPattern) => "X Pattern"
    case Some(PlusPattern) => "Plus Pattern"
    case Some(CustomNumbers) => "Custom Numbers"
    case None => patternType
  }
}

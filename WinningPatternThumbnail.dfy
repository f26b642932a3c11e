/** The 5x5 thumbnail that shows which cells a winning pattern uses. */
module WinningPatternThumbnail {
  import opened Wrappers
  import opened BingoTypes
  import opened Rpc
  import WinnerCheck

  /** The cells a recognised pattern lights, before the centre is added;
      an unrecognised tag shows the single-line picture. */
  predicate ShapeCell(tag: Option<Pattern>, r: int, c: int) {
    match tag
    case Some(FullHouse) => true
    case Some(TwoLines) => r == 0 || r == 4
    case Some(FourCorners) => (r == 0 || r == 4) && (c == 0 || c == 4)
    case Some(Diagonal) => r == c
    case Some(XPattern) => r == c || r + c == 4
    case Some(PlusPattern) => r == 2 || c == 2
    case Some(CustomNumbers) => (r == 1 || r == 3) && (c == 1 || c == 3)
    case Some(SingleLine) => r == 0
    case None => r == 0
  }

  /** Whether the thumbnail for `patternType` lights cell (r, c): the
      pattern's cells, and the centre always. */
  predicate ThumbnailCell(patternType: string, r: int, c: int) {
    (r == 2 && c == 2) || ShapeCell(ParseTag(patternType), r, c)
  }

  /** A 5x5 grid with no cell lit. */
  predicate Blank(grid: array2<bool>)
    reads grid
  {
    grid.Length0 == 5 && grid.Length1 == 5 &&
    forall r, c :: 0 <= r < 5 && 0 <= c < 5 ==> !grid[r, c]
  }

  /** A 5x5 grid lit exactly where `ShapeCell(tag, _, _)` holds. */
  predicate Shows(grid: array2<bool>, tag: Option<Pattern>)
    reads grid
  {
    grid.Length0 == 5 && grid.Length1 == 5 &&
    forall r, c :: 0 <= r < 5 && 0 <= c < 5 ==> grid[r, c] == ShapeCell(tag, r, c)
  }

  /** The single-line picture: light the top row. */
  method LightTopRow(grid: array2<bool>, tag: Option<Pattern>)
    requires Blank(grid) && (tag == Some(SingleLine) || tag == None)
    modifies grid
    ensures Shows(grid, tag)
  {
    for c := 0 to 5
      invariant forall r', c' :: 0 <= r' < 5 && 0 <= c' < 5 ==> grid[r', c'] == (r' == 0 && c' < c)
    {
      grid[0, c] := true;
    }
  }

  /** The two-lines picture: light the top and the bottom row. */
  method LightTopAndBottomRows(grid: array2<bool>)
    requires Blank(grid)
    modifies grid
    ensures Shows(grid, Some(TwoLines))
  {
    for c := 0 to 5
      invariant forall r', c' :: 0 <= r' < 5 && 0 <= c' < 5 ==>
        grid[r', c'] == ((r' == 0 || r' == 4) && c' < c)
    {
      grid[0, c] := true;
      grid[4, c] := true;
    }
  }

  /** The full-house picture: light every cell, row by row. */
  method LightAll(grid: array2<bool>)
    requires Blank(grid)
    modifies grid
    ensures Shows(grid, Some(FullHouse))
  {
    for r := 0 to 5
      invariant forall r', c' :: 0 <= r' < 5 && 0 <= c' < 5 ==> grid[r', c'] == (r' < r)
    {
      for c := 0 to 5
        invariant forall r', c' :: 0 <= r' < 5 && 0 <= c' < 5 ==>
          grid[r', c'] == (r' < r || (r' == r && c' < c))
      {
        grid[r, c] := true;
      }
    }
  }

  /** The diagonal picture: light the main diagonal. */
  method LightMainDiagonal(grid: array2<bool>)
    requires Blank(grid)
    modifies grid
    ensures Shows(grid, Some(Diagonal))
  {
    for i := 0 to 5
      invariant forall r', c' :: 0 <= r' < 5 && 0 <= c' < 5 ==> grid[r', c'] == (r' == c' && r' < i)
    {
      grid[i, i] := true;
    }
  }

  /** The X picture: light both diagonals, one row at a time. */
  method LightBothDiagonals(grid: array2<bool>)
    requires Blank(grid)
    modifies grid
    ensures Shows(grid, Some(XPattern))
  {
    for i := 0 to 5
      invariant forall r', c' :: 0 <= r' < 5 && 0 <= c' < 5 ==>
        grid[r', c'] == ((r' == c' || r' + c' == 4) && r' < i)
    {
      grid[i, i] := true;
      grid[i, 4 - i] := true;
    }
  }

  /** The plus picture: light the middle row and the middle column together. */
  method LightMiddleCross(grid: array2<bool>)
    requires Blank(grid)
    modifies grid
    ensures Shows(grid, Some(PlusPattern))
  {
    for i := 0 to 5
      invariant forall r', c' :: 0 <= r' < 5 && 0 <= c' < 5 ==>
        grid[r', c'] == ((r' == 2 && c' < i) || (c' == 2 && r' < i))
    {
      grid[2, i] := true;
      grid[i, 2] := true;
    }
  }

  /** Light four given cells of a blank grid; the four-corners and the
      custom-numbers pictures. */
  method LightFour(grid: array2<bool>, tag: Option<Pattern>, lo: int, hi: int)
    requires Blank(grid)
    requires (tag == Some(FourCorners) && lo == 0 && hi == 4) || (tag == Some(CustomNumbers) && lo == 1 && hi == 3)
    modifies grid
    ensures Shows(grid, tag)
  {
    grid[lo, lo] := true;
    grid[lo, hi] := true;
    grid[hi, lo] := true;
    grid[hi, hi] := true;
  }

  /** `getPatternCells`: start from an all-false 5x5 grid, light the cells of
      the pattern named by `patternType` and then the centre. */
  method GetPatternCells(patternType: string) returns (grid: array2<bool>)
    ensures fresh(grid) && grid.Length0 == 5 && grid.Length1 == 5
    ensures forall r, c :: 0 <= r < 5 && 0 <= c < 5 ==> grid[r, c] == ThumbnailCell(patternType, r, c)
  {
    grid := new bool[5, 5]((_, _) => false);
    var tag := ParseTag(patternType);
    match tag {
      case Some(SingleLine) => LightTopRow(grid, tag);
      case Some(TwoLines) => LightTopAndBottomRows(grid);
      case Some(FullHouse) => LightAll(grid);
      case Some(FourCorners) => LightFour(grid, tag, 0, 4);
      case Some(Diagonal) => LightMainDiagonal(grid);
      case Some(XPattern) => LightBothDiagonals(grid);
      case Some(PlusPattern) => LightMiddleCross(grid);
      case Some(CustomNumbers) => LightFour(grid, tag, 1, 3);
      case None => LightTopRow(grid, tag);
    }
    grid[2, 2] := true;
  }

  /** The centre is lit in every thumbnail, whatever the tag. */
  lemma CentreAlwaysLit(patternType: string)
    ensures ThumbnailCell(patternType, 2, 2)
  {
  }

  /** An unrecognised tag draws exactly the single-line picture. */
  lemma UnknownTagShowsSingleLine(patternType: string, r: int, c: int)
    requires ParseTag(patternType).None?
    ensures ThumbnailCell(patternType, r, c) == ThumbnailCell("singleLine", r, c)
  {
    ParseTagOfTag(SingleLine);
  }

  /** Every thumbnail lights at least one cell besides the centre, which is
      lit for every tag: no picture, not even an unknown tag's, is the bare
      centre alone. */
  lemma ThumbnailLightsMoreThanCentre(patternType: string)
    ensures exists r, c :: 0 <= r < 5 && 0 <= c < 5 && !(r == 2 && c == 2) && ThumbnailCell(patternType, r, c)
  {
    var tag := ParseTag(patternType);
    if tag == Some(CustomNumbers) {
      assert ThumbnailCell(patternType, 1, 1);
    } else if tag == Some(PlusPattern) {
      assert ThumbnailCell(patternType, 2, 0);
    } else if tag == Some(Diagonal) || tag == Some(XPattern) || tag == Some(FullHouse) {
      assert ThumbnailCell(patternType, 0, 0);
    } else {
      assert ThumbnailCell(patternType, 0, 4);
    }
  }

  /** The thumbnail of each positional pattern is a winning picture: a card
      whose lit cells are all covered satisfies that pattern in the engine.
      (The custom-numbers thumbnail is only a generic picture.) */
  lemma ThumbnailShowsAWin(g: WinnerCheck.Grid, drawn: set<int>, rules: WinningRules, p: Pattern)
    requires IsCard(g) && p != CustomNumbers
    requires forall r, c :: 0 <= r < 5 && 0 <= c < 5 && ThumbnailCell(Tag(p), r, c) ==>
      WinnerCheck.Covered(g, drawn, r, c)
    ensures WinnerCheck.Holds(g, drawn, rules, p)
  {
    ParseTagOfTag(p);
    match p
    case FullHouse =>
    case TwoLines =>
      assert WinnerCheck.RowComplete(g, drawn, 0) && WinnerCheck.RowComplete(g, drawn, 4);
      assert {0, 4} <= WinnerCheck.CompleteRows(g, drawn);
      assert |{0, 4}| == 2;
      WinnerCheck.SubsetSize({0, 4}, WinnerCheck.CompleteRows(g, drawn));
    case XPattern =>
    case PlusPattern =>
      assert WinnerCheck.RowComplete(g, drawn, 2);
      assert WinnerCheck.ColumnComplete(g, drawn, 2);
    case FourCorners =>
    case Diagonal =>
    case SingleLine =>
      assert WinnerCheck.RowComplete(g, drawn, 0);
  }
}

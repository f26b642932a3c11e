/** The winning card as shown to the players: which cells are highlighted as
    part of the reported pattern, and how each cell's free and drawn flags
    are set. */
module WinningCardDisplay {
  import opened Wrappers
  import opened BingoTypes
  import WinnerCheck
  import WinningPatternThumbnail
  import Rpc

  type Grid = WinnerCheck.Grid

  // ---------------------------------------------------------------------------
  // Coverage as the highlighter sees it

  /** The highlighter treats the centre as covered by its position alone,
      whatever value it holds; any other cell is covered when its value has
      been drawn. */
  predicate Marked(g: Grid, drawn: set<int>, r: int, c: int)
    requires IsCard(g) && InGrid(r, c)
  {
    (r == 2 && c == 2) || g[r][c] in drawn
  }

  predicate RowFilled(g: Grid, drawn: set<int>, r: int)
    requires IsCard(g) && 0 <= r < 5
  {
    forall c :: 0 <= c < 5 ==> Marked(g, drawn, r, c)
  }

  predicate ColumnFilled(g: Grid, drawn: set<int>, c: int)
    requires IsCard(g) && 0 <= c < 5
  {
    forall r :: 0 <= r < 5 ==> Marked(g, drawn, r, c)
  }

  predicate MainDiagonalFilled(g: Grid, drawn: set<int>)
    requires IsCard(g)
  {
    forall i :: 0 <= i < 5 ==> Marked(g, drawn, i, i)
  }

  predicate AntiDiagonalFilled(g: Grid, drawn: set<int>)
    requires IsCard(g)
  {
    forall r, c :: 0 <= r < 5 && 0 <= c < 5 && r + c == 4 ==> Marked(g, drawn, r, c)
  }

  /** The filled rows among the first `k`. */
  function FilledRowsBelow(g: Grid, drawn: set<int>, k: int): set<int>
    requires IsCard(g) && 0 <= k <= 5
  {
    set r | 0 <= r < k && RowFilled(g, drawn, r)
  }

  /** The filled columns among the first `k`. */
  function FilledColumnsBelow(g: Grid, drawn: set<int>, k: int): set<int>
    requires IsCard(g) && 0 <= k <= 5
  {
    set c | 0 <= c < k && ColumnFilled(g, drawn, c)
  }

  /** The number of filled rows and columns, counted separately. */
  function FilledLineCount(g: Grid, drawn: set<int>): int
    requires IsCard(g)
  {
    |FilledRowsBelow(g, drawn, 5)| + |FilledColumnsBelow(g, drawn, 5)|
  }

  lemma FilledRowsStep(g: Grid, drawn: set<int>, k: int)
    requires IsCard(g) && 0 <= k < 5
    ensures |FilledRowsBelow(g, drawn, k + 1)|
         == |FilledRowsBelow(g, drawn, k)| + (if RowFilled(g, drawn, k) then 1 else 0)
  {
    if RowFilled(g, drawn, k) {
      assert FilledRowsBelow(g, drawn, k + 1) == FilledRowsBelow(g, drawn, k) + {k};
    } else {
      assert FilledRowsBelow(g, drawn, k + 1) == FilledRowsBelow(g, drawn, k);
    }
  }

  lemma FilledColumnsStep(g: Grid, drawn: set<int>, k: int)
    requires IsCard(g) && 0 <= k < 5
    ensures |FilledColumnsBelow(g, drawn, k + 1)|
         == |FilledColumnsBelow(g, drawn, k)| + (if ColumnFilled(g, drawn, k) then 1 else 0)
  {
    if ColumnFilled(g, drawn, k) {
      assert FilledColumnsBelow(g, drawn, k + 1) == FilledColumnsBelow(g, drawn, k) + {k};
    } else {
      assert FilledColumnsBelow(g, drawn, k + 1) == FilledColumnsBelow(g, drawn, k);
    }
  }

  // ---------------------------------------------------------------------------
  // Highlighting

  /** Whether cell (r, c) is highlighted for the reported `patternType`:
      for one line, the cell lies on a filled row, column or diagonal; for
      two lines, at least two rows and columns are filled and the cell lies on
      a filled row or column; the other shapes are drawn by position alone;
      custom numbers and unknown tags highlight only the centre. */
  predicate Highlighted(g: Grid, drawn: set<int>, patternType: string, r: int, c: int)
    requires IsCard(g) && InGrid(r, c)
  {
    match ParseTag(patternType)
    case Some(SingleLine) =>
      RowFilled(g, drawn, r) || ColumnFilled(g, drawn, c) ||
      (r == c && MainDiagonalFilled(g, drawn)) ||
      (r + c == 4 && AntiDiagonalFilled(g, drawn))
    case Some(TwoLines) =>
      FilledLineCount(g, drawn) >= 2 && (RowFilled(g, drawn, r) || ColumnFilled(g, drawn, c))
    case Some(FullHouse) => true
    case Some(FourCorners) => (r == 0 || r == 4) && (c == 0 || c == 4)
    case Some(Diagonal) => r == c || r + c == 4
    case Some(XPattern) => r == c || r + c == 4
    case Some(PlusPattern) => r == 2 || c == 2
    case Some(CustomNumbers) => r == 2 && c == 2
    case None => r == 2 && c == 2
  }

  /** The two-lines branch of `isWinningCell`: count the filled rows and
      then the filled columns, noting whether the cell's own row or column
      is among them. */
  method TwoLinesCell(g: Grid, drawn: set<int>, r: int, c: int) returns (b: bool)
    requires IsCard(g) && InGrid(r, c)
    ensures b == (FilledLineCount(g, drawn) >= 2 && (RowFilled(g, drawn, r) || ColumnFilled(g, drawn, c)))
  {
    var completedLines := 0;
    var isInCompletedLine := false;
    for row := 0 to 5
      invariant completedLines == |FilledRowsBelow(g, drawn, row)|
      invariant isInCompletedLine == (r < row && RowFilled(g, drawn, r))
    {
      FilledRowsStep(g, drawn, row);
      if RowFilled(g, drawn, row) {
        completedLines := completedLines + 1;
        if row == r {
          isInCompletedLine := true;
        }
      }
    }
    for col := 0 to 5
      invariant completedLines == |FilledRowsBelow(g, drawn, 5)| + |FilledColumnsBelow(g, drawn, col)|
      invariant isInCompletedLine == (RowFilled(g, drawn, r) || (c < col && ColumnFilled(g, drawn, c)))
    {
      FilledColumnsStep(g, drawn, col);
      if ColumnFilled(g, drawn, col) {
        completedLines := completedLines + 1;
        if col == c {
          isInCompletedLine := true;
        }
      }
    }
    return completedLines >= 2 && isInCompletedLine;
  }

  /** `isWinningCell`: whether cell (r, c) is drawn as part of the winning
      pattern. */
  method IsWinningCell(g: Grid, drawn: set<int>, patternType: string, r: int, c: int) returns (b: bool)
    requires IsCard(g) && InGrid(r, c)
    ensures b == Highlighted(g, drawn, patternType, r, c)
  {
    var isFree := r == 2 && c == 2;
    match ParseTag(patternType) {
      case Some(SingleLine) =>
        if RowFilled(g, drawn, r) { return true; }
        if ColumnFilled(g, drawn, c) { return true; }
        if r == c && MainDiagonalFilled(g, drawn) { return true; }
        if r + c == 4 && AntiDiagonalFilled(g, drawn) { return true; }
        return false;
      case Some(TwoLines) =>
        b := TwoLinesCell(g, drawn, r, c);
      case Some(FullHouse) =>
        return true;
      case Some(FourCorners) =>
        return (r == 0 && c == 0) || (r == 0 && c == 4) || (r == 4 && c == 0) || (r == 4 && c == 4);
      case Some(Diagonal) =>
        return r == c || r + c == 4;
      case Some(XPattern) =>
        return r == c || r + c == 4;
      case Some(PlusPattern) =>
        return r == 2 || c == 2;
      case Some(CustomNumbers) =>
        return isFree;
      case None =>
        return isFree;
    }
  }

  // ---------------------------------------------------------------------------
  // Cell flags

  /** The cell is shown as FREE: the centre holding 0. */
  predicate ShownAsFree(value: int, r: int, c: int) {
    value == 0 && r == 2 && c == 2
  }

  /** The cell is shown in the drawn colour: free, or its value drawn. */
  predicate ShownAsDrawn(value: int, r: int, c: int, drawn: set<int>) {
    if ShownAsFree(value, r, c) then true else value in drawn
  }

  /** The drawn flag of the display is the engine's coverage test. */
  lemma ShownAsDrawnIsEngineCoverage(value: int, r: int, c: int, drawn: set<int>)
    ensures ShownAsDrawn(value, r, c, drawn) == WinnerCheck.IsDrawn(value, r, c, drawn)
    ensures ShownAsFree(value, r, c) ==> ShownAsDrawn(value, r, c, drawn)
  {
  }

  // ---------------------------------------------------------------------------
  // Relation to the engine

  /** On a card whose centre holds 0, the highlighter's coverage is the
      engine's. */
  lemma MarkedIsCoveredOnFreeCard(g: Grid, drawn: set<int>, r: int, c: int)
    requires IsCard(g) && InGrid(r, c) && g[2][2] == 0
    ensures Marked(g, drawn, r, c) == WinnerCheck.Covered(g, drawn, r, c)
  {
  }

  /** On a card whose centre holds anything but 0, the two disagree about the
      centre until that value is drawn: the highlighter counts it, the engine
      does not. */
  lemma CentreDisagreement(g: Grid, drawn: set<int>)
    requires IsCard(g) && g[2][2] != 0 && g[2][2] !in drawn
    ensures Marked(g, drawn, 2, 2) && !WinnerCheck.Covered(g, drawn, 2, 2)
  {
  }

  /** On a card whose centre holds 0 the line predicates of the display and
      the engine agree. */
  lemma LinesAgreeOnFreeCard(g: Grid, drawn: set<int>)
    requires IsCard(g) && g[2][2] == 0
    ensures forall r :: 0 <= r < 5 ==> (RowFilled(g, drawn, r) <==> WinnerCheck.RowComplete(g, drawn, r))
    ensures forall c :: 0 <= c < 5 ==> (ColumnFilled(g, drawn, c) <==> WinnerCheck.ColumnComplete(g, drawn, c))
    ensures MainDiagonalFilled(g, drawn) <==> WinnerCheck.MainDiagonalComplete(g, drawn)
    ensures AntiDiagonalFilled(g, drawn) <==> WinnerCheck.AntiDiagonalComplete(g, drawn)
  {
    forall r, c | 0 <= r < 5 && 0 <= c < 5
      ensures Marked(g, drawn, r, c) == WinnerCheck.Covered(g, drawn, r, c)
    {
      MarkedIsCoveredOnFreeCard(g, drawn, r, c);
    }
  }

  /** So the display counts the same lines as the engine. */
  lemma LineCountIsEngineCount(g: Grid, drawn: set<int>)
    requires IsCard(g) && g[2][2] == 0
    ensures FilledLineCount(g, drawn) ==
      |WinnerCheck.CompleteRows(g, drawn)| + |WinnerCheck.CompleteColumns(g, drawn)|
  {
    LinesAgreeOnFreeCard(g, drawn);
    assert FilledRowsBelow(g, drawn, 5) == WinnerCheck.CompleteRows(g, drawn);
    assert FilledColumnsBelow(g, drawn, 5) == WinnerCheck.CompleteColumns(g, drawn);
  }

  /** A highlighted cell of a one-line or two-lines win is covered: those
      pictures only light cells of filled lines. */
  lemma HighlightedLineCellsAreMarked(g: Grid, drawn: set<int>, patternType: string, r: int, c: int)
    requires IsCard(g) && InGrid(r, c)
    requires ParseTag(patternType) == Some(SingleLine) || ParseTag(patternType) == Some(TwoLines)
    requires Highlighted(g, drawn, patternType, r, c)
    ensures Marked(g, drawn, r, c)
  {
    if RowFilled(g, drawn, r) {
    } else if ColumnFilled(g, drawn, c) {
    } else if r == c {
      assert Marked(g, drawn, r, r);
    } else {
      assert Marked(g, drawn, r, c);
    }
  }

  /** On a card whose centre holds 0, some cell is highlighted for a
      two-lines win exactly when the engine finds two lines. */
  lemma TwoLinesHighlightIffEngine(g: Grid, drawn: set<int>)
    requires IsCard(g) && g[2][2] == 0
    ensures (exists r, c :: 0 <= r < 5 && 0 <= c < 5 && Highlighted(g, drawn, "twoLines", r, c))
        <==> WinnerCheck.HasTwoLines(g, drawn)
  {
    ParseTagOfTag(TwoLines);
    LineCountIsEngineCount(g, drawn);
    LinesAgreeOnFreeCard(g, drawn);
    if WinnerCheck.HasTwoLines(g, drawn) {
      if WinnerCheck.CompleteRows(g, drawn) != {} {
        var r :| r in WinnerCheck.CompleteRows(g, drawn);
        assert Highlighted(g, drawn, "twoLines", r, 0);
      } else {
        var c :| c in WinnerCheck.CompleteColumns(g, drawn);
        assert Highlighted(g, drawn, "twoLines", 0, c);
      }
    }
  }

  /** On a card whose centre holds 0, some cell is highlighted for a
      one-line win exactly when the engine finds a row or column, or a
      complete diagonal: the highlighter counts diagonals as lines, the
      engine's single-line test does not. */
  lemma SingleLineHighlightIffLineOrDiagonal(g: Grid, drawn: set<int>)
    requires IsCard(g) && g[2][2] == 0
    ensures (exists r, c :: 0 <= r < 5 && 0 <= c < 5 && Highlighted(g, drawn, "singleLine", r, c))
        <==> WinnerCheck.HasLine(g, drawn) || WinnerCheck.CheckDiagonal(g, drawn)
  {
    ParseTagOfTag(SingleLine);
    LinesAgreeOnFreeCard(g, drawn);
    if exists r, c :: 0 <= r < 5 && 0 <= c < 5 && Highlighted(g, drawn, "singleLine", r, c) {
      var r, c :| 0 <= r < 5 && 0 <= c < 5 && Highlighted(g, drawn, "singleLine", r, c);
      if RowFilled(g, drawn, r) {
        assert WinnerCheck.RowComplete(g, drawn, r);
      } else if ColumnFilled(g, drawn, c) {
        assert WinnerCheck.ColumnComplete(g, drawn, c);
      }
    }
    if WinnerCheck.HasLine(g, drawn) {
      if exists r :: 0 <= r < 5 && WinnerCheck.RowComplete(g, drawn, r) {
        var r :| 0 <= r < 5 && WinnerCheck.RowComplete(g, drawn, r);
        assert Highlighted(g, drawn, "singleLine", r, 0);
      } else {
        var c :| 0 <= c < 5 && WinnerCheck.ColumnComplete(g, drawn, c);
        assert Highlighted(g, drawn, "singleLine", 0, c);
      }
    } else if WinnerCheck.MainDiagonalComplete(g, drawn) {
      assert Highlighted(g, drawn, "singleLine", 0, 0);
    } else if WinnerCheck.AntiDiagonalComplete(g, drawn) {
      assert Highlighted(g, drawn, "singleLine", 0, 4);
    }
  }

  /** A card whose only complete line is a diagonal is highlighted as a
      one-line win although the engine's single-line test rejects it. */
  lemma DiagonalOnlyHighlightsSingleLine(g: Grid, drawn: set<int>, rules: Rpc.WinningRules)
    requires IsCard(g) && g[2][2] == 0
    requires WinnerCheck.MainDiagonalComplete(g, drawn)
    requires forall r :: 0 <= r < 5 ==> !WinnerCheck.RowComplete(g, drawn, r)
    requires forall c :: 0 <= c < 5 ==> !WinnerCheck.ColumnComplete(g, drawn, c)
    ensures Highlighted(g, drawn, "singleLine", 0, 0)
    ensures !WinnerCheck.Holds(g, drawn, rules, SingleLine)
  {
    ParseTagOfTag(SingleLine);
    LinesAgreeOnFreeCard(g, drawn);
  }

  /** For full house, the X and the plus the highlight is the thumbnail's
      picture; for four corners it is the thumbnail without its centre. */
  lemma HighlightMatchesThumbnail(g: Grid, drawn: set<int>, p: Pattern, r: int, c: int)
    requires IsCard(g) && InGrid(r, c)
    requires p == FullHouse || p == XPattern || p == PlusPattern || p == FourCorners
    ensures p != FourCorners ==>
      (Highlighted(g, drawn, Tag(p), r, c) <==> WinningPatternThumbnail.ThumbnailCell(Tag(p), r, c))
    ensures p == FourCorners ==>
      (Highlighted(g, drawn, Tag(p), r, c) <==>
        WinningPatternThumbnail.ThumbnailCell(Tag(p), r, c) && !(r == 2 && c == 2))
  {
    ParseTagOfTag(p);
  }

  /** For a diagonal win both diagonals are highlighted, while the thumbnail
      shows one. */
  lemma DiagonalHighlightIsWiderThanThumbnail(g: Grid, drawn: set<int>)
    requires IsCard(g)
    ensures Highlighted(g, drawn, "diagonal", 0, 4)
    ensures !WinningPatternThumbnail.ThumbnailCell("diagonal", 0, 4)
  {
    ParseTagOfTag(Diagonal);
  }

  /** When the engine reports full house, the X, the plus or four corners on
      a card whose centre holds 0, every highlighted cell is covered. */
  lemma ShapeHighlightIsCovered(g: Grid, drawn: set<int>, rules: Rpc.WinningRules, p: Pattern, r: int, c: int)
    requires IsCard(g) && InGrid(r, c) && g[2][2] == 0
    requires p == FullHouse || p == XPattern || p == PlusPattern || p == FourCorners
    requires WinnerCheck.Holds(g, drawn, rules, p)
    requires Highlighted(g, drawn, Tag(p), r, c)
    ensures Marked(g, drawn, r, c)
  {
    ParseTagOfTag(p);
    MarkedIsCoveredOnFreeCard(g, drawn, r, c);
    if p == XPattern && r != c {
      assert WinnerCheck.Covered(g, drawn, r, c);
    }
  }

  /** A diagonal win can highlight cells that are not covered: with only the
      main diagonal complete, some cell of the other diagonal is lit but not
      covered. */
  lemma DiagonalHighlightMayBeUncovered(g: Grid, drawn: set<int>)
    requires IsCard(g) && g[2][2] == 0
    requires !WinnerCheck.AntiDiagonalComplete(g, drawn)
    ensures exists r, c :: (0 <= r < 5 && 0 <= c < 5 &&
      Highlighted(g, drawn, "diagonal", r, c) && !Marked(g, drawn, r, c))
  {
    ParseTagOfTag(Diagonal);
    var r, c :| 0 <= r < 5 && 0 <= c < 5 && r + c == 4 && !WinnerCheck.Covered(g, drawn, r, c);
    MarkedIsCoveredOnFreeCard(g, drawn, r, c);
    assert Highlighted(g, drawn, "diagonal", r, c);
  }
}

# Bingo winner check, in Dafny

This project models the core of a multiplayer bingo web application.
A host runs a session. Players hold 5×5 cards: the B column holds
numbers 1-15, I holds 16-30, N 31-45, G 46-60 and O 61-75, and the
centre cell is a free cell that stores the value 0. The host turns on
some winning patterns. After every draw, a card is checked against
them, and the first pattern in a fixed priority order that the card
satisfies is the one it wins with.

The model covers these parts of the application:

- **The winning-pattern engine** (`WinnerCheck`):
  - the cell test, where a cell counts as covered when its value has been drawn or it is the free centre holding 0;
  - the seven shape checks: full house, one line, two lines, diagonal, X, plus and four corners;
  - the custom-number check, which reads a comma-separated list of numbers from the rules;
  - the priority chain that picks the winning pattern;
  - the function that gives each pattern tag its display name.
- **The session's rules** (`Rpc.WinningRules`): seven switches and a custom-number text.
- **Card labels** (`BingoCard`): the column headings B I N G O, and how a number is labelled with its column letter.
- **The pattern thumbnail** (`WinningPatternThumbnail`): the 5×5 grid of lit cells that illustrates a pattern. It is built in place in a two-dimensional array, as the source builds it.
- **The winning-card display** (`WinningCardDisplay`): which cells of a winning card are highlighted, and the per-cell "free" and "drawn" flags.
- **The JavaScript string built-ins these rely on** (`JsText`): `split`, `trim` and `parseInt` without a radix, and how a whole number is formatted in a template string. Each comes with its own laws: split and join are inverses, trim is idempotent, and parsing a formatted integer gives back that integer.

The engine's loops are written as methods with loop invariants (`CheckFullHouse`, `CheckSingleLine`, `CheckTwoLines`), and so is the highlighter's two-lines loop (`TwoLinesCell`). `CheckWinningPattern` has no loop: like the source it is a plain if-chain, and it is a method only because it calls the loop methods. Each method is proved equal to a specification function, and the properties that matter are proved about those functions:

- **Priority:** the engine reports a pattern exactly when that pattern is enabled and satisfied and no pattern of higher priority is. It reports nothing exactly when no enabled pattern is satisfied.
- **Monotonicity:** once a card wins, drawing more numbers keeps it winning, with a pattern of the same or higher priority.
- **Relations between patterns:** full house implies every shape; two lines imply one line; X implies diagonal.
- **Custom numbers:** the custom list is exactly the pieces of the text that read as numbers in 1..75. Blank text never wins.
- **Engine and pictures:** the thumbnail and the highlighter are compared against the engine, including where they disagree with it.

Where the engine and the display differ, the model keeps the difference and proves it:

- **The free cell.** The engine (`lib/winnerCheck.ts:56-59`) treats the centre as free only when it holds 0. The display's highlighter (`components/WinningCardDisplay.tsx:20,27,36,46,63,75`) uses the position alone. `WinningCardDisplay.CentreDisagreement` proves that the two disagree on a card whose centre holds another value.
- **One-line highlighting.** The engine's one-line test looks only at rows and columns. The highlighter also counts the two diagonals. `WinningCardDisplay.DiagonalOnlyHighlightsSingleLine` shows a card that is highlighted as a one-line winner although the engine rejects it.

JavaScript's `null` result and `NaN` are modelled with `Option`. Numbers are unbounded integers. A pattern tag is the `Pattern` datatype, and `BingoTypes.Tag` and `BingoTypes.ParseTag` translate between it and the source's strings.

## Model

| member | source | states |
|---|---|---|
| Rpc.WinningRules | lib/rpc.ts:123-132 | the session rule record: seven pattern switches and the custom-number text, field for field; `WinnerCheck.WinnersAreQualifying` says how each field enables its pattern |
| WinnerCheck.IsDrawnFreeCell | lib/winnerCheck.ts:56-59 | the centre cell holding 0 is always covered; every other cell, including a centre holding another value, is covered exactly when its value has been drawn |
| WinnerCheck.IsDrawn | lib/winnerCheck.ts:56-59 | computes whether one cell is covered: its value has been drawn, or it is the centre (2, 2) holding 0; characterised case by case by `WinnerCheck.IsDrawnFreeCell` |
| WinnerCheck.CheckFullHouse | lib/winnerCheck.ts:61-70 | the nested loop returns true exactly when all 25 cells are covered |
| WinnerCheck.FullHouseIffAllValuesDrawn | lib/winnerCheck.ts:61-70 | on a card with 0 in the centre, full house means every one of the other 24 values has been drawn |
| WinnerCheck.CheckSingleLine | lib/winnerCheck.ts:72-88 | the two loops return true exactly when some row or some column is fully covered |
| WinnerCheck.CheckTwoLines | lib/winnerCheck.ts:90-108 | the counting loops return true exactly when complete rows plus complete columns number at least two |
| WinnerCheck.RowsBelowStep | lib/winnerCheck.ts:94-98 | each row step of the count adds one exactly when that row is complete |
| WinnerCheck.ColumnsBelowStep | lib/winnerCheck.ts:101-105 | each column step of the count adds one exactly when that column is complete |
| WinnerCheck.TwoLinesImpliesSingleLine | lib/winnerCheck.ts:72-108 | a card with two complete lines has a complete line |
| WinnerCheck.OneRowIsNotTwoLines | lib/winnerCheck.ts:72-108 | a card whose only complete line is one row wins one line but not two lines |
| WinnerCheck.CheckDiagonal | lib/winnerCheck.ts:110-118 | computes whether the main or the anti-diagonal is fully covered; related to the X by `WinnerCheck.XPatternImpliesDiagonal` and `WinnerCheck.MainDiagonalOnlyIsNotX`, and to its thumbnail by `WinningPatternThumbnail.ThumbnailShowsAWin` |
| WinnerCheck.CheckFourCorners | lib/winnerCheck.ts:120-127 | computes whether the four corner cells are covered; characterised cell by cell by `WinnerCheck.PlusAndCornersByCells` |
| WinnerCheck.CheckXPattern | lib/winnerCheck.ts:129-135 | computes whether both diagonals are fully covered; `WinnerCheck.XPatternImpliesDiagonal` and `WinnerCheck.MainDiagonalOnlyIsNotX` separate it from the diagonal |
| WinnerCheck.CheckPlusPattern | lib/winnerCheck.ts:137-143 | computes whether the middle row and the middle column are fully covered; characterised cell by cell by `WinnerCheck.PlusAndCornersByCells` |
| WinnerCheck.XPatternImpliesDiagonal | lib/winnerCheck.ts:110-135 | an X (both diagonals) is also a diagonal win |
| WinnerCheck.MainDiagonalOnlyIsNotX | lib/winnerCheck.ts:110-135 | one complete diagonal without the other is a diagonal win but not an X |
| WinnerCheck.PlusAndCornersByCells | lib/winnerCheck.ts:120-143 | the plus holds exactly when all nine cells of the middle row and middle column are covered, and four corners holds exactly when the four corner cells are covered |
| WinnerCheck.FullHouseImpliesAll | lib/winnerCheck.ts:61-143 | a full card also satisfies two lines, one line, X, diagonal, plus and four corners |
| WinnerCheck.KeepInRange | lib/winnerCheck.ts:149 | the filter never lengthens the list |
| WinnerCheck.KeepInRangeMembers | lib/winnerCheck.ts:149 | the filter keeps exactly the parsed values that are numbers in 1..75: every kept value is one of them, and every one of them is kept |
| WinnerCheck.PieceValues | lib/winnerCheck.ts:146-148 | the map gives one parsed value per comma-separated piece |
| WinnerCheck.PieceValuesAt | lib/winnerCheck.ts:146-148 | the i-th parsed value is parseInt of the i-th piece after trimming |
| WinnerCheck.CustomNumberList | lib/winnerCheck.ts:145-149 | computes the custom numbers: split on commas, trim and parseInt each piece, keep the values in 1..75 in order; characterised by `WinnerCheck.CustomNumbersArePieceValues` |
| WinnerCheck.CheckCustomNumbers | lib/winnerCheck.ts:145-155 | computes whether the custom list is non-empty and every number in it has been drawn; characterised over the pieces by `WinnerCheck.CustomNumbersByPiece` |
| WinnerCheck.CustomNumbersArePieceValues | lib/winnerCheck.ts:145-149 | the custom list holds only numbers in 1..75; every piece that reads as such a number is in the list, and every number in the list comes from such a piece |
| WinnerCheck.ValidPieceIsKept | lib/winnerCheck.ts:145-149 | a piece that reads as a number in 1..75 contributes its value to the list |
| WinnerCheck.KeptIsValidPiece | lib/winnerCheck.ts:145-149 | every number in the list is the value of a piece that reads as a number in 1..75 |
| WinnerCheck.CustomNumbersByPiece | lib/winnerCheck.ts:145-155 | the custom check holds exactly when some piece reads as a number in 1..75 and every such piece's number has been drawn |
| WinnerCheck.WhitespaceTextNeverWins | lib/winnerCheck.ts:49 | text that trims to empty yields an empty list, and the custom check fails on it |
| WinnerCheck.SingleCustomNumber | lib/winnerCheck.ts:151-154 | with a one-number list, the check holds exactly when that number has been drawn |
| WinnerCheck.TwoCustomNumbers | lib/winnerCheck.ts:151-154 | with a two-number list, the check holds exactly when both numbers have been drawn |
| WinnerCheck.NumberPieceValue | lib/winnerCheck.ts:148 | a piece that is a formatted natural number parses back to that number |
| WinnerCheck.OutOfRangeNumberDropped | lib/winnerCheck.ts:145-155 | in the text "a,b" with a in 1..75 and b above 75, b is dropped; the check holds exactly when a has been drawn |
| WinnerCheck.CustomNumbersExample | lib/winnerCheck.ts:145-155 | "1,15,999,abc" yields the list [1, 15]; 999 is out of range and abc is NaN; the check holds exactly when 1 and 15 have both been drawn |
| WinnerCheck.WinnersAreQualifying | lib/winnerCheck.ts:14-51 | a pattern is a candidate exactly when its rule is on (for custom numbers, the text is not blank) and the card satisfies it |
| WinnerCheck.FirstInPriority | lib/winnerCheck.ts:14-53 | picking the first candidate in priority order is the source's if-chain: full house, two lines, X, plus, four corners, diagonal, one line, custom numbers, else nothing |
| WinnerCheck.WinningPatternChain | lib/winnerCheck.ts:14-53 | the reference result is the if-chain over enabled-and-satisfied tests, in the source's order |
| WinnerCheck.CheckWinningPattern | lib/winnerCheck.ts:6-54 | the engine returns the first enabled and satisfied pattern in priority order, or nothing |
| WinnerCheck.Rank | lib/winnerCheck.ts:13-51 | each pattern has a position in the priority order, and that position holds the pattern |
| WinnerCheck.FirstInByRank | lib/winnerCheck.ts:13-53 | the first marked pattern is p exactly when p is marked and no pattern of higher priority is; there is none exactly when nothing is marked |
| WinnerCheck.WinnerIsFirstByPriority | lib/winnerCheck.ts:6-54 | the engine reports p exactly when p is enabled and satisfied and no higher-priority pattern is; it reports nothing exactly when no enabled pattern is satisfied |
| WinnerCheck.OnlyEnabledPattern | lib/winnerCheck.ts:6-54 | with a single pattern enabled, the engine reports it when the card satisfies it and nothing otherwise |
| WinnerCheck.FullHouseWins | lib/winnerCheck.ts:13-16 | when full house is enabled and the card is full, the result is full house, whatever else holds |
| WinnerCheck.CoveredGrows | lib/winnerCheck.ts:56-59 | a cell covered by a drawn set stays covered by any larger set |
| WinnerCheck.HoldsMonotone | lib/winnerCheck.ts:61-155 | each pattern that holds for a drawn set still holds after more numbers are drawn |
| WinnerCheck.WinPersists | lib/winnerCheck.ts:6-54 | once a card wins, it keeps winning after more draws, with a pattern of the same or higher priority |
| WinnerCheck.GetPatternName | lib/winnerCheck.ts:157-169 | the name differs from the tag exactly when the tag is one of the eight known ones; a non-empty tag never gets an empty name |
| BingoTypes.ParseTag | lib/winnerCheck.ts:15-50 | a recognised tag is the tag string of the pattern it is read as |
| BingoTypes.ParseTagOfTag | lib/winnerCheck.ts:15-50 | every pattern's tag string is read back as that pattern |
| BingoCard.NumberToLabel | lib/bingoCard.ts:3-9 | what follows the letter parses back to the number; a card number 1..75 gets the heading of its column as its letter, and every other number gets O (the fall-through of line 8) |
| BingoCard.Column | lib/bingoCard.ts:4-8 | each card number 1..75 lies in exactly one 15-number column band |
| BingoCard.LabelLetterIsColumnHeading | lib/bingoCard.ts:1-9 | the letter of a card number is the heading of its column |
| BingoCard.LabelOfCardNumber | lib/bingoCard.ts:1-9 | the label of a card number is its column heading followed by the number |
| BingoCard.LabelsAreDistinct | lib/bingoCard.ts:3-9 | different numbers get different labels |
| BingoCard.ColLabels | lib/bingoCard.ts:1 | the column headings B, I, N, G, O, left to right; `BingoCard.LabelLetterIsColumnHeading` ties each to its 15-number band |
| JsText.Split | lib/winnerCheck.ts:147 | split always gives at least one piece |
| JsText.SplitPiecesAreSeparatorFree | lib/winnerCheck.ts:147 | no piece contains the separator |
| JsText.JoinSplit | lib/winnerCheck.ts:147 | joining the pieces with the separator gives back the text |
| JsText.SplitJoin | lib/winnerCheck.ts:147 | splitting a join of separator-free pieces gives back the pieces |
| JsText.Trim | lib/winnerCheck.ts:148 | computes `trim`: the text without its leading and trailing whitespace; characterised by `JsText.TrimIsInnerStretch` and `JsText.TrimEndsAreSolid` |
| JsText.TrimStartSpec | lib/winnerCheck.ts:148 | trimStart removes exactly the longest whitespace prefix |
| JsText.TrimEndSpec | lib/winnerCheck.ts:148 | trimEnd removes exactly the longest whitespace suffix |
| JsText.TrimIsInnerStretch | lib/winnerCheck.ts:148 | trim gives a contiguous stretch of the text, with only whitespace outside it |
| JsText.TrimEndsAreSolid | lib/winnerCheck.ts:148 | a non-empty trim result starts and ends with a non-whitespace character |
| JsText.TrimEmptyIff | lib/winnerCheck.ts:49 | the text trims to empty exactly when it is all whitespace |
| JsText.TrimOfSolid | lib/winnerCheck.ts:148 | text with solid ends is unchanged by trim |
| JsText.TrimIdempotent | lib/winnerCheck.ts:148 | trimming twice is trimming once |
| JsText.DigitPrefixSpec | lib/winnerCheck.ts:148 | parseInt reads the longest prefix of digits of the radix |
| JsText.ParseInt | lib/winnerCheck.ts:148 | computes `parseInt` without a radix: leading whitespace, an optional sign, base 16 after 0x, the longest digit prefix, NaN as nothing; pinned down by `JsText.DigitPrefixSpec`, `JsText.ParseIntOfDigits`, `JsText.ParseIntOfMinus` and `JsText.IntToStringRoundTrip` |
| JsText.IntToString | lib/bingoCard.ts:4-8 | computes the template-string text of an integer: a minus sign for negatives, then the decimal digits; inverted by `JsText.IntToStringRoundTrip` |
| JsText.NatToString | lib/bingoCard.ts:4-8 | a formatted natural number is a non-empty string of decimal digits without a leading zero |
| JsText.NatToStringValue | lib/bingoCard.ts:4-8 | the digits of a formatted natural number denote that number |
| JsText.ParseIntOfDigits | lib/winnerCheck.ts:148 | parseInt of a string of decimal digits is their decimal value |
| JsText.ParseIntOfMinus | lib/winnerCheck.ts:148 | parseInt of a minus sign followed by an unsigned number is its negation |
| JsText.IntToStringRoundTrip | lib/bingoCard.ts:4-8 | parseInt of a formatted integer gives back the integer |
| WinningPatternThumbnail.LightTopRow | components/WinningPatternThumbnail.tsx:15-18 | on a blank grid, lights exactly the top row, for the one-line tag; the same loop serves unknown tags (lines 76-78) |
| WinningPatternThumbnail.LightTopAndBottomRows | components/WinningPatternThumbnail.tsx:20-26 | on a blank grid, lights exactly the top and bottom rows |
| WinningPatternThumbnail.LightAll | components/WinningPatternThumbnail.tsx:28-35 | on a blank grid, lights every cell |
| WinningPatternThumbnail.LightFour | components/WinningPatternThumbnail.tsx:37-74 | on a blank grid, lights exactly four cells: the corners for four corners (lines 37-43), the inner corners for custom numbers (lines 68-74) |
| WinningPatternThumbnail.LightMainDiagonal | components/WinningPatternThumbnail.tsx:45-50 | on a blank grid, lights exactly the main diagonal |
| WinningPatternThumbnail.LightBothDiagonals | components/WinningPatternThumbnail.tsx:52-58 | on a blank grid, lights exactly the two diagonals |
| WinningPatternThumbnail.LightMiddleCross | components/WinningPatternThumbnail.tsx:60-66 | on a blank grid, lights exactly the middle row and middle column |
| WinningPatternThumbnail.GetPatternCells | components/WinningPatternThumbnail.tsx:11-85 | returns a new 5×5 grid whose cell (r, c) is lit exactly when it is the centre or belongs to the picture of the tag |
| WinningPatternThumbnail.CentreAlwaysLit | components/WinningPatternThumbnail.tsx:81-82 | the centre is lit for every tag |
| WinningPatternThumbnail.UnknownTagShowsSingleLine | components/WinningPatternThumbnail.tsx:76-78 | an unknown tag is drawn exactly like the one-line picture |
| WinningPatternThumbnail.ThumbnailLightsMoreThanCentre | components/WinningPatternThumbnail.tsx:14-82 | every picture lights some cell besides the centre |
| WinningPatternThumbnail.ThumbnailShowsAWin | components/WinningPatternThumbnail.tsx:14-67 | for every shape pattern, a card covered on the thumbnail's lit cells satisfies that pattern in the engine |
| WinningCardDisplay.FilledRowsStep | components/WinningCardDisplay.tsx:61-70 | each row step of the highlighter's count adds one exactly when that row is filled |
| WinningCardDisplay.FilledColumnsStep | components/WinningCardDisplay.tsx:73-83 | each column step of the highlighter's count adds one exactly when that column is filled |
| WinningCardDisplay.TwoLinesCell | components/WinningCardDisplay.tsx:55-85 | the loops return true exactly when at least two lines are filled and the cell's row or column is one of them |
| WinningCardDisplay.ShownAsFree | components/WinningCardDisplay.tsx:130 | computes the free flag: the centre holding 0; `WinningCardDisplay.ShownAsDrawnIsEngineCoverage` proves a free cell is shown as drawn |
| WinningCardDisplay.ShownAsDrawn | components/WinningCardDisplay.tsx:131 | computes the drawn flag: free, or its value drawn; `WinningCardDisplay.ShownAsDrawnIsEngineCoverage` proves it is the engine's cell test |
| WinningCardDisplay.IsWinningCell | components/WinningCardDisplay.tsx:12-105 | the cell is highlighted exactly as the switch says for the tag: filled lines through the cell, including diagonals, for one line; the two-lines rule; every cell for full house; the fixed shapes for corners, diagonal, X and plus; the centre alone otherwise |
| WinningCardDisplay.ShownAsDrawnIsEngineCoverage | components/WinningCardDisplay.tsx:130-131 | a cell is shown as drawn exactly when the engine counts it as covered, and a cell shown as free is shown as drawn |
| WinningCardDisplay.MarkedIsCoveredOnFreeCard | components/WinningCardDisplay.tsx:19-22 | on a card with 0 in the centre, the highlighter's notion of a covered cell is the engine's |
| WinningCardDisplay.CentreDisagreement | components/WinningCardDisplay.tsx:19-22 | on a card whose centre holds an undrawn non-zero value, the highlighter treats the centre as covered and the engine does not |
| WinningCardDisplay.LinesAgreeOnFreeCard | components/WinningCardDisplay.tsx:16-53 | on a card with 0 in the centre, filled rows, columns and diagonals are the engine's complete ones |
| WinningCardDisplay.LineCountIsEngineCount | components/WinningCardDisplay.tsx:55-85 | on a card with 0 in the centre, the highlighter counts as many lines as the engine's two-lines check |
| WinningCardDisplay.HighlightedLineCellsAreMarked | components/WinningCardDisplay.tsx:16-85 | a cell highlighted for a one-line or two-lines win is covered |
| WinningCardDisplay.TwoLinesHighlightIffEngine | components/WinningCardDisplay.tsx:55-85 | on a card with 0 in the centre, some cell is highlighted for two lines exactly when the engine finds two lines |
| WinningCardDisplay.SingleLineHighlightIffLineOrDiagonal | components/WinningCardDisplay.tsx:16-53 | on a card with 0 in the centre, some cell is highlighted for one line exactly when the engine finds a row or column, or a complete diagonal exists |
| WinningCardDisplay.DiagonalOnlyHighlightsSingleLine | components/WinningCardDisplay.tsx:33-41 | a card whose only complete line is the main diagonal is highlighted as a one-line winner although the engine's one-line test fails |
| WinningCardDisplay.HighlightMatchesThumbnail | components/WinningCardDisplay.tsx:87-100 | for full house, X and plus, the highlight is the thumbnail's picture; for four corners, the corners without the centre |
| WinningCardDisplay.DiagonalHighlightIsWiderThanThumbnail | components/WinningCardDisplay.tsx:93-94 | the diagonal highlight lights both diagonals, while its thumbnail lights one |
| WinningCardDisplay.ShapeHighlightIsCovered | components/WinningCardDisplay.tsx:87-100 | when the engine's full-house, X, plus or corners test holds on a card with 0 in the centre, every highlighted cell is covered |
| WinningCardDisplay.DiagonalHighlightMayBeUncovered | components/WinningCardDisplay.tsx:93-94 | for a win on the main diagonal alone, some highlighted cell of the other diagonal is not covered |

## Left out

- WinnerCheck.CheckWinningPattern: returns a `Pattern` or nothing, where the source returns the tag string or `null`. `BingoTypes.Tag` is the translation, and `BingoTypes.ParseTagOfTag` proves it one-to-one.
- All operations take a card of five rows of five numbers (`BingoTypes.IsCard`), the only shape the application creates. The source does not check the shape: on a ragged array, `every` would walk the row's real length and indexing would read `undefined`. That is not modelled.
- `checkCustomNumbers` takes the grid as a parameter but never reads it. The model drops that parameter.
- JsText.ParseInt: models `parseInt` as leading whitespace, an optional sign, an optional `0x` prefix that switches to base 16, and the longest digit prefix, with NaN as `None`. Results are exact integers, where JavaScript rounds very long digit strings to a double. Such values are far outside 1..75, so the custom-number filter treats them the same either way. `Infinity`, which `parseInt` also rejects, gives `None` because it has no digit prefix.
- JsText.IntToString: formats integers only. `numberToLabel` is typed to take any number; fractions, `NaN` and exponent notation for magnitudes of 10^21 and above are not modelled.
- WinnerCheck.GetPatternName: models lookup in the eight-entry table only. Keys that a plain JavaScript object inherits, such as `toString`, would return a function instead of falling back to the tag. Those keys are not modelled.
- The thumbnail's `size` property, and both components' markup, class names and colours, are presentation and are not modelled.
- Rendering itself is not modelled: the display maps `isWinningCell` and the two flags over the card. Only the per-cell decisions are modelled.
- Everything outside these files is not part of this model: RPC calls and their transport, storage, session handling and the drawing of numbers.

/** What the engine, the thumbnail and the winning-card display share: the
    closed set of pattern tags with their wire strings, and the shape of a
    card (five rows of five numbers, row-major, the free cell at row 2,
    column 2). */
module BingoTypes {

  import opened Wrappers

  /** The eight winning patterns. */
  datatype Pattern =
    | FullHouse | TwoLines | XPattern | PlusPattern
    | FourCorners | Diagonal | SingleLine | CustomNumbers

  /** The tag string under which a pattern travels (the engine's result, the
      winner record, the thumbnail and display `patternType`). */
  function Tag(p: Pattern): string {
    match p
    case FullHouse => "fullHouse"
    case TwoLines => "twoLines"
    case XPattern => "xPattern"
    case PlusPattern => "plusPattern"
    case FourCorners => "fourCorners"
    case Diagonal => "diagonal"
    case SingleLine => "singleLine"
    case CustomNumbers => "customNumbers"
  }

  /** The pattern a tag string names, if any; string `switch`es and record
      lookups over the tags go through this. */
  function ParseTag(s: string): (r: Option<Pattern>)
    ensures r.Some? ==> Tag(r.value) == s
  {
    if s == "fullHouse" then Some(FullHouse)
    else if s == "twoLines" then Some(TwoLines)
    else if s == "xPattern" then Some(XPattern)
    else if s == "plusPattern" then Some(PlusPattern)
    else if s == "fourCorners" then Some(FourCorners)
    else if s == "diagonal" then Some(Diagonal)
    else if s == "singleLine" then Some(SingleLine)
    else if s == "customNumbers" then Some(CustomNumbers)
    else None
  }

  /** Every pattern's tag is recognised as that pattern, so the tags are
      distinct and `ParseTag` inverts `Tag` in both directions. */
  lemma ParseTagOfTag(p: Pattern)
    ensures ParseTag(Tag(p)) == Some(p)
  {
  }

  /** A card: five rows of five integers. */
  predicate IsCard(g: seq<seq<int>>) {
    |g| == 5 && forall r :: 0 <= r < 5 ==> |g[r]| == 5
  }

  predicate InGrid(r: int, c: int) {
    0 <= r < 5 && 0 <= c < 5
  }
}

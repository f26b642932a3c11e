/** Column letters and call labels of a 75-ball card (the five columns B, I,
    N, G, O hold the numbers 1-15, 16-30, 31-45, 46-60 and 61-75). */
module BingoCard {
  import opened Wrappers
  import opened JsText

  /** `COL_LABELS`: the column headings, left to right. */
  const ColLabels: seq<string> := ["B", "I", "N", "G", "O"]

  /** The letter `numberToLabel` puts in front of a number: by the band the
      number falls in, with every number outside 1-60 (including those below
      1) called under O. */
  function LabelLetter(n: int): char {
    if 1 <= n <= 15 then 'B'
    else if 16 <= n <= 30 then 'I'
    else if 31 <= n <= 45 then 'N'
    else if 46 <= n <= 60 then 'G'
    else 'O'
  }

  /** `numberToLabel`: the column letter followed by the number's decimal
      text, such as "B7" or "O75". The number can be read back from what
      follows the letter; a card number's letter is the heading of its
      column, and every other number is called under O. */
  function NumberToLabel(n: int): (name: string)
    ensures |name| >= 2
    ensures ParseInt(name[1..]) == Some(n)
    ensures 1 <= n <= 75 ==> [name[0]] == ColLabels[Column(n)]
    ensures !(1 <= n <= 75) ==> name[0] == 'O'
  {
    IntToStringRoundTrip(n);
    if 1 <= n <= 75 then
      LabelLetterIsColumnHeading(n);
      [LabelLetter(n)] + IntToString(n)
    else
      [LabelLetter(n)] + IntToString(n)
  }

  /** The column of a card number: 1-15 in column 0, ..., 61-75 in column 4. */
  function Column(n: int): (c: int)
    requires 1 <= n <= 75
    ensures 0 <= c < 5 && 15 * c + 1 <= n <= 15 * c + 15
  {
    (n - 1) / 15
  }

  /** For a card number the letter is the heading of its column. */
  lemma LabelLetterIsColumnHeading(n: int)
    requires 1 <= n <= 75
    ensures ColLabels[Column(n)] == [LabelLetter(n)]
  {
    var c := Column(n);
    if c == 0 { assert 1 <= n <= 15; }
    else if c == 1 { assert 16 <= n <= 30; }
    else if c == 2 { assert 31 <= n <= 45; }
    else if c == 3 { assert 46 <= n <= 60; }
    else { assert 61 <= n <= 75; }
  }

  /** So for a card number the label is its column heading and its text. */
  lemma LabelOfCardNumber(n: int)
    requires 1 <= n <= 75
    ensures NumberToLabel(n) == ColLabels[Column(n)] + IntToString(n)
  {
    LabelLetterIsColumnHeading(n);
  }

  /** Two numbers never share a label. */
  lemma LabelsAreDistinct(m: int, n: int)
    requires NumberToLabel(m) == NumberToLabel(n)
    ensures m == n
  {
  }
}

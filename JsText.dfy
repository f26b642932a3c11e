/** The JavaScript string and number built-ins the winning-pattern engine and
    the column labels rely on: `String.prototype.split` with a one-character
    separator, `String.prototype.trim`, the global `parseInt` (no radix
    argument) and the decimal text of an integer as a template literal
    produces it. A `char` is a Unicode scalar value, so a character that
    JavaScript stores as two UTF-16 code units is one `char` here and lone
    surrogates do not occur; no separator, whitespace character or digit
    these functions look for lies outside the Basic Multilingual Plane, so
    split, trim and parseInt treat such text the same either way. */
module JsText {

  import opened Wrappers

  /** WhiteSpace and LineTerminator code points as ECMAScript defines them:
      TAB, VT, FF, ZWNBSP, the Zs space separators, LF, CR, LS and PS. These
      are what both `trim` and `parseInt` strip. */
  predicate IsWhitespace(ch: char) {
    ch == '\t' || ch == '\n' || ch == '\U{000B}' || ch == '\U{000C}' || ch == '\r' ||
    ch == ' ' || ch == '\U{00A0}' || ch == '\U{1680}' ||
    ('\U{2000}' <= ch <= '\U{200A}') ||
    ch == '\U{2028}' || ch == '\U{2029}' || ch == '\U{202F}' || ch == '\U{205F}' ||
    ch == '\U{3000}' || ch == '\U{FEFF}'
  }

  predicate AllWhitespace(s: string) {
    forall i :: 0 <= i < |s| ==> IsWhitespace(s[i])
  }

  // ---------------------------------------------------------------------------
  // split

  /** `s.split(sep)`: the maximal pieces of `s` between occurrences of `sep`.
      The empty string splits into one empty piece, as in JavaScript. */
  function Split(s: string, sep: char): (parts: seq<string>)
    ensures |parts| >= 1
  {
    if s == [] then [[]]
    else
      var rest := Split(s[1..], sep);
      if s[0] == sep then [[]] + rest
      else [[s[0]] + rest[0]] + rest[1..]
  }

  /** No piece of a split contains the separator. */
  lemma {:induction false} SplitPiecesAreSeparatorFree(s: string, sep: char)
    ensures forall i :: 0 <= i < |Split(s, sep)| ==> sep !in Split(s, sep)[i]
  {
    if s != [] {
      SplitPiecesAreSeparatorFree(s[1..], sep);
      var rest := Split(s[1..], sep);
      if s[0] != sep {
        assert forall i :: 1 <= i < |Split(s, sep)| ==> Split(s, sep)[i] == rest[i];
      } else {
        assert forall i :: 1 <= i < |Split(s, sep)| ==> Split(s, sep)[i] == rest[i - 1];
      }
    }
  }

  /** `parts.join(sep)`, the inverse of `Split`. */
  function Join(parts: seq<string>, sep: char): string
    requires |parts| >= 1
  {
    if |parts| == 1 then parts[0] else parts[0] + [sep] + Join(parts[1..], sep)
  }

  /** Joining the pieces back together gives the original text: `Split` loses
      nothing but the separators. */
  lemma {:induction false} JoinSplit(s: string, sep: char)
    ensures Join(Split(s, sep), sep) == s
  {
    if s != [] {
      JoinSplit(s[1..], sep);
      var rest := Split(s[1..], sep);
      if s[0] != sep {
        if |rest| == 1 {
          assert Join(Split(s, sep), sep) == [s[0]] + rest[0];
        } else {
          assert Split(s, sep)[1..] == rest[1..];
          assert Join(Split(s, sep), sep) == [s[0]] + rest[0] + [sep] + Join(rest[1..], sep);
        }
      }
    }
  }

  /** Splitting a join of separator-free pieces gives the pieces back. */
  lemma {:induction false} SplitJoin(parts: seq<string>, sep: char)
    requires |parts| >= 1
    requires forall i :: 0 <= i < |parts| ==> sep !in parts[i]
    ensures Split(Join(parts, sep), sep) == parts
  {
    if |parts| == 1 {
      SplitPiece(parts[0], [], sep);
      assert parts == [parts[0]];
    } else {
      SplitJoin(parts[1..], sep);
      SplitPiece(parts[0], Join(parts[1..], sep), sep);
      assert [parts[0]] + parts[1..] == parts;
    }
  }

  /** A separator-free piece is one part on its own, and the first part when
      a separator and more text follow it. */
  lemma {:induction false} SplitPiece(piece: string, tail: string, sep: char)
    requires sep !in piece
    ensures Split(piece, sep) == [piece]
    ensures Split(piece + [sep] + tail, sep) == [piece] + Split(tail, sep)
  {
    if piece == [] {
      assert ([] + [sep] + tail)[1..] == tail;
    } else {
      SplitPiece(piece[1..], tail, sep);
      assert piece[0] != sep;
      assert [piece[0]] + piece[1..] == piece;
      assert (piece + [sep] + tail)[1..] == piece[1..] + [sep] + tail;
    }
  }

  // ---------------------------------------------------------------------------
  // trim

  /** `s.trimStart()`: `s` without its leading whitespace. */
  function TrimStart(s: string): (r: string)
    ensures |r| <= |s|
  {
    if s != [] && IsWhitespace(s[0]) then TrimStart(s[1..]) else s
  }

  /** `s.trimEnd()`: `s` without its trailing whitespace. */
  function TrimEnd(s: string): (r: string)
    ensures |r| <= |s|
  {
    if s != [] && IsWhitespace(s[|s| - 1]) then TrimEnd(s[..|s| - 1]) else s
  }

  /** `trimStart` drops a run of whitespace from the front and stops at a
      non-whitespace character. */
  lemma {:induction false} TrimStartSpec(s: string)
    ensures var r := TrimStart(s);
      r == s[|s| - |r|..] && (r == [] || !IsWhitespace(r[0])) && AllWhitespace(s[..|s| - |r|])
  {
    if s != [] && IsWhitespace(s[0]) {
      TrimStartSpec(s[1..]);
      var r := TrimStart(s[1..]);
      assert s[..|s| - |r|] == [s[0]] + s[1..][..|s[1..]| - |r|];
    }
  }

  /** `trimEnd` drops a run of whitespace from the back and stops at a
      non-whitespace character. */
  lemma {:induction false} TrimEndSpec(s: string)
    ensures var r := TrimEnd(s);
      r == s[..|r|] && (r == [] || !IsWhitespace(r[|r| - 1])) && AllWhitespace(s[|r|..])
  {
    if s != [] && IsWhitespace(s[|s| - 1]) {
      var p := s[..|s| - 1];
      TrimEndSpec(p);
      var r := TrimEnd(p);
      assert p[..|r|] == s[..|r|];
      assert s[|r|..] == p[|r|..] + [s[|s| - 1]];
      AllWhitespaceAppend(p[|r|..], s[|s| - 1]);
    }
  }

  lemma AllWhitespaceAppend(w: string, ch: char)
    requires AllWhitespace(w) && IsWhitespace(ch)
    ensures AllWhitespace(w + [ch])
  {
    forall k | 0 <= k < |w| + 1 ensures IsWhitespace((w + [ch])[k]) {
      if k < |w| { assert (w + [ch])[k] == w[k]; }
    }
  }

  /** `s.trim()`: `s` without its leading and trailing whitespace. */
  function Trim(s: string): string {
    TrimEnd(TrimStart(s))
  }

  /** What `trim` keeps is the stretch of `s` between its leading and its
      trailing whitespace. */
  lemma TrimIsInnerStretch(s: string)
    ensures var i := |s| - |TrimStart(s)|; var r := Trim(s);
      i + |r| <= |s| && r == s[i..i + |r|] && AllWhitespace(s[..i]) && AllWhitespace(s[i + |r|..])
  {
    TrimStartSpec(s);
    var t := TrimStart(s);
    TrimEndSpec(t);
    var r := TrimEnd(t);
    var i := |s| - |t|;
    assert s[i + |r|..] == t[|r|..];
  }

  /** What `trim` keeps begins and ends with a non-whitespace character. */
  lemma TrimEndsAreSolid(s: string)
    ensures Trim(s) == [] || (!IsWhitespace(Trim(s)[0]) && !IsWhitespace(Trim(s)[|Trim(s)| - 1]))
  {
    TrimStartSpec(s);
    var t := TrimStart(s);
    TrimEndSpec(t);
  }

  /** `trim` gives the empty text exactly when `s` is all whitespace. */
  lemma TrimEmptyIff(s: string)
    ensures Trim(s) == [] <==> AllWhitespace(s)
  {
    TrimStartSpec(s);
    var t := TrimStart(s);
    TrimEndSpec(t);
    var r := TrimEnd(t);
    var i := |s| - |t|;
    if r != [] {
      assert s[i] == t[0] == r[0];
    } else {
      TrimEmptyAllWhitespace(s, t, i);
    }
  }

  lemma TrimEmptyAllWhitespace(s: string, t: string, i: int)
    requires 0 <= i <= |s| && t == s[i..]
    requires AllWhitespace(s[..i]) && AllWhitespace(t)
    ensures AllWhitespace(s)
  {
    forall k | 0 <= k < |s| ensures IsWhitespace(s[k]) {
      if k < i { assert s[..i][k] == s[k]; } else { assert t[k - i] == s[k]; }
    }
  }

  /** A text that starts and ends with non-whitespace is its own trim. */
  lemma TrimOfSolid(s: string)
    requires s == [] || (!IsWhitespace(s[0]) && !IsWhitespace(s[|s| - 1]))
    ensures Trim(s) == s
  {
  }

  /** Trimming twice is trimming once. */
  lemma TrimIdempotent(s: string)
    ensures Trim(Trim(s)) == Trim(s)
  {
    TrimEndsAreSolid(s);
    TrimOfSolid(Trim(s));
  }

  // ---------------------------------------------------------------------------
  // decimal and hexadecimal digits

  predicate IsDigit(ch: char, radix: nat) {
    if radix == 16 then ('0' <= ch <= '9') || ('a' <= ch <= 'f') || ('A' <= ch <= 'F')
    else '0' <= ch <= '9'
  }

  /** The value of a digit; 0 for a character that is not one. */
  function DigitValue(ch: char): (v: nat)
    ensures v < 16
  {
    if '0' <= ch <= '9' then ch as int - '0' as int
    else if 'a' <= ch <= 'f' then ch as int - 'a' as int + 10
    else if 'A' <= ch <= 'F' then ch as int - 'A' as int + 10
    else 0
  }

  /** The longest prefix of `s` made of digits of the radix. */
  function DigitPrefix(s: string, radix: nat): (ds: string)
    ensures |ds| <= |s|
  {
    if s != [] && IsDigit(s[0], radix) then [s[0]] + DigitPrefix(s[1..], radix) else []
  }

  /** `DigitPrefix` takes a prefix of digits and stops at the end of the text
      or at the first non-digit. */
  lemma {:induction false} DigitPrefixSpec(s: string, radix: nat)
    ensures var ds := DigitPrefix(s, radix);
      ds == s[..|ds|] && (forall i :: 0 <= i < |ds| ==> IsDigit(ds[i], radix))
      && (|ds| == |s| || !IsDigit(s[|ds|], radix))
  {
    if s != [] && IsDigit(s[0], radix) {
      DigitPrefixSpec(s[1..], radix);
    }
  }

  /** The number a digit string denotes in the radix, most significant first. */
  function DigitsValue(ds: string, radix: nat): nat {
    if ds == [] then 0
    else DigitsValue(ds[..|ds| - 1], radix) * radix + DigitValue(ds[|ds| - 1])
  }

  // ---------------------------------------------------------------------------
  // parseInt

  /** `parseInt(s)` with no radix: skip leading whitespace, read an optional
      sign, then an unsigned number. No digits gives NaN, here `None`. The
      negative zero `parseInt("-0")` is the integer 0. */
  function ParseInt(s: string): Option<int> {
    var t := TrimStart(s);
    if t != [] && t[0] == '-' then
      match ParseUnsigned(t[1..])
      case None => None
      case Some(v) => Some(-v)
    else if t != [] && t[0] == '+' then ParseUnsigned(t[1..])
    else ParseUnsigned(t)
  }

  /** The unsigned part of `parseInt`: radix 16 after a `0x`/`0X` prefix and
      radix 10 otherwise, then the longest run of digits of that radix. */
  function ParseUnsigned(u: string): Option<int> {
    var hex := |u| >= 2 && u[0] == '0' && (u[1] == 'x' || u[1] == 'X');
    var radix := if hex then 16 else 10;
    var ds := DigitPrefix(if hex then u[2..] else u, radix);
    if ds == [] then None else Some(DigitsValue(ds, radix))
  }

  // ---------------------------------------------------------------------------
  // Decimal text of an integer

  function DigitChar(d: nat): (ch: char)
    requires d < 10
    ensures IsDigit(ch, 10) && DigitValue(ch) == d
  {
    ('0' as int + d) as char
  }

  /** The decimal digits of `n`, without leading zeros. */
  function NatToString(n: nat): (s: string)
    ensures |s| >= 1
    ensures forall i :: 0 <= i < |s| ==> IsDigit(s[i], 10)
    ensures |s| > 1 ==> s[0] != '0'
  {
    if n < 10 then [DigitChar(n)] else NatToString(n / 10) + [DigitChar(n % 10)]
  }

  /** The text `${n}` gives for an integer `n`: a minus sign for negatives,
      then the decimal digits. */
  function IntToString(n: int): string {
    if n < 0 then "-" + NatToString(-n) else NatToString(n)
  }

  lemma {:induction false} NatToStringValue(n: nat)
    ensures DigitsValue(NatToString(n), 10) == n
  {
    if n >= 10 {
      NatToStringValue(n / 10);
      var s := NatToString(n);
      assert s[..|s| - 1] == NatToString(n / 10);
    }
  }

  lemma {:induction false} DigitPrefixOfDigits(s: string, radix: nat)
    requires forall i :: 0 <= i < |s| ==> IsDigit(s[i], radix)
    ensures DigitPrefix(s, radix) == s
  {
    if s != [] {
      DigitPrefixOfDigits(s[1..], radix);
    }
  }

  /** The unsigned parser reads a whole non-empty decimal digit string. */
  lemma ParseUnsignedOfDigits(ds: string)
    requires |ds| >= 1 && forall i :: 0 <= i < |ds| ==> IsDigit(ds[i], 10)
    ensures ParseUnsigned(ds) == Some(DigitsValue(ds, 10) as int)
  {
    assert !(|ds| >= 2 && ds[0] == '0' && (ds[1] == 'x' || ds[1] == 'X')) by {
      if |ds| >= 2 {
        assert IsDigit(ds[1], 10);
      }
    }
    DigitPrefixOfDigits(ds, 10);
    assert DigitPrefix(ds, 10) == ds;
  }

  /** Text that starts with a non-whitespace character has nothing to skip. */
  lemma TrimStartOfSolid(s: string)
    requires s != [] && !IsWhitespace(s[0])
    ensures TrimStart(s) == s
  {
  }

  /** A leading minus sign negates what the unsigned parser reads after it. */
  lemma ParseIntOfMinus(u: string, v: int)
    requires ParseUnsigned(u) == Some(v)
    ensures ParseInt("-" + u) == Some(-v)
  {
    var s := "-" + u;
    assert s[0] == '-' && s[1..] == u;
    TrimStartOfSolid(s);
  }

  /** `parseInt` of a non-empty decimal digit string is its value. */
  lemma ParseIntOfDigits(ds: string)
    requires |ds| >= 1 && forall i :: 0 <= i < |ds| ==> IsDigit(ds[i], 10)
    ensures ParseInt(ds) == Some(DigitsValue(ds, 10) as int)
  {
    assert IsDigit(ds[0], 10);
    assert TrimStart(ds) == ds;
    assert ParseInt(ds) == ParseUnsigned(ds);
    ParseUnsignedOfDigits(ds);
  }

  /** `parseInt` reads back exactly the integer whose decimal text it is given:
      the text of a number and the parser are inverse on the integers. */
  lemma IntToStringRoundTrip(n: int)
    ensures ParseInt(IntToString(n)) == Some(n)
  {
    var m := if n < 0 then -n else n;
    NatToStringValue(m);
    if n < 0 {
      ParseUnsignedOfDigits(NatToString(m));
      ParseIntOfMinus(NatToString(m), m);
    } else {
      ParseIntOfDigits(NatToString(m));
    }
  }
}

/** `getActiveLEDCoordinates`: a 0-based `(row, col)` position turned into the
    JSON text of the 1-based pair `[row + 1, col + 1]`, as `JSON.stringify`
    writes an array of two integers. A small reader for that text states the
    round trip. */
module Coord {
  import opened Wrappers

  predicate IsDigit(c: char) {
    '0' <= c <= '9'
  }

  predicate AllDigits(s: string) {
    forall k :: 0 <= k < |s| ==> IsDigit(s[k])
  }

  function DigitChar(d: nat): (c: char)
    requires d < 10
    ensures IsDigit(c)
  {
    ('0' as int + d) as char
  }

  function DigitValue(c: char): (d: nat)
    requires IsDigit(c)
    ensures d < 10 && DigitChar(d) == c
  {
    c as int - '0' as int
  }

  /** The decimal digits of `n`, most significant first. */
  function Decimal(n: nat): (s: string)
    ensures s != [] && AllDigits(s)
    ensures s[0] == '0' ==> n == 0 && s == "0"
  {
    if n < 10 then [DigitChar(n)] else Decimal(n / 10) + [DigitChar(n % 10)]
  }

  /** How `JSON.stringify` writes an integer: its decimal digits, after a minus
      sign when it is negative. */
  function NumberText(n: int): (s: string)
    ensures s != []
    ensures n >= 0 ==> AllDigits(s)
    ensures n < 0 ==> |s| >= 2 && s[0] == '-' && s[1] != '0' && AllDigits(s[1..])
  {
    if n < 0 then "-" + Decimal(-n) else Decimal(n)
  }

  /** `getActiveLEDCoordinates(row, col)`: `JSON.stringify([row + 1, col + 1])`,
      which puts no space after the comma. */
  function CoordString(row: int, col: int): (s: string)
    ensures |s| >= 5 && s[0] == '[' && s[|s| - 1] == ']'
  {
    "[" + NumberText(row + 1) + "," + NumberText(col + 1) + "]"
  }

  /** Reads a run of decimal digits, most significant first. */
  function ParseNatural(s: string): nat
    requires AllDigits(s)
  {
    if s == [] then 0 else ParseNatural(s[..|s| - 1]) * 10 + DigitValue(s[|s| - 1])
  }

  /** Reads an optionally signed integer; anything else is refused. */
  function ParseNumber(s: string): Option<int> {
    if s != [] && s[0] == '-' then
      (if |s| > 1 && AllDigits(s[1..]) then Some(0 - ParseNatural(s[1..]) as int) else None)
    else if s != [] && AllDigits(s) then Some(ParseNatural(s))
    else None
  }

  /** The first position of `c` in `s`, or `|s|` when it does not occur. */
  function IndexOf(s: string, c: char): (i: nat)
    ensures i <= |s| && (i < |s| ==> s[i] == c)
    ensures forall k :: 0 <= k < i ==> s[k] != c
  {
    if s == [] then 0 else if s[0] == c then 0 else 1 + IndexOf(s[1..], c)
  }

  /** Reads the text of a JSON array of two integers with no white space,
      `[a,b]`; any other text is refused. */
  function ParseCoord(s: string): Option<(int, int)> {
    if |s| < 2 || s[0] != '[' || s[|s| - 1] != ']' then None
    else
      var body := s[1..|s| - 1];
      var i := IndexOf(body, ',');
      if i == |body| then None
      else
        match (ParseNumber(body[..i]), ParseNumber(body[i + 1..]))
        case (Some(a), Some(b)) => Some((a, b))
        case _ => None
  }

  /** Reading the digits of `n` gives `n` back. */
  lemma {:induction false} ParseDecimal(n: nat)
    ensures ParseNatural(Decimal(n)) == n
  {
    var s := Decimal(n);
    if n >= 10 {
      assert s[..|s| - 1] == Decimal(n / 10);
      ParseDecimal(n / 10);
    }
  }

  /** Reading the text of an integer gives the integer back. */
  lemma ParseNumberText(n: int)
    ensures ParseNumber(NumberText(n)) == Some(n)
  {
    var s := NumberText(n);
    if n < 0 {
      var d := Decimal(-n);
      assert s == "-" + d;
      assert s[0] == '-' && s[1..] == d;
      ParseDecimal(-n);
      assert ParseNumber(s) == Some(0 - ParseNatural(d) as int);
    } else {
      ParseDecimal(n);
    }
  }

  /** The text of an integer contains no comma. */
  lemma NumberTextHasNoComma(n: int)
    ensures forall k :: 0 <= k < |NumberText(n)| ==> NumberText(n)[k] != ','
  {
  }

  /** A bracketed pair of number texts, the first without a comma, reads back
      as the pair of their values. */
  lemma ParsePair(a: string, b: string, x: int, y: int)
    requires ParseNumber(a) == Some(x) && ParseNumber(b) == Some(y)
    requires forall k :: 0 <= k < |a| ==> a[k] != ','
    ensures ParseCoord("[" + a + "," + b + "]") == Some((x, y))
  {
    var s := "[" + a + "," + b + "]";
    var body := s[1..|s| - 1];
    assert body == a + "," + b;
    assert IndexOf(body, ',') == |a| by {
      assert forall k :: 0 <= k < |a| ==> body[k] == a[k];
      assert body[|a|] == ',';
    }
    assert body[..|a|] == a && body[|a| + 1..] == b;
  }

  /** The output reads back as the 1-based pair `(row + 1, col + 1)`. */
  lemma CoordRoundTrip(row: int, col: int)
    ensures ParseCoord(CoordString(row, col)) == Some((row + 1, col + 1))
  {
    NumberTextHasNoComma(row + 1);
    ParseNumberText(row + 1);
    ParseNumberText(col + 1);
    ParsePair(NumberText(row + 1), NumberText(col + 1), row + 1, col + 1);
  }

  /** Different positions give different strings. */
  lemma CoordInjective(r1: int, c1: int, r2: int, c2: int)
    requires CoordString(r1, c1) == CoordString(r2, c2)
    ensures r1 == r2 && c1 == c2
  {
    CoordRoundTrip(r1, c1);
    CoordRoundTrip(r2, c2);
  }

  /** For a position on the board the output holds only digits, the two brackets
      and exactly one comma, and both numbers it carries are at least 1. */
  lemma CoordAlphabet(row: int, col: int)
    requires row >= 0 && col >= 0
    ensures var s := CoordString(row, col);
      (forall k :: 0 <= k < |s| ==> IsDigit(s[k]) || s[k] in "[,]") &&
      |set k | 0 <= k < |s| && s[k] == ','| == 1
    ensures var p := ParseCoord(CoordString(row, col)); p.Some? && p.value.0 >= 1 && p.value.1 >= 1
  {
    var a, b := NumberText(row + 1), NumberText(col + 1);
    var s := CoordString(row, col);
    assert s == "[" + a + "," + b + "]";
    forall k | 0 <= k < |s| ensures (IsDigit(s[k]) || s[k] in "[,]") && (s[k] == ',' <==> k == |a| + 1) {
      if 1 <= k <= |a| {
        assert s[k] == a[k - 1];
      } else if |a| + 2 <= k < |s| - 1 {
        assert s[k] == b[k - |a| - 2];
      }
    }
    assert (set k | 0 <= k < |s| && s[k] == ',') == {|a| + 1};
    CoordRoundTrip(row, col);
  }

  /** The output for the 0-based position `(2, 4)` is `[3,5]`, with no space
      after the comma. */
  lemma CoordExample()
    ensures CoordString(2, 4) == "[3,5]"
    ensures CoordString(2, 4) != "[3, 5]"
  {
  }
}

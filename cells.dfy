/**
 * Spreadsheet cells as the decoder hands them over, and the JavaScript
 * coercions the two screens apply to them: truthiness, `toString`,
 * `Number(x) || 0` and `x || default`.
 */
module Cells {

  import opened Wrappers
  import opened Text

  /** A decoded cell: absent (`undefined`, a hole in the row), text, or a number. */
  datatype Cell = Empty | Str(s: string) | Num(n: int)

  /** JavaScript truthiness of a cell value: `undefined`, `''` and `0` are falsy. */
  predicate Truthy(c: Cell) {
    match c
    case Empty => false
    case Str(s) => s != ""
    case Num(n) => n != 0
  }

  /** `row[i]`, which is `undefined` past the end of the row. */
  function CellAt(row: seq<Cell>, i: nat): Cell {
    if i < |row| then row[i] else Empty
  }

  function DigitChar(d: nat): (c: char)
    requires d < 10
    ensures IsDigit(c) && c as int - '0' as int == d
  {
    (d + '0' as int) as char
  }

  /** Decimal notation of a natural number, as `toString` writes it: no leading zero, and it reads back as `n`. */
  function NatToString(n: nat): (s: string)
    ensures s != []
    ensures forall i :: 0 <= i < |s| ==> IsDigit(s[i])
    ensures AllDigits(s) && DigitsValue(s) == n
    ensures n == 0 ==> s == "0"
    ensures n > 0 ==> s[0] != '0'
    ensures |s| > 1 ==> s[0] != '0'
    decreases n
  {
    if n < 10 then [DigitChar(n)]
    else
      var h := NatToString(n / 10);
      var s := h + [DigitChar(n % 10)];
      assert s[..|s| - 1] == h;
      s
  }

  function IntToString(n: int): (s: string)
    ensures s != []
  {
    if n < 0 then "-" + NatToString(-n) else NatToString(n)
  }

  predicate AllDigits(s: string) {
    forall i :: 0 <= i < |s| ==> IsDigit(s[i])
  }

  /** The value of a string of decimal digits, read from the left. */
  function DigitsValue(s: string): nat
    requires AllDigits(s)
  {
    if s == [] then 0 else DigitsValue(s[..|s| - 1]) * 10 + (s[|s| - 1] as int - '0' as int)
  }

  /**
   * `Number(t)` for a string: surrounding whitespace is ignored, the empty
   * string is 0, an optionally signed run of digits is its value, and anything
   * else is not a number (`None`).
   */
  function ParseNumber(t: string): Option<int> {
    var u := Trim(t);
    if u == "" then Some(0)
    else if (u[0] == '-' || u[0] == '+') && |u| > 1 && AllDigits(u[1..]) then
      var v: int := DigitsValue(u[1..]);
      Some(if u[0] == '-' then -v else v)
    else if AllDigits(u) then Some(DigitsValue(u))
    else None
  }

  /** `Number(String(n))` gives `n` back: a number written as text reads as the same number. */
  lemma ParseNumberReadsBack(n: int)
    ensures ParseNumber(IntToString(n)) == Some(n)
  {
    if n < 0 {
      ParseNegativeReadsBack(-n);
    } else {
      ParseNatReadsBack(n);
    }
  }

  lemma ParseNatReadsBack(n: nat)
    ensures ParseNumber(NatToString(n)) == Some(n)
  {
    var s := NatToString(n);
    TrimUnchanged(s);
    assert AllDigits(s) && !(s[0] == '-' || s[0] == '+');
  }

  lemma ParseNegativeReadsBack(n: nat)
    requires n > 0
    ensures ParseNumber("-" + NatToString(n)) == Some(-(n as int))
  {
    var t := NatToString(n);
    var s := "-" + t;
    TrimUnchanged(s);
    assert s[0] == '-' && |s| > 1 && s[1..] == t;
  }

  /** A text that neither starts nor ends with whitespace is its own `trim`. */
  lemma TrimUnchanged(s: string)
    requires s != [] ==> !IsWhitespace(s[0]) && !IsWhitespace(s[|s| - 1])
    ensures Trim(s) == s
  {
    assert TrimStart(s) == s;
  }

  /** `Number(c) || 0`: a number, or 0 when the cell is not one. */
  function NumberOr0(c: Cell): (r: int)
    ensures c.Num? ==> r == c.n
    ensures c.Empty? ==> r == 0
    ensures c.Str? && ParseNumber(c.s).None? ==> r == 0
    ensures c.Str? && ParseNumber(c.s).Some? ==> r == ParseNumber(c.s).value
  {
    match c
    case Empty => 0
    case Num(n) => n
    case Str(s) => match ParseNumber(s) case Some(v) => v case None => 0
  }

  /** `String(c)`, with `undefined` becoming `''` as `join` does. */
  function CellText(c: Cell): string {
    match c
    case Empty => ""
    case Str(s) => s
    case Num(n) => IntToString(n)
  }

  /** `c?.toString() || d`: the text of the cell, or `d` when that text is empty. */
  function TextOr(c: Cell, d: string): (r: string)
    ensures CellText(c) != "" ==> r == CellText(c)
    ensures CellText(c) == "" ==> r == d
    ensures r == "" ==> d == ""
  {
    if CellText(c) == "" then d else CellText(c)
  }

  /** A truthy cell has a non-empty text. */
  lemma TruthyTextNonEmpty(c: Cell)
    requires Truthy(c)
    ensures CellText(c) != ""
  {
  }

  /** `c || d` for a text field: the value when truthy, `d` otherwise. */
  function OrText(c: Cell, d: string): string
  {
    if Truthy(c) then CellText(c) else d
  }

  /** `c || 0` for a numeric field. */
  function OrNumber(c: Cell): (r: int)
    ensures !Truthy(c) ==> r == 0
    ensures c.Num? ==> r == c.n
  {
    if Truthy(c) then NumberOr0(c) else 0
  }

  /** `Array.prototype.join`: the cells' texts with `sep` between them. */
  function Join(row: seq<Cell>, sep: string): string {
    if row == [] then ""
    else if |row| == 1 then CellText(row[0])
    else Join(row[..|row| - 1], sep) + sep + CellText(row[|row| - 1])
  }
}

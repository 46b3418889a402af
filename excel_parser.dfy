/** `backend/src/utils/excelParser.js`: reading the cells of an evrak import
 *  sheet, recognising dates and amounts, validating each row into errors,
 *  warnings and normalised fields, and the header and summary rules of a
 *  parse. Database lookups, `excelSerialToDate` and JavaScript's own date
 *  parser are parameters (`Ortam`). */
module ExcelParser {
  import opened Wrappers
  import opened Strings
  import opened Dates
  import Js
  import Evraklar
  import Krediler

  const EvrakTipleri: seq<string> := ["cek", "senet"]

  // ---------------------------------------------------------------------
  // Numbers

  /** A number held by an Excel cell, as `String(n)` prints it: the sign,
   *  the whole part and the fraction digits. */
  datatype Decimal = Decimal(negative: bool, whole: nat, fraction: string)

  /** The digits of a number `String(n)` would print: no trailing zero in
   *  the fraction and no negative zero. */
  predicate CanonicalDecimal(x: Decimal)
  {
    AllDigits(x.fraction) && (x.fraction == [] || x.fraction[|x.fraction| - 1] != '0')
    && (x.negative ==> x.whole > 0 || x.fraction != [])
  }

  /** `String(n)` for a number between 1e-6 and 1e21 in magnitude. */
  function DecimalText(x: Decimal): string
  {
    (if x.negative then "-" else "") + NatToString(x.whole)
    + (if x.fraction == [] then "" else "." + x.fraction)
  }

  /** The numbers `parseFloat` returns, with the digits kept as text so that
   *  no binary rounding enters: a decimal with its exponent, an infinity or
   *  NaN. */
  datatype JsNumber = Finite(negative: bool, whole: string, fraction: string, exponent: int)
                    | Infinite(negative: bool)
                    | NaN

  predicate HasNonZeroDigit(s: string)
  {
    exists i :: 0 <= i < |s| && s[i] != '0'
  }

  /** `n > 0` */
  predicate Positive(n: JsNumber)
  {
    match n
    case Finite(neg, w, f, _) => !neg && (HasNonZeroDigit(w) || HasNonZeroDigit(f))
    case Infinite(neg) => !neg
    case NaN => false
  }

  function AsNumber(x: Decimal): JsNumber
  {
    Finite(x.negative, NatToString(x.whole), x.fraction, 0)
  }

  // ---------------------------------------------------------------------
  // Cells

  /** What ExcelJS puts in `cell.value`. A date cell carries the text
   *  `String(date)` gives for it; a formula carries its result, if any. */
  datatype CellValue =
    | Empty
    | Text(s: string)
    | Number(x: Decimal)
    | Boolean(b: bool)
    | DateValue(date: Date, shown: string)
    | RichText(runs: seq<Option<string>>)
    | Formula(result: Option<CellValue>)
    | OtherObject

  /** JavaScript truthiness of a cell value. */
  predicate CellTruthy(v: CellValue)
  {
    match v
    case Empty => false
    case Text(s) => s != ""
    case Number(x) => x.whole > 0 || HasNonZeroDigit(x.fraction)
    case Boolean(b) => b
    case _ => true
  }

  /** `String(value)` */
  function StringOf(v: CellValue): string
  {
    match v
    case Empty => "null"
    case Text(s) => s
    case Number(x) => DecimalText(x)
    case Boolean(b) => if b then "true" else "false"
    case DateValue(_, shown) => shown
    case _ => "[object Object]"
  }

  /** The runs of a rich text joined, each `r.text || ''`. */
  function RunsText(runs: seq<Option<string>>): string
  {
    if runs == [] then "" else Js.OrStr(runs[0], "") + RunsText(runs[1..])
  }

  /** `cleanCellValue`: the trimmed text of a cell, '' for an empty one. */
  function CleanCellValue(v: CellValue): (r: string)
    ensures v.Empty? ==> r == ""
    ensures r == [] || (!IsJsSpace(r[0]) && !IsJsSpace(r[|r| - 1]))
    ensures v.Text? ==> r == Trim(v.s)
  {
    if v.Empty? then "" else Trim(CellText(v))
  }

  /** The text of a cell before trimming: the joined runs of a rich text,
   *  `String` of a formula's result, `String` of anything else. */
  function CellText(v: CellValue): string
  {
    match v
    case RichText(runs) => RunsText(runs)
    case Formula(res) => StringOf(if res.Some? then res.value else v)
    case _ => StringOf(v)
  }

  /** Cleaning a cleaned text again changes nothing. */
  lemma CleanCellValueIdempotent(v: CellValue)
    ensures CleanCellValue(Text(CleanCellValue(v))) == CleanCellValue(v)
  {
    TrimOfUntrimmed(CleanCellValue(v));
  }

  // ---------------------------------------------------------------------
  // Amounts

  predicate IsCurrencySymbol(c: char)
  {
    c == '₺' || c == '$' || c == '€' || c == '£' || c == '¥'
  }

  predicate IsDot(c: char)
  {
    c == '.'
  }

  /** `s.replace(/[…]/g, '')` for a character class `drop`. */
  function Remove(s: string, drop: char -> bool): (r: string)
    ensures |r| <= |s|
    ensures forall c :: c in r ==> c in s && !drop(c)
  {
    if s == [] then []
    else (if drop(s[0]) then [] else [s[0]]) + Remove(s[1..], drop)
  }

  /** `s.replace(/,/g, '.')` */
  function CommasToDots(s: string): (r: string)
    ensures |r| == |s|
    ensures forall i :: 0 <= i < |s| ==> r[i] == (if s[i] == ',' then '.' else s[i])
  {
    if s == [] then [] else [if s[0] == ',' then '.' else s[0]] + CommasToDots(s[1..])
  }

  /** The cleaning `parseAmount` does before `parseFloat`: currency symbols,
   *  white space and every `.` go, and `,` becomes the decimal point. */
  function CleanAmountText(s: string): (r: string)
    ensures |r| <= |s|
    ensures forall c :: c in r ==> !IsCurrencySymbol(c) && !IsJsSpace(c) && c != ','
    ensures forall c :: c in r && c != '.' ==> c in s
  {
    var noDots := Remove(Remove(Remove(s, IsCurrencySymbol), IsJsSpace), IsDot);
    var r := CommasToDots(noDots);
    assert forall c :: c in r ==> c == '.' || c in noDots by {
      forall c | c in r
        ensures c == '.' || c in noDots
      {
        var i :| 0 <= i < |r| && r[i] == c;
        assert noDots[i] in noDots;
      }
    }
    r
  }

  /** The longest run of decimal digits at the start of `s`. */
  function LeadingDigits(s: string): (r: string)
    ensures |r| <= |s| && r == s[..|r|] && AllDigits(r)
    ensures |r| < |s| ==> !IsDigit(s[|r|])
  {
    if s != [] && IsDigit(s[0]) then [s[0]] + LeadingDigits(s[1..]) else []
  }

  /** The exponent of `e12`, `E-3`, `e+5`; 0 when no digits follow the `e`. */
  function ExponentPart(s: string): int
  {
    if s != [] && (s[0] == 'e' || s[0] == 'E') then
      var t := s[1..];
      var u := if t != [] && (t[0] == '-' || t[0] == '+') then t[1..] else t;
      var digits := LeadingDigits(u);
      if digits == [] then 0
      else if t[0] == '-' then 0 - DigitsValue(digits)
      else DigitsValue(digits)
    else 0
  }

  /** `parseFloat(s)`: after leading white space, an optional sign and then
   *  `Infinity` or the longest decimal literal at the start; NaN when no
   *  digit starts the text. */
  function ParseFloat(s: string): (n: JsNumber)
    ensures n.Finite? ==> AllDigits(n.whole) && AllDigits(n.fraction) && (n.whole != [] || n.fraction != [])
  {
    var t := TrimStart(s);
    var negative := t != [] && t[0] == '-';
    var u := if t != [] && (t[0] == '-' || t[0] == '+') then t[1..] else t;
    if StartsWith(u, "Infinity") then Infinite(negative)
    else
      var whole := LeadingDigits(u);
      var rest := u[|whole|..];
      var point := rest != [] && rest[0] == '.';
      var fraction := if point then LeadingDigits(rest[1..]) else [];
      if whole == [] && fraction == [] then NaN
      else Finite(negative, whole, fraction, ExponentPart(if point then rest[1 + |fraction|..] else rest))
  }

  /** What `parseAmount` is given: nothing (null, undefined), a number, a
   *  string, or some other object. */
  datatype AmountInput = NoValue | NumberValue(x: Decimal) | TextValue(s: string) | OtherValue

  /** `parseAmount`: a positive number or null. */
  function ParseAmount(v: AmountInput): (r: Option<JsNumber>)
    ensures r.Some? ==> Positive(r.value)
    ensures v.NoValue? || v.OtherValue? || v == TextValue("") ==> r.None?
    ensures v.NumberValue? ==> (r.Some? <==> Positive(AsNumber(v.x)))
    ensures v.NumberValue? && r.Some? ==> r.value == AsNumber(v.x)
    ensures v.TextValue? && r.Some? ==> r.value == ParseFloat(CleanAmountText(v.s))
  {
    match v
    case NoValue => None
    case OtherValue => None
    case NumberValue(x) => if Positive(AsNumber(x)) then Some(AsNumber(x)) else None
    case TextValue(s) =>
      if s == "" then None
      else
        var n := ParseFloat(CleanAmountText(s));
        if Positive(n) then Some(n) else None
  }

  lemma {:induction false} RemoveConcat(a: string, b: string, drop: char -> bool)
    ensures Remove(a + b, drop) == Remove(a, drop) + Remove(b, drop)
  {
    if a == [] {
      assert a + b == b;
    } else {
      var x := if drop(a[0]) then [] else [a[0]];
      RemoveConsConcat(a, b, drop);
      RemoveConcat(a[1..], b, drop);
      assert x + (Remove(a[1..], drop) + Remove(b, drop)) == (x + Remove(a[1..], drop)) + Remove(b, drop);
    }
  }

  lemma RemoveConsConcat(a: string, b: string, drop: char -> bool)
    requires a != []
    ensures Remove(a + b, drop) == (if drop(a[0]) then [] else [a[0]]) + Remove(a[1..] + b, drop)
  {
    assert (a + b)[0] == a[0];
    assert (a + b)[1..] == a[1..] + b;
  }

  lemma {:induction false} RemoveNothing(s: string, drop: char -> bool)
    requires forall i :: 0 <= i < |s| ==> !drop(s[i])
    ensures Remove(s, drop) == s
  {
    if s != [] {
      RemoveNothing(s[1..], drop);
    }
  }

  /** On digits and points the cleaning only drops the points. */
  lemma CleanDigitsAndPoints(s: string)
    requires forall i :: 0 <= i < |s| ==> IsDigit(s[i]) || s[i] == '.'
    ensures CleanAmountText(s) == Remove(s, IsDot)
  {
    forall i | 0 <= i < |s|
      ensures !IsCurrencySymbol(s[i]) && !IsJsSpace(s[i])
    {
      DigitOrPointIsKept(s[i]);
    }
    assert Remove(s, IsCurrencySymbol) == s by {
      RemoveNothing(s, IsCurrencySymbol);
    }
    assert Remove(s, IsJsSpace) == s by {
      RemoveNothing(s, IsJsSpace);
    }
    var r := Remove(s, IsDot);
    assert AllDigits(r) by {
      RemoveDotsLeavesDigits(s);
    }
    assert CommasToDots(r) == r;
  }

  lemma DigitOrPointIsKept(c: char)
    requires IsDigit(c) || c == '.'
    ensures !IsCurrencySymbol(c) && !IsJsSpace(c)
  {
  }

  lemma {:induction false} RemoveDotsLeavesDigits(s: string)
    requires forall i :: 0 <= i < |s| ==> IsDigit(s[i]) || s[i] == '.'
    ensures AllDigits(Remove(s, IsDot))
  {
    if s != [] {
      RemoveDotsLeavesDigits(s[1..]);
    }
  }

  /** Digit text with a `.` before a digit fraction loses only the point in
   *  the cleaning. */
  lemma CleanDigitsWithPoint(w: string, f: string)
    requires AllDigits(w) && AllDigits(f)
    ensures CleanAmountText(w + "." + f) == w + f
  {
    var s := w + "." + f;
    assert CleanAmountText(s) == Remove(s, IsDot) by {
      assert forall i :: 0 <= i < |s| ==> IsDigit(s[i]) || s[i] == '.';
      CleanDigitsAndPoints(s);
    }
    assert Remove(s, IsDot) == w + f by {
      RemoveConcat(w + ".", f, IsDot);
      RemoveConcat(w, ".", IsDot);
      RemoveNothing(w, IsDot);
      RemoveNothing(f, IsDot);
      RemovePoint();
    }
  }

  lemma RemovePoint()
    ensures Remove(".", IsDot) == []
  {
    assert IsDot("."[0]);
  }

  lemma LeadingDigitsOfDigits(s: string)
    requires AllDigits(s)
    ensures LeadingDigits(s) == s
  {
  }

  /** `parseFloat` reads a plain run of digits whole. */
  lemma ParseFloatDigits(s: string)
    requires s != [] && AllDigits(s)
    ensures ParseFloat(s) == Finite(false, s, "", 0)
  {
    assert !IsJsSpace(s[0]);
    LeadingDigitsOfDigits(s);
    DigitIsNotInfinity(s);
  }

  lemma DigitIsNotInfinity(s: string)
    requires s != [] && IsDigit(s[0])
    ensures !StartsWith(s, "Infinity")
  {
    assert s[0] != "Infinity"[0];
  }

  lemma NatToStringNonZero(n: nat)
    requires n > 0
    ensures HasNonZeroDigit(NatToString(n))
  {
    if n < 10 {
      assert NatToString(n)[0] == DigitChar(n) != '0';
    } else {
      NatToStringNonZero(n / 10);
      var i :| 0 <= i < |NatToString(n / 10)| && NatToString(n / 10)[i] != '0';
      assert NatToString(n)[i] == NatToString(n / 10)[i];
    }
  }

  lemma NonZeroDigitConcat(a: string, b: string)
    requires HasNonZeroDigit(a) || HasNonZeroDigit(b)
    ensures HasNonZeroDigit(a + b)
  {
    if HasNonZeroDigit(a) {
      var i :| 0 <= i < |a| && a[i] != '0';
      assert (a + b)[i] == a[i];
    } else {
      var i :| 0 <= i < |b| && b[i] != '0';
      assert (a + b)[|a| + i] == b[i];
    }
  }

  /** The evidently intended reading of an amount cell: a number cell is
   *  passed to `parseAmount` as the number it is, as `parseAmount`'s own
   *  number branch expects; any other cell as its cleaned text. */
  function AmountOfCell(v: CellValue): (r: AmountInput)
    ensures v.Number? ==> r == NumberValue(v.x)
    ensures v.Text? ==> r == TextValue(Trim(v.s))
  {
    match v
    case Empty => NoValue
    case Number(x) => NumberValue(x)
    case Formula(Some(Number(x))) => NumberValue(x)
    case _ => TextValue(CleanCellValue(v))
  }

  /** How `parseExcelFile` passes an amount cell as written: every field but
   *  the two dates goes through `cleanCellValue`, so a number cell reaches
   *  `parseAmount` as the text `String(n)`. */
  function AmountOfCellAsWritten(v: CellValue): AmountInput
  {
    if v.Empty? then NoValue else TextValue(CleanCellValue(v))
  }

  /** As written, a positive number cell with a fraction loses its decimal
   *  point: 35.5 is read as 355, 10^|fraction| times the cell's value. */
  lemma AmountCellAsWrittenDropsPoint(x: Decimal)
    requires CanonicalDecimal(x) && !x.negative && x.fraction != []
    ensures ParseAmount(AmountOfCellAsWritten(Number(x)))
            == Some(Finite(false, NatToString(x.whole) + x.fraction, "", 0))
    ensures ParseAmount(AmountOfCellAsWritten(Number(x))) != Some(AsNumber(x))
  {
    var w := NatToString(x.whole);
    AsWrittenCellText(x);
    assert HasNonZeroDigit(w + x.fraction) by {
      assert x.fraction[|x.fraction| - 1] != '0';
      NonZeroDigitConcat(w, x.fraction);
    }
    ParseDigitsWithPoint(w, x.fraction);
  }

  lemma AsWrittenCellText(x: Decimal)
    requires !x.negative && x.fraction != [] && AllDigits(x.fraction)
    ensures AmountOfCellAsWritten(Number(x)) == TextValue(NatToString(x.whole) + "." + x.fraction)
  {
    var text := NatToString(x.whole) + "." + x.fraction;
    assert DecimalText(x) == text;
    assert !IsJsSpace(text[0]);
    assert text[|text| - 1] == x.fraction[|x.fraction| - 1];
    TrimOfUntrimmed(text);
  }

  lemma ParseDigitsWithPoint(w: string, f: string)
    requires AllDigits(w) && AllDigits(f) && w != [] && HasNonZeroDigit(w + f)
    ensures ParseAmount(TextValue(w + "." + f)) == Some(Finite(false, w + f, "", 0))
  {
    CleanDigitsWithPoint(w, f);
    ParseFloatDigits(w + f);
  }

  /** The template's dollar example: an exchange rate typed as the number
   *  35.5 is read as 355 as written and as 35.5 when the cell is passed as a
   *  number. */
  lemma TemplateRateAsWritten(x: Decimal)
    requires x == Decimal(false, 35, "5")
    ensures ParseAmount(AmountOfCellAsWritten(Number(x))) == Some(Finite(false, "355", "", 0))
  {
    OtuzBes();
    AmountCellAsWrittenDropsPoint(x);
  }

  lemma TemplateRateIntended(x: Decimal)
    requires x == Decimal(false, 35, "5")
    ensures ParseAmount(AmountOfCell(Number(x))) == Some(Finite(false, "35", "5", 0))
  {
    OtuzBes();
    AmountOfCellKeepsNumber(Number(x));
  }

  lemma OtuzBes()
    ensures NatToString(35) == "35" && NatToString(35) + "5" == "355"
  {
    assert NatToString(3) == "3";
  }

  /** Read as intended, a positive number cell keeps its value, and a text
   *  cell is read as before. */
  lemma AmountOfCellKeepsNumber(v: CellValue)
    ensures v.Number? && !v.x.negative && v.x.whole > 0 ==> ParseAmount(AmountOfCell(v)) == Some(AsNumber(v.x))
    ensures v.Number? ==> (ParseAmount(AmountOfCell(v)).Some? <==> Positive(AsNumber(v.x)))
    ensures v.Text? ==> ParseAmount(AmountOfCell(v)) == ParseAmount(AmountOfCellAsWritten(v))
  {
    if v.Number? && !v.x.negative && v.x.whole > 0 {
      NatToStringNonZero(v.x.whole);
    }
  }

  // ---------------------------------------------------------------------
  // Dates

  /** The day, month and year a date text names, before `new Date` adjusts
   *  them. */
  datatype Ymd = Ymd(year: nat, month: nat, day: nat)

  predicate DigitRun(s: string, lo: nat, hi: nat)
  {
    lo <= |s| <= hi && AllDigits(s)
  }

  /** `^(\d{l0,h0})<sep>(\d{l1,h1})<sep>(\d{l2,h2})$`: the three runs. */
  function MatchThree(s: string, sep: char, l0: nat, h0: nat, l1: nat, h1: nat, l2: nat, h2: nat)
    : (r: Option<(string, string, string)>)
    ensures r.Some? ==> DigitRun(r.value.0, l0, h0) && DigitRun(r.value.1, l1, h1) && DigitRun(r.value.2, l2, h2)
  {
    var parts := Split(s, sep);
    if |parts| == 3 && DigitRun(parts[0], l0, h0) && DigitRun(parts[1], l1, h1) && DigitRun(parts[2], l2, h2)
    then Some((parts[0], parts[1], parts[2]))
    else None
  }

  /** A match is exactly the text: the three runs joined by the separator. */
  lemma MatchThreeSound(s: string, sep: char, l0: nat, h0: nat, l1: nat, h1: nat, l2: nat, h2: nat)
    requires MatchThree(s, sep, l0, h0, l1, h1, l2, h2).Some?
    ensures var (a, b, c) := MatchThree(s, sep, l0, h0, l1, h1, l2, h2).value;
            s == a + [sep] + b + [sep] + c
  {
    var parts := Split(s, sep);
    SplitJoin(s, sep);
    assert Join(parts, [sep]) == parts[0] + [sep] + Join(parts[1..], [sep]);
    assert Join(parts[1..], [sep]) == parts[1] + [sep] + Join(parts[2..], [sep]);
    assert Join(parts[2..], [sep]) == parts[2];
  }

  /** Every text of the shape is matched, with its own runs. */
  lemma MatchThreeComplete(a: string, b: string, c: string, sep: char,
                           l0: nat, h0: nat, l1: nat, h1: nat, l2: nat, h2: nat)
    requires !IsDigit(sep)
    requires DigitRun(a, l0, h0) && DigitRun(b, l1, h1) && DigitRun(c, l2, h2)
    ensures MatchThree(a + [sep] + b + [sep] + c, sep, l0, h0, l1, h1, l2, h2) == Some((a, b, c))
  {
    assert sep !in a && sep !in b && sep !in c;
    SplitWithoutSeparator(c, sep);
    SplitAfterPiece(b, sep, c);
    assert a + [sep] + b + [sep] + c == a + [sep] + (b + [sep] + c);
    SplitAfterPiece(a, sep, b + [sep] + c);
  }

  /** `parseTurkishDate`'s two shapes, `D.M.YYYY` then `D/M/YYYY`. */
  function TurkishDate(s: string): Option<Ymd>
  {
    match MatchThree(s, '.', 1, 2, 1, 2, 4, 4)
    case Some((d, m, y)) => Some(Ymd(DigitsValue(y), DigitsValue(m), DigitsValue(d)))
    case None =>
      match MatchThree(s, '/', 1, 2, 1, 2, 4, 4)
      case Some((d, m, y)) => Some(Ymd(DigitsValue(y), DigitsValue(m), DigitsValue(d)))
      case None => None
  }

  /** `parseISODate`'s shape `YYYY-M-D`. */
  function IsoDate(s: string): Option<Ymd>
  {
    match MatchThree(s, '-', 4, 4, 1, 2, 1, 2)
    case Some((y, m, d)) => Some(Ymd(DigitsValue(y), DigitsValue(m), DigitsValue(d)))
    case None => None
  }

  function DayBefore(t: Date): Date
  {
    if t.d > 1 then Date(t.y, t.m, t.d - 1)
    else if t.m > 1 then Date(t.y, t.m - 1, DaysIn(t.y, t.m - 1))
    else Date(t.y - 1, 12, 31)
  }

  /** `new Date(year, month - 1, day)` on the numbers a shape captured:
   *  years 0-99 mean 1900-1999, and a month or day past the end carries
   *  forward (day 0 is the last day of the month before). */
  function NewLocalDate(t: Ymd): (r: Date)
    ensures ValidDate(r)
  {
    var year := if t.year <= 99 then 1900 + t.year else t.year;
    var monthIndex := t.month - 1;
    var first := Date(year + monthIndex / 12, monthIndex % 12 + 1, 1);
    if t.day == 0 then DayBefore(first)
    else
      AddDaysForward(first, t.day - 1);
      AddDays(first, t.day - 1)
  }

  /** A real date from year 100 on is taken as it is written. */
  lemma NewLocalDateOfRealDate(t: Ymd)
    requires t.year >= 100 && ValidDate(Date(t.year, t.month, t.day))
    ensures NewLocalDate(t) == Date(t.year, t.month, t.day)
  {
    AddDaysWithinMonth(t.year, t.month, t.day);
  }

  /** Day and month are not range checked: `31.02.2024`-style overflow moves
   *  on, `00.03.2024` is the last day of February and month 13 is January of
   *  the next year; a two-digit year inside four digits lands in the 1900s. */
  lemma NewLocalDateDayZero()
    ensures NewLocalDate(Ymd(2024, 3, 0)) == Date(2024, 2, 29)
  {
  }

  lemma NewLocalDateMonthOverflow()
    ensures NewLocalDate(Ymd(2024, 13, 15)) == Date(2025, 1, 15)
  {
    AddDaysWithinMonth(2025, 1, 15);
  }

  lemma NewLocalDateTwoDigitYear()
    ensures NewLocalDate(Ymd(25, 1, 1)) == Date(1925, 1, 1)
  {
    AddDaysWithinMonth(1925, 1, 1);
  }

  lemma NewLocalDateDayOverflow()
    ensures NewLocalDate(Ymd(2023, 2, 31)) == Date(2023, 3, 3)
  {
    AddDaysWithinMonth(2023, 2, 28);
    AddDaysAdd(Date(2023, 2, 1), 27, 1);
    AddDaysAdd(Date(2023, 2, 1), 28, 1);
    AddDaysAdd(Date(2023, 2, 1), 29, 1);
  }

  /** The injected parts of the environment: the two database lookups,
   *  `excelSerialToDate` for serials from 1 on, and `new Date(text)` for
   *  text in none of the recognised shapes. */
  datatype Ortam = Ortam(
    evrakNoKayitli: string -> bool,
    cariBul: string -> Option<int>,
    seriTarih: Decimal -> Option<Date>,
    yerelTarih: string -> Option<Date>)

  /** The string branch of `parseDate` on trimmed text. */
  function TextDate(t: string, env: Ortam): Option<Date>
  {
    if TurkishDate(t).Some? then Some(NewLocalDate(TurkishDate(t).value))
    else if IsoDate(t).Some? then Some(NewLocalDate(IsoDate(t).value))
    else env.yerelTarih(t)
  }

  /** `parseDate`: a date cell as it is, a serial number from 1 on through
   *  `excelSerialToDate`, and text trimmed and tried in the Turkish shapes,
   *  then the ISO shape, then JavaScript's own parser. */
  function ParseDate(v: CellValue, env: Ortam): (r: Option<Date>)
    ensures !CellTruthy(v) ==> r.None?
    ensures v.DateValue? ==> r == Some(v.date)
    ensures v.Number? && (v.x.negative || v.x.whole < 1) ==> r.None?
    ensures v.RichText? || v.Formula? || v.OtherObject? || v.Boolean? ==> r.None?
  {
    if !CellTruthy(v) then None
    else
      match v
      case DateValue(d, _) => Some(d)
      case Number(x) => if x.negative || x.whole < 1 then None else env.seriTarih(x)
      case Text(s) => TextDate(Trim(s), env)
      case _ => None
  }

  /** Text of a recognised shape is read by that shape, whatever the
   *  environment's own parser would say, Turkish shapes first; any other
   *  text is left to that parser. */
  lemma ParseDateShapes(s: string, env: Ortam)
    requires s != ""
    ensures TurkishDate(Trim(s)).Some? ==>
      ParseDate(Text(s), env) == Some(NewLocalDate(TurkishDate(Trim(s)).value))
    ensures TurkishDate(Trim(s)).None? && IsoDate(Trim(s)).Some? ==>
      ParseDate(Text(s), env) == Some(NewLocalDate(IsoDate(Trim(s)).value))
    ensures TurkishDate(Trim(s)).None? && IsoDate(Trim(s)).None? ==>
      ParseDate(Text(s), env) == env.yerelTarih(Trim(s))
  {
    ParseDateText(s, env);
  }

  lemma ParseDateText(s: string, env: Ortam)
    requires s != ""
    ensures ParseDate(Text(s), env) == TextDate(Trim(s), env)
  {
  }

  /** Text without the separator has no match on it. */
  lemma MatchThreeWithoutSeparator(s: string, sep: char, l0: nat, h0: nat, l1: nat, h1: nat, l2: nat, h2: nat)
    requires sep !in s
    ensures MatchThree(s, sep, l0, h0, l1, h1, l2, h2).None?
  {
    SplitWithoutSeparator(s, sep);
  }

  lemma TurkishShapeMatches(d: string, m: string, y: string, sep: char)
    requires sep == '.' || sep == '/'
    requires DigitRun(d, 1, 2) && DigitRun(m, 1, 2) && DigitRun(y, 4, 4)
    ensures TurkishDate(d + [sep] + m + [sep] + y) == Some(Ymd(DigitsValue(y), DigitsValue(m), DigitsValue(d)))
  {
    var s := d + [sep] + m + [sep] + y;
    MatchThreeComplete(d, m, y, sep, 1, 2, 1, 2, 4, 4);
    if sep == '/' {
      assert '.' !in d && '.' !in m && '.' !in y;
      assert '.' !in s;
      MatchThreeWithoutSeparator(s, '.', 1, 2, 1, 2, 4, 4);
    }
  }

  lemma IsoShapeMatches(y: string, m: string, d: string)
    requires DigitRun(y, 4, 4) && DigitRun(m, 1, 2) && DigitRun(d, 1, 2)
    ensures TurkishDate(y + ['-'] + m + ['-'] + d).None?
    ensures IsoDate(y + ['-'] + m + ['-'] + d) == Some(Ymd(DigitsValue(y), DigitsValue(m), DigitsValue(d)))
  {
    var s := y + ['-'] + m + ['-'] + d;
    MatchThreeComplete(y, m, d, '-', 4, 4, 1, 2, 1, 2);
    assert '.' !in y && '.' !in m && '.' !in d && '/' !in y && '/' !in m && '/' !in d;
    assert '.' !in s && '/' !in s;
    MatchThreeWithoutSeparator(s, '.', 1, 2, 1, 2, 4, 4);
    MatchThreeWithoutSeparator(s, '/', 1, 2, 1, 2, 4, 4);
  }

  /** The first and last character of a Turkish date text are digits. */
  lemma TurkishTextEnds(d: string, m: string, y: string, sep: char)
    requires DigitRun(d, 1, 2) && DigitRun(y, 4, 4)
    ensures var s := d + [sep] + m + [sep] + y; IsDigit(s[0]) && IsDigit(s[|s| - 1])
  {
    var s := d + [sep] + m + [sep] + y;
    assert s[0] == d[0] && s[|s| - 1] == y[|y| - 1];
  }

  lemma ParseDateOfTurkishText(s: string, env: Ortam)
    requires s != [] && IsDigit(s[0]) && IsDigit(s[|s| - 1]) && TurkishDate(s).Some?
    ensures ParseDate(Text(s), env) == Some(NewLocalDate(TurkishDate(s).value))
  {
    TrimOfUntrimmed(s);
    ParseDateShapes(s, env);
  }

  /** Text in the `D.M.YYYY` or `D/M/YYYY` shape is read as the day, month
   *  and year it writes, through `new Date`. */
  lemma {:induction false} ParseDateTurkishShape(d: string, m: string, y: string, sep: char, env: Ortam)
    requires sep == '.' || sep == '/'
    requires DigitRun(d, 1, 2) && DigitRun(m, 1, 2) && DigitRun(y, 4, 4)
    ensures ParseDate(Text(d + [sep] + m + [sep] + y), env)
            == Some(NewLocalDate(Ymd(DigitsValue(y), DigitsValue(m), DigitsValue(d))))
  {
    TurkishTextEnds(d, m, y, sep);
    TurkishShapeMatches(d, m, y, sep);
    ParseDateOfTurkishText(d + [sep] + m + [sep] + y, env);
  }

  /** Text in the `YYYY-M-D` shape is read as the date it writes. */
  lemma {:induction false} ParseDateIsoShape(y: string, m: string, d: string, env: Ortam)
    requires DigitRun(y, 4, 4) && DigitRun(m, 1, 2) && DigitRun(d, 1, 2)
    ensures ParseDate(Text(y + ['-'] + m + ['-'] + d), env)
            == Some(NewLocalDate(Ymd(DigitsValue(y), DigitsValue(m), DigitsValue(d))))
  {
    IsoTextEnds(y, m, d);
    IsoShapeMatches(y, m, d);
    ParseDateOfIsoText(y + ['-'] + m + ['-'] + d, env);
  }

  lemma IsoTextEnds(y: string, m: string, d: string)
    requires DigitRun(y, 4, 4) && DigitRun(d, 1, 2)
    ensures var s := y + ['-'] + m + ['-'] + d; IsDigit(s[0]) && IsDigit(s[|s| - 1])
  {
    var s := y + ['-'] + m + ['-'] + d;
    assert s[0] == y[0] && s[|s| - 1] == d[|d| - 1];
  }

  lemma ParseDateOfIsoText(s: string, env: Ortam)
    requires s != [] && IsDigit(s[0]) && IsDigit(s[|s| - 1])
    requires TurkishDate(s).None? && IsoDate(s).Some?
    ensures ParseDate(Text(s), env) == Some(NewLocalDate(IsoDate(s).value))
  {
    TrimOfUntrimmed(s);
    ParseDateShapes(s, env);
  }
}

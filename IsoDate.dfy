/** The date check both handlers run on their date parameters:
    `date.fromisoformat`, restricted to the extended form `YYYY-MM-DD`.
    The grammar is `full-date` of section 5.6 of RFC 3339; the month and day
    limits and the leap-year rule are those of section 5.7 of RFC 3339; the
    year lies in Python's `date` range, 1 to 9999. */
module IsoDate {
  import opened Common

  datatype Date = Date(year: int, month: int, day: int)

  const MinYear: int := 1
  const MaxYear: int := 9999

  /** Gregorian leap years (the rule of section 5.7 of RFC 3339). */
  predicate IsLeapYear(year: int)
  {
    year % 4 == 0 && (year % 100 != 0 || year % 400 == 0)
  }

  /** The maximum day of each month (the table of section 5.7 of RFC 3339). */
  function DaysInMonth(year: int, month: int): int
    requires 1 <= month <= 12
  {
    if month == 2 then (if IsLeapYear(year) then 29 else 28)
    else if month == 4 || month == 6 || month == 9 || month == 11 then 30
    else 31
  }

  /** A calendar date that Python's `date` constructor accepts. */
  predicate IsValidDate(d: Date)
  {
    MinYear <= d.year <= MaxYear && 1 <= d.month <= 12 && 1 <= d.day <= DaysInMonth(d.year, d.month)
  }

  // ---------------------------------------------------------------------------
  // Fixed-width decimal digit strings

  predicate IsDigit(c: char)
  {
    '0' <= c <= '9'
  }

  predicate AllDigits(s: string)
  {
    forall i :: 0 <= i < |s| ==> IsDigit(s[i])
  }

  function Pow10(n: nat): (p: nat)
    ensures p >= 1
  {
    if n == 0 then 1 else 10 * Pow10(n - 1)
  }

  /** The value of a string of decimal digits, most significant first. */
  function Number(s: string): nat
    requires AllDigits(s)
  {
    if s == [] then 0
    else 10 * Number(s[..|s| - 1]) + ((s[|s| - 1] as int) - ('0' as int))
  }

  /** `v` written with exactly `width` decimal digits, zero-padded on the left. */
  function Digits(v: nat, width: nat): string
    requires v < Pow10(width)
  {
    if width == 0 then []
    else Digits(v / 10, width - 1) + [(('0' as int) + v % 10) as char]
  }

  lemma {:induction false} NumberOfDigits(v: nat, width: nat)
    requires v < Pow10(width)
    ensures |Digits(v, width)| == width
    ensures AllDigits(Digits(v, width))
    ensures Number(Digits(v, width)) == v
  {
    if width > 0 {
      NumberOfDigits(v / 10, width - 1);
      var s := Digits(v, width);
      assert s[..|s| - 1] == Digits(v / 10, width - 1);
    }
  }

  lemma {:induction false} DigitsOfNumber(s: string)
    requires AllDigits(s)
    ensures Number(s) < Pow10(|s|)
    ensures Digits(Number(s), |s|) == s
  {
    if s != [] {
      var prefix := s[..|s| - 1];
      DigitsOfNumber(prefix);
      assert s == prefix + [s[|s| - 1]];
    }
  }

  // ---------------------------------------------------------------------------
  // The YYYY-MM-DD form

  /** The shape of `full-date` (section 5.6 of RFC 3339): four digits, a
      hyphen, two digits, a hyphen, two digits. */
  predicate IsFullDateShape(s: string)
  {
    |s| == 10 && s[4] == '-' && s[7] == '-'
    && AllDigits(s[..4]) && AllDigits(s[5..7]) && AllDigits(s[8..])
  }

  /** `date.fromisoformat(s)`: the date `s` denotes, or `None` where Python
      raises `ValueError` (wrong shape, or a month, day or year out of range). */
  function ParseIsoDate(s: string): (r: Option<Date>)
    ensures r.Some? ==> IsValidDate(r.value) && IsFullDateShape(s)
  {
    if !IsFullDateShape(s) then None
    else
      var d := Date(Number(s[..4]), Number(s[5..7]), Number(s[8..]));
      if IsValidDate(d) then Some(d) else None
  }

  /** `True` exactly when `date.fromisoformat(s)` returns without raising. */
  predicate IsIsoDate(s: string)
  {
    ParseIsoDate(s).Some?
  }

  /** `date.isoformat()`: the canonical `YYYY-MM-DD` text of a date. */
  function FormatIsoDate(d: Date): (s: string)
    requires 0 <= d.year < 10000 && 0 <= d.month < 100 && 0 <= d.day < 100
  {
    Digits(d.year, 4) + "-" + Digits(d.month, 2) + "-" + Digits(d.day, 2)
  }

  /** Where the three fields and the two hyphens of a date text sit. */
  lemma {:induction false} FieldsOfText(y: string, m: string, d: string)
    requires |y| == 4 && |m| == 2 && |d| == 2
    ensures var s := y + "-" + m + "-" + d;
      && |s| == 10 && s[4] == '-' && s[7] == '-'
      && s[..4] == y && s[5..7] == m && s[8..] == d
  {
    var s := y + "-" + m + "-" + d;
    assert s[..4] == y;
    assert s[5..7] == m;
    assert s[8..] == d;
  }

  lemma {:induction false} TextOfFields(s: string)
    requires |s| == 10 && s[4] == '-' && s[7] == '-'
    ensures s == s[..4] + "-" + s[5..7] + "-" + s[8..]
  {
    var t := s[..4] + "-" + s[5..7] + "-" + s[8..];
    assert |t| == 10;
    forall i | 0 <= i < 10 ensures s[i] == t[i] {
    }
  }

  /** Every valid date is accepted in its canonical form and read back
      unchanged. */
  lemma ParseFormat(d: Date)
    requires IsValidDate(d)
    ensures ParseIsoDate(FormatIsoDate(d)) == Some(d)
  {
    var y, m, dd := Digits(d.year, 4), Digits(d.month, 2), Digits(d.day, 2);
    NumberOfDigits(d.year, 4);
    NumberOfDigits(d.month, 2);
    NumberOfDigits(d.day, 2);
    FieldsOfText(y, m, dd);
    var s := FormatIsoDate(d);
    assert s == y + "-" + m + "-" + dd;
    assert IsFullDateShape(s);
    assert Date(Number(s[..4]), Number(s[5..7]), Number(s[8..])) == d;
  }

  /** Only canonical text is accepted: an accepted string is exactly the
      canonical form of the date it denotes. */
  lemma FormatParse(s: string)
    requires ParseIsoDate(s).Some?
    ensures FormatIsoDate(ParseIsoDate(s).value) == s
  {
    DigitsOfNumber(s[..4]);
    DigitsOfNumber(s[5..7]);
    DigitsOfNumber(s[8..]);
    TextOfFields(s);
  }

  /** An independent description of the accepted strings: the canonical
      forms of the valid dates, and nothing else. */
  lemma AcceptedExactlyWhenCanonical(s: string)
    ensures IsIsoDate(s) <==> exists d :: IsValidDate(d) && FormatIsoDate(d) == s
  {
    if IsIsoDate(s) {
      FormatParse(s);
      var d := ParseIsoDate(s).value;
      assert IsValidDate(d) && FormatIsoDate(d) == s;
    }
    if exists d :: IsValidDate(d) && FormatIsoDate(d) == s {
      var d :| IsValidDate(d) && FormatIsoDate(d) == s;
      ParseFormat(d);
    }
  }

  /** A month out of range is refused, as in the malformed-date example
      `2023-13-40`. */
  lemma MonthThirteenRejected()
    ensures !IsIsoDate("2023-13-40")
  {
    var s := "2023-13-40";
    if IsFullDateShape(s) {
      assert s[5..7] == "13";
      assert Number("13") == 10 * Number("1") + 3;
    }
  }

  /** February 29th exists in leap years only: 2000 and 2024 are leap
      years, 1900 and 2023 are not. */
  lemma LeapDays()
    ensures IsValidDate(Date(2024, 2, 29)) && IsValidDate(Date(2000, 2, 29))
    ensures !IsValidDate(Date(2023, 2, 29)) && !IsValidDate(Date(1900, 2, 29))
  {
  }
}

/**
 * Formatting of the calendar date that goes into every log file name. The
 * date is given as the three numbers the local-time `Date` getters return:
 * the full year, the zero-based month index and the day of the month.
 */
module Utils {
  import opened Wrappers
  import opened Text

  /** The ranges `getMonth()` and `getDate()` return. */
  predicate ValidDate(monthIndex: int, day: int) {
    0 <= monthIndex < 12 && 1 <= day <= 31
  }

  /** Reference definition: a value below 100 written as exactly two decimal digits. */
  function TwoDigits(v: nat): (s: string)
    requires v < 100
  {
    [DigitChar(v / 10), DigitChar(v % 10)]
  }

  /** "YYYY-MM-DD": the month is `getMonth() + 1`; month and day below 10 get one leading "0". */
  function BuildDateTimeString(year: int, monthIndex: int, day: int): (s: string)
    requires ValidDate(monthIndex, day)
    ensures s == IntToString(year) + "-" + TwoDigits(monthIndex + 1) + "-" + TwoDigits(day)
  {
    var month := monthIndex + 1;
    var monthText := if month < 10 then "0" + NatToString(month) else NatToString(month);
    var dayText := if day < 10 then "0" + NatToString(day) else NatToString(day);
    PadsToTwoDigits(month);
    PadsToTwoDigits(day);
    IntToString(year) + "-" + monthText + "-" + dayText
  }

  /** Padding values below 10 with one "0" and leaving the others alone writes each as two digits. */
  lemma PadsToTwoDigits(v: nat)
    requires v < 100
    ensures (if v < 10 then "0" + NatToString(v) else NatToString(v)) == TwoDigits(v)
  {
    if v >= 10 {
      assert NatToString(v / 10) == [DigitChar(v / 10)];
    }
  }

  /** A month or day below 10 is written with a leading "0"; from 10 on it is written as is. */
  lemma DateFieldPadding(year: int, monthIndex: int, day: int)
    requires ValidDate(monthIndex, day)
    ensures var s := BuildDateTimeString(year, monthIndex, day);
            var y := |IntToString(year)|;
            && s[y + 1..y + 3] == (if monthIndex + 1 < 10 then "0" + NatToString(monthIndex + 1) else NatToString(monthIndex + 1))
            && s[y + 4..] == (if day < 10 then "0" + NatToString(day) else NatToString(day))
  {
    PadsToTwoDigits(monthIndex + 1);
    PadsToTwoDigits(day);
  }

  /** With a four-digit year the text has the documented "YYYY-MM-DD" shape. */
  lemma FourDigitYearShape(year: int, monthIndex: int, day: int)
    requires ValidDate(monthIndex, day) && 1000 <= year <= 9999
    ensures var s := BuildDateTimeString(year, monthIndex, day);
            && |s| == 10 && s[4] == '-' && s[7] == '-'
            && forall i :: 0 <= i < 10 && i != 4 && i != 7 ==> IsDigit(s[i])
  {
    NatToStringLength(year, 4);
  }

  datatype DateParts = DateParts(year: int, month: int, day: int)

  /** Reads "Y-MM-DD" back: the year is everything before the last six characters. */
  function ParseDate(s: string): Option<DateParts> {
    if |s| < 7 || s[|s| - 6] != '-' || s[|s| - 3] != '-' then None
    else
      match (ParseInt(s[..|s| - 6]), ParseNat(s[|s| - 5..|s| - 3]), ParseNat(s[|s| - 2..]))
      case (Some(y), Some(m), Some(d)) => Some(DateParts(y, m, d))
      case _ => None
  }

  lemma TwoDigitsValue(v: nat)
    requires v < 100
    ensures ParseNat(TwoDigits(v)) == Some(v)
  {
    var s := TwoDigits(v);
    assert s[..1] == [s[0]];
    assert s[..1][..0] == [];
    assert DigitsValue(s[..1]) == v / 10;
    assert DigitsValue(s) == 10 * (v / 10) + v % 10;
  }

  /** Parsing the date text gives back the year, the calendar month and the day. */
  lemma ParseBuildDate(year: int, monthIndex: int, day: int)
    requires ValidDate(monthIndex, day)
    ensures ParseDate(BuildDateTimeString(year, monthIndex, day)) == Some(DateParts(year, monthIndex + 1, day))
  {
    var s := BuildDateTimeString(year, monthIndex, day);
    var ys := IntToString(year);
    assert s[..|s| - 6] == ys;
    assert s[|s| - 5..|s| - 3] == TwoDigits(monthIndex + 1);
    assert s[|s| - 2..] == TwoDigits(day);
    ParseIntToString(year);
    TwoDigitsValue(monthIndex + 1);
    TwoDigitsValue(day);
  }

  /** Distinct dates give distinct strings. */
  lemma BuildDateInjective(y1: int, mi1: int, d1: int, y2: int, mi2: int, d2: int)
    requires ValidDate(mi1, d1) && ValidDate(mi2, d2)
    requires BuildDateTimeString(y1, mi1, d1) == BuildDateTimeString(y2, mi2, d2)
    ensures y1 == y2 && mi1 == mi2 && d1 == d2
  {
    ParseBuildDate(y1, mi1, d1);
    ParseBuildDate(y2, mi2, d2);
  }

  /** October 5th and October 15th, 2020 (getMonth() is 9 for October). */
  lemma OctoberExamples()
    ensures BuildDateTimeString(2020, 9, 5) == "2020-10-05"
    ensures BuildDateTimeString(2020, 9, 15) == "2020-10-15"
  {
    assert NatToString(2020) == "2020" by {
      assert NatToString(2) == "2";
      assert NatToString(20) == "20";
      assert NatToString(202) == "202";
    }
  }
}

/**
 * Dates are day numbers: day 0 is 1970-01-01 (UTC) and consecutive days are
 * consecutive integers. This module converts between day numbers and the
 * proleptic Gregorian calendar, which is what keys deals by month.
 */
module Calendar {

  /** A calendar month, the value behind a `'Jan 2024'` style month label. */
  datatype Month = Month(year: int, month: int)

  /** Months in chronological order: the sort key `new Date(label)` gives a month label. */
  function MonthIndex(m: Month): int {
    m.year * 12 + (m.month - 1)
  }

  /** The day number of year `y`, month `m`, day `d` (Gregorian calendar). */
  function DaysFromCivil(y: int, m: int, d: int): int
    requires 1 <= m <= 12
  {
    var y' := if m <= 2 then y - 1 else y;
    var era := y' / 400;
    var yoe := y' - era * 400;
    var mp := if m > 2 then m - 3 else m + 9;
    var doy := (153 * mp + 2) / 5 + d - 1;
    var doe := yoe * 365 + yoe / 4 - yoe / 100 + doy;
    era * 146097 + doe - 719468
  }

  /** The calendar month that day `day` falls in. */
  function MonthOf(day: int): Month {
    var z := day + 719468;
    var era := z / 146097;
    var doe := z - era * 146097;
    var yoe := (doe - doe / 1460 + doe / 36524 - doe / 146096) / 365;
    var doy := doe - (365 * yoe + yoe / 4 - yoe / 100);
    var mp := (5 * doy + 2) / 153;
    var m := if mp < 10 then mp + 3 else mp - 9;
    var y := yoe + era * 400;
    Month(if m <= 2 then y + 1 else y, m)
  }

  /** Excel's day zero, 1899-12-30, is day -25569. */
  const ExcelEpoch: int := DaysFromCivil(1899, 12, 30)

  lemma ExcelEpochValue()
    ensures ExcelEpoch == -25569
    ensures MonthOf(ExcelEpoch) == Month(1899, 12)
    ensures MonthOf(ExcelEpoch + 2) == Month(1900, 1)
  {
    assert 1899 / 400 == 4 && (153 * 9 + 2) / 5 == 275 && 299 / 4 == 74 && 299 / 100 == 2;
    assert ExcelEpoch == 4 * 146097 + (299 * 365 + 74 - 2 + 275 + 29) - 719468;
    assert (-25569 + 719468) / 146097 == 4;
    assert 109511 / 1460 == 75 && 109511 / 36524 == 2 && 109511 / 146096 == 0;
    assert (109511 - 75 + 2 - 0) / 365 == 299;
    assert (5 * 304 + 2) / 153 == 9;
    assert 109513 / 1460 == 75 && 109513 / 36524 == 2 && 109513 / 146096 == 0;
    assert (109513 - 75 + 2 - 0) / 365 == 299;
    assert (5 * 306 + 2) / 153 == 10;
  }
}

/** The wall-clock readings the harness formats. `datetime.now()` is an input:
    a reading is given as its calendar and clock fields. */
module Clock {
  import opened Text

  type Year = y: int | 1000 <= y <= 9999 witness 1000
  type Month = m: int | 1 <= m <= 12 witness 1
  type Day = d: int | 1 <= d <= 31 witness 1
  type Hour = h: int | 0 <= h < 24
  type Sixty = m: int | 0 <= m < 60
  type Micro = u: int | 0 <= u < 1000000

  datatype Timestamp = Timestamp(
    year: Year, month: Month, day: Day,
    hour: Hour, minute: Sixty, second: Sixty,
    microsecond: Micro)

  /** `strftime("%Y-%m-%d")` */
  function DateText(t: Timestamp): string {
    Padded(t.year, 4) + "-" + Padded(t.month, 2) + "-" + Padded(t.day, 2)
  }

  /** `strftime("%H-%M-%S")` */
  function TimeText(t: Timestamp): string {
    Padded(t.hour, 2) + "-" + Padded(t.minute, 2) + "-" + Padded(t.second, 2)
  }

  /** `strftime("%Y%m%d_%H%M%S")`, the summary file's time stamp */
  function CompactText(t: Timestamp): string {
    Padded(t.year, 4) + Padded(t.month, 2) + Padded(t.day, 2) + "_"
    + Padded(t.hour, 2) + Padded(t.minute, 2) + Padded(t.second, 2)
  }

  /** `str(datetime)`: the fraction of a second is printed only when it is not zero. */
  function Display(t: Timestamp): string {
    DateText(t) + " " + Padded(t.hour, 2) + ":" + Padded(t.minute, 2) + ":" + Padded(t.second, 2)
    + (if t.microsecond != 0 then "." + Padded(t.microsecond, 6) else "")
  }

  /** Two readings that fall in the same second. */
  predicate SameSecond(a: Timestamp, b: Timestamp) {
    a.year == b.year && a.month == b.month && a.day == b.day
    && a.hour == b.hour && a.minute == b.minute && a.second == b.second
  }
}

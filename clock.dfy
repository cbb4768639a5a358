/**
 * The labels the raw audio upload derives from the server clock
 * (app.py:73-77): the calendar day as `YYYY-MM-DD` and the half-hour slot
 * as `HH-00` or `HH-30`. The clock reading (already in Asia/Tokyo local
 * time) is an input here; no zone conversion happens after it is read.
 */
module Clock {
  import opened Strings

  type Hour = h: int | 0 <= h < 24
  type Minute = m: int | 0 <= m < 60

  /** A calendar day, as a `datetime` holds it. */
  datatype Date = Date(year: int, month: int, day: int)

  predicate IsLeapYear(y: int) {
    y % 4 == 0 && (y % 100 != 0 || y % 400 == 0)
  }

  function DaysInMonth(y: int, m: int): int
    requires 1 <= m <= 12
  {
    if m == 2 then (if IsLeapYear(y) then 29 else 28)
    else if m == 4 || m == 6 || m == 9 || m == 11 then 30
    else 31
  }

  /** A day `datetime` can represent: years 1 to 9999 of the proleptic Gregorian calendar. */
  predicate ValidDate(d: Date) {
    1 <= d.year <= 9999 && 1 <= d.month <= 12 && 1 <= d.day <= DaysInMonth(d.year, d.month)
  }

  /** The slot label of a clock reading: two-digit hour, a dash, "00" before half past, "30" from then on. */
  function SlotLabel(hour: Hour, minute: Minute): string {
    Pad2(hour) + "-" + (if minute < 30 then "00" else "30")
  }

  /** `strftime("%Y-%m-%d")` of a day. */
  function DateLabel(d: Date): string
    requires ValidDate(d)
  {
    Pad4(d.year) + "-" + Pad2(d.month) + "-" + Pad2(d.day)
  }

  /** Which of the day's 48 half hours a clock reading falls in. */
  function HalfHour(hour: Hour, minute: Minute): (k: nat)
    ensures k < 48
  {
    2 * hour + (if minute < 30 then 0 else 1)
  }

  /** The 48 slot labels of a day, in the order of the half hours. */
  function AllSlots(): (r: seq<string>)
    ensures |r| == 48
  {
    seq(48, k requires 0 <= k < 48 => SlotLabel(k / 2, if k % 2 == 0 then 0 else 30))
  }

  /**
   * A slot label is five characters: the hour exactly as read from the
   * clock in two digits, a dash, and "00" or "30" by the half hour.
   */
  lemma SlotLabelShape(hour: Hour, minute: Minute)
    ensures var s := SlotLabel(hour, minute);
      && |s| == 5
      && IsDigit(s[0]) && IsDigit(s[1])
      && DigitValue(s[0]) * 10 + DigitValue(s[1]) == hour
      && s[2] == '-'
      && s[3..] == (if minute < 30 then "00" else "30")
  {
    Pad2Value(hour);
  }

  /** Two clock readings get the same label exactly when they fall in the same half hour. */
  lemma SlotLabelInjective(h1: Hour, m1: Minute, h2: Hour, m2: Minute)
    ensures SlotLabel(h1, m1) == SlotLabel(h2, m2) <==> HalfHour(h1, m1) == HalfHour(h2, m2)
  {
    var a, b := SlotLabel(h1, m1), SlotLabel(h2, m2);
    if a == b {
      SlotLabelShape(h1, m1);
      SlotLabelShape(h2, m2);
      assert a[3] == b[3];
    }
  }

  /** Python's string order on labels is the order of the half hours. */
  lemma SlotLabelOrder(h1: Hour, m1: Minute, h2: Hour, m2: Minute)
    requires HalfHour(h1, m1) < HalfHour(h2, m2)
    ensures Less(SlotLabel(h1, m1), SlotLabel(h2, m2))
  {
    var a, b := SlotLabel(h1, m1), SlotLabel(h2, m2);
    SlotLabelShape(h1, m1);
    SlotLabelShape(h2, m2);
    if h1 / 10 < h2 / 10 {
      LessAtFirstDifference(a, b, 0);
    } else if h1 < h2 {
      assert a[..1] == b[..1];
      LessAtFirstDifference(a, b, 1);
    } else {
      assert a[..3] == b[..3];
      LessAtFirstDifference(a, b, 3);
    }
  }

  /** Every label is one of the 48 of `AllSlots`, which are in strictly increasing order, hence distinct. */
  lemma SlotLabelIsOneOf48(hour: Hour, minute: Minute)
    ensures AllSlots()[HalfHour(hour, minute)] == SlotLabel(hour, minute)
    ensures forall i, j :: 0 <= i < j < 48 ==> Less(AllSlots()[i], AllSlots()[j])
  {
    var k := HalfHour(hour, minute);
    SlotLabelInjective(k / 2, if k % 2 == 0 then 0 else 30, hour, minute);
    forall i, j | 0 <= i < j < 48 ensures Less(AllSlots()[i], AllSlots()[j]) {
      SlotLabelOrder(i / 2, if i % 2 == 0 then 0 else 30, j / 2, if j % 2 == 0 then 0 else 30);
    }
  }
}

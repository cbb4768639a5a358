/**
 * The ordering of date directories on the status page (`_sort_dates`,
 * app.py:244-250): each name is read with `datetime.strptime(s, "%Y-%m-%d")`,
 * a name that does not parse counts as `datetime.min`, and the names are
 * sorted by that value, newest first, with Python's stable sort.
 */
module Dates {
  import opened Wrappers
  import opened Strings
  import opened Clock

  // ---------------------------------------------------------------
  // strptime(s, "%Y-%m-%d")
  // ---------------------------------------------------------------

  /**
   * The `%m` field and the '-' after it, at the start of `r`: "10" to "12",
   * "01" to "09", or a single digit "1" to "9". Yields the month and the text
   * after the dash.
   */
  function ParseMonth(r: string): Option<(int, string)> {
    if |r| >= 3 && r[0] == '1' && '0' <= r[1] <= '2' && r[2] == '-' then Some((10 + DigitValue(r[1]), r[3..]))
    else if |r| >= 3 && r[0] == '0' && '1' <= r[1] <= '9' && r[2] == '-' then Some((DigitValue(r[1]), r[3..]))
    else if |r| >= 2 && '1' <= r[0] <= '9' && r[1] == '-' then Some((DigitValue(r[0]), r[2..]))
    else None
  }

  /**
   * The `%d` field when it must take the whole of `t`: "30" or "31", "10" to
   * "29", "01" to "09", a single digit "1" to "9", or a space and a digit.
   */
  function ParseDay(t: string): Option<int> {
    if |t| == 2 && t[0] == '3' && '0' <= t[1] <= '1' then Some(30 + DigitValue(t[1]))
    else if |t| == 2 && '1' <= t[0] <= '2' && IsDigit(t[1]) then Some(DigitValue(t[0]) * 10 + DigitValue(t[1]))
    else if |t| == 2 && t[0] == '0' && '1' <= t[1] <= '9' then Some(DigitValue(t[1]))
    else if |t| == 1 && '1' <= t[0] <= '9' then Some(DigitValue(t[0]))
    else if |t| == 2 && t[0] == ' ' && '1' <= t[1] <= '9' then Some(DigitValue(t[1]))
    else None
  }

  /**
   * `datetime.strptime(s, "%Y-%m-%d")`: four digits of year, '-', month, '-',
   * day, nothing after, and a day that exists (year 0 and February 30 are
   * errors). `None` stands for the `ValueError`.
   */
  function ParseDate(s: string): (r: Option<Date>)
    ensures r.Some? ==> ValidDate(r.value)
  {
    if |s| < 5 || !IsDigit(s[0]) || !IsDigit(s[1]) || !IsDigit(s[2]) || !IsDigit(s[3]) || s[4] != '-' then None
    else
      var year := DigitValue(s[0]) * 1000 + DigitValue(s[1]) * 100 + DigitValue(s[2]) * 10 + DigitValue(s[3]);
      match ParseMonth(s[5..])
      case None => None
      case Some((month, rest)) =>
        match ParseDay(rest)
        case None => None
        case Some(day) =>
          if ValidDate(Date(year, month, day)) then Some(Date(year, month, day)) else None
  }

  /** `datetime.min`, the value `to_dt` gives a name that does not parse. */
  const MinDate := Date(1, 1, 1)

  /** Chronological order of days. */
  predicate Before(a: Date, b: Date) {
    a.year < b.year || (a.year == b.year && (a.month < b.month || (a.month == b.month && a.day < b.day)))
  }

  /** A number that orders valid days as `datetime` comparison does (see `DateKeyOrder`). */
  function DateKey(d: Date): int {
    d.year * 10000 + d.month * 100 + d.day
  }

  /** The sort key of a directory name: its day, or `datetime.min`. */
  function SortKey(name: string): int {
    match ParseDate(name)
    case Some(d) => DateKey(d)
    case None => DateKey(MinDate)
  }

  lemma DateKeyOrder(a: Date, b: Date)
    requires ValidDate(a) && ValidDate(b)
    ensures DateKey(a) < DateKey(b) <==> Before(a, b)
    ensures DateKey(a) == DateKey(b) <==> a == b
  {
    assert a.day <= 31 && b.day <= 31;
  }

  /** `datetime.min` is the earliest valid day, so every key is at least its key. */
  lemma MinDateIsEarliest(name: string)
    ensures SortKey(name) >= DateKey(MinDate)
    ensures SortKey(name) == DateKey(MinDate) <==> ParseDate(name).None? || ParseDate(name) == Some(MinDate)
  {
    if ParseDate(name).Some? {
      DateKeyOrder(MinDate, ParseDate(name).value);
    }
  }

  lemma ParseMonthPadded(m: int, rest: string)
    requires 1 <= m <= 12
    ensures ParseMonth(Pad2(m) + "-" + rest) == Some((m, rest))
  {
    var r := Pad2(m) + "-" + rest;
    Pad2Value(m);
    assert r[0] == Pad2(m)[0] && r[1] == Pad2(m)[1] && r[2] == '-';
    assert r[3..] == rest;
  }

  lemma ParseDayPadded(d: int)
    requires 1 <= d <= 31
    ensures ParseDay(Pad2(d)) == Some(d)
  {
    Pad2Value(d);
  }

  /** A directory name the upload handler created from the clock parses back to its day. */
  lemma ParseDateLabel(d: Date)
    requires ValidDate(d)
    ensures ParseDate(DateLabel(d)) == Some(d)
  {
    var s := DateLabel(d);
    var y := Pad4(d.year);
    var r := Pad2(d.month) + "-" + Pad2(d.day);
    assert s == y + "-" + r;
    Pad4Value(d.year);
    assert s[0] == y[0] && s[1] == y[1] && s[2] == y[2] && s[3] == y[3] && s[4] == '-';
    assert s[5..] == r;
    ParseMonthPadded(d.month, Pad2(d.day));
    ParseDayPadded(d.day);
  }

  // ---------------------------------------------------------------
  // sorted(dates, key=to_dt, reverse=True)
  // ---------------------------------------------------------------

  /** Puts `x` after the names with a strictly later key and before the rest. */
  function InsertNewestFirst(x: string, s: seq<string>): seq<string>
    decreases |s|
  {
    if s == [] then [x]
    else if SortKey(s[0]) > SortKey(x) then [s[0]] + InsertNewestFirst(x, s[1..])
    else [x] + s
  }

  /** `_sort_dates`: a stable sort by key, largest first. */
  function SortDates(names: seq<string>): seq<string>
    decreases |names|
  {
    if names == [] then [] else InsertNewestFirst(names[0], SortDates(names[1..]))
  }

  predicate NewestFirst(s: seq<string>) {
    forall i, j :: 0 <= i < j < |s| ==> SortKey(s[i]) >= SortKey(s[j])
  }

  /** The names with sort key `k`, in their order. */
  function WithKey(s: seq<string>, k: int): seq<string>
    decreases |s|
  {
    if s == [] then []
    else if SortKey(s[0]) == k then [s[0]] + WithKey(s[1..], k)
    else WithKey(s[1..], k)
  }

  /** The names that are not dates, in their order. */
  function Unparsable(s: seq<string>): seq<string>
    decreases |s|
  {
    if s == [] then []
    else if ParseDate(s[0]).None? then [s[0]] + Unparsable(s[1..])
    else Unparsable(s[1..])
  }

  lemma {:induction false} InsertNewestFirstPermutes(x: string, s: seq<string>)
    ensures multiset(InsertNewestFirst(x, s)) == multiset(s) + multiset{x}
    decreases |s|
  {
    if s != [] && SortKey(s[0]) > SortKey(x) {
      InsertNewestFirstPermutes(x, s[1..]);
      assert s == [s[0]] + s[1..];
    }
  }

  lemma {:induction false} InsertNewestFirstSorted(x: string, s: seq<string>)
    requires NewestFirst(s)
    ensures NewestFirst(InsertNewestFirst(x, s))
    decreases |s|
  {
    var r := InsertNewestFirst(x, s);
    if s != [] && SortKey(s[0]) > SortKey(x) {
      InsertNewestFirstSorted(x, s[1..]);
      InsertNewestFirstPermutes(x, s[1..]);
      assert r == [s[0]] + InsertNewestFirst(x, s[1..]);
      forall i, j | 0 <= i < j < |r| ensures SortKey(r[i]) >= SortKey(r[j]) {
        if i == 0 {
          assert r[j] in multiset(InsertNewestFirst(x, s[1..]));
          assert r[j] == x || r[j] in s[1..];
        }
      }
    } else if s != [] {
      forall i, j | 0 <= i < j < |r| ensures SortKey(r[i]) >= SortKey(r[j]) {
        if i == 0 {
          assert SortKey(s[0]) >= SortKey(r[j]);
        }
      }
    }
  }

  lemma {:induction false} InsertNewestFirstWithKey(x: string, s: seq<string>, k: int)
    ensures WithKey(InsertNewestFirst(x, s), k) == if SortKey(x) == k then [x] + WithKey(s, k) else WithKey(s, k)
    decreases |s|
  {
    if s != [] && SortKey(s[0]) > SortKey(x) {
      InsertNewestFirstWithKey(x, s[1..], k);
    }
  }

  lemma {:induction false} InsertNewestFirstUnparsable(x: string, s: seq<string>)
    ensures Unparsable(InsertNewestFirst(x, s)) == if ParseDate(x).None? then [x] + Unparsable(s) else Unparsable(s)
    decreases |s|
  {
    if s != [] && SortKey(s[0]) > SortKey(x) {
      InsertNewestFirstUnparsable(x, s[1..]);
      if ParseDate(x).None? {
        MinDateIsEarliest(x);
        MinDateIsEarliest(s[0]);
      }
    }
  }

  /** `_sort_dates` rearranges its input: same names, same number of times. */
  lemma {:induction false} SortDatesPermutation(names: seq<string>)
    ensures multiset(SortDates(names)) == multiset(names)
    ensures |SortDates(names)| == |names|
    decreases |names|
  {
    if names != [] {
      SortDatesPermutation(names[1..]);
      InsertNewestFirstPermutes(names[0], SortDates(names[1..]));
      assert names == [names[0]] + names[1..];
    }
    assert |multiset(SortDates(names))| == |multiset(names)|;
  }

  /** `_sort_dates` puts later keys first. */
  lemma {:induction false} SortDatesNewestFirst(names: seq<string>)
    ensures NewestFirst(SortDates(names))
    decreases |names|
  {
    if names != [] {
      SortDatesNewestFirst(names[1..]);
      InsertNewestFirstSorted(names[0], SortDates(names[1..]));
    }
  }

  /** Stability: the names sharing a key keep the order they came in. */
  lemma {:induction false} SortDatesStable(names: seq<string>, k: int)
    ensures WithKey(SortDates(names), k) == WithKey(names, k)
    decreases |names|
  {
    if names != [] {
      SortDatesStable(names[1..], k);
      InsertNewestFirstWithKey(names[0], SortDates(names[1..]), k);
    }
  }

  /** Names that are not dates keep the order they came in. */
  lemma {:induction false} SortDatesKeepsUnparsableOrder(names: seq<string>)
    ensures Unparsable(SortDates(names)) == Unparsable(names)
    decreases |names|
  {
    if names != [] {
      SortDatesKeepsUnparsableOrder(names[1..]);
      InsertNewestFirstUnparsable(names[0], SortDates(names[1..]));
    }
  }

  /**
   * In the output, of two names that are both dates the later day comes
   * first, and a name that is not a date comes after every date other than
   * 0001-01-01 (that day equals `datetime.min` and so ties with them).
   */
  lemma SortDatesOrder(names: seq<string>, i: int, j: int)
    requires 0 <= i < j < |SortDates(names)|
    ensures var r := SortDates(names);
      && (ParseDate(r[i]).Some? && ParseDate(r[j]).Some? ==> !Before(ParseDate(r[i]).value, ParseDate(r[j]).value))
      && (ParseDate(r[i]).None? ==> ParseDate(r[j]).None? || ParseDate(r[j]) == Some(MinDate))
  {
    var r := SortDates(names);
    SortDatesNewestFirst(names);
    assert SortKey(r[i]) >= SortKey(r[j]);
    MinDateIsEarliest(r[j]);
    if ParseDate(r[i]).Some? && ParseDate(r[j]).Some? {
      DateKeyOrder(ParseDate(r[i]).value, ParseDate(r[j]).value);
    }
  }
}

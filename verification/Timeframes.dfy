/** The canonical timeframe ladder. Instants are microseconds since 0001-01-01 00:00 UTC, a Monday. */
module Timeframes {

  datatype Timeframe = Month | Week | Day | H4 | H1 | M15 | M3

  const MINUTE: nat := 60_000_000

  const DAY: nat := 1440 * MINUTE

  const LADDER: seq<Timeframe> := [Month, Week, Day, H4, H1, M15, M3]

  // ---------------------------------------------------------------- the calendar

  predicate IsLeap(year: nat) {
    year % 4 == 0 && (year % 100 != 0 || year % 400 == 0)
  }

  /** Days in the `m`-th month, counting January of year 1 as month 0. */
  function DaysInMonth(m: nat): (d: nat)
    ensures 28 <= d <= 31
  {
    var month := m % 12 + 1;
    if month == 2 then (if IsLeap(m / 12 + 1) then 29 else 28)
    else if month == 4 || month == 6 || month == 9 || month == 11 then 30
    else 31
  }

  function FirstDay(m: nat): nat {
    if m == 0 then 0 else FirstDay(m - 1) + DaysInMonth(m - 1)
  }

  /** The month that holds `day`, looking from month `m` onward. */
  function MonthFrom(day: nat, m: nat): (r: nat)
    requires FirstDay(m) <= day
    ensures FirstDay(r) <= day < FirstDay(r + 1)
    decreases day - FirstDay(m)
  {
    if day < FirstDay(m + 1) then m else MonthFrom(day, m + 1)
  }

  function MonthOf(day: nat): (r: nat)
    ensures FirstDay(r) <= day < FirstDay(r + 1)
  {
    MonthFrom(day, 0)
  }

  lemma {:induction false} FirstDayMonotone(a: nat, b: nat)
    requires a <= b
    ensures FirstDay(a) <= FirstDay(b)
  {
    if a < b {
      FirstDayMonotone(a, b - 1);
    }
  }

  lemma MonthUnique(day: nat, m: nat)
    requires FirstDay(m) <= day < FirstDay(m + 1)
    ensures MonthOf(day) == m
  {
    var r := MonthOf(day);
    if r < m {
      FirstDayMonotone(r + 1, m);
    } else if m < r {
      FirstDayMonotone(m + 1, r);
    }
  }

  // ---------------------------------------------------------------- buckets

  function FixedMinutes(tf: Timeframe): (r: nat)
    requires tf != Month && tf != Week
    ensures 0 < r && 1440 % r == 0
  {
    match tf
    case Day => 1440
    case H4 => 240
    case H1 => 60
    case M15 => 15
    case M3 => 3
  }

  /** Whether bars of length `interval` can be gathered into `tf` candles without splitting any. */
  predicate Available(tf: Timeframe, interval: nat)
    requires 0 < interval
  {
    tf == Month || tf == Week || FixedMinutes(tf) * MINUTE % interval == 0
  }

  function Midnight(t: nat): nat {
    t - t % DAY
  }

  function WeekStart(day: nat): nat {
    day - day % 7
  }

  /** Opening boundary of the candle that contains `t`. */
  function BucketStart(t: nat, tf: Timeframe): nat {
    match tf
    case Month => FirstDay(MonthOf(t / DAY)) * DAY
    case Week => WeekStart(t / DAY) * DAY
    case Day => Midnight(t)
    case _ =>
      var minuteOfDay := t % DAY / MINUTE;
      Midnight(t) + (minuteOfDay - minuteOfDay % FixedMinutes(tf)) * MINUTE
  }

  /** Exclusive closing boundary of the candle that opens at `start`. */
  function BucketEnd(start: nat, tf: Timeframe): nat {
    match tf
    case Month => FirstDay(MonthOf(start / DAY) + 1) * DAY
    case Week => start + 7 * DAY
    case _ => start + FixedMinutes(tf) * MINUTE
  }

  lemma DaySpan(t: nat, first: nat, last: nat)
    ensures first <= t / DAY < last <==> first * DAY <= t < last * DAY
  {
  }

  lemma MonthInterval(t: nat, u: nat)
    ensures BucketStart(t, Month) <= t < BucketEnd(BucketStart(t, Month), Month)
    ensures BucketStart(t, Month) <= u < BucketEnd(BucketStart(t, Month), Month) ==>
              BucketStart(u, Month) == BucketStart(t, Month)
  {
    hide FirstDay;
    var m := MonthOf(t / DAY);
    var first, next := FirstDay(m), FirstDay(m + 1);
    assert BucketStart(t, Month) / DAY == first;
    MonthUnique(first, m);
    DaySpan(t, first, next);
    DaySpan(u, first, next);
    if first * DAY <= u < next * DAY {
      MonthUnique(u / DAY, m);
    }
  }

  lemma WeekInterval(t: nat, u: nat)
    ensures BucketStart(t, Week) <= t < BucketEnd(BucketStart(t, Week), Week)
    ensures BucketStart(t, Week) <= u < BucketEnd(BucketStart(t, Week), Week) ==>
              BucketStart(u, Week) == BucketStart(t, Week)
  {
    var first := WeekStart(t / DAY);
    DaySpan(t, first, first + 7);
    DaySpan(u, first, first + 7);
  }

  lemma DayInterval(t: nat, u: nat)
    ensures BucketStart(t, Day) <= t < BucketEnd(BucketStart(t, Day), Day)
    ensures BucketStart(t, Day) <= u < BucketEnd(BucketStart(t, Day), Day) ==>
              BucketStart(u, Day) == BucketStart(t, Day)
  {
  }

  lemma FlooredMinutes(day: nat, m: nat, minutes: nat, perDay: nat, t: nat)
    requires 0 < minutes && perDay * minutes == 1440
    requires day * DAY + m * MINUTE <= t < day * DAY + (m + 1) * MINUTE
    ensures day * DAY + (m - m % minutes) * MINUTE == (day * perDay + m / minutes) * (minutes * MINUTE)
    ensures day * DAY + (m - m % minutes) * MINUTE <= t < day * DAY + (m - m % minutes) * MINUTE + minutes * MINUTE
  {
    var (a, b) := (m / minutes, m % minutes);
    assert m == a * minutes + b;
    calc {
      (day * perDay + a) * (minutes * MINUTE);
      day * (perDay * minutes) * MINUTE + a * minutes * MINUTE;
      day * DAY + (m - b) * MINUTE;
    }
  }

  lemma MinuteOfDay(t: nat)
    ensures var (day, m) := (t / DAY, t % DAY / MINUTE);
            day * DAY + m * MINUTE <= t < day * DAY + (m + 1) * MINUTE
  {
  }

  lemma MidnightDays(t: nat)
    ensures Midnight(t) == t / DAY * DAY
  {
  }

  lemma FixedStart(t: nat, tf: Timeframe)
    requires tf != Month && tf != Week && tf != Day
    ensures var m := t % DAY / MINUTE;
            BucketStart(t, tf) == Midnight(t) + (m - m % FixedMinutes(tf)) * MINUTE
  {
  }

  /** Flooring the minute of the day gives a whole number of candles since the epoch. */
  lemma Floored(t: nat, tf: Timeframe) returns (k: nat)
    requires tf != Month && tf != Week && tf != Day
    ensures BucketStart(t, tf) == k * (FixedMinutes(tf) * MINUTE)
    ensures BucketStart(t, tf) <= t < BucketStart(t, tf) + FixedMinutes(tf) * MINUTE
  {
    hide Midnight, BucketStart, FixedMinutes;
    FixedStart(t, tf);
    var day, m, minutes := t / DAY, t % DAY / MINUTE, FixedMinutes(tf);
    k := day * (1440 / minutes) + m / minutes;
    MidnightDays(t);
    MinuteOfDay(t);
    FlooredMinutes(day, m, minutes, 1440 / minutes, t);
  }

  lemma TimesMonotone(a: nat, b: nat, width: nat)
    ensures a <= b ==> a * width <= b * width
  {
  }

  lemma SameMultiple(a: nat, b: nat, width: nat, u: nat)
    requires a * width <= u < a * width + width && b * width <= u < b * width + width
    ensures a == b
  {
    TimesMonotone(a + 1, b, width);
    TimesMonotone(b + 1, a, width);
  }

  lemma MinuteInterval(t: nat, u: nat, tf: Timeframe)
    requires tf != Month && tf != Week && tf != Day
    ensures BucketStart(t, tf) <= t < BucketEnd(BucketStart(t, tf), tf)
    ensures BucketStart(t, tf) <= u < BucketEnd(BucketStart(t, tf), tf) ==> BucketStart(u, tf) == BucketStart(t, tf)
  {
    hide Midnight;
    var a := Floored(t, tf);
    var b := Floored(u, tf);
    if BucketStart(t, tf) <= u < BucketStart(t, tf) + FixedMinutes(tf) * MINUTE {
      SameMultiple(a, b, FixedMinutes(tf) * MINUTE, u);
    }
  }

  /** A bucket is an interval around its instants: `t` lies in its own bucket, and every instant of
      that bucket has the same one. */
  lemma BucketInterval(t: nat, u: nat, tf: Timeframe)
    ensures BucketStart(t, tf) <= t < BucketEnd(BucketStart(t, tf), tf)
    ensures BucketStart(t, tf) <= u < BucketEnd(BucketStart(t, tf), tf) ==> BucketStart(u, tf) == BucketStart(t, tf)
  {
    match tf
    case Month => MonthInterval(t, u);
    case Week => WeekInterval(t, u);
    case Day => DayInterval(t, u);
    case _ => MinuteInterval(t, u, tf);
  }

  // ---------------------------------------------------------------- the source grid

  /** Source bars start on multiples of their interval, and the interval divides a day. */
  predicate OnGrid(t: nat, interval: nat)
    requires 0 < interval
  {
    DAY % interval == 0 && t % interval == 0
  }

  lemma MultipleExact(n: nat, interval: nat)
    requires 0 < interval
    ensures n * interval % interval == 0
  {
    var (q, r) := (n * interval / interval, n * interval % interval);
    assert n * interval == q * interval + r;
    TimesMonotone(q + 1, n, interval);
    TimesMonotone(n + 1, q, interval);
  }

  lemma MultipleOf(k: nat, width: nat, interval: nat)
    requires 0 < interval && width % interval == 0
    ensures k * width % interval == 0
  {
    var q := width / interval;
    assert width == q * interval;
    MultipleExact(k * q, interval);
    assert k * width == (k * q) * interval;
  }

  lemma NextMultiple(t: nat, end: nat, interval: nat)
    requires 0 < interval && t % interval == 0 && end % interval == 0 && t < end
    ensures t + interval <= end
  {
    var (a, b) := (t / interval, end / interval);
    assert t == a * interval && end == b * interval;
    TimesMonotone(b, a, interval);
    TimesMonotone(a + 1, b, interval);
  }

  lemma MonthEndOnGrid(t: nat, interval: nat)
    requires 0 < interval && DAY % interval == 0
    ensures BucketEnd(BucketStart(t, Month), Month) % interval == 0
  {
    hide FirstDay, Midnight;
    MultipleOf(FirstDay(MonthOf(BucketStart(t, Month) / DAY) + 1), DAY, interval);
  }

  lemma WeekEndOnGrid(t: nat, interval: nat)
    requires 0 < interval && DAY % interval == 0
    ensures BucketEnd(BucketStart(t, Week), Week) % interval == 0
  {
    MultipleOf(WeekStart(t / DAY) + 7, DAY, interval);
  }

  lemma DayEndOnGrid(t: nat, interval: nat)
    requires 0 < interval && DAY % interval == 0
    ensures BucketEnd(BucketStart(t, Day), Day) % interval == 0
  {
    hide Midnight;
    MidnightDays(t);
    MultipleOf(t / DAY + 1, DAY, interval);
  }

  lemma MinuteEndOnGrid(t: nat, tf: Timeframe, interval: nat)
    requires 0 < interval && !tf.Month? && !tf.Week? && !tf.Day? && Available(tf, interval)
    ensures BucketEnd(BucketStart(t, tf), tf) % interval == 0
  {
    hide Midnight;
    var k := Floored(t, tf);
    MultipleOf(k + 1, FixedMinutes(tf) * MINUTE, interval);
  }

  lemma EndOnGrid(t: nat, tf: Timeframe, interval: nat)
    requires 0 < interval && DAY % interval == 0 && Available(tf, interval)
    ensures BucketEnd(BucketStart(t, tf), tf) % interval == 0
  {
    match tf
    case Month => MonthEndOnGrid(t, interval);
    case Week => WeekEndOnGrid(t, interval);
    case Day => DayEndOnGrid(t, interval);
    case _ => MinuteEndOnGrid(t, tf, interval);
  }

  /** A grid bar never reaches past the candle it opens in. */
  lemma GridFits(t: nat, tf: Timeframe, interval: nat)
    requires 0 < interval && OnGrid(t, interval) && Available(tf, interval)
    ensures t + interval <= BucketEnd(BucketStart(t, tf), tf)
  {
    hide BucketStart, BucketEnd;
    BucketInterval(t, t, tf);
    EndOnGrid(t, tf, interval);
    NextMultiple(t, BucketEnd(BucketStart(t, tf), tf), interval);
  }

  // ---------------------------------------------------------------- how long candles are

  /** A month, week, day, 4-hour, hour, quarter-hour or 3-minute candle is as long as its name says; all but the
      month start on a multiple of their length from midnight, or from Monday. */
  lemma BucketLength(t: nat, tf: Timeframe)
    ensures var (start, hour) := (BucketStart(t, tf), 60 * 60 * 1_000_000);
            match tf
            case Month => start == FirstDay(MonthOf(t / (24 * hour))) * (24 * hour)
            case Week => BucketEnd(start, tf) == start + 7 * 24 * hour && start % (7 * 24 * hour) == 0
            case Day => BucketEnd(start, tf) == start + 24 * hour && start % (24 * hour) == 0
            case H4 => BucketEnd(start, tf) == start + 4 * hour && start % (4 * hour) == 0
            case H1 => BucketEnd(start, tf) == start + hour && start % hour == 0
            case M15 => BucketEnd(start, tf) == start + hour / 4 && start % (hour / 4) == 0
            case M3 => BucketEnd(start, tf) == start + hour / 20 && start % (hour / 20) == 0
  {
    hide Midnight;
    match tf
    case Month =>
    case Week => MultipleExact(WeekStart(t / DAY) / 7, 7 * DAY);
    case Day =>
      MidnightDays(t);
      MultipleExact(t / DAY, DAY);
    case _ =>
      var k := Floored(t, tf);
      MultipleExact(k, FixedMinutes(tf) * MINUTE);
  }

  /** Thirty days have April, June, September and November; February has 28, or 29 in a leap year. */
  lemma NextMonths(y: nat, month: nat)
    requires month < 12
    ensures FirstDay(12 * y + month + 1) == FirstDay(12 * y + month) +
            [31, if IsLeap(y + 1) then 29 else 28, 31, 30, 31, 30, 31, 31, 30, 31, 30, 31][month]
  {
    var m := 12 * y + month;
    assert m % 12 == month && m / 12 == y;
    assert FirstDay(m + 1) == FirstDay(m) + DaysInMonth(m);
  }

  /** The months of a year begin where the calendar says. */
  lemma MonthsOfYear(y: nat)
    ensures var (first, feb) := (FirstDay(12 * y), if IsLeap(y + 1) then 29 else 28);
            FirstDay(12 * y + 1) == first + 31 && FirstDay(12 * y + 2) == first + 31 + feb &&
            FirstDay(12 * y + 3) == first + 62 + feb && FirstDay(12 * y + 4) == first + 92 + feb &&
            FirstDay(12 * y + 5) == first + 123 + feb && FirstDay(12 * y + 6) == first + 153 + feb &&
            FirstDay(12 * y + 7) == first + 184 + feb && FirstDay(12 * y + 8) == first + 215 + feb &&
            FirstDay(12 * y + 9) == first + 245 + feb && FirstDay(12 * y + 10) == first + 276 + feb &&
            FirstDay(12 * y + 11) == first + 306 + feb && FirstDay(12 * y + 12) == first + 337 + feb
  {
    hide FirstDay, DaysInMonth, IsLeap;
    NextMonths(y, 0);
    NextMonths(y, 1);
    NextMonths(y, 2);
    NextMonths(y, 3);
    NextMonths(y, 4);
    NextMonths(y, 5);
    NextMonths(y, 6);
    NextMonths(y, 7);
    NextMonths(y, 8);
    NextMonths(y, 9);
    NextMonths(y, 10);
    NextMonths(y, 11);
  }

  /** Twelve months from January of year `y` + 1 are that year: 365 days, or 366 in a leap year. */
  lemma YearLength(y: nat)
    ensures FirstDay(12 * y + 12) == FirstDay(12 * y) + if IsLeap(y + 1) then 366 else 365
  {
    MonthsOfYear(y);
    assert FirstDay(12 * y + 12) == FirstDay(12 * y + 6) + 31 + 31 + 30 + 31 + 30 + 31;
  }

  lemma QuotientIs(x: nat, q: nat, r: nat, d: nat)
    requires 0 < d && r < d && x == q * d + r
    ensures x / d == q
  {
    SameMultiple(x / d, q, d, x);
  }

  lemma CountMultiples(y: nat, d: nat)
    requires 0 < y && 0 < d
    ensures y / d == (y - 1) / d + if y % d == 0 then 1 else 0
  {
    var (q, r) := (y / d, y % d);
    assert y == q * d + r;
    if r == 0 {
      assert q == 0 ==> y == 0;
      assert y - 1 == (q - 1) * d + (d - 1);
      QuotientIs(y - 1, q - 1, d - 1, d);
    } else {
      QuotientIs(y - 1, q, r - 1, d);
    }
  }

  /** How many of the first `y` years are multiples of `d`. */
  function Multiples(y: nat, d: nat): nat
    requires 0 < d
  {
    y / d
  }

  predicate Divides(d: nat, y: nat)
    requires 0 < d
  {
    y % d == 0
  }

  lemma MoreMultiples(y: nat, d: nat)
    requires 0 < y && 0 < d
    ensures Multiples(y, d) == Multiples(y - 1, d) + if Divides(d, y) then 1 else 0
  {
    CountMultiples(y, d);
  }

  lemma Hundredths(y: nat)
    ensures Divides(400, y) ==> Divides(100, y)
    ensures Divides(100, y) ==> Divides(4, y)
  {
    var (a, b) := (y / 400, y / 100);
    assert y == 100 * b + y % 100 && y == 400 * a + y % 400;
    assert Divides(400, y) ==> y == 100 * (4 * a);
    assert Divides(100, y) ==> y == 4 * (25 * b);
  }

  lemma LeapIs(y: nat)
    ensures IsLeap(y) <==> Divides(4, y) && (!Divides(100, y) || Divides(400, y))
  {
  }

  lemma LeapCount(y: nat)
    requires 0 < y
    ensures Multiples(y, 4) - Multiples(y, 100) + Multiples(y, 400) ==
            Multiples(y - 1, 4) - Multiples(y - 1, 100) + Multiples(y - 1, 400) + if IsLeap(y) then 1 else 0
  {
    hide Multiples, Divides, IsLeap;
    MoreMultiples(y, 4);
    MoreMultiples(y, 100);
    MoreMultiples(y, 400);
    Hundredths(y);
    LeapIs(y);
  }

  lemma NoYearYet()
    ensures FirstDay(0) == 0 && Multiples(0, 4) == Multiples(0, 100) == Multiples(0, 400) == 0
  {
  }

  lemma {:induction false} DaysBefore(y: nat)
    ensures FirstDay(12 * y) == 365 * y + Multiples(y, 4) - Multiples(y, 100) + Multiples(y, 400)
  {
    hide FirstDay, Multiples, IsLeap;
    if y == 0 {
      NoYearYet();
    } else {
      DaysBefore(y - 1);
      YearLength(y - 1);
      LeapCount(y);
    }
  }

  /** Year `y` + 1 of the Gregorian calendar begins after 365 days for every year before it and one more for
      every fourth, less every hundredth, plus every four-hundredth. */
  lemma YearStart(y: nat)
    ensures FirstDay(12 * y) == 365 * y + y / 4 - y / 100 + y / 400
  {
    hide FirstDay;
    DaysBefore(y);
  }
}

/** Timestamps are stored as text (`_iso`, src/mailtg_bridge/state.py:30-32) and compared as text by
    retention and by ORDER BY (src/mailtg_bridge/state.py:152, 158-165).  isoformat() leaves out the
    microseconds when they are zero, so the strings do not all have the same length; the comparison
    is right all the same. */
module IsoTime {

  /** A UTC date and time as datetime keeps it. */
  datatype Stamp = Stamp(year: nat, month: nat, day: nat, hour: nat, minute: nat, second: nat, micro: nat)

  predicate IsLeap(year: nat) { year % 4 == 0 && (year % 100 != 0 || year % 400 == 0) }

  function DaysInMonth(year: nat, month: nat): nat {
    if month == 2 then (if IsLeap(year) then 29 else 28)
    else if month in {4, 6, 9, 11} then 30 else 31
  }

  predicate Valid(t: Stamp) {
    && 1 <= t.year <= 9999 && 1 <= t.month <= 12 && 1 <= t.day <= DaysInMonth(t.year, t.month)
    && t.hour < 24 && t.minute < 60 && t.second < 60 && t.micro < 1_000_000
  }

  /** Days from 1 January of year 1 to the first of the month. */
  function DaysBefore(year: nat, month: nat): nat
    decreases year, month
  {
    if month > 1 then DaysBefore(year, month - 1) + DaysInMonth(year, month - 1)
    else if year > 1 then DaysBefore(year - 1, 12) + 31
    else 0
  }

  /** Microseconds since the beginning of year 1. */
  function Instant(t: Stamp): int {
    ((((DaysBefore(t.year, t.month) + t.day) * 24 + t.hour) * 60 + t.minute) * 60 + t.second) * 1_000_000 + t.micro
  }

  lemma {:induction false} MonthsAscend(y: nat, m: nat, y': nat, m': nat)
    requires 1 <= m <= 12 && 1 <= m' <= 12 && 1 <= y
    requires y < y' || (y == y' && m < m')
    ensures DaysBefore(y, m) + DaysInMonth(y, m) <= DaysBefore(y', m')
    decreases y', m'
  {
    if m' > 1 {
      if !(y == y' && m == m' - 1) { MonthsAscend(y, m, y', m' - 1); }
    } else {
      if !(y == y' - 1 && m == 12) { MonthsAscend(y, m, y' - 1, 12); }
    }
  }

  // ---------------------------------------------------------------- the text

  function Digit(n: nat): char
    requires n < 10
  {
    '0' + n as char
  }

  function Digits(n: nat, width: nat): string {
    if width == 0 then "" else Digits(n / 10, width - 1) + [Digit(n % 10)]
  }

  function Power10(width: nat): nat { if width == 0 then 1 else 10 * Power10(width - 1) }

  function Fraction(micro: nat): string {
    if micro == 0 then "+00:00" else "." + (Digits(micro, 6) + "+00:00")
  }

  function Iso(t: Stamp): string {
    Digits(t.year, 4) + ("-" + (Digits(t.month, 2) + ("-" + (Digits(t.day, 2) + ("T" + (Digits(t.hour, 2)
      + (":" + (Digits(t.minute, 2) + (":" + (Digits(t.second, 2) + Fraction(t.micro)))))))))))
  }

  /** How SQLite compares text: character by character, a prefix first. */
  predicate Less(a: string, b: string) {
    b != "" && (a == "" || a[0] < b[0] || (a[0] == b[0] && Less(a[1..], b[1..])))
  }

  lemma {:induction false} SameStart(c: char, x: string, y: string)
    ensures Less([c] + x, [c] + y) <==> Less(x, y)
  {}

  /** Decimals of one width compare as the numbers do, then as what follows. */
  lemma {:induction false} DigitsCompare(n: nat, m: nat, width: nat, x: string, y: string)
    requires n < Power10(width) && m < Power10(width)
    ensures Less(Digits(n, width) + x, Digits(m, width) + y) <==> n < m || (n == m && Less(x, y))
    decreases width
  {
    if width == 0 {
      assert "" + x == x && "" + y == y;
    } else {
      var x', y' := [Digit(n % 10)] + x, [Digit(m % 10)] + y;
      assert Digits(n, width) + x == Digits(n / 10, width - 1) + x';
      assert Digits(m, width) + y == Digits(m / 10, width - 1) + y';
      DigitsCompare(n / 10, m / 10, width - 1, x', y');
      assert x'[1..] == x && y'[1..] == y;
    }
  }

  lemma {:induction false} FractionsCompare(a: nat, b: nat)
    requires a < 1_000_000 && b < 1_000_000
    ensures Less(Fraction(a), Fraction(b)) <==> a < b
  {
    var x, y := Digits(a, 6) + "+00:00", Digits(b, 6) + "+00:00";
    if a > 0 && b > 0 {
      SameStart('.', x, y);
      PowersOfTen();
      DigitsCompare(a, b, 6, "+00:00", "+00:00");
      NotLess("+00:00");
    } else if a == 0 && b == 0 {
      NotLess("+00:00");
    }
  }

  lemma {:induction false} NotLess(s: string)
    ensures !Less(s, s)
  {
    if s != "" {
      NotLess(s[1..]);
    }
  }

  lemma {:induction false} PowersOfTen()
    ensures Power10(2) == 100 && Power10(4) == 10_000 && Power10(6) == 1_000_000
  {}

  /** Earlier field by field. */
  predicate Earlier(a: Stamp, b: Stamp) {
    a.year < b.year || (a.year == b.year &&
    (a.month < b.month || (a.month == b.month &&
    (a.day < b.day || (a.day == b.day &&
    (a.hour < b.hour || (a.hour == b.hour &&
    (a.minute < b.minute || (a.minute == b.minute &&
    (a.second < b.second || (a.second == b.second && a.micro < b.micro)))))))))))
  }

  lemma {:induction false} EarlierIsBefore(a: Stamp, b: Stamp)
    requires Valid(a) && Valid(b)
    ensures Earlier(a, b) <==> Instant(a) < Instant(b)
  {
    if a.year < b.year || (a.year == b.year && a.month < b.month) {
      MonthsAscend(a.year, a.month, b.year, b.month);
    } else if b.year < a.year || (b.year == a.year && b.month < a.month) {
      MonthsAscend(b.year, b.month, a.year, a.month);
    }
  }

  lemma {:induction false} TimeOfDayCompare(a: Stamp, b: Stamp)
    requires Valid(a) && Valid(b)
    ensures var rest := (t: Stamp) =>
              Digits(t.hour, 2) + (":" + (Digits(t.minute, 2) + (":" + (Digits(t.second, 2) + Fraction(t.micro)))));
            Less(rest(a), rest(b)) <==>
              (a.hour < b.hour || (a.hour == b.hour &&
              (a.minute < b.minute || (a.minute == b.minute &&
              (a.second < b.second || (a.second == b.second && a.micro < b.micro))))))
  {
    PowersOfTen();
    var a3, b3 := Digits(a.second, 2) + Fraction(a.micro), Digits(b.second, 2) + Fraction(b.micro);
    var a2, b2 := Digits(a.minute, 2) + (":" + a3), Digits(b.minute, 2) + (":" + b3);
    FractionsCompare(a.micro, b.micro);
    DigitsCompare(a.second, b.second, 2, Fraction(a.micro), Fraction(b.micro));
    SameStart(':', a3, b3);
    DigitsCompare(a.minute, b.minute, 2, ":" + a3, ":" + b3);
    SameStart(':', a2, b2);
    DigitsCompare(a.hour, b.hour, 2, ":" + a2, ":" + b2);
  }

  /** The text of one time sorts before the text of another exactly when it is the earlier instant. */
  lemma {:induction false} TextOrderIsTimeOrder(a: Stamp, b: Stamp)
    requires Valid(a) && Valid(b)
    ensures Less(Iso(a), Iso(b)) <==> Instant(a) < Instant(b)
  {
    PowersOfTen();
    EarlierIsBefore(a, b);
    TimeOfDayCompare(a, b);
    var rest := (t: Stamp) =>
      Digits(t.hour, 2) + (":" + (Digits(t.minute, 2) + (":" + (Digits(t.second, 2) + Fraction(t.micro)))));
    var a2, b2 := Digits(a.day, 2) + ("T" + rest(a)), Digits(b.day, 2) + ("T" + rest(b));
    var a1, b1 := Digits(a.month, 2) + ("-" + a2), Digits(b.month, 2) + ("-" + b2);
    SameStart('T', rest(a), rest(b));
    DigitsCompare(a.day, b.day, 2, "T" + rest(a), "T" + rest(b));
    SameStart('-', a2, b2);
    DigitsCompare(a.month, b.month, 2, "-" + a2, "-" + b2);
    SameStart('-', a1, b1);
    DigitsCompare(a.year, b.year, 4, "-" + a1, "-" + b1);
  }
}

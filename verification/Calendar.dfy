/**
 Conversion of Unix time to a Gregorian UTC timestamp (clock.rs), with the month lengths of section
 5.7 and the format of section 5.6 of RFC 3339.
 */
module Calendar {
  import opened Common

  const LAST_DAY: nat := 2_932_896
  const DAY_SECONDS: nat := 86_400

  predicate Leap(year: nat) {
    year % 4 == 0 && (year % 100 != 0 || year % 400 == 0)
  }

  function YearLength(year: nat): nat {
    if Leap(year) then 366 else 365
  }

  function MonthLength(year: nat, month: nat): nat
    requires 1 <= month <= 12
  {
    if month == 2 then (if Leap(year) then 29 else 28)
    else if month in {4, 6, 9, 11} then 30
    else 31
  }

  /** Days from 1970-01-01 to the first day of a year. */
  function YearStart(year: nat): nat
    requires year >= 1970
  {
    if year == 1970 then 0 else YearStart(year - 1) + YearLength(year - 1)
  }

  /** Days from the first day of the year to the first day of a month. */
  function MonthStart(year: nat, month: nat): nat
    requires 1 <= month <= 13
  {
    if month == 1 then 0 else MonthStart(year, month - 1) + MonthLength(year, month - 1)
  }

  datatype Date = Date(year: nat, month: nat, day: nat) {
    predicate Valid() {
      1970 <= year <= 9999 && 1 <= month <= 12 && 1 <= day <= MonthLength(year, month)
    }

    /** Days since 1970-01-01. */
    function Days(): nat
      requires Valid()
    {
      YearStart(year) + MonthStart(year, month) + (day - 1)
    }
  }

  lemma NextMonth(year: nat, month: nat)
    requires 1 <= month <= 12
    ensures MonthStart(year, month + 1) == MonthStart(year, month) + MonthLength(year, month)
  {
  }

  lemma MonthsMakeYear(year: nat)
    ensures MonthStart(year, 13) == YearLength(year)
  {
    hide MonthStart, Leap;
    assert MonthStart(year, 1) == 0 by { FirstMonth(year); }
    NextMonth(year, 1);
    NextMonth(year, 2);
    NextMonth(year, 3);
    NextMonth(year, 4);
    NextMonth(year, 5);
    NextMonth(year, 6);
    NextMonth(year, 7);
    NextMonth(year, 8);
    NextMonth(year, 9);
    NextMonth(year, 10);
    NextMonth(year, 11);
    NextMonth(year, 12);
  }

  lemma FirstMonth(year: nat)
    ensures MonthStart(year, 1) == 0
  {
  }

  lemma {:induction false} YearStartIncreases(a: nat, b: nat)
    requires 1970 <= a < b
    ensures YearStart(a) + YearLength(a) <= YearStart(b)
  {
    if a < b - 1 {
      YearStartIncreases(a, b - 1);
    }
  }

  lemma {:induction false} MonthStartIncreases(year: nat, a: nat, b: nat)
    requires 1 <= a < b <= 13
    ensures MonthStart(year, a) + MonthLength(year, a) <= MonthStart(year, b)
  {
    if a < b - 1 {
      MonthStartIncreases(year, a, b - 1);
    }
  }

  /** The leap years before `year`. */
  function LeapsBefore(year: nat): int
    requires year >= 1
  {
    (year - 1) / 4 - (year - 1) / 100 + (year - 1) / 400
  }

  lemma Quotient4(n: nat)
    requires n >= 1
    ensures n / 4 == (n - 1) / 4 + if n % 4 == 0 then 1 else 0
  {
  }

  lemma Quotient100(n: nat)
    requires n >= 1
    ensures n / 100 == (n - 1) / 100 + if n % 100 == 0 then 1 else 0
    ensures n % 100 == 0 ==> n % 4 == 0
  {
  }

  lemma Quotient400(n: nat)
    requires n >= 1
    ensures n / 400 == (n - 1) / 400 + if n % 400 == 0 then 1 else 0
    ensures n % 400 == 0 ==> n % 100 == 0
  {
  }

  lemma LeapCount(year: nat)
    requires year >= 1
    ensures LeapsBefore(year + 1) == LeapsBefore(year) + if Leap(year) then 1 else 0
  {
    Quotient4(year);
    Quotient100(year);
    Quotient400(year);
  }

  /** The first day of a year, without counting the years one by one. */
  lemma {:induction false} YearStartClosed(year: nat)
    requires year >= 1970
    ensures YearStart(year) == 365 * (year - 1970) + LeapsBefore(year) - LeapsBefore(1970)
  {
    if year > 1970 {
      YearStartClosed(year - 1);
      LeapCount(year - 1);
    }
  }

  /** The guard on the day count is the last day of the year 9999. */
  lemma GuardIsYear9999()
    ensures YearStart(10000) == LAST_DAY + 1
  {
    YearStartClosed(10000);
  }

  /** No two dates have the same day count. */
  lemma DaysAreOrdered(a: Date, b: Date)
    requires a.Valid() && b.Valid()
    ensures a.Days() < b.Days() <==>
            a.year < b.year || (a.year == b.year && (a.month < b.month || (a.month == b.month && a.day < b.day)))
  {
    hide YearStart, MonthStart, MonthLength, Leap;
    DaysWithinYear(a);
    DaysWithinYear(b);
    if a.year < b.year {
      YearStartIncreases(a.year, b.year);
    } else if b.year < a.year {
      YearStartIncreases(b.year, a.year);
    } else if a.month < b.month {
      MonthStartIncreases(a.year, a.month, b.month);
    } else if b.month < a.month {
      MonthStartIncreases(a.year, b.month, a.month);
    }
  }

  lemma DaysWithinYear(d: Date)
    requires d.Valid()
    ensures YearStart(d.year) <= d.Days() < YearStart(d.year) + YearLength(d.year)
    ensures MonthStart(d.year, d.month) + (d.day - 1) < YearLength(d.year)
  {
    hide YearStart, MonthStart;
    MonthsMakeYear(d.year);
    MonthStartIncreases(d.year, d.month, 13);
  }

  // ----- The conversion -----

  datatype ClockError = BeforeEpoch | OutOfRange

  datatype Snapshot = Snapshot(epochMs: nat, date: Date, second: nat, milli: nat) {
    predicate Valid() {
      date.Valid() && second < DAY_SECONDS && milli < 1000 && epochMs == 1000 * (DAY_SECONDS * date.Days() + second) + milli
    }
  }

  /**
   Converts a duration since the epoch. It refuses exactly the times after the year 9999, and
   otherwise yields the one valid date with the same day count.
   */
  method FromEpoch(seconds: nat, milli: nat) returns (r: Result<Snapshot, ClockError>)
    requires milli < 1000 && seconds < 0x1_0000_0000_0000_0000
    ensures r.Ok? <==> seconds / DAY_SECONDS <= LAST_DAY
    ensures r.Ok? ==>
              && r.value.Valid() && r.value.date.Days() == seconds / DAY_SECONDS
              && r.value.epochMs == 1000 * seconds + milli
  {
    var epochMs := 1000 * seconds + milli;
    if epochMs >= 0x1_0000_0000_0000_0000 {
      return Err(OutOfRange);
    }
    var days: nat := seconds / DAY_SECONDS;
    ghost var total := days;
    if days > LAST_DAY {
      return Err(OutOfRange);
    }
    hide YearStart, MonthStart, Leap;
    GuardIsYear9999();
    FirstYear();
    var year := 1970;
    while days >= YearLength(year)
      invariant year >= 1970 && total == YearStart(year) + days
      decreases days
    {
      NextYear(year);
      days := days - YearLength(year);
      year := year + 1;
    }
    if year > 9999 {
      LateYear(year);
      assert false; // so the second refusal of the source is never reached
    }
    MonthsMakeYear(year);
    FirstMonth(year);
    ghost var inYear := days;
    var month := 1;
    while days >= MonthLength(year, month)
      invariant 1 <= month <= 12 && inYear == MonthStart(year, month) + days
      decreases 12 - month
    {
      NextMonth(year, month);
      assert month < 12;
      days := days - MonthLength(year, month);
      month := month + 1;
    }
    r := Ok(Snapshot(epochMs, Date(year, month, days + 1), seconds % DAY_SECONDS, milli));
  }

  lemma FirstYear()
    ensures YearStart(1970) == 0
  {
  }

  lemma NextYear(year: nat)
    requires year >= 1970
    ensures YearStart(year + 1) == YearStart(year) + YearLength(year)
  {
  }

  lemma LateYear(year: nat)
    requires year >= 10000
    ensures YearStart(year) >= YearStart(10000)
  {
    if year > 10000 {
      YearStartIncreases(10000, year);
    }
  }

  // ----- The timestamp -----

  const WIDTHS: seq<nat> := [4, 2, 2, 2, 2, 2, 3]
  const MARKS: seq<char> := ['-', '-', 'T', ':', ':', '.', 'Z']

  function Pow10(n: nat): nat {
    if n == 0 then 1 else 10 * Pow10(n - 1)
  }

  function Digit(d: nat): char
    requires d < 10
  {
    ['0', '1', '2', '3', '4', '5', '6', '7', '8', '9'][d]
  }

  /** The last `width` decimal digits of a number. */
  function Pad(n: nat, width: nat): string {
    if width == 0 then "" else Pad(n / 10, width - 1) + [Digit(n % 10)]
  }

  function Fields(s: Snapshot): seq<nat> {
    [s.date.year, s.date.month, s.date.day, s.second / 3600, s.second / 60 % 60, s.second % 60, s.milli]
  }

  function TextFrom(fields: seq<nat>, i: nat): string
    requires |fields| == 7 && i <= 7
    decreases 7 - i
  {
    if i == 7 then "" else Pad(fields[i], WIDTHS[i]) + ([MARKS[i]] + TextFrom(fields, i + 1))
  }

  /** Year, month, day, hour, minute, second and millisecond, each at its full width. */
  function Stamp(s: Snapshot): string {
    TextFrom(Fields(s), 0)
  }

  /** Lexicographic order of two texts of one length. */
  predicate Before(a: string, b: string) {
    a != [] && b != [] && (a[0] < b[0] || (a[0] == b[0] && Before(a[1..], b[1..])))
  }

  lemma {:induction false} BeforePrefix(a: string, b: string, c: string, d: string)
    requires |a| == |b| && Before(a, b)
    ensures Before(a + c, b + d)
  {
    if a[0] == b[0] {
      BeforePrefix(a[1..], b[1..], c, d);
      assert (a + c)[1..] == a[1..] + c && (b + d)[1..] == b[1..] + d;
    }
  }

  lemma {:induction false} BeforeSuffix(a: string, c: string, d: string)
    ensures Before(a + c, a + d) <==> Before(c, d)
  {
    if a == [] {
      assert a + c == c && a + d == d;
    } else {
      BeforeSuffix(a[1..], c, d);
      assert (a + c)[1..] == a[1..] + c && (a + d)[1..] == a[1..] + d;
    }
  }

  lemma {:induction false} BeforeIsStrict(a: string, b: string)
    ensures Before(a, b) ==> !Before(b, a) && a != b
  {
    if a != [] && b != [] {
      BeforeIsStrict(a[1..], b[1..]);
    }
  }

  lemma {:induction false} PadOrder(m: nat, n: nat, width: nat)
    requires m < n < Pow10(width)
    ensures |Pad(m, width)| == |Pad(n, width)| == width
    ensures Before(Pad(m, width), Pad(n, width))
  {
    PadLength(m, width);
    PadLength(n, width);
    var p, q := Pad(m / 10, width - 1), Pad(n / 10, width - 1);
    PadLength(m / 10, width - 1);
    PadLength(n / 10, width - 1);
    if m / 10 < n / 10 {
      PadOrder(m / 10, n / 10, width - 1);
      BeforePrefix(p, q, [Digit(m % 10)], [Digit(n % 10)]);
    } else {
      assert m / 10 == n / 10;
      assert Before([Digit(m % 10)], [Digit(n % 10)]);
      BeforeSuffix(p, [Digit(m % 10)], [Digit(n % 10)]);
    }
  }

  lemma {:induction false} PadLength(n: nat, width: nat)
    ensures |Pad(n, width)| == width
  {
    if width > 0 {
      PadLength(n / 10, width - 1);
    }
  }

  predicate FieldsBefore(f: seq<nat>, g: seq<nat>, i: nat)
    requires |f| == 7 == |g| && i <= 7
    decreases 7 - i
  {
    i < 7 && (f[i] < g[i] || (f[i] == g[i] && FieldsBefore(f, g, i + 1)))
  }

  predicate Fit(f: seq<nat>) {
    |f| == 7 && forall i | 0 <= i < 7 :: f[i] < Pow10(WIDTHS[i])
  }

  lemma {:induction false} TextOrder(f: seq<nat>, g: seq<nat>, i: nat)
    requires Fit(f) && Fit(g) && i <= 7 && FieldsBefore(f, g, i)
    ensures Before(TextFrom(f, i), TextFrom(g, i))
    decreases 7 - i
  {
    hide Pow10, Pad, Before;
    var width, mark := WIDTHS[i], [MARKS[i]];
    var p, q, c, d := Pad(f[i], width), Pad(g[i], width), mark + TextFrom(f, i + 1), mark + TextFrom(g, i + 1);
    if f[i] < g[i] {
      PadOrder(f[i], g[i], width);
      BeforePrefix(p, q, c, d);
    } else {
      TextOrder(f, g, i + 1);
      BeforeSuffix(mark, TextFrom(f, i + 1), TextFrom(g, i + 1));
      BeforeSuffix(p, c, d);
    }
  }

  lemma FieldsFit(s: Snapshot)
    requires s.Valid()
    ensures Fit(Fields(s))
  {
    assert Pow10(2) == 100 && Pow10(3) == 1000 && Pow10(4) == 10000;
  }

  /** The order of the moments is the order of the fields. */
  lemma FieldsOrder(a: Snapshot, b: Snapshot)
    requires a.Valid() && b.Valid() && a.epochMs < b.epochMs
    ensures FieldsBefore(Fields(a), Fields(b), 0)
  {
    hide Date.Days, MonthLength;
    DaysAreOrdered(a.date, b.date);
    DaysAreOrdered(b.date, a.date);
    var f, g := Fields(a), Fields(b);
    if a.date.Days() < b.date.Days() {
      assert FieldsBefore(f, g, 0);
    } else {
      assert a.date == b.date;
      assert a.second < b.second || (a.second == b.second && a.milli < b.milli);
      if a.second < b.second {
        ClockOrder(a.second, b.second);
      }
      assert FieldsBefore(f, g, 3);
    }
  }

  lemma ClockOrder(s: nat, t: nat)
    requires s < t
    ensures s / 3600 < t / 3600 || (s / 3600 == t / 3600 && (s / 60 % 60 < t / 60 % 60 || (s / 60 % 60 == t / 60 % 60 && s % 60 < t % 60)))
  {
  }

  /** Timestamps sort as text exactly as their moments do. */
  lemma LaterSortsLater(a: Snapshot, b: Snapshot)
    requires a.Valid() && b.Valid()
    ensures a.epochMs < b.epochMs <==> Before(Stamp(a), Stamp(b))
    ensures a.epochMs == b.epochMs ==> a == b
  {
    FieldsFit(a);
    FieldsFit(b);
    if a.epochMs < b.epochMs {
      FieldsOrder(a, b);
      TextOrder(Fields(a), Fields(b), 0);
    } else if b.epochMs < a.epochMs {
      FieldsOrder(b, a);
      TextOrder(Fields(b), Fields(a), 0);
      BeforeIsStrict(Stamp(b), Stamp(a));
    } else {
      SameMoment(a, b);
      BeforeIsStrict(Stamp(a), Stamp(a));
    }
  }

  lemma SameMoment(a: Snapshot, b: Snapshot)
    requires a.Valid() && b.Valid() && a.epochMs == b.epochMs
    ensures a == b
  {
    hide Date.Days, MonthLength;
    DaysAreOrdered(a.date, b.date);
    DaysAreOrdered(b.date, a.date);
  }

  // ----- Reading a timestamp -----

  /** The number that decimal digits stand for. */
  function ReadDigits(text: string): int {
    if text == "" then 0 else 10 * ReadDigits(text[..|text| - 1]) + (text[|text| - 1] as int - '0' as int)
  }

  lemma {:induction false} PadReadsBack(n: nat, width: nat)
    requires n < Pow10(width)
    ensures |Pad(n, width)| == width && ReadDigits(Pad(n, width)) == n
  {
    if width > 0 {
      PadReadsBack(n / 10, width - 1);
      var text := Pad(n, width);
      assert text[..|text| - 1] == Pad(n / 10, width - 1);
      assert text[|text| - 1] as int - '0' as int == n % 10;
    }
  }

  /** One field of a text, its mark, and what follows. */
  lemma FieldReadsBack(text: string, fields: seq<nat>, i: nat, from: nat)
    requires Fit(fields) && i < 7 && from <= |text| && text[from..] == TextFrom(fields, i)
    ensures var to := from + WIDTHS[i];
            && |text| == to + 1 + |TextFrom(fields, i + 1)|
            && ReadDigits(text[from..to]) == fields[i] && text[to] == MARKS[i] && text[to + 1..] == TextFrom(fields, i + 1)
  {
    hide Pow10, ReadDigits, Pad;
    var to, pad, rest := from + WIDTHS[i], Pad(fields[i], WIDTHS[i]), TextFrom(fields, i + 1);
    PadReadsBack(fields[i], WIDTHS[i]);
    assert text[from..] == pad + ([MARKS[i]] + rest);
    assert text[from..to] == text[from..][..WIDTHS[i]] == pad;
    assert text[to] == text[from..][WIDTHS[i]];
    assert text[to + 1..] == text[from..][WIDTHS[i] + 1..] == rest;
  }

  /** A timestamp has the marks of section 5.6 of RFC 3339 in their places, and its digits read back to the date and the time. */
  lemma StampReadsBack(s: Snapshot)
    requires s.Valid()
    ensures var t := Stamp(s);
            && |t| == 24
            && t[4] == '-' && t[7] == '-' && t[10] == 'T' && t[13] == ':' && t[16] == ':' && t[19] == '.' && t[23] == 'Z'
            && ReadDigits(t[0..4]) == s.date.year && ReadDigits(t[5..7]) == s.date.month && ReadDigits(t[8..10]) == s.date.day
            && 3600 * ReadDigits(t[11..13]) + 60 * ReadDigits(t[14..16]) + ReadDigits(t[17..19]) == s.second
            && ReadDigits(t[20..23]) == s.milli
  {
    hide Pow10, ReadDigits, Pad, Fit, Fields, TextFrom;
    var f, t := Fields(s), Stamp(s);
    FieldsFit(s);
    FieldsAre(s);
    assert t[0..] == TextFrom(f, 0);
    FieldReadsBack(t, f, 0, 0);
    FieldReadsBack(t, f, 1, 5);
    FieldReadsBack(t, f, 2, 8);
    FieldReadsBack(t, f, 3, 11);
    FieldReadsBack(t, f, 4, 14);
    FieldReadsBack(t, f, 5, 17);
    FieldReadsBack(t, f, 6, 20);
    NoMoreText(f);
  }

  lemma NoMoreText(fields: seq<nat>)
    requires |fields| == 7
    ensures TextFrom(fields, 7) == ""
  {
  }

  lemma FieldsAre(s: Snapshot)
    requires s.Valid()
    ensures var f := Fields(s);
            |f| == 7 && Date(f[0], f[1], f[2]) == s.date && 3600 * f[3] + 60 * f[4] + f[5] == s.second && f[6] == s.milli
  {
  }

  /** Months in closed form: 30 and 31 days in turn, but for February. */
  lemma MonthStartClosed(year: nat, month: nat)
    requires 1 <= month <= 13
    ensures MonthStart(year, month) == (367 * month - 362) / 12 - (if month <= 2 then 0 else if Leap(year) then 1 else 2)
  {
    hide Leap;
    if month > 1 {
      MonthStartClosed(year, month - 1);
    }
  }
}

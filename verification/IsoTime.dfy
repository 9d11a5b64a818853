/**
 datetime.now(UTC).isoformat(): the texts by which the queues order rows and date leases.
 A zero microsecond part is left out of the text, so the texts differ in length.
 */
module IsoTime {
  import opened Basics
  import opened Text
  import opened ExportQueue

  datatype Stamp = Stamp(year: nat, month: nat, day: nat, hour: nat, minute: nat, second: nat, micro: nat)

  predicate Leap(y: nat) {
    y % 4 == 0 && (y % 100 != 0 || y % 400 == 0)
  }

  function LeapDay(y: nat): nat {
    if Leap(y) then 1 else 0
  }

  function DaysInMonth(y: nat, m: nat): nat {
    if m == 2 then 28 + LeapDay(y)
    else if m == 4 || m == 6 || m == 9 || m == 11 then 30
    else 31
  }

  predicate Valid(t: Stamp) {
    && 1 <= t.year <= 9999 && 1 <= t.month <= 12 && 1 <= t.day <= DaysInMonth(t.year, t.month)
    && t.hour < 24 && t.minute < 60 && t.second < 60 && t.micro < 1_000_000
  }

  // ----- Real time: microseconds on the proleptic Gregorian calendar -----

  function DaysBeforeYear(y: nat): nat
    requires y >= 1
  {
    (y - 1) * 365 + (y - 1) / 4 - (y - 1) / 100 + (y - 1) / 400
  }

  function DaysBeforeMonth(y: nat, m: nat): nat
    requires 1 <= m <= 13
  {
    if m == 1 then 0 else DaysBeforeMonth(y, m - 1) + DaysInMonth(y, m - 1)
  }

  function Ordinal(t: Stamp): nat
    requires Valid(t)
  {
    DaysBeforeYear(t.year) + DaysBeforeMonth(t.year, t.month) + t.day
  }

  function Micros(t: Stamp): nat
    requires Valid(t)
  {
    (((Ordinal(t) * 24 + t.hour) * 60 + t.minute) * 60 + t.second) * 1_000_000 + t.micro
  }

  lemma OneMoreFourth(y: nat)
    requires y >= 1
    ensures y / 4 == (y - 1) / 4 + if y % 4 == 0 then 1 else 0
  {
  }

  lemma OneMoreCentury(y: nat)
    requires y >= 1
    ensures y / 100 == (y - 1) / 100 + if y % 100 == 0 then 1 else 0
  {
  }

  lemma OneMoreCycle(y: nat)
    requires y >= 1
    ensures y / 400 == (y - 1) / 400 + if y % 400 == 0 then 1 else 0
  {
  }

  lemma NoRemainder(a: int, b: int, m: int)
    requires 100 * a == 4 * b + m && 0 <= m < 4
    ensures m == 0
  {
    assert m == 4 * (25 * a - b);
  }

  lemma CenturiesAreFourths(y: nat)
    ensures y % 100 == 0 ==> y % 4 == 0
  {
    if y % 100 == 0 { NoRemainder(y / 100, y / 4, y % 4); }
  }

  lemma NoCenturyRemainder(a: int, b: int, m: int)
    requires 400 * a == 100 * b + m && 0 <= m < 100
    ensures m == 0
  {
    assert m == 100 * (4 * a - b);
  }

  lemma CyclesAreCenturies(y: nat)
    ensures y % 400 == 0 ==> y % 100 == 0
  {
    if y % 400 == 0 { NoCenturyRemainder(y / 400, y / 100, y % 100); }
  }

  lemma LeapDayCounts(y: nat)
    ensures LeapDay(y) == (if y % 4 == 0 then 1 else 0) - (if y % 100 == 0 then 1 else 0)
                        + if y % 400 == 0 then 1 else 0
  {
    CenturiesAreFourths(y);
    CyclesAreCenturies(y);
  }

  lemma YearLength(y: nat)
    requires y >= 1
    ensures DaysBeforeYear(y + 1) == DaysBeforeYear(y) + 365 + LeapDay(y)
  {
    OneMoreFourth(y);
    OneMoreCentury(y);
    OneMoreCycle(y);
    LeapDayCounts(y);
  }

  lemma {:induction false} YearsAreOrdered(y: nat, z: nat)
    requires 1 <= y < z
    ensures DaysBeforeYear(y) + 365 + LeapDay(y) <= DaysBeforeYear(z)
  {
    YearLength(z - 1);
    if y < z - 1 { YearsAreOrdered(y, z - 1); }
  }

  lemma {:induction false} MonthsAreOrdered(y: nat, m: nat, n: nat)
    requires 1 <= m < n <= 13
    ensures DaysBeforeMonth(y, m) + DaysInMonth(y, m) <= DaysBeforeMonth(y, n)
  {
    if m < n - 1 { MonthsAreOrdered(y, m, n - 1); }
  }

  lemma YearHas365DaysOrOneMore(y: nat)
    ensures DaysBeforeMonth(y, 13) == 365 + LeapDay(y)
  {
    assert DaysBeforeMonth(y, 2) == 31;
    assert DaysBeforeMonth(y, 3) == 59 + LeapDay(y);
    assert DaysBeforeMonth(y, 5) == 120 + LeapDay(y);
    assert DaysBeforeMonth(y, 7) == 181 + LeapDay(y);
    assert DaysBeforeMonth(y, 9) == 243 + LeapDay(y);
    assert DaysBeforeMonth(y, 11) == 304 + LeapDay(y);
  }

  predicate DateLess(a: Stamp, b: Stamp) {
    || a.year < b.year
    || (a.year == b.year && (a.month < b.month || (a.month == b.month && a.day < b.day)))
  }

  predicate ClockLess(a: Stamp, b: Stamp) {
    || a.hour < b.hour
    || (a.hour == b.hour
        && (|| a.minute < b.minute
            || (a.minute == b.minute
                && (a.second < b.second || (a.second == b.second && a.micro < b.micro)))))
  }

  predicate SameDate(a: Stamp, b: Stamp) {
    a.year == b.year && a.month == b.month && a.day == b.day
  }

  predicate CivilLess(a: Stamp, b: Stamp) {
    DateLess(a, b) || (SameDate(a, b) && ClockLess(a, b))
  }

  lemma DatesAreOrdered(a: Stamp, b: Stamp)
    requires Valid(a) && Valid(b) && DateLess(a, b)
    ensures Ordinal(a) < Ordinal(b)
  {
    if a.year < b.year {
      YearsAreOrdered(a.year, b.year);
      YearHas365DaysOrOneMore(a.year);
      MonthsAreOrdered(a.year, a.month, 13);
    } else if a.month < b.month {
      MonthsAreOrdered(a.year, a.month, b.month);
    }
  }

  /** Field by field comparison is comparison of instants. */
  lemma CivilOrderIsChronological(a: Stamp, b: Stamp)
    requires Valid(a) && Valid(b)
    ensures CivilLess(a, b) <==> Micros(a) < Micros(b)
  {
    if DateLess(a, b) { DatesAreOrdered(a, b); }
    if DateLess(b, a) { DatesAreOrdered(b, a); }
  }

  // ----- The text -----

  function Digit(d: nat): char
    requires d < 10
  {
    ('0' as int + d) as char
  }

  function Digits(n: nat, width: nat): string {
    if width == 0 then "" else Digits(n / 10, width - 1) + [Digit(n % 10)]
  }

  function Power10(k: nat): nat {
    if k == 0 then 1 else 10 * Power10(k - 1)
  }

  function FractionText(micro: nat): string {
    (if micro == 0 then "" else "." + Digits(micro, 6)) + "+00:00"
  }

  function TimeText(t: Stamp): string {
    Digits(t.hour, 2) + (":" + (Digits(t.minute, 2) + (":" + (Digits(t.second, 2) + FractionText(t.micro)))))
  }

  function IsoText(t: Stamp): string {
    Digits(t.year, 4) + ("-" + (Digits(t.month, 2) + ("-" + (Digits(t.day, 2) + ("T" + TimeText(t))))))
  }

  /** Fixed-width decimals compare like numbers, and pass the decision on when they are equal. */
  lemma {:induction false} DigitsCompare(n: nat, m: nat, width: nat, s: string, t: string)
    requires n < Power10(width) && m < Power10(width)
    ensures LexLess(Digits(n, width) + s, Digits(m, width) + t) <==> n < m || (n == m && LexLess(s, t))
    decreases width
  {
    if width == 0 {
      assert "" + s == s && "" + t == t;
    } else {
      var x, y := [Digit(n % 10)] + s, [Digit(m % 10)] + t;
      assert Digits(n, width) + s == Digits(n / 10, width - 1) + x;
      assert Digits(m, width) + t == Digits(m / 10, width - 1) + y;
      DigitsCompare(n / 10, m / 10, width - 1, x, y);
      assert x[1..] == s && y[1..] == t;
    }
  }

  lemma SeparatorCompare(c: char, s: string, t: string)
    ensures LexLess([c] + s, [c] + t) <==> LexLess(s, t)
  {
  }

  /** Without microseconds the text goes on with '+', which sorts before '.'. */
  lemma FractionCompare(a: nat, b: nat)
    requires a < 1_000_000 && b < 1_000_000
    ensures LexLess(FractionText(a), FractionText(b)) <==> a < b
  {
    assert Power10(3) == 1000;
    assert Power10(6) == 1_000_000;
    LexIrreflexive("+00:00");
    if a > 0 && b > 0 {
      var s, t := Digits(a, 6) + "+00:00", Digits(b, 6) + "+00:00";
      assert FractionText(a) == "." + s && FractionText(b) == "." + t;
      SeparatorCompare('.', s, t);
      DigitsCompare(a, b, 6, "+00:00", "+00:00");
    } else if a == 0 && b == 0 {
      assert FractionText(a) == "+00:00" == FractionText(b);
    } else {
      assert FractionText(a)[0] == if a == 0 then '+' else '.';
      assert FractionText(b)[0] == if b == 0 then '+' else '.';
    }
  }

  lemma TimeCompare(a: Stamp, b: Stamp)
    requires Valid(a) && Valid(b)
    ensures LexLess(TimeText(a), TimeText(b)) <==> ClockLess(a, b)
  {
    var s, t := FractionText(a.micro), FractionText(b.micro);
    FractionCompare(a.micro, b.micro);
    var s1, t1 := Digits(a.second, 2) + s, Digits(b.second, 2) + t;
    DigitsCompare(a.second, b.second, 2, s, t);
    SeparatorCompare(':', s1, t1);
    var s2, t2 := Digits(a.minute, 2) + (":" + s1), Digits(b.minute, 2) + (":" + t1);
    DigitsCompare(a.minute, b.minute, 2, ":" + s1, ":" + t1);
    SeparatorCompare(':', s2, t2);
    DigitsCompare(a.hour, b.hour, 2, ":" + s2, ":" + t2);
  }

  lemma IsoCompare(a: Stamp, b: Stamp)
    requires Valid(a) && Valid(b)
    ensures LexLess(IsoText(a), IsoText(b)) <==> CivilLess(a, b)
  {
    var s, t := TimeText(a), TimeText(b);
    TimeCompare(a, b);
    SeparatorCompare('T', s, t);
    var s1, t1 := Digits(a.day, 2) + ("T" + s), Digits(b.day, 2) + ("T" + t);
    DigitsCompare(a.day, b.day, 2, "T" + s, "T" + t);
    SeparatorCompare('-', s1, t1);
    var s2, t2 := Digits(a.month, 2) + ("-" + s1), Digits(b.month, 2) + ("-" + t1);
    DigitsCompare(a.month, b.month, 2, "-" + s1, "-" + t1);
    SeparatorCompare('-', s2, t2);
    assert Power10(4) == 10_000;
    DigitsCompare(a.year, b.year, 4, "-" + s2, "-" + t2);
  }

  /** String time is real time. */
  lemma TextOrderIsChronological(a: Stamp, b: Stamp)
    requires Valid(a) && Valid(b)
    ensures LexLess(IsoText(a), IsoText(b)) <==> Micros(a) < Micros(b)
    ensures IsoText(a) == IsoText(b) <==> Micros(a) == Micros(b)
    ensures Micros(a) == Micros(b) <==> a == b
  {
    IsoCompare(a, b);
    IsoCompare(b, a);
    LexTrichotomy(IsoText(a), IsoText(b));
    CivilOrderIsChronological(a, b);
    CivilOrderIsChronological(b, a);
  }

  lemma {:induction false} DigitsLength(n: nat, width: nat)
    ensures |Digits(n, width)| == width
  {
    if width > 0 { DigitsLength(n / 10, width - 1); }
  }

  /** A number, a separator and the rest of the text. */
  lemma Joint(digits: string, c: char, rest: string)
    ensures var s := digits + ([c] + rest);
            && |s| == |digits| + 1 + |rest| && s[|digits|] == c
            && forall i | 0 <= i < |rest| :: s[|digits| + 1 + i] == rest[i]
  {
  }

  predicate HasOffset(s: string) { |s| >= 6 && s[|s| - 6..] == "+00:00" }

  lemma JointKeepsOffset(digits: string, c: char, rest: string)
    requires HasOffset(rest)
    ensures HasOffset(digits + ([c] + rest))
  {
    var s := digits + ([c] + rest);
    assert s[|s| - 6..] == rest[|rest| - 6..];
  }

  lemma EndsIn(front: string, end: string)
    ensures (front + end)[|front|..] == end && |front + end| == |front| + |end|
    ensures front != "" ==> (front + end)[0] == front[0]
  {
  }

  lemma FractionForm(micro: nat)
    ensures var s := FractionText(micro);
            && |s| == (if micro == 0 then 6 else 13) && s[0] == (if micro == 0 then '+' else '.') && HasOffset(s)
  {
    DigitsLength(micro, 6);
    var front := if micro == 0 then "" else "." + Digits(micro, 6);
    EndsIn(front, "+00:00");
    assert FractionText(micro) == front + "+00:00";
    assert |front| == if micro == 0 then 0 else 7;
  }

  lemma TimeForm(t: Stamp)
    ensures var s := TimeText(t);
            && |s| == (if t.micro == 0 then 14 else 21)
            && s[2] == ':' && s[5] == ':' && s[8] == (if t.micro == 0 then '+' else '.') && HasOffset(s)
  {
    var fraction := FractionText(t.micro);
    FractionForm(t.micro);
    DigitsLength(t.hour, 2);
    DigitsLength(t.minute, 2);
    DigitsLength(t.second, 2);
    var seconds := Digits(t.second, 2) + fraction;
    assert HasOffset(seconds) by { assert seconds[|seconds| - 6..] == fraction[|fraction| - 6..]; }
    Joint(Digits(t.minute, 2), ':', seconds);
    JointKeepsOffset(Digits(t.minute, 2), ':', seconds);
    var minutes := Digits(t.minute, 2) + (":" + seconds);
    Joint(Digits(t.hour, 2), ':', minutes);
    JointKeepsOffset(Digits(t.hour, 2), ':', minutes);
  }

  lemma DayForm(t: Stamp)
    ensures var s := Digits(t.day, 2) + ("T" + TimeText(t));
            && |s| == (if t.micro == 0 then 17 else 24)
            && s[2] == 'T' && s[5] == ':' && s[8] == ':' && s[11] == (if t.micro == 0 then '+' else '.') && HasOffset(s)
  {
    TimeForm(t);
    DigitsLength(t.day, 2);
    Joint(Digits(t.day, 2), 'T', TimeText(t));
    JointKeepsOffset(Digits(t.day, 2), 'T', TimeText(t));
  }

  lemma MonthForm(t: Stamp)
    ensures var s := Digits(t.month, 2) + ("-" + (Digits(t.day, 2) + ("T" + TimeText(t))));
            && |s| == (if t.micro == 0 then 20 else 27)
            && s[2] == '-' && s[5] == 'T' && s[8] == ':' && s[11] == ':'
            && s[14] == (if t.micro == 0 then '+' else '.') && HasOffset(s)
  {
    var days := Digits(t.day, 2) + ("T" + TimeText(t));
    DayForm(t);
    DigitsLength(t.month, 2);
    Joint(Digits(t.month, 2), '-', days);
    JointKeepsOffset(Digits(t.month, 2), '-', days);
  }

  /** Where the separators stand, how long the text is, and what ends it. */
  lemma TextForm(t: Stamp)
    ensures var s := IsoText(t);
            && |s| == (if t.micro == 0 then 25 else 32)
            && s[4] == '-' && s[7] == '-' && s[10] == 'T' && s[13] == ':' && s[16] == ':'
            && s[19] == (if t.micro == 0 then '+' else '.')
            && s[|s| - 6..] == "+00:00"
  {
    var months := Digits(t.month, 2) + ("-" + (Digits(t.day, 2) + ("T" + TimeText(t))));
    MonthForm(t);
    DigitsLength(t.year, 4);
    Joint(Digits(t.year, 4), '-', months);
    JointKeepsOffset(Digits(t.year, 4), '-', months);
  }

  // ----- What that means for the queue -----

  /** last_attempt_at < stale_before on the stored texts is the lease test on instants. */
  lemma LeaseTestOnText<E>(row: Row<E>, last: Stamp, staleBefore: Stamp)
    requires Valid(last) && Valid(staleBefore) && row.lastAttempt == Some(Micros(last))
    ensures Stale(row, Micros(staleBefore))
       <==> row.status.Processing? && LexLess(IsoText(last), IsoText(staleBefore))
  {
    TextOrderIsChronological(last, staleBefore);
  }

  /** Sorting by the stored creation text and id gives the order of the line. */
  lemma LineOrderOnText<E>(q: Queue<E>, i: nat, j: nat, a: Stamp, b: Stamp)
    requires i < |q| && j < |q| && Valid(a) && Valid(b)
    requires q[i].createdAt == Micros(a) && q[j].createdAt == Micros(b)
    ensures Before(q, i, j) <==> LexLess(IsoText(a), IsoText(b)) || (IsoText(a) == IsoText(b) && i < j)
  {
    TextOrderIsChronological(a, b);
  }
}

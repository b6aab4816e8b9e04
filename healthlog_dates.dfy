/** Calendar arithmetic of the health-log page: `addDays` and
    `monthStartEndOf`, which read a `YYYY-MM-DD` string through
    `split('-').map(Number)` and `Date.UTC`, and print the result back with
    zero-padded month and day. Dates are those of the proleptic Gregorian
    calendar that JavaScript's `Date` uses. */
module HealthLogDates {
  import opened Outcome
  import opened Text

  datatype Date = Date(year: int, month: int, day: int)

  /** The Gregorian leap rule. */
  predicate IsLeap(y: int) {
    y % 4 == 0 && (y % 100 != 0 || y % 400 == 0)
  }

  function DaysInMonth(y: int, m: int): (n: int)
    ensures 28 <= n <= 31
    ensures m == 2 ==> (n == 29 <==> IsLeap(y)) && (n == 28 <==> !IsLeap(y))
    ensures m != 2 ==> n >= 30
  {
    if m == 2 then (if IsLeap(y) then 29 else 28)
    else if m == 4 || m == 6 || m == 9 || m == 11 then 30
    else 31
  }

  predicate ValidDate(dt: Date) {
    1 <= dt.month <= 12 && 1 <= dt.day <= DaysInMonth(dt.year, dt.month)
  }

  /** The following day. */
  function Next(dt: Date): (r: Date)
    requires ValidDate(dt)
    ensures ValidDate(r)
  {
    if dt.day < DaysInMonth(dt.year, dt.month) then Date(dt.year, dt.month, dt.day + 1)
    else if dt.month < 12 then Date(dt.year, dt.month + 1, 1)
    else Date(dt.year + 1, 1, 1)
  }

  /** The preceding day. */
  function Prev(dt: Date): (r: Date)
    requires ValidDate(dt)
    ensures ValidDate(r)
  {
    if dt.day > 1 then Date(dt.year, dt.month, dt.day - 1)
    else if dt.month > 1 then Date(dt.year, dt.month - 1, DaysInMonth(dt.year, dt.month - 1))
    else Date(dt.year - 1, 12, 31)
  }

  /** Stepping a day forward and a day back are inverse. */
  lemma PrevNext(dt: Date)
    requires ValidDate(dt)
    ensures Prev(Next(dt)) == dt && Next(Prev(dt)) == dt
  {
  }

  /** The date `n` days after `dt` (before it when `n` is negative). */
  function AddDays(dt: Date, n: int): (r: Date)
    requires ValidDate(dt)
    ensures ValidDate(r)
    decreases if n >= 0 then n else -n
  {
    if n == 0 then dt
    else if n > 0 then AddDays(Next(dt), n - 1)
    else AddDays(Prev(dt), n + 1)
  }

  lemma ShiftNext(dt: Date, k: int)
    requires ValidDate(dt)
    ensures AddDays(Next(dt), k) == AddDays(dt, k + 1)
  {
    if k < 0 {
      PrevNext(dt);
    }
  }

  lemma ShiftPrev(dt: Date, k: int)
    requires ValidDate(dt)
    ensures AddDays(Prev(dt), k) == AddDays(dt, k - 1)
  {
    if k > 0 {
      PrevNext(dt);
    }
  }

  /** Adding `a` days and then `b` days is adding `a + b` days. */
  lemma {:induction false} AddDaysCompose(dt: Date, a: int, b: int)
    requires ValidDate(dt)
    ensures AddDays(AddDays(dt, a), b) == AddDays(dt, a + b)
    decreases if a >= 0 then a else -a
  {
    if a > 0 {
      AddDaysCompose(Next(dt), a - 1, b);
      ShiftNext(dt, a - 1 + b);
    } else if a < 0 {
      AddDaysCompose(Prev(dt), a + 1, b);
      ShiftPrev(dt, a + 1 + b);
    }
  }

  /** Day `d` of a month is `d - 1` days after its first. */
  lemma {:induction false} FirstOfMonthPlus(y: int, m: int, d: int)
    requires 1 <= m <= 12 && 1 <= d <= DaysInMonth(y, m)
    ensures AddDays(Date(y, m, 1), d - 1) == Date(y, m, d)
  {
    if d > 1 {
      FirstOfMonthPlus(y, m, d - 1);
      AddDaysCompose(Date(y, m, 1), d - 2, 1);
    }
  }

  /** `Number(part)` for a part of the split string: a string of decimal digits
      (the empty one reads as 0) gives its value, anything else NaN (`None`). */
  function NumberOf(s: string): (r: Option<nat>)
    ensures AllDigits(s) ==> r == Some(ParseNat(s))
    ensures !AllDigits(s) ==> r == None
  {
    if AllDigits(s) then Some(ParseNat(s)) else None
  }

  /** The `i`-th element of the mapped parts as a number; a missing one is
      `undefined`, which is NaN to `Date.UTC` (but see `PaddedPart` for how it prints). */
  function PartAt(parts: seq<string>, i: nat): Option<nat> {
    if i < |parts| then NumberOf(parts[i]) else None
  }

  /** `Date.UTC` reads a year of 0 to 99 as 1900 to 1999. */
  function FullYear(y: int): (r: int)
    ensures 0 <= y <= 99 ==> r == 1900 + y
    ensures !(0 <= y <= 99) ==> r == y
  {
    if 0 <= y <= 99 then 1900 + y else y
  }

  /** `Date.UTC(y, monthIndex, day)` as a calendar date: the month index is
      carried into the year, then the day counts from the first of that month. */
  function UtcDate(y: int, monthIndex: int, day: int): (r: Date)
    ensures ValidDate(r)
  {
    AddDays(Date(FullYear(y) + monthIndex / 12, monthIndex % 12 + 1, 1), day - 1)
  }

  /** The date `addDays` builds from its input, `None` when it is NaN. */
  function ParseDate(s: string): Option<Date> {
    var parts := SplitOn(s, '-');
    match (PartAt(parts, 0), PartAt(parts, 1), PartAt(parts, 2))
    case (Some(y), Some(m), Some(d)) => Some(UtcDate(y, m as int - 1, d))
    case _ => None
  }

  /** `${yy}-${mm}-${dd}` with month and day padded to two digits. */
  function Format(dt: Date): (s: string)
    requires ValidDate(dt)
    ensures 1000 <= dt.year <= 9999 ==> |s| == 10 && s[4] == '-' && s[7] == '-'
  {
    IntToString(dt.year) + "-" + Pad2(dt.month) + "-" + Pad2(dt.day)
  }

  /** `addDays(yyyyMmDd, delta)`; a NaN date prints as `NaN-NaN-NaN`. */
  function AddDaysStr(s: string, delta: int): string {
    match ParseDate(s)
    case None => "NaN-NaN-NaN"
    case Some(dt) => Format(AddDays(dt, delta))
  }

  /** The parts of a formatted date with a non-negative year. */
  lemma {:induction false} SplitFormat(dt: Date)
    requires ValidDate(dt) && dt.year >= 0
    ensures SplitOn(Format(dt), '-') == [NatToString(dt.year), Pad2(dt.month), Pad2(dt.day)]
  {
    var ys, ms, ds := NatToString(dt.year), Pad2(dt.month), Pad2(dt.day);
    assert Format(dt) == ys + ['-'] + (ms + ['-'] + ds);
    SplitOnJoin(ys, '-', ms + ['-'] + ds);
    SplitOnJoin(ms, '-', ds);
    SplitOnWithoutSep(ds, '-');
  }

  /** Reading back a printed date (with a year of at least 100, which
      `Date.UTC` takes literally) gives the date itself. */
  lemma ParseFormat(dt: Date)
    requires ValidDate(dt) && dt.year >= 100
    ensures ParseDate(Format(dt)) == Some(dt)
  {
    SplitFormat(dt);
    ParseNatToString(dt.year);
    ParsePad2(dt.month);
    ParsePad2(dt.day);
    FirstOfMonthPlus(dt.year, dt.month, dt.day);
  }

  /** `addDays(s, 0)` gives `s` back for a printed date. */
  lemma AddDaysStrZero(dt: Date)
    requires ValidDate(dt) && dt.year >= 100
    ensures AddDaysStr(Format(dt), 0) == Format(dt)
  {
    ParseFormat(dt);
  }

  /** `addDays(addDays(s, a), b) == addDays(s, a + b)` for a printed date,
      as long as the intermediate date keeps a year of at least 100. */
  lemma AddDaysStrCompose(dt: Date, a: int, b: int)
    requires ValidDate(dt) && dt.year >= 100 && AddDays(dt, a).year >= 100
    ensures AddDaysStr(AddDaysStr(Format(dt), a), b) == AddDaysStr(Format(dt), a + b)
  {
    ParseFormat(dt);
    ParseFormat(AddDays(dt, a));
    AddDaysCompose(dt, a, b);
  }

  /** `String(n)` of a number that may be NaN. */
  function NumText(n: Option<nat>): string {
    if n.None? then "NaN" else NatToString(n.value)
  }

  /** `String(n).padStart(2, '0')` of a number that may be NaN. */
  function PadText(n: Option<nat>): string {
    if n.None? then "NaN" else Pad2(n.value)
  }

  /** `String(parts.map(Number)[i]).padStart(2, '0')`: a missing part is
      `undefined`, which prints as the word itself (already longer than two). */
  function PaddedPart(parts: seq<string>, i: nat): string {
    if i < |parts| then PadText(NumberOf(parts[i])) else "undefined"
  }

  /** `new Date(Date.UTC(y, m, 0)).getUTCDate()`: day 0 of month index `m`,
      which is the last day of the month numbered `m`. */
  function LastDayOf(y: Option<nat>, m: Option<nat>): Option<nat> {
    if y.None? || m.None? then None else Some(UtcDate(y.value, m.value, 0).day)
  }

  /** `monthStartEndOf(dateStr)`: the first and the last day of the month of
      `dateStr`, printed from the year and month as read. */
  function MonthStartEndOf(s: string): (string, string) {
    var parts := SplitOn(s, '-');
    var y := PartAt(parts, 0);
    var m := PartAt(parts, 1);
    (NumText(y) + "-" + PaddedPart(parts, 1) + "-01", NumText(y) + "-" + PaddedPart(parts, 1) + "-" + PadText(LastDayOf(y, m)))
  }

  /** A date string without a `-` has no month: the month prints as
      `undefined` and the last day, from `Date.UTC(y, undefined, 0)`, as NaN. */
  lemma MissingMonthPrintsUndefined(s: string)
    requires '-' !in s
    ensures MonthStartEndOf(s) == (NumText(NumberOf(s)) + "-undefined-01", NumText(NumberOf(s)) + "-undefined-NaN")
  {
    SplitOnWithoutSep(s, '-');
    var parts := SplitOn(s, '-');
    var y := NumText(NumberOf(s));
    assert PartAt(parts, 0) == NumberOf(s) && PartAt(parts, 1) == None;
    assert PaddedPart(parts, 1) == "undefined";
    assert y + "-" + "undefined" + "-01" == y + "-undefined-01";
    assert y + "-" + "undefined" + "-" + "NaN" == y + "-undefined-NaN";
  }

  /** Day 0 of the month after month `m` is the last day of month `m`. */
  lemma MonthEnd(y: nat, m: int)
    requires 1 <= m <= 12
    ensures UtcDate(y, m, 0) == Date(FullYear(y), m, DaysInMonth(FullYear(y), m))
  {
    var first := Date(FullYear(y) + m / 12, m % 12 + 1, 1);
    assert AddDays(first, -1) == Prev(first);
  }

  /** The month window of a printed date: from its first to its last day, the
      last day being the month's length (28 to 31, by the leap rule). */
  lemma MonthStartEndOfFormat(dt: Date)
    requires ValidDate(dt) && dt.year >= 100
    ensures ValidDate(Date(dt.year, dt.month, 1))
    ensures ValidDate(Date(dt.year, dt.month, DaysInMonth(dt.year, dt.month)))
    ensures MonthStartEndOf(Format(dt))
         == (Format(Date(dt.year, dt.month, 1)), Format(Date(dt.year, dt.month, DaysInMonth(dt.year, dt.month))))
  {
    SplitFormat(dt);
    ParseNatToString(dt.year);
    ParsePad2(dt.month);
    MonthEnd(dt.year, dt.month);
    assert NatToString(1) == "1";
    assert Pad2(1) == "01";
    var parts := SplitOn(Format(dt), '-');
    assert PartAt(parts, 0) == Some(dt.year);
    assert PartAt(parts, 1) == Some(dt.month);
    assert LastDayOf(Some(dt.year), Some(dt.month)) == Some(DaysInMonth(dt.year, dt.month));
    var prefix := NatToString(dt.year) + "-" + Pad2(dt.month);
    assert MonthStartEndOf(Format(dt)).0 == prefix + "-01";
    assert Format(Date(dt.year, dt.month, 1)) == prefix + "-" + "01";
    assert prefix + "-" + "01" == prefix + "-01";
    assert Format(Date(dt.year, dt.month, DaysInMonth(dt.year, dt.month)))
        == prefix + "-" + Pad2(DaysInMonth(dt.year, dt.month));
    assert MonthStartEndOf(Format(dt)).1 == prefix + "-" + Pad2(DaysInMonth(dt.year, dt.month));
  }
}

/**
 * The weekly window in Japan Standard Time: Monday 00:00 JST up to (not
 * including) the next Monday 00:00 JST. Instants are epoch milliseconds
 * (UTC); a "JST" value is the same clock reading shifted by +540 minutes, so
 * that its UTC calendar fields read as JST wall-clock fields.
 *
 * Durations are written as literals in milliseconds: 86_400_000 is one day
 * (`DAY_MS`), 604_800_000 one week, 32_400_000 the +540-minute JST offset.
 *
 * The calendar steps (`setHours(0, 0, 0, 0)`, `getDay()`) are modelled as a
 * browser whose own zone is UTC computes them; `GetWeekRangeOnHost` models
 * them for a browser in any fixed zone.
 */
module WeekWindow {


  function ToJst(t: int): int
  {
    t + 32_400_000
  }

  function FromJst(j: int): int
  {
    j - 32_400_000
  }

  lemma JstRoundTrip(t: int)
    ensures FromJst(ToJst(t)) == t && ToJst(FromJst(t)) == t
  {
  }

  /** `getDay()` on a UTC host: 0 is Sunday; epoch day 0 was a Thursday. */
  function WeekDay(t: int): (d: int)
    ensures 0 <= d < 7
  {
    (t / 86_400_000 + 4) % 7
  }

  /** `getDay()` advances by one each day, and 1970-01-01 (instant 0) was a Thursday. */
  lemma WeekDayMeaning(t: int)
    ensures WeekDay(t + 86_400_000) == (WeekDay(t) + 1) % 7
    ensures WeekDay(0) == 4
  {
    assert (t + 86_400_000) / 86_400_000 == t / 86_400_000 + 1;
  }

  /** `setHours(0, 0, 0, 0)` on a UTC host: the start of the day holding `t`. */
  function StartOfDay(t: int): (d: int)
    ensures d % 86_400_000 == 0 && d <= t < d + 86_400_000
  {
    t - t % 86_400_000
  }

  datatype WeekRange = WeekRange(startJst: int, endJst: int, startUtc: int, endUtc: int)

  /** The UTC instant falls on a Monday at 00:00:00.000 JST. */
  predicate IsMondayMidnight(utc: int)
  {
    ToJst(utc) % 86_400_000 == 0 && WeekDay(ToJst(utc)) == 1
  }

  /** The week (Monday 00:00 JST onwards) holding `anchor`. */
  function GetWeekRangeJst(anchor: int): (w: WeekRange)
    ensures w.startUtc <= anchor < w.endUtc
    ensures w.endUtc - w.startUtc == 604_800_000
    ensures IsMondayMidnight(w.startUtc)
    ensures w.startJst == ToJst(w.startUtc) && w.endJst == ToJst(w.endUtc)
  {
    var j := ToJst(anchor);
    var j0 := StartOfDay(j);
    var day := WeekDay(j0);
    var diffToMonday := (day + 6) % 7;
    var startJ := j0 - diffToMonday * 86_400_000;
    var endJ := startJ + 604_800_000;
    BackToMonday(j0);
    WeekRange(startJ, endJ, FromJst(startJ), FromJst(endJ))
  }

  /** Stepping back whole days from a midnight lands on the midnight that many days earlier. */
  lemma DaysBack(j0: int, d: int)
    requires j0 % 86_400_000 == 0
    ensures (j0 - d * 86_400_000) % 86_400_000 == 0
    ensures (j0 - d * 86_400_000) / 86_400_000 == j0 / 86_400_000 - d
  {
    var k := j0 / 86_400_000;
    assert j0 == k * 86_400_000;
    assert j0 - d * 86_400_000 == (k - d) * 86_400_000;
  }

  /** From a midnight, stepping back `(getDay() + 6) % 7` days reaches the Monday midnight. */
  lemma BackToMonday(j0: int)
    requires j0 % 86_400_000 == 0
    ensures var m := j0 - (WeekDay(j0) + 6) % 7 * 86_400_000;
      m % 86_400_000 == 0 && WeekDay(m) == 1
  {
    DaysBack(j0, (WeekDay(j0) + 6) % 7);
  }

  /** The week shown after paging `weekOffset` weeks away from `now`. */
  function WeekAt(now: int, weekOffset: int): (w: WeekRange)
    ensures w.startUtc <= now + weekOffset * 604_800_000 < w.endUtc
    ensures IsMondayMidnight(w.startUtc)
  {
    GetWeekRangeJst(now + weekOffset * 604_800_000)
  }

  /** Every Monday midnight lies a whole number of weeks after 1970-01-05 00:00 JST. */
  lemma MondayMidnightPhase(utc: int)
    requires IsMondayMidnight(utc)
    ensures ToJst(utc) % 604_800_000 == 4 * 86_400_000
  {
    var l := ToJst(utc);
    var k := l / 86_400_000;
    assert l == 86_400_000 * k;
    assert k % 7 == 4;
    var m := k / 7;
    assert k == 7 * m + 4;
    assert l == 604_800_000 * m + 345_600_000;
  }

  /** A Monday midnight whose week holds `anchor` is the start that GetWeekRangeJst finds. */
  lemma WeekStartUnique(s: int, anchor: int)
    requires IsMondayMidnight(s) && s <= anchor < s + 604_800_000
    ensures GetWeekRangeJst(anchor).startUtc == s
  {
    var t := GetWeekRangeJst(anchor).startUtc;
    MondayMidnightPhase(s);
    MondayMidnightPhase(t);
    var p, q := ToJst(s) / 604_800_000, ToJst(t) / 604_800_000;
    assert ToJst(s) == p * 604_800_000 + 4 * 86_400_000;
    assert ToJst(t) == q * 604_800_000 + 4 * 86_400_000;
    assert -604_800_000 < (p - q) * 604_800_000 < 604_800_000;
  }

  /** Any anchor inside a week yields that same week. */
  lemma WeekStable(anchor: int, other: int)
    requires GetWeekRangeJst(anchor).startUtc <= other < GetWeekRangeJst(anchor).endUtc
    ensures GetWeekRangeJst(other) == GetWeekRangeJst(anchor)
  {
    WeekStartUnique(GetWeekRangeJst(anchor).startUtc, other);
  }

  /** Moving the anchor by exactly one week moves the window by one week. */
  lemma ShiftByWeek(anchor: int)
    ensures GetWeekRangeJst(anchor + 604_800_000).startUtc == GetWeekRangeJst(anchor).endUtc
  {
    var w := GetWeekRangeJst(anchor);
    var e := w.endUtc;
    assert ToJst(e) == ToJst(w.startUtc) + 604_800_000;
    assert ToJst(e) / 86_400_000 == ToJst(w.startUtc) / 86_400_000 + 7;
    assert IsMondayMidnight(e);
    WeekStartUnique(e, anchor + 604_800_000);
  }

  /** Consecutive pages are contiguous: week n ends where week n + 1 starts. */
  lemma WeeksContiguous(now: int, n: int)
    ensures WeekAt(now, n).endUtc == WeekAt(now, n + 1).startUtc
  {
    assert now + (n + 1) * 604_800_000 == (now + n * 604_800_000) + 604_800_000;
    ShiftByWeek(now + n * 604_800_000);
  }

  /** Pages never overlap: an earlier page ends no later than a later page starts. */
  lemma {:induction false} WeeksDisjoint(now: int, n: int, m: int)
    requires n < m
    ensures WeekAt(now, n).endUtc <= WeekAt(now, m).startUtc
    decreases m - n
  {
    WeeksContiguous(now, n);
    if n + 1 < m {
      WeeksDisjoint(now, n + 1, m);
    }
  }

  /**
   * The clock is read again on every change of page. Shown at Sunday 23:59 JST
   * (2024-06-16T14:59Z), the current week ends at 2024-06-16T15:00Z. "Next"
   * clicked at Monday 00:01 JST starts a week later than that end, skipping
   * the week in between; "previous" clicked then shows the week already shown.
   */
  lemma ClockReadAgain()
    ensures WeekAt(1718549940000, 0).endUtc == 1718550000000
    ensures WeekAt(1718550060000, 1).startUtc == 1718550000000 + 604_800_000
    ensures WeekAt(1718550060000, -1) == WeekAt(1718549940000, 0)
  {
    WeekStartUnique(1717945200000, 1718549940000);
    WeekStartUnique(1719154800000, 1718550060000 + 604_800_000);
    WeekStartUnique(1717945200000, 1718550060000 - 604_800_000);
  }

  /** 2024-06-12T03:00Z (Wednesday 12:00 JST) lies in [2024-06-09T15:00Z, 2024-06-16T15:00Z). */
  lemma ExampleWednesdayNoon()
    ensures GetWeekRangeJst(1718161200000) ==
      WeekRange(1717977600000, 1718582400000, 1717945200000, 1718550000000)
  {
  }

  // ---------------------------------------------------------------------
  // The calendar steps as a browser in an arbitrary fixed zone runs them.

  /** `setHours(0, 0, 0, 0)` on a host whose zone is `hostOffsetMs` ahead of UTC. */
  function HostStartOfDay(t: int, hostOffsetMs: int): (d: int)
    ensures (d + hostOffsetMs) % 86_400_000 == 0 && d <= t < d + 86_400_000
  {
    t - (t + hostOffsetMs) % 86_400_000
  }

  /** `getDay()` on a host whose zone is `hostOffsetMs` ahead of UTC. */
  function HostWeekDay(t: int, hostOffsetMs: int): (d: int)
    ensures 0 <= d < 7
  {
    WeekDay(t + hostOffsetMs)
  }

  /** The week computation exactly as written, on a host in zone `hostOffsetMs`. */
  function GetWeekRangeOnHost(anchor: int, hostOffsetMs: int): (w: WeekRange)
    ensures w.startUtc <= anchor < w.endUtc
    ensures w.endUtc - w.startUtc == 604_800_000
    ensures w.startJst == ToJst(w.startUtc) && w.endJst == ToJst(w.endUtc)
  {
    var j := ToJst(anchor);
    var j0 := HostStartOfDay(j, hostOffsetMs);
    var day := HostWeekDay(j0, hostOffsetMs);
    var diffToMonday := (day + 6) % 7;
    var startJ := j0 - diffToMonday * 86_400_000;
    var endJ := startJ + 604_800_000;
    WeekRange(startJ, endJ, FromJst(startJ), FromJst(endJ))
  }

  /** On a UTC host the code as written computes the fixed-offset week. */
  lemma UtcHostAgrees(anchor: int)
    ensures GetWeekRangeOnHost(anchor, 0) == GetWeekRangeJst(anchor)
  {
  }

  /**
   * On a host in JST itself the shift is applied twice: every window starts
   * at 15:00 JST instead of midnight.
   */
  lemma JstHostStartsAtThreePm(anchor: int)
    ensures ToJst(GetWeekRangeOnHost(anchor, 32_400_000).startUtc) % 86_400_000 == 54_000_000 // 15:00
    ensures WeekDay(ToJst(GetWeekRangeOnHost(anchor, 32_400_000).startUtc)) == 0 // Sunday
    ensures !IsMondayMidnight(GetWeekRangeOnHost(anchor, 32_400_000).startUtc)
  {
    var local0 := HostStartOfDay(ToJst(anchor), 32_400_000) + 32_400_000;
    BackToMonday(local0);
    NineHoursBeforeMonday(local0 - (WeekDay(local0) + 6) % 7 * 86_400_000);
  }

  /** Nine hours before a Monday midnight is Sunday 15:00. */
  lemma NineHoursBeforeMonday(m: int)
    requires m % 86_400_000 == 0 && WeekDay(m) == 1
    ensures (m - 32_400_000) % 86_400_000 == 54_000_000
    ensures WeekDay(m - 32_400_000) == 0
  {
    assert (m - 32_400_000) / 86_400_000 == m / 86_400_000 - 1;
  }

  /** For the Wednesday-noon example a JST host starts the week on Sunday 15:00 JST. */
  lemma JstHostExample()
    ensures GetWeekRangeOnHost(1718161200000, 32_400_000).startUtc == 1717912800000
    ensures GetWeekRangeJst(1718161200000).startUtc == 1717945200000
  {
    var j := ToJst(1718161200000);
    assert j == 1718193600000;
    var j0 := HostStartOfDay(j, 32_400_000);
    assert j0 == 1718118000000;
    assert HostWeekDay(j0, 32_400_000) == 3;
    ExampleWednesdayNoon();
  }
}

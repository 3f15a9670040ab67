/**
 * The dashboard's composition of the engine: the week shown for the paging
 * offset, the report of the rows fetched for it, and the progress of each
 * category against the goals.
 */
module Dashboard {
  import opened Sessions
  import opened WeekWindow
  import opened Aggregation
  import opened ReportFacts
  import opened Goals

  datatype View = View(week: WeekRange, report: Report, progress: PerCategory<Progress>)

  /** The fetch filter on `started_at`: `gte(start)` and `lt(end)`. */
  predicate Fetched(r: Session, w: WeekRange)
  {
    w.startUtc <= r.startedAt < w.endUtc
  }

  /** One render: window for the offset, aggregation of the rows, progress per category. */
  method BuildView(now: int, weekOffset: int, rows: seq<Session>, goals: Goals) returns (v: View)
    ensures v.week == WeekAt(now, weekOffset)
    ensures v.report == ReportOf(rows, v.week.startJst)
    ensures v.progress == ProgressAll(v.report.minutesBySkill, goals)
  {
    var week := WeekAt(now, weekOffset);
    var report := Aggregate(rows, week.startJst);
    v := View(week, report, ProgressAll(report.minutesBySkill, goals));
  }

  /** The fetch filter and the bucket range agree: a row is fetched exactly when it gets a bucket. */
  lemma FetchedIffBucketed(r: Session, anchor: int)
    ensures var w := GetWeekRangeJst(anchor);
      Fetched(r, w) <==> 0 <= DayIndex(r.startedAt, w.startJst) < 7
  {
    DayIndexInRange(r.startedAt, GetWeekRangeJst(anchor).startJst);
  }

  /** For a computed week the fetch filter admits exactly the rows that start inside the week. */
  lemma FetchedIsInWeek(r: Session, anchor: int)
    ensures var w := GetWeekRangeJst(anchor);
      Fetched(r, w) <==> InWeek(r.startedAt, w.startJst)
  {
  }

  /** A row starting exactly at the window's end is neither fetched nor bucketed. */
  lemma EndIsExcluded(r: Session, anchor: int)
    requires r.startedAt == GetWeekRangeJst(anchor).endUtc
    ensures var w := GetWeekRangeJst(anchor);
      !Fetched(r, w) && DayIndex(r.startedAt, w.startJst) == 7
  {
  }

  /** For rows the fetch returned, the seven buckets add up to the total. */
  lemma FetchedRowsFillBuckets(now: int, weekOffset: int, rows: seq<Session>)
    requires forall k :: 0 <= k < |rows| ==> Fetched(rows[k], WeekAt(now, weekOffset))
    ensures DaySum(rows, WeekAt(now, weekOffset).startJst, 7) == TotalSeconds(rows)
  {
    var w := WeekAt(now, weekOffset);
    assert forall k :: 0 <= k < |rows| ==> InWeek(rows[k].startedAt, w.startJst);
    DaysWithinTotal(rows, w.startJst);
  }
}

# Weekly reporting engine of the study-stopwatch teacher dashboard

This project models the logic behind the teacher dashboard of a study-session stopwatch
application (`src/app/dashboard/page.tsx`). It covers four pieces, and it proves what
each of them promises.

- **Week window** (module `WeekWindow`). An instant, in epoch milliseconds, is shifted
  by the fixed Japan Standard Time offset of +540 minutes. It is truncated to the local
  midnight and stepped back to Monday with `(getDay() + 6) % 7`. The result is the
  half-open week `[start, start + 7 days)`, converted back to UTC. Paging between weeks
  moves the anchor by `weekOffset * 7` days.
- **Aggregation** (module `Aggregation`). One pass over the fetched session rows builds
  the running total, the per-skill map and seven day buckets. A row's bucket is
  `floor((toJst(started_at) - startJst) / DAY_MS)`, and only indices 0..6 are kept.
  Then map/filter passes build three things:
  - the skill pie, in canonical skill order, with entries that round to zero dropped;
  - the seven daily bars;
  - the whole-minute record per skill and for the total.
- **Goals and progress** (module `Goals`). Stored goals are merged field by field over
  the defaults (reading 120, listening 120, speaking 60, writing 60, vocab 60,
  total 360). Missing text or text that fails to parse keeps the defaults. Progress is
  "no goal" for a goal of zero or less. Otherwise it is
  `clamp(0, 100, round(now / goal * 100))`.
- **Report properties** (modules `ReportFacts` and `ReportExamples`). Lemmas relate
  the maps the pass builds to per-skill and per-day sums defined independently, and
  state what the pie and the bars show; two concrete reports are worked out.
- **Composition** (module `Dashboard`). One render takes the week for the paging
  offset, aggregates the rows fetched for it, and evaluates each category's progress.

Module `Sessions` holds the shared types:
- the closed skill enumeration and its canonical order;
- the session row;
- the six-field record used both for goals and for minutes per skill.

Modelling choices:
- **Time and durations.** Instants are integer epoch milliseconds. Durations are whole
  seconds.
- **Accumulated minutes.** The source adds up `seconds / 60` as floating-point minutes.
  The model adds up the seconds themselves, so each accumulated value is sixty times
  the exact minute value that the source's floating-point sum approximates.
- **Rounding.** `Math.round(minutes * 10)` is the integer `(seconds + 3) / 6`.
  `Math.round(minutes)` is `(seconds + 30) / 60`. Two lemmas prove these equal the
  half-up real rounding the source writes.
- **Goals.** Goal numbers are exact reals.
- **Host time zone.** `setHours(0, 0, 0, 0)` and `getDay()` depend on the browser's
  time zone. The main model computes them as a browser set to UTC does; that is the
  fixed-offset behaviour the code is written for. `WeekWindow.GetWeekRangeOnHost`
  models the same code on a browser in any fixed zone (see Findings).
- **Rows outside the window.** The code drops a row outside the window only from the
  day buckets; the total and the skill map count every row they are given. So the day
  buckets add up to the total only when every row starts inside the window, which the
  fetch filter guarantees (`ReportFacts.DaysWithinTotal`,
  `Dashboard.FetchedRowsFillBuckets`).
- **Durations.** The code does not check durations; here they are natural numbers.

## Model

| member | source | states |
|---|---|---|
| `Sessions.Rank` | src/app/dashboard/page.tsx:130-135 | each skill has a position below 5 in the canonical order reading, listening, speaking, writing, vocab, and that position holds exactly that skill |
| `WeekWindow.JstRoundTrip` | src/app/dashboard/page.tsx:15-20 | `fromJst(toJst(t)) == t` and `toJst(fromJst(t)) == t` |
| `WeekWindow.StartOfDay` | src/app/dashboard/page.tsx:24 | midnight truncation gives a multiple of one day, at most the input and less than a day before it |
| `WeekWindow.WeekDay` | src/app/dashboard/page.tsx:25 | the weekday index lies in 0..6 |
| `WeekWindow.WeekDayMeaning` | src/app/dashboard/page.tsx:25 | the weekday advances by one (mod 7) each day, and instant 0 (1970-01-01) is a Thursday, index 4 |
| `WeekWindow.DaysBack` | src/app/dashboard/page.tsx:27 | stepping back d whole days from a midnight gives a midnight whose day number is d smaller |
| `WeekWindow.BackToMonday` | src/app/dashboard/page.tsx:25-27 | from a midnight, stepping back `(getDay() + 6) % 7` days reaches a midnight whose weekday is Monday |
| `WeekWindow.GetWeekRangeJst` | src/app/dashboard/page.tsx:21-35 | the anchor lies in `[startUtc, endUtc)`; the window is exactly 7 days long; it starts on a Monday at 00:00 JST; the JST fields are the UTC fields shifted by +540 minutes |
| `WeekWindow.WeekAt` | src/app/dashboard/page.tsx:75-76 | the paged week holds `now + weekOffset * 7 days` and starts on a Monday at 00:00 JST |
| `WeekWindow.MondayMidnightPhase` | src/app/dashboard/page.tsx:25-27 | every Monday 00:00 JST is 4 days past a multiple of a week in JST-shifted time |
| `WeekWindow.WeekStartUnique` | src/app/dashboard/page.tsx:21-28 | a Monday midnight whose week holds the anchor is the start the computation returns, so the week start is unique |
| `WeekWindow.WeekStable` | src/app/dashboard/page.tsx:21-28 | any anchor inside a week yields that same week |
| `WeekWindow.ShiftByWeek` | src/app/dashboard/page.tsx:21-28 | moving the anchor by 7 days gives the window that starts where the old one ended |
| `WeekWindow.WeeksContiguous` | src/app/dashboard/page.tsx:75-76 | for one value of `now` and every offset n, week n ends exactly where week n + 1 starts |
| `WeekWindow.WeeksDisjoint` | src/app/dashboard/page.tsx:75-76 | for one value of `now` and n < m, week n ends no later than week m starts |
| `WeekWindow.ClockReadAgain` | src/app/dashboard/page.tsx:74-77 | with the clock read again on each click across Monday 00:00 JST, "next" starts one week after the shown week's end and "previous" returns the shown week |
| `WeekWindow.ExampleWednesdayNoon` | src/app/dashboard/page.tsx:21-35 | 2024-06-12T03:00Z gives the window 2024-06-09T15:00Z to 2024-06-16T15:00Z |
| `WeekWindow.HostStartOfDay` | src/app/dashboard/page.tsx:24 | on a browser in a fixed zone, `setHours(0, 0, 0, 0)` gives that zone's midnight, at most the input and less than a day before it |
| `WeekWindow.HostWeekDay` | src/app/dashboard/page.tsx:25 | on a browser in a fixed zone, the weekday index lies in 0..6 |
| `WeekWindow.GetWeekRangeOnHost` | src/app/dashboard/page.tsx:21-35 | the code as written on a browser in any fixed zone returns a window 7 days long that holds the anchor, with JST fields equal to the UTC fields shifted by +540 minutes |
| `WeekWindow.UtcHostAgrees` | src/app/dashboard/page.tsx:23-25 | on a UTC browser, the code as written computes the fixed-offset week |
| `WeekWindow.JstHostStartsAtThreePm` | src/app/dashboard/page.tsx:22-27 | on a JST browser, every window starts on a Sunday at 15:00 JST, never at a Monday midnight |
| `WeekWindow.NineHoursBeforeMonday` | src/app/dashboard/page.tsx:22-27 | nine hours before a Monday midnight is a Sunday at 15:00 |
| `WeekWindow.JstHostExample` | src/app/dashboard/page.tsx:22-27 | for 2024-06-12T03:00Z, a JST browser starts the week at 2024-06-09T06:00Z (Sunday 15:00 JST); the intended start is 2024-06-09T15:00Z |
| `Aggregation.Get` | src/app/dashboard/page.tsx:120 | `map.get(k) ?? 0`: the stored value when the key is present, 0 when it is absent |
| `Aggregation.Aggregate` | src/app/dashboard/page.tsx:110-163 | the loop's total, skill map and day map equal their row-by-row definitions; the report is built from them by the pie, bar and rounding passes |
| `Aggregation.DayIndex` | src/app/dashboard/page.tsx:122-124 | the bucket index is the floor of the elapsed JST time over one day: index days lie at or before the row's start, index + 1 days after it |
| `Aggregation.PieOver` | src/app/dashboard/page.tsx:130-139 | the pie has no more entries than skills offered; each entry is an offered skill with a positive rounded value equal to that skill's rounded total |
| `Aggregation.TenthsIsHalfUp` | src/app/dashboard/page.tsx:138-144 | the integer tenths equal `floor(seconds / 60 * 10 + 1/2)`, the source's `Math.round(minutes * 10)` |
| `Aggregation.RoundMinutesIsHalfUp` | src/app/dashboard/page.tsx:149-158 | the integer minutes equal `floor(seconds / 60 + 1/2)`, the source's `Math.round(minutes)` |
| `ReportFacts.SkillsOfLast` | src/app/dashboard/page.tsx:120 | the skills of the rows are those of all rows but the last, plus the last row's skill |
| `ReportFacts.SkillMapMeaning` | src/app/dashboard/page.tsx:117-120 | the skill map holds exactly the skills that occur in the rows, and reading it with a default of 0 gives each skill's accumulated seconds, present or not |
| `ReportFacts.DayMapMeaning` | src/app/dashboard/page.tsx:112-127 | the day map's keys are exactly 0..6, and bucket i holds the seconds of the rows whose day index is i |
| `ReportFacts.DayIndexInRange` | src/app/dashboard/page.tsx:122-125 | a row's bucket index is in 0..6 exactly when its start lies in the half-open week |
| `ReportFacts.AddRow` | src/app/dashboard/page.tsx:117-128 | a new row always adds to the total; a row inside the week lands in exactly one bucket, its day index; a row outside the week lands in none |
| `ReportFacts.ReportMinutes` | src/app/dashboard/page.tsx:148-158 | the headline total is the total seconds rounded to whole minutes and equals the record's total field; each skill's field is that skill's accumulated seconds rounded to whole minutes |
| `ReportFacts.MinutesBySkillFields` | src/app/dashboard/page.tsx:148-155 | each skill's field is the skill map's value for it (0 when absent) rounded to whole minutes; the total field is the rounded total |
| `ReportFacts.SkillSumIsTotal` | src/app/dashboard/page.tsx:115-120 | the running total equals the sum of the five per-skill accumulations |
| `ReportFacts.TotalIsSumOfSkills` | src/app/dashboard/page.tsx:115-120 | the running total equals the sum of the skill map's values |
| `ReportFacts.DaySumStep` | src/app/dashboard/page.tsx:122-127 | a row adds its seconds to the sum of the first n buckets exactly when its index is below n |
| `ReportFacts.DaySumEmpty` | src/app/dashboard/page.tsx:113 | with no rows, every bucket sum is 0 |
| `ReportFacts.DaysWithinTotal` | src/app/dashboard/page.tsx:113-128 | the seven buckets never hold more than the total; they hold all of it when every row starts inside the week |
| `ReportFacts.DailyBarsOrder` | src/app/dashboard/page.tsx:141-146 | for a week that starts on a Monday, there are 7 bars; bar i shows weekday (i + 1) mod 7 (Monday first, Sunday last) and the rounded value of bucket i |
| `ReportFacts.DailyBarsMondayToSunday` | src/app/dashboard/page.tsx:141-146 | a computed week's report has exactly 7 bars, Monday to Sunday, each the rounded total of its day |
| `ReportFacts.PrependRankSorted` | src/app/dashboard/page.tsx:130-139 | an entry ranked before every entry of a sorted list keeps the list sorted |
| `ReportFacts.PieOverSorted` | src/app/dashboard/page.tsx:130-139 | the filter keeps the order of the skills offered |
| `ReportFacts.PieOverHas` | src/app/dashboard/page.tsx:130-139 | an offered skill with a positive rounded value appears in the pie with that value |
| `ReportFacts.PieOverComplete` | src/app/dashboard/page.tsx:130-139 | a skill appears in the pie exactly when it is offered and its rounded value is positive |
| `ReportFacts.PieOverNone` | src/app/dashboard/page.tsx:130-139 | when no offered skill has a positive rounded value, the pie is empty |
| `ReportFacts.CanonicalSorted` | src/app/dashboard/page.tsx:130-135 | the canonical skill list is in strictly increasing rank |
| `ReportFacts.SkillPieOfMap` | src/app/dashboard/page.tsx:130-139 | the pie has at most 5 entries, in canonical order, each positive; a skill is listed exactly when its rounded value is positive |
| `ReportFacts.SkillPieShape` | src/app/dashboard/page.tsx:130-139 | the same, stated for a report's pie in terms of each skill's accumulated seconds |
| `ReportExamples.EmptyReport` | src/app/dashboard/page.tsx:110-162 | with no rows: total 0, seven bars of 0, an empty pie, and every minutes-by-skill field 0 |
| `ReportExamples.EmptyPie` | src/app/dashboard/page.tsx:130-139 | an empty skill map gives an empty pie |
| `ReportExamples.ExampleTwoReadingSessions` | src/app/dashboard/page.tsx:117-158 | sessions of 1800 s and 5400 s on reading give 120 minutes of reading and a total of 120 minutes |
| `ReportExamples.ExampleTwoReadingPie` | src/app/dashboard/page.tsx:117-139 | the same two sessions give the single pie entry reading 120.0 |
| `ReportExamples.ExampleRows` | src/app/dashboard/page.tsx:117-120 | those two rows accumulate 7200 seconds in the total and under reading only |
| `ReportExamples.ExamplePie` | src/app/dashboard/page.tsx:130-139 | a skill map holding only reading = 7200 s gives the single pie entry reading 120.0 |
| `Goals.Merge` | src/app/dashboard/page.tsx:173 | each field takes the stored value when one is present and the base value otherwise |
| `Goals.LoadGoals` | src/app/dashboard/page.tsx:166-176 | no stored text, empty text or a parse failure keeps the defaults; otherwise each field is the stored value if present, the default if not |
| `Goals.Fields` | src/app/dashboard/page.tsx:178 | saving writes all six categories, each with its value |
| `Goals.MergeNothing` | src/app/dashboard/page.tsx:173 | merging no stored fields keeps the base unchanged |
| `Goals.MergeComplete` | src/app/dashboard/page.tsx:173 | merging a complete saved record replaces the base entirely |
| `Goals.SaveThenLoad` | src/app/dashboard/page.tsx:166-178 | loading text that parses back to the saved fields returns exactly the saved goals |
| `Goals.Round` | src/app/dashboard/page.tsx:188 | `Math.round`: the result lies within half a unit, halves rounding up |
| `Goals.Clamp` | src/app/dashboard/page.tsx:188 | the result lies in `[lo, hi]`; it is the input when the input is in range, `lo` below the range and `hi` above it |
| `Goals.ProgressOf` | src/app/dashboard/page.tsx:184-188 | "no goal" exactly when the goal is at most 0; otherwise a percentage in 0..100 |
| `Goals.GoalReached` | src/app/dashboard/page.tsx:184-188 | if now >= goal > 0, the percentage is exactly 100 |
| `Goals.BelowGoal` | src/app/dashboard/page.tsx:184-188 | when 0 <= now < goal, the clamp has no effect and the percentage is the rounded share |
| `Goals.ProgressMonotone` | src/app/dashboard/page.tsx:184-188 | more minutes never show less progress against the same goal |
| `Goals.ProgressAll` | src/app/dashboard/page.tsx:273-295 | each category's progress is that category's rounded minutes measured against that category's goal |
| `Dashboard.BuildView` | src/app/dashboard/page.tsx:74-77 | the view shows the week for `now` moved by the paging offset, the report of the rows for that week and the progress from that report's minutes |
| `Dashboard.FetchedIffBucketed` | src/app/dashboard/page.tsx:89-90 | the fetch filter `started_at >= start && started_at < end` admits a row exactly when the row gets a bucket index in 0..6 |
| `Dashboard.FetchedIsInWeek` | src/app/dashboard/page.tsx:89-90 | for a computed week the fetch filter admits exactly the rows that start inside the half-open week |
| `Dashboard.EndIsExcluded` | src/app/dashboard/page.tsx:89-90 | a row starting exactly at the window's end is not fetched, and its bucket index is 7, so no bucket takes it |
| `Dashboard.FetchedRowsFillBuckets` | src/app/dashboard/page.tsx:89-90 | for fetched rows, the seven day buckets add up to the total |

## Findings

| source | as written | input that shows it | evidently intended | confidence | as-written member | corrected member |
|---|---|---|---|---|---|---|
| src/app/dashboard/page.tsx:22-27 | adds +540 minutes, then truncates to midnight and reads the weekday in the browser's own zone, so a JST browser applies the offset twice | anchor 2024-06-12T03:00Z on a browser set to JST: the week starts at 2024-06-09T06:00Z, which is Sunday 15:00 JST | the week starts on Monday 00:00 JST (2024-06-09T15:00Z) whatever the browser's zone | not executed; the arithmetic is proved for every anchor | `WeekWindow.JstHostStartsAtThreePm` | `WeekWindow.GetWeekRangeJst` |

## Left out

- The Supabase query (lines 83-107) is remote I/O and is not modelled: the select, the
  ordering, `.limit(200)`, the `ilike` student-name filter and error logging. Only the
  half-open `started_at` filter is restated, as `Dashboard.Fetched`.
- React state and effects, `localStorage` reads and writes, and `alert` are not
  modelled. `JSON.parse` is a parameter of `Goals.LoadGoals`. `JSON.stringify` appears
  only as the fields it writes (`Goals.Fields`).
- Rendering is not modelled: JSX, recharts, the week label, `toLocaleString`, the
  20-row history list and its `Math.ceil` minutes. A bar's label is the weekday index
  into the weekday-name table (0 is Sunday); the Japanese names are not modelled. A
  pie entry's label is the English name of its skill ("Reading" … "Vocab"); labels are
  not modelled.
- The source parses `started_at` from an ISO-8601 string and compares ISO strings.
  Here instants are already integers. The range limit of JavaScript `Date` values is
  not modelled.
- Daylight-saving time is not modelled: `GetWeekRangeOnHost` covers browsers in
  fixed-offset zones only.
- The files `src/app/save/page.tsx`, `src/app/history/page.tsx`, `src/app/page.tsx`,
  `src/app/layout.tsx` and `src/lib/supabase/client.ts` are not part of this model.
  They fetch and render data, lay out pages and build the client.
- Aggregation.Aggregate: accumulates exact integer seconds, not floating-point minutes.
  The last-bit rounding of JavaScript sums is not captured. Where the double sum falls
  just below a half, the browser rounds down: rows of 1 s and 80 s sum to
  1.3499999999999999 minutes and show 1.3, while `Tenths(81)` is 14 (1.4).
- Goals.ProgressOf: takes goals as exact reals and computes `now / goal * 100` exactly.
  Where the double result falls just below a half, the browser rounds down: 69 minutes
  against the reading goal 120 gives 57.49999999999999 and shows 57%, while the model
  gives 58%; 207 against 360 behaves the same way. It does not model a `NaN` goal (which
  `!goal` treats as "no goal") or a stored field that is not a number.
- WeekWindow.WeekAt: takes `now` as a parameter fixed for every page. The source reads
  `Date.now()` again each time `weekOffset` changes (lines 74-77), so when Monday 00:00
  JST passes between two clicks, "next" skips a week and "previous" shows the same week
  again. `WeekWindow.ClockReadAgain` exhibits both for clicks around 2024-06-17 00:00 JST;
  the paging lemmas hold for one value of `now` only.
- Goals.LoadGoals: models parsed text as the numeric goal fields it holds. Other keys,
  and a parse result that is not an object, add no goal fields; they are represented
  as a parse with no fields.
- Session durations are natural numbers. Negative or fractional `seconds`, which the
  source would add up as they are, cannot be represented.

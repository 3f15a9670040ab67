/**
 * Aggregation of the fetched session rows into the weekly report: the running
 * total, the per-skill map, the seven day buckets, the skill distribution
 * (pie), the seven daily bars and the rounded minutes per skill.
 *
 * The source accumulates minutes (`seconds / 60`) as floating-point numbers;
 * this model accumulates the seconds themselves, so every accumulated value
 * here is sixty times the exact minute value that the floating-point sum
 * approximates.
 */
module Aggregation {
  import opened Sessions
  import opened WeekWindow

  /** `map.get(k) ?? 0` */
  function Get<K>(m: map<K, nat>, k: K): (v: nat)
    ensures k !in m ==> v == 0
    ensures k in m ==> v == m[k]
  {
    if k in m then m[k] else 0
  }

  // ---------------------------------------------------------------------
  // What one pass over the rows accumulates, defined row by row.

  /** Sixty times the running `total`. */
  function TotalSeconds(rows: seq<Session>): nat
  {
    if rows == [] then 0
    else TotalSeconds(rows[..|rows| - 1]) + rows[|rows| - 1].seconds
  }

  /** Sixty times the per-skill accumulator of `skill`. */
  function SkillSeconds(rows: seq<Session>, skill: Skill): nat
  {
    if rows == [] then 0
    else
      var r := rows[|rows| - 1];
      SkillSeconds(rows[..|rows| - 1], skill) + (if r.skill == skill then r.seconds else 0)
  }

  /** The day bucket of a start instant: whole JST days since the window's start. */
  function DayIndex(startedAt: int, startJst: int): (d: int)
    ensures var x := ToJst(startedAt) - startJst;
      d * 86_400_000 <= x < d * 86_400_000 + 86_400_000
  {
    (ToJst(startedAt) - startJst) / 86_400_000
  }

  /** Sixty times the accumulator of day bucket `day`. */
  function DaySeconds(rows: seq<Session>, startJst: int, day: int): nat
  {
    if rows == [] then 0
    else
      var r := rows[|rows| - 1];
      DaySeconds(rows[..|rows| - 1], startJst, day)
        + (if DayIndex(r.startedAt, startJst) == day then r.seconds else 0)
  }

  /** The skills that occur in the rows. */
  function SkillsOf(rows: seq<Session>): set<Skill>
  {
    set r | r in rows :: r.skill
  }

  /**
   * The skill map after the pass: each row adds its seconds to its own
   * skill's entry, creating the entry when it is missing.
   */
  function SkillMapOf(rows: seq<Session>): map<Skill, nat>
  {
    if rows == [] then map[]
    else
      var m, r := SkillMapOf(rows[..|rows| - 1]), rows[|rows| - 1];
      m[r.skill := Get(m, r.skill) + r.seconds]
  }

  /** The seven zeroed buckets the pass starts from. */
  const NoDays: map<int, nat> := map[0 := 0, 1 := 0, 2 := 0, 3 := 0, 4 := 0, 5 := 0, 6 := 0]

  /**
   * The day map after the pass: a row whose day index is in 0..6 adds its
   * seconds to that bucket; any other row leaves the map as it is.
   */
  function DayMapOf(rows: seq<Session>, startJst: int): map<int, nat>
  {
    if rows == [] then NoDays
    else
      var m, r := DayMapOf(rows[..|rows| - 1], startJst), rows[|rows| - 1];
      var d := DayIndex(r.startedAt, startJst);
      if 0 <= d < 7 then m[d := Get(m, d) + r.seconds] else m
  }

  // ---------------------------------------------------------------------
  // Rounding, on exact integers.

  /** `Math.round(minutes * 10)`: the value shown with one decimal, in tenths of a minute. */
  function Tenths(seconds: nat): nat
  {
    (seconds + 3) / 6
  }

  /** `Math.round(minutes)`. */
  function RoundMinutes(seconds: nat): nat
  {
    (seconds + 30) / 60
  }

  /** Tenths is half-up rounding of seconds / 60 to one decimal, `floor(x * 10 + 1/2)`. */
  lemma TenthsIsHalfUp(seconds: nat)
    ensures Tenths(seconds) == ((seconds as real / 60.0) * 10.0 + 0.5).Floor
  {
    var q, r := (seconds + 3) / 6, (seconds + 3) % 6;
    assert seconds + 3 == 6 * q + r;
    var x := (seconds as real / 60.0) * 10.0 + 0.5;
    assert x == (seconds + 3) as real / 6.0;
    assert x == q as real + r as real / 6.0;
    assert q as real <= x < (q + 1) as real;
  }

  /** RoundMinutes is half-up rounding of seconds / 60 to a whole minute, `floor(x + 1/2)`. */
  lemma RoundMinutesIsHalfUp(seconds: nat)
    ensures RoundMinutes(seconds) == (seconds as real / 60.0 + 0.5).Floor
  {
    var q, r := (seconds + 30) / 60, (seconds + 30) % 60;
    assert seconds + 30 == 60 * q + r;
    var x := seconds as real / 60.0 + 0.5;
    assert x == (seconds + 30) as real / 60.0;
    assert x == q as real + r as real / 60.0;
    assert q as real <= x < (q + 1) as real;
  }

  // ---------------------------------------------------------------------
  // The report built from the maps by the map/filter passes.

  /** One pie entry; its value is `tenths / 10` minutes, its label the skill's name. */
  datatype PieSlice = PieSlice(skill: Skill, tenths: nat)

  /** One bar; `weekday` indexes the weekday names (0 is Sunday), `tenths / 10` is its value. */
  datatype DayBar = DayBar(weekday: int, tenths: nat)

  datatype Report = Report(
    totalMinutes: nat,
    skillPie: seq<PieSlice>,
    dailyBars: seq<DayBar>,
    minutesBySkill: PerCategory<nat>)

  /** The skills of `order` whose rounded value is positive, in the order given. */
  function PieOver(order: seq<Skill>, skillMap: map<Skill, nat>): (pie: seq<PieSlice>)
    ensures |pie| <= |order|
    ensures forall k :: 0 <= k < |pie| ==>
      pie[k].skill in order && pie[k].tenths == Tenths(Get(skillMap, pie[k].skill)) && pie[k].tenths > 0
  {
    if order == [] then []
    else
      var v := Tenths(Get(skillMap, order[0]));
      (if v > 0 then [PieSlice(order[0], v)] else []) + PieOver(order[1..], skillMap)
  }

  function SkillPie(skillMap: map<Skill, nat>): seq<PieSlice>
  {
    PieOver(CanonicalSkills, skillMap)
  }

  function DailyBars(dayMap: map<int, nat>, startJst: int): seq<DayBar>
  {
    seq(7, i => DayBar(WeekDay(startJst + i * 86_400_000), Tenths(Get(dayMap, i))))
  }

  function MinutesBySkill(skillMap: map<Skill, nat>, total: nat): PerCategory<nat>
  {
    PerCategory(
      RoundMinutes(Get(skillMap, Reading)),
      RoundMinutes(Get(skillMap, Listening)),
      RoundMinutes(Get(skillMap, Speaking)),
      RoundMinutes(Get(skillMap, Writing)),
      RoundMinutes(Get(skillMap, Vocab)),
      RoundMinutes(total))
  }

  function Summary(total: nat, skillMap: map<Skill, nat>, dayMap: map<int, nat>, startJst: int): Report
  {
    Report(RoundMinutes(total), SkillPie(skillMap), DailyBars(dayMap, startJst), MinutesBySkill(skillMap, total))
  }

  /** The report of the rows for the week whose JST start is `startJst`. */
  function ReportOf(rows: seq<Session>, startJst: int): Report
  {
    Summary(TotalSeconds(rows), SkillMapOf(rows), DayMapOf(rows, startJst), startJst)
  }

  // ---------------------------------------------------------------------
  // The pass itself.

  /** The aggregation pass: one loop over the rows, then the map/filter passes. */
  method Aggregate(rows: seq<Session>, startJst: int) returns (report: Report)
    ensures report == ReportOf(rows, startJst)
  {
    var skillMap: map<Skill, nat> := map[];
    var dayMap: map<int, nat> := map[];
    for i := 0 to 7
      invariant forall j :: j in dayMap <==> 0 <= j < i
      invariant forall j :: j in dayMap ==> dayMap[j] == 0
    {
      dayMap := dayMap[i := 0];
    }
    assert forall j :: j in NoDays <==> 0 <= j < 7;
    assert dayMap.Keys == NoDays.Keys;
    assert dayMap == NoDays;
    assert rows[..0] == [];

    var total: nat := 0;
    for k := 0 to |rows|
      invariant total == TotalSeconds(rows[..k])
      invariant skillMap == SkillMapOf(rows[..k])
      invariant dayMap == DayMapOf(rows[..k], startJst)
    {
      var r := rows[k];
      assert rows[..k + 1][..k] == rows[..k] && rows[..k + 1][k] == r;
      total := total + r.seconds;
      skillMap := skillMap[r.skill := Get(skillMap, r.skill) + r.seconds];
      var dayIndex := DayIndex(r.startedAt, startJst);
      if 0 <= dayIndex < 7 {
        dayMap := dayMap[dayIndex := Get(dayMap, dayIndex) + r.seconds];
      }
    }
    assert rows[..|rows|] == rows;
    report := Summary(total, skillMap, dayMap, startJst);
  }
}

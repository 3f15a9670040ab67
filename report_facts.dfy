/**
 * What the aggregation promises: the bucket range matches the week, the
 * buckets and the skills account for the total, the bars run Monday to
 * Sunday, and the pie lists exactly the positive skills in canonical order.
 */
module ReportFacts {
  import opened Sessions
  import opened WeekWindow
  import opened Aggregation

  /** The row's start lies in the half-open week whose JST start is `startJst`. */
  predicate InWeek(startedAt: int, startJst: int)
  {
    FromJst(startJst) <= startedAt < FromJst(startJst) + 604_800_000
  }

  /** A row gets a bucket index in 0..6 exactly when it starts inside the week. */
  lemma DayIndexInRange(startedAt: int, startJst: int)
    ensures 0 <= DayIndex(startedAt, startJst) < 7 <==> InWeek(startedAt, startJst)
  {
    var x := ToJst(startedAt) - startJst;
    var d := x / 86_400_000;
    assert x == d * 86_400_000 + x % 86_400_000;
    if 0 <= d < 7 {
      assert 0 <= x < 604_800_000;
    }
    if 0 <= x < 604_800_000 {
      assert 0 <= d;
      assert d < 7;
    }
  }

  /**
   * Adding one row: a row inside the week lands in exactly one of the seven
   * buckets (its day index), a row outside it in none; the total grows either way.
   */
  lemma AddRow(rows: seq<Session>, r: Session, startJst: int)
    ensures TotalSeconds(rows + [r]) == TotalSeconds(rows) + r.seconds
    ensures InWeek(r.startedAt, startJst) ==> 0 <= DayIndex(r.startedAt, startJst) < 7
    ensures forall i :: 0 <= i < 7 ==>
      DaySeconds(rows + [r], startJst, i) == DaySeconds(rows, startJst, i)
        + (if InWeek(r.startedAt, startJst) && i == DayIndex(r.startedAt, startJst) then r.seconds else 0)
  {
    assert (rows + [r])[..|rows|] == rows;
    DayIndexInRange(r.startedAt, startJst);
  }

  lemma SkillsOfLast(rows: seq<Session>)
    requires rows != []
    ensures SkillsOf(rows) == SkillsOf(rows[..|rows| - 1]) + {rows[|rows| - 1].skill}
  {
    var pre, r := rows[..|rows| - 1], rows[|rows| - 1];
    assert rows == pre + [r];
    assert forall x :: x in rows <==> x in pre || x == r;
  }

  /**
   * The skill map built row by row holds exactly the skills that occur, and
   * reading it with a default of 0 gives each skill's accumulated seconds.
   */
  lemma {:induction false} SkillMapMeaning(rows: seq<Session>)
    ensures SkillMapOf(rows).Keys == SkillsOf(rows)
    ensures forall s :: Get(SkillMapOf(rows), s) == SkillSeconds(rows, s)
  {
    if rows != [] {
      SkillMapMeaning(rows[..|rows| - 1]);
      SkillsOfLast(rows);
    }
  }

  /** The day map built row by row has keys 0..6, and bucket i holds day i's accumulated seconds. */
  lemma {:induction false} DayMapMeaning(rows: seq<Session>, startJst: int)
    ensures forall i :: i in DayMapOf(rows, startJst) <==> 0 <= i < 7
    ensures forall i :: 0 <= i < 7 ==> DayMapOf(rows, startJst)[i] == DaySeconds(rows, startJst, i)
  {
    if rows != [] {
      DayMapMeaning(rows[..|rows| - 1], startJst);
    }
  }

  /**
   * The minutes record of a report: each skill's field is its accumulated
   * seconds rounded to whole minutes, and the total field is the headline total.
   */
  lemma ReportMinutes(rows: seq<Session>, startJst: int)
    ensures var rep := ReportOf(rows, startJst);
      && rep.totalMinutes == RoundMinutes(TotalSeconds(rows))
      && rep.minutesBySkill.total == rep.totalMinutes
      && forall s :: rep.minutesBySkill.Get(SkillCategory(s)) == RoundMinutes(SkillSeconds(rows, s))
  {
    var m, total := SkillMapOf(rows), TotalSeconds(rows);
    assert ReportOf(rows, startJst).minutesBySkill == MinutesBySkill(m, total);
    MinutesBySkillFields(m, total);
    SkillMapMeaning(rows);
  }

  /** Each skill's field is that skill's value rounded to whole minutes; the total field is the rounded total. */
  lemma MinutesBySkillFields(skillMap: map<Skill, nat>, total: nat)
    ensures forall s :: MinutesBySkill(skillMap, total).Get(SkillCategory(s)) == RoundMinutes(Get(skillMap, s))
    ensures MinutesBySkill(skillMap, total).total == RoundMinutes(total)
  {
    forall s: Skill
      ensures MinutesBySkill(skillMap, total).Get(SkillCategory(s)) == RoundMinutes(Get(skillMap, s))
    {
      match s
      case Reading =>
      case Listening =>
      case Speaking =>
      case Writing =>
      case Vocab =>
    }
  }

  /** The running total equals the sum of the skill map's values. */
  lemma {:induction false} TotalIsSumOfSkills(rows: seq<Session>)
    ensures TotalSeconds(rows) ==
      Get(SkillMapOf(rows), Reading) + Get(SkillMapOf(rows), Listening) + Get(SkillMapOf(rows), Speaking)
        + Get(SkillMapOf(rows), Writing) + Get(SkillMapOf(rows), Vocab)
  {
    SkillSumIsTotal(rows);
    SkillMapMeaning(rows);
  }

  lemma {:induction false} SkillSumIsTotal(rows: seq<Session>)
    ensures TotalSeconds(rows) ==
      SkillSeconds(rows, Reading) + SkillSeconds(rows, Listening) + SkillSeconds(rows, Speaking)
        + SkillSeconds(rows, Writing) + SkillSeconds(rows, Vocab)
  {
    if rows != [] {
      SkillSumIsTotal(rows[..|rows| - 1]);
    }
  }

  /** The sum of the first `n` day buckets. */
  function DaySum(rows: seq<Session>, startJst: int, n: nat): nat
  {
    if n == 0 then 0 else DaySum(rows, startJst, n - 1) + DaySeconds(rows, startJst, n - 1)
  }

  lemma {:induction false} DaySumStep(rows: seq<Session>, startJst: int, n: nat)
    requires rows != []
    ensures var r := rows[|rows| - 1];
      DaySum(rows, startJst, n) == DaySum(rows[..|rows| - 1], startJst, n)
        + (if 0 <= DayIndex(r.startedAt, startJst) < n then r.seconds else 0)
  {
    if n > 0 {
      DaySumStep(rows, startJst, n - 1);
    }
  }

  lemma {:induction false} DaySumEmpty(startJst: int, n: nat)
    ensures DaySum([], startJst, n) == 0
  {
    if n > 0 {
      DaySumEmpty(startJst, n - 1);
    }
  }

  /**
   * The seven buckets never hold more than the total, and hold all of it
   * when every row starts inside the week (as the fetch filter guarantees).
   */
  lemma {:induction false} DaysWithinTotal(rows: seq<Session>, startJst: int)
    ensures DaySum(rows, startJst, 7) <= TotalSeconds(rows)
    ensures (forall k :: 0 <= k < |rows| ==> InWeek(rows[k].startedAt, startJst)) ==>
      DaySum(rows, startJst, 7) == TotalSeconds(rows)
  {
    if rows == [] {
      DaySumEmpty(startJst, 7);
    } else {
      var pre, r := rows[..|rows| - 1], rows[|rows| - 1];
      DaysWithinTotal(pre, startJst);
      DaySumStep(rows, startJst, 7);
      DayIndexInRange(r.startedAt, startJst);
      assert TotalSeconds(rows) == TotalSeconds(pre) + r.seconds;
      if forall k :: 0 <= k < |rows| ==> InWeek(rows[k].startedAt, startJst) {
        assert forall k :: 0 <= k < |pre| ==> pre[k] == rows[k];
        assert forall k :: 0 <= k < |pre| ==> InWeek(pre[k].startedAt, startJst);
        assert InWeek(r.startedAt, startJst);
        assert DaySum(rows, startJst, 7) == DaySum(pre, startJst, 7) + r.seconds;
      }
    }
  }

  /** Bar i of a week that starts on a Monday midnight is labelled with weekday i + 1 (Sunday last). */
  lemma DailyBarsOrder(dayMap: map<int, nat>, startJst: int)
    requires startJst % 86_400_000 == 0 && WeekDay(startJst) == 1
    ensures var bars := DailyBars(dayMap, startJst);
      |bars| == 7 &&
      forall i :: 0 <= i < 7 ==> bars[i].weekday == (i + 1) % 7 && bars[i].tenths == Tenths(Get(dayMap, i))
  {
    var k := startJst / 86_400_000;
    assert startJst == k * 86_400_000;
    assert (k + 4) % 7 == 1;
    forall i | 0 <= i < 7
      ensures WeekDay(startJst + i * 86_400_000) == (i + 1) % 7
    {
      assert startJst + i * 86_400_000 == (k + i) * 86_400_000;
      assert (startJst + i * 86_400_000) / 86_400_000 == k + i;
    }
  }

  /** The bars of a week: seven of them, Monday to Sunday, each the rounded bucket of its day. */
  lemma DailyBarsMondayToSunday(rows: seq<Session>, anchor: int)
    ensures var w := GetWeekRangeJst(anchor);
      var bars := ReportOf(rows, w.startJst).dailyBars;
      |bars| == 7 &&
      forall i :: 0 <= i < 7 ==>
        bars[i].weekday == (i + 1) % 7 && bars[i].tenths == Tenths(DaySeconds(rows, w.startJst, i))
  {
    var sj := GetWeekRangeJst(anchor).startJst;
    var dayMap := DayMapOf(rows, sj);
    assert ReportOf(rows, sj).dailyBars == DailyBars(dayMap, sj);
    DailyBarsOrder(dayMap, sj);
    DayMapMeaning(rows, sj);
  }

  /** Pie entries listed in strictly increasing canonical rank. */
  predicate RankSorted(pie: seq<PieSlice>)
  {
    forall i, j :: 0 <= i < j < |pie| ==> Rank(pie[i].skill) < Rank(pie[j].skill)
  }

  lemma PrependRankSorted(x: PieSlice, tail: seq<PieSlice>)
    requires RankSorted(tail)
    requires forall k :: 0 <= k < |tail| ==> Rank(x.skill) < Rank(tail[k].skill)
    ensures RankSorted([x] + tail)
  {
    var pie := [x] + tail;
    forall i, j | 0 <= i < j < |pie|
      ensures Rank(pie[i].skill) < Rank(pie[j].skill)
    {
      assert pie[j] == tail[j - 1];
      if i > 0 {
        assert pie[i] == tail[i - 1];
      }
    }
  }

  lemma {:induction false} PieOverSorted(order: seq<Skill>, skillMap: map<Skill, nat>)
    requires forall i, j :: 0 <= i < j < |order| ==> Rank(order[i]) < Rank(order[j])
    ensures RankSorted(PieOver(order, skillMap))
  {
    if order != [] {
      var rest := order[1..];
      assert forall i, j :: 0 <= i < j < |rest| ==> Rank(rest[i]) < Rank(rest[j]) by {
        forall i, j | 0 <= i < j < |rest| ensures Rank(rest[i]) < Rank(rest[j]) {
          assert rest[i] == order[i + 1] && rest[j] == order[j + 1];
        }
      }
      PieOverSorted(rest, skillMap);
      var v := Tenths(Get(skillMap, order[0]));
      var tail := PieOver(rest, skillMap);
      if v > 0 {
        assert forall x :: x in rest ==> Rank(order[0]) < Rank(x) by {
          forall x | x in rest ensures Rank(order[0]) < Rank(x) {
            var j :| 0 <= j < |rest| && rest[j] == x;
            assert order[j + 1] == x;
          }
        }
        PrependRankSorted(PieSlice(order[0], v), tail);
      }
    }
  }

  lemma {:induction false} PieOverComplete(order: seq<Skill>, skillMap: map<Skill, nat>, s: Skill)
    ensures var pie := PieOver(order, skillMap);
      (exists k :: 0 <= k < |pie| && pie[k].skill == s) <==> s in order && Tenths(Get(skillMap, s)) > 0
  {
    var pie := PieOver(order, skillMap);
    if s in order && Tenths(Get(skillMap, s)) > 0 {
      PieOverHas(order, skillMap, s);
      var k :| 0 <= k < |pie| && pie[k] == PieSlice(s, Tenths(Get(skillMap, s)));
    }
  }

  lemma {:induction false} PieOverHas(order: seq<Skill>, skillMap: map<Skill, nat>, s: Skill)
    requires s in order && Tenths(Get(skillMap, s)) > 0
    ensures PieSlice(s, Tenths(Get(skillMap, s))) in PieOver(order, skillMap)
  {
    if s != order[0] {
      assert s in order[1..];
      PieOverHas(order[1..], skillMap, s);
    }
  }

  lemma CanonicalSorted()
    ensures forall i, j :: 0 <= i < j < |CanonicalSkills| ==> Rank(CanonicalSkills[i]) < Rank(CanonicalSkills[j])
  {
    forall i | 0 <= i < |CanonicalSkills|
      ensures Rank(CanonicalSkills[i]) == i
    {
      assert CanonicalSkills[Rank(CanonicalSkills[i])] == CanonicalSkills[i];
    }
  }

  /** The pie over a skill map: canonical order, positive values, exactly the positive skills. */
  lemma SkillPieOfMap(skillMap: map<Skill, nat>)
    ensures var pie := SkillPie(skillMap);
      && |pie| <= 5
      && RankSorted(pie)
      && (forall k :: 0 <= k < |pie| ==> pie[k].tenths == Tenths(Get(skillMap, pie[k].skill)) > 0)
      && (forall s :: (exists k :: 0 <= k < |pie| && pie[k].skill == s) <==> Tenths(Get(skillMap, s)) > 0)
  {
    CanonicalSorted();
    PieOverSorted(CanonicalSkills, skillMap);
    assert SkillPie(skillMap) == PieOver(CanonicalSkills, skillMap);
    forall s: Skill
      ensures (exists k :: 0 <= k < |SkillPie(skillMap)| && SkillPie(skillMap)[k].skill == s)
        <==> Tenths(Get(skillMap, s)) > 0
    {
      PieOverComplete(CanonicalSkills, skillMap, s);
      assert CanonicalSkills[Rank(s)] == s;
    }
  }

  /**
   * The pie of the rows lists at most five skills, in the canonical order,
   * each with a positive rounded value; a skill is listed exactly when its
   * rounded value is positive, and then with that value.
   */
  lemma SkillPieShape(rows: seq<Session>, startJst: int)
    ensures var pie := ReportOf(rows, startJst).skillPie;
      && |pie| <= 5
      && RankSorted(pie)
      && (forall k :: 0 <= k < |pie| ==> pie[k].tenths == Tenths(SkillSeconds(rows, pie[k].skill)) > 0)
      && (forall s :: (exists k :: 0 <= k < |pie| && pie[k].skill == s) <==> Tenths(SkillSeconds(rows, s)) > 0)
  {
    var m := SkillMapOf(rows);
    assert ReportOf(rows, startJst).skillPie == SkillPie(m);
    SkillPieOfMap(m);
    SkillMapMeaning(rows);
  }

  /** A skill list none of whose skills rounds to a positive value gives an empty pie. */
  lemma {:induction false} PieOverNone(order: seq<Skill>, skillMap: map<Skill, nat>)
    requires forall k :: 0 <= k < |order| ==> Tenths(Get(skillMap, order[k])) == 0
    ensures PieOver(order, skillMap) == []
  {
    if order != [] {
      PieOverNone(order[1..], skillMap);
    }
  }
}

/** Concrete reports: no rows at all, and two reading sessions. */
module ReportExamples {
  import opened Sessions
  import opened Aggregation
  import opened ReportFacts

  /** With no rows everything is zero: total, all seven bars, every skill; the pie is empty. */
  lemma EmptyReport(startJst: int)
    ensures var rep := ReportOf([], startJst);
      && rep.totalMinutes == 0
      && rep.skillPie == []
      && |rep.dailyBars| == 7 && (forall i :: 0 <= i < 7 ==> rep.dailyBars[i].tenths == 0)
      && rep.minutesBySkill == PerCategory(0, 0, 0, 0, 0, 0)
  {
    assert forall i :: 0 <= i < 7 ==> Get(NoDays, i) == 0;
    EmptyPie();
  }

  /** Two reading sessions of 30 and 90 minutes: 120 minutes of reading, 120 in total. */
  lemma ExampleTwoReadingSessions(rows: seq<Session>, startJst: int)
    requires |rows| == 2 && rows[0].skill == rows[1].skill == Reading
    requires rows[0].seconds == 1800 && rows[1].seconds == 5400
    ensures ReportOf(rows, startJst).totalMinutes == 120
    ensures ReportOf(rows, startJst).minutesBySkill.reading == 120
    ensures ReportOf(rows, startJst).minutesBySkill.total == 120
  {
    ReportMinutes(rows, startJst);
    ExampleRows(rows);
    SkillMapMeaning(rows);
    assert SkillSeconds(rows, Reading) == Get(map[Reading := 7200], Reading);
  }

  /** The same two sessions: the pie is the single entry reading 120.0. */
  lemma ExampleTwoReadingPie(rows: seq<Session>, startJst: int)
    requires |rows| == 2 && rows[0].skill == rows[1].skill == Reading
    requires rows[0].seconds == 1800 && rows[1].seconds == 5400
    ensures ReportOf(rows, startJst).skillPie == [PieSlice(Reading, 1200)]
  {
    ExampleRows(rows);
    ExamplePie();
  }

  lemma EmptyPie()
    ensures SkillPie(map[]) == []
  {
    PieOverNone(CanonicalSkills, map[]);
  }

  lemma ExampleRows(rows: seq<Session>)
    requires |rows| == 2 && rows[0].skill == rows[1].skill == Reading
    requires rows[0].seconds == 1800 && rows[1].seconds == 5400
    ensures TotalSeconds(rows) == 7200 && SkillMapOf(rows) == map[Reading := 7200]
  {
    assert rows[..1] == [rows[0]] && rows[..1][..0] == [];
    assert SkillMapOf([]) == map[] && Get(map[], Reading) == 0;
    assert TotalSeconds(rows[..1]) == 1800 && SkillMapOf(rows[..1]) == map[Reading := 1800];
  }

  lemma ExamplePie()
    ensures SkillPie(map[Reading := 7200]) == [PieSlice(Reading, 1200)]
  {
    var m := map[Reading := 7200];
    var rest := CanonicalSkills[1..];
    assert rest == [Listening, Speaking, Writing, Vocab];
    PieOverNone(rest, m);
    assert Tenths(Get(m, Reading)) == 1200;
  }
}

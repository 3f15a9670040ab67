/**
 * Weekly goals: the defaults, the merge of stored preferences over them, and
 * the progress percentage shown against each goal. Goal values are whatever
 * number the teacher typed, so they are modelled as exact reals.
 */
module Goals {
  import opened Sessions

  type Goals = PerCategory<real>

  const DefaultGoals: Goals := PerCategory(120.0, 120.0, 60.0, 60.0, 60.0, 360.0)

  /** What parsing the stored text yields: a failure, or the numeric fields present in it. */
  datatype Parsed = ParseFailed | ParsedFields(fields: map<Category, real>)

  /** `{ ...base, ...stored }`: each field from `stored` when present, from `base` otherwise. */
  function Merge(base: Goals, stored: map<Category, real>): (g: Goals)
    ensures forall c :: g.Get(c) == if c in stored then stored[c] else base.Get(c)
  {
    var pick := (c: Category) => if c in stored then stored[c] else base.Get(c);
    PerCategory(
      pick(SkillCategory(Reading)),
      pick(SkillCategory(Listening)),
      pick(SkillCategory(Speaking)),
      pick(SkillCategory(Writing)),
      pick(SkillCategory(Vocab)),
      pick(TotalCategory))
  }

  /**
   * The goals after loading: the defaults unless some non-empty text is
   * stored and parses, in which case its fields are merged over the defaults.
   */
  function LoadGoals(stored: Option<string>, parse: string -> Parsed): (g: Goals)
    ensures stored == None || stored == Some("") ==> g == DefaultGoals
    ensures stored.Some? && stored.value != "" && parse(stored.value).ParseFailed? ==> g == DefaultGoals
    ensures stored.Some? && stored.value != "" && parse(stored.value).ParsedFields? ==>
      forall c :: g.Get(c) ==
        if c in parse(stored.value).fields then parse(stored.value).fields[c] else DefaultGoals.Get(c)
  {
    match stored
    case None => DefaultGoals
    case Some(raw) =>
      if raw == "" then DefaultGoals
      else
        match parse(raw)
        case ParseFailed => DefaultGoals
        case ParsedFields(fields) => Merge(DefaultGoals, fields)
  }

  /** The fields that saving writes: every category with its value. */
  function Fields(g: Goals): (m: map<Category, real>)
    ensures m.Keys == AllCategories
    ensures forall c :: c in m ==> m[c] == g.Get(c)
  {
    map c | c in AllCategories :: g.Get(c)
  }

  /** Merging in no stored fields keeps the base. */
  lemma MergeNothing(base: Goals)
    ensures Merge(base, map[]) == base
  {
  }

  /** Merging a complete record replaces the base entirely. */
  lemma MergeComplete(base: Goals, g: Goals)
    ensures Merge(base, Fields(g)) == g
  {
    var r := Merge(base, Fields(g));
    assert r.reading == r.Get(SkillCategory(Reading));
    assert r.listening == r.Get(SkillCategory(Listening));
    assert r.speaking == r.Get(SkillCategory(Speaking));
    assert r.writing == r.Get(SkillCategory(Writing));
    assert r.vocab == r.Get(SkillCategory(Vocab));
    assert r.total == r.Get(TotalCategory);
  }

  /**
   * Saving then loading: when the stored text parses back to the saved
   * fields, loading yields exactly the goals that were saved.
   */
  lemma SaveThenLoad(g: Goals, text: string, parse: string -> Parsed)
    requires text != "" && parse(text) == ParsedFields(Fields(g))
    ensures LoadGoals(Some(text), parse) == g
  {
    MergeComplete(DefaultGoals, g);
  }

  // ---------------------------------------------------------------------
  // Progress against a goal.

  datatype Progress = NoGoal | Percent(pct: int)

  /** `Math.round(x)`: the nearest integer, halves rounded up. */
  function Round(x: real): (n: int)
    ensures n as real - 0.5 <= x < n as real + 0.5
  {
    (x + 0.5).Floor
  }

  function Clamp(lo: int, hi: int, x: int): (r: int)
    requires lo <= hi
    ensures lo <= r <= hi
    ensures lo <= x <= hi ==> r == x
    ensures x < lo ==> r == lo
    ensures x > hi ==> r == hi
  {
    if x < lo then lo else if x > hi then hi else x
  }

  /** The progress shown for `now` minutes against `goal` minutes. */
  function ProgressOf(now: int, goal: real): (p: Progress)
    ensures p.NoGoal? <==> goal <= 0.0
    ensures p.Percent? ==> 0 <= p.pct <= 100
  {
    if goal <= 0.0 then NoGoal
    else Percent(Clamp(0, 100, Round(now as real / goal * 100.0)))
  }

  /** Reaching or passing the goal shows exactly 100. */
  lemma GoalReached(now: int, goal: real)
    requires 0.0 < goal <= now as real
    ensures ProgressOf(now, goal) == Percent(100)
  {
    var q := now as real / goal;
    assert q * goal == now as real;
    assert q >= 1.0;
    assert q * 100.0 >= 100.0;
  }

  /** Below the goal the clamp never bites: the percentage is the rounded share itself. */
  lemma BelowGoal(now: int, goal: real)
    requires 0 <= now && now as real < goal
    ensures ProgressOf(now, goal) == Percent(Round(now as real / goal * 100.0))
  {
    var q := now as real / goal;
    assert q * goal == now as real;
    assert 0.0 <= q by {
      if q < 0.0 {
        assert false;
      }
    }
    assert q < 1.0 by {
      if q >= 1.0 {
        assert false;
      }
    }
    assert 0.0 <= q * 100.0 < 100.0;
  }

  /** More minutes never show less progress against the same goal. */
  lemma ProgressMonotone(now1: int, now2: int, goal: real)
    requires now1 <= now2 && 0.0 < goal
    ensures ProgressOf(now1, goal).pct <= ProgressOf(now2, goal).pct
  {
    var q1, q2 := now1 as real / goal, now2 as real / goal;
    assert q1 * goal == now1 as real && q2 * goal == now2 as real;
    assert (q2 - q1) * goal >= 0.0;
    assert q1 <= q2;
    assert q1 * 100.0 <= q2 * 100.0;
    assert Round(q1 * 100.0) <= Round(q2 * 100.0);
  }

  /** The progress of every category: achieved minutes against the goal of the same category. */
  function ProgressAll(minutes: PerCategory<nat>, goals: Goals): (p: PerCategory<Progress>)
    ensures forall c :: p.Get(c) == ProgressOf(minutes.Get(c), goals.Get(c))
  {
    PerCategory(
      ProgressOf(minutes.reading, goals.reading),
      ProgressOf(minutes.listening, goals.listening),
      ProgressOf(minutes.speaking, goals.speaking),
      ProgressOf(minutes.writing, goals.writing),
      ProgressOf(minutes.vocab, goals.vocab),
      ProgressOf(minutes.total, goals.total))
  }
}

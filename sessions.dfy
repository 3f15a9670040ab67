/**
 * The records the dashboard works on: study sessions, the five skills, and the
 * six-field record (five skills plus a total) used both for goals and for the
 * rounded minutes per skill.
 */
module Sessions {

  datatype Option<T> = None | Some(value: T)

  /** The closed set of study skills a session is recorded against. */
  datatype Skill = Reading | Listening | Speaking | Writing | Vocab

  /** The fixed order in which skills are listed in the distribution chart. */
  const CanonicalSkills: seq<Skill> := [Reading, Listening, Speaking, Writing, Vocab]

  /** Position of a skill in the canonical order. */
  function Rank(s: Skill): (r: nat)
    ensures r < |CanonicalSkills| && CanonicalSkills[r] == s
  {
    match s
    case Reading => 0
    case Listening => 1
    case Speaking => 2
    case Writing => 3
    case Vocab => 4
  }

  /**
   * One row of the study_sessions table. Instants are epoch milliseconds;
   * `seconds` is the recorded duration, the only quantity that is aggregated.
   */
  datatype Session = Session(
    id: string,
    studentName: string,
    skill: Skill,
    startedAt: int,
    endedAt: int,
    seconds: nat,
    notes: Option<string>)

  /** A field of the goals record: one per skill, plus the weekly total. */
  datatype Category = SkillCategory(skill: Skill) | TotalCategory

  const AllCategories: set<Category> :=
    {SkillCategory(Reading), SkillCategory(Listening), SkillCategory(Speaking),
     SkillCategory(Writing), SkillCategory(Vocab), TotalCategory}

  /** A record with one value per category (the source's `Goals` shape). */
  datatype PerCategory<T> = PerCategory(reading: T, listening: T, speaking: T, writing: T, vocab: T, total: T)
  {
    function Get(c: Category): T
    {
      match c
      case TotalCategory => total
      case SkillCategory(s) =>
        match s
        case Reading => reading
        case Listening => listening
        case Speaking => speaking
        case Writing => writing
        case Vocab => vocab
    }
  }
}

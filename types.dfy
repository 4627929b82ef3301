/**
 * The records exchanged between the assessment form, the top-level view and
 * the rescue-plan service (types.ts). Every numeric field the form produces
 * comes from an integer slider, so numbers are modelled as `int`.
 */
module Types {

  datatype Option<+T> = None | Some(value: T)

  /** Who signs in: a student filling the assessment or a mentor. */
  datatype Role = Student | Mentor

  /** One row of the subject editor: a name, the marks obtained and a backlog flag. */
  datatype SubjectMarks = SubjectMarks(name: string, marks: int, hasBacklog: bool)

  /** The whole self-report the form collects and submits. */
  datatype StudentData = StudentData(
    fullName: string,
    rollNumber: string,
    semester: int,
    attendance: int,
    subjects: seq<SubjectMarks>,
    stressLevel: int,
    studyHours: int,
    sleepHours: int)

  datatype RiskLevel = High | Medium | Low

  datatype SubjectStrategy = SubjectStrategy(name: string, hours: int, strategy: string, riskLevel: RiskLevel)

  datatype QuoteIcon = Heart | Lamp | Sparkles

  datatype MotivationalQuote = MotivationalQuote(text: string, icon: QuoteIcon)

  /** The structured reply of the rescue-plan service, shown on the results view. */
  datatype RiskAnalysis = RiskAnalysis(
    riskLevel: RiskLevel,
    riskScore: int,
    summary: string,
    shortTermGoals: seq<string>,
    longTermGoals: seq<string>,
    dailyTargets: seq<string>,
    mentorRecommendations: seq<string>,
    subjectStrategies: seq<SubjectStrategy>,
    motivationalQuotes: seq<MotivationalQuote>)
}

/**
 * The two stored document shapes of the server: interactions (server/models/Interaction.js)
 * and problems with their MCQ questions and test cases (server/models/Problem.js).
 * A required string counts as missing when it is absent or empty, as Mongoose's `required`
 * validator treats strings; absent values of the other types are `None`.
 */
module Schemas {
  import opened Common

  // ---------------------------------------------------------------- interactions

  /** The `phase` enum of an interaction, also the session phase of the client. */
  datatype Phase = Reading | Mcq | Coding | Completed

  function PhaseName(p: Phase): string {
    match p
    case Reading => "reading"
    case Mcq => "mcq"
    case Coding => "coding"
    case Completed => "completed"
  }

  /** The `enum: ['reading', 'mcq', 'coding', 'completed']` validator. */
  function ParsePhase(s: string): (r: Option<Phase>)
    ensures r.Some? <==> s in ["reading", "mcq", "coding", "completed"]
    ensures r.Some? ==> PhaseName(r.value) == s
  {
    if s == "reading" then Some(Reading)
    else if s == "mcq" then Some(Mcq)
    else if s == "coding" then Some(Coding)
    else if s == "completed" then Some(Completed)
    else None
  }

  /** Every phase name passes the enum validator and denotes that phase. */
  lemma PhaseNameParses(p: Phase)
    ensures ParsePhase(PhaseName(p)) == Some(p)
  {
  }

  /** The plain object handed to `new Interaction(...)`. */
  datatype InteractionData = InteractionData(
    userId: Option<string>,
    problemId: Option<string>,
    skills: Option<seq<string>>,
    correct: Option<bool>,
    timeSpent: Option<int>,
    hintsUsed: Option<int>,
    attempts: Option<int>,
    phase: Option<string>,
    mcqScore: Option<int>,
    codeSubmitted: Option<string>,
    timestamp: Option<int>)

  /** A stored interaction document; `timestamp` is in milliseconds since the epoch. */
  datatype Interaction = Interaction(
    userId: string,
    problemId: string,
    skills: seq<string>,
    correct: bool,
    timeSpent: Option<int>,
    hintsUsed: int,
    attempts: int,
    phase: Phase,
    mcqScore: Option<int>,
    codeSubmitted: Option<string>,
    timestamp: int)

  /** The schema paths whose validators can fail. */
  datatype InteractionPath = UserIdPath | ProblemIdPath | SkillsPath | CorrectPath | PhasePath

  predicate SkillsValid(skills: Option<seq<string>>) {
    skills.None? || forall i :: 0 <= i < |skills.value| ==> skills.value[i] != ""
  }

  /** The set of paths the schema rejects, as collected in a Mongoose ValidationError. */
  function InteractionErrors(d: InteractionData): set<InteractionPath> {
    (if d.userId.None? || d.userId.value == "" then {UserIdPath} else {})
    + (if d.problemId.None? || d.problemId.value == "" then {ProblemIdPath} else {})
    + (if !SkillsValid(d.skills) then {SkillsPath} else {})
    + (if d.correct.None? then {CorrectPath} else {})
    + (if d.phase.None? || ParsePhase(d.phase.value).None? then {PhasePath} else {})
  }

  /**
   * `new Interaction(data)` followed by validation at `save()`: the defaults are
   * `hintsUsed = 0`, `attempts = 1`, `skills = []` and `timestamp = now`.
   */
  function CreateInteraction(d: InteractionData, now: int): (r: Result<Interaction, set<InteractionPath>>)
    ensures r.Ok? <==> d.userId.Some? && d.userId.value != "" && d.problemId.Some? && d.problemId.value != ""
                       && d.correct.Some? && d.phase.Some? && d.phase.value in ["reading", "mcq", "coding", "completed"]
                       && SkillsValid(d.skills)
    ensures r.Err? ==> r.error != {} && (PhasePath in r.error <==> d.phase.None? || ParsePhase(d.phase.value).None?)
                       && (CorrectPath in r.error <==> d.correct.None?)
    ensures r.Ok? ==> var x := r.value;
      && x.userId == d.userId.value && x.problemId == d.problemId.value && x.correct == d.correct.value
      && PhaseName(x.phase) == d.phase.value && x.skills == d.skills.GetOr([])
      && x.hintsUsed == d.hintsUsed.GetOr(0) && x.attempts == d.attempts.GetOr(1)
      && x.timestamp == d.timestamp.GetOr(now)
      && x.timeSpent == d.timeSpent && x.mcqScore == d.mcqScore && x.codeSubmitted == d.codeSubmitted
  {
    var errs := InteractionErrors(d);
    if errs != {} then Err(errs)
    else Ok(Interaction(
      d.userId.value, d.problemId.value, d.skills.GetOr([]), d.correct.value, d.timeSpent,
      d.hintsUsed.GetOr(0), d.attempts.GetOr(1), ParsePhase(d.phase.value).value,
      d.mcqScore, d.codeSubmitted, d.timestamp.GetOr(now)))
  }

  // ---------------------------------------------------------------- problems

  datatype Difficulty = Easy | Medium | Hard
  datatype Category = DataStructure | Algorithm | Approach

  /** The `enum: ['Easy', 'Medium', 'Hard']` validator. */
  function ParseDifficulty(s: string): (r: Option<Difficulty>)
    ensures r.Some? <==> s in ["Easy", "Medium", "Hard"]
    ensures r == Some(Easy) <==> s == "Easy"
    ensures r == Some(Hard) <==> s == "Hard"
  {
    if s == "Easy" then Some(Easy)
    else if s == "Medium" then Some(Medium)
    else if s == "Hard" then Some(Hard)
    else None
  }

  /** The `enum: ['data-structure', 'algorithm', 'approach']` validator of an MCQ category. */
  function ParseCategory(s: string): (r: Option<Category>)
    ensures r.Some? <==> s in ["data-structure", "algorithm", "approach"]
    ensures r == Some(DataStructure) <==> s == "data-structure"
    ensures r == Some(Approach) <==> s == "approach"
  {
    if s == "data-structure" then Some(DataStructure)
    else if s == "algorithm" then Some(Algorithm)
    else if s == "approach" then Some(Approach)
    else None
  }

  datatype TestCase = TestCase(input: string, output: string, explanation: Option<string>)

  datatype McqQuestion = McqQuestion(
    question: string,
    options: seq<string>,
    correctAnswer: int,
    explanation: string,
    category: string)

  /** A problem document; `tags` are the skills an interaction with it touches. */
  datatype Problem = Problem(
    id: string,
    title: string,
    difficulty: string,
    description: string,
    inputFormat: string,
    outputFormat: string,
    constraints: seq<string>,
    testCases: seq<TestCase>,
    tags: seq<string>,
    hints: seq<string>,
    optimalSolution: Option<string>,
    mcqQuestions: seq<McqQuestion>,
    leetcodeUrl: Option<string>,
    estimatedTime: Option<int>)

  predicate NonEmptyStrings(s: seq<string>) {
    forall i :: 0 <= i < |s| ==> s[i] != ""
  }

  /** A test case needs `input` and `output`; `explanation` is optional. */
  predicate ValidTestCase(t: TestCase) {
    t.input != "" && t.output != ""
  }

  /**
   * `question`, `explanation`, a category from the enum and non-empty options are required.
   * The schema does not relate `correctAnswer` to the number of options.
   */
  predicate ValidMcqQuestion(q: McqQuestion) {
    q.question != "" && NonEmptyStrings(q.options) && q.explanation != ""
    && ParseCategory(q.category).Some?
  }

  predicate ValidProblem(p: Problem) {
    && p.title != "" && ParseDifficulty(p.difficulty).Some?
    && p.description != "" && p.inputFormat != "" && p.outputFormat != ""
    && (forall i :: 0 <= i < |p.testCases| ==> ValidTestCase(p.testCases[i]))
    && NonEmptyStrings(p.tags)
    && (forall i :: 0 <= i < |p.mcqQuestions| ==> ValidMcqQuestion(p.mcqQuestions[i]))
  }

  /**
   * Validation accepts a problem exactly when every required path of the problem, test-case
   * and question schemas is set and both enums hold, written against the enum lists.
   */
  lemma ValidProblemMeans(p: Problem)
    ensures ValidProblem(p) <==>
      && p.title != "" && p.difficulty in ["Easy", "Medium", "Hard"]
      && p.description != "" && p.inputFormat != "" && p.outputFormat != ""
      && (forall i :: 0 <= i < |p.testCases| ==> p.testCases[i].input != "" && p.testCases[i].output != "")
      && (forall i :: 0 <= i < |p.tags| ==> p.tags[i] != "")
      && (forall i :: 0 <= i < |p.mcqQuestions| ==>
            && p.mcqQuestions[i].question != "" && p.mcqQuestions[i].explanation != ""
            && (forall k :: 0 <= k < |p.mcqQuestions[i].options| ==> p.mcqQuestions[i].options[k] != "")
            && p.mcqQuestions[i].category in ["data-structure", "algorithm", "approach"])
  {
  }

  /**
   * The client posts `skills: currentProblem.tags`: for a valid problem the skills path of the
   * interaction schema always passes, so such an interaction is stored exactly when its user,
   * problem, outcome and phase are acceptable, and it keeps the problem's tags as its skills.
   */
  lemma ProblemTagsAreValidSkills(p: Problem, d: InteractionData, now: int)
    requires ValidProblem(p) && d.skills == Some(p.tags)
    ensures SkillsPath !in InteractionErrors(d)
    ensures CreateInteraction(d, now).Ok? <==>
              d.userId.Some? && d.userId.value != "" && d.problemId.Some? && d.problemId.value != ""
              && d.correct.Some? && d.phase.Some? && d.phase.value in ["reading", "mcq", "coding", "completed"]
    ensures CreateInteraction(d, now).Ok? ==> CreateInteraction(d, now).value.skills == p.tags
  {
    assert SkillsValid(d.skills);
  }
}

/**
 * The solving session of one problem (src/components/ProblemSolver.tsx): the phase
 * machine reading → mcq → coding → completed, the coding timer switch, the learner's
 * feedback, and the interaction events the page posts.
 *
 * What the page reads from its contexts (the signed-in user, the route's problem id, the
 * problem store) is a `View` parameter. A posted event is appended to `sent`; the request
 * itself is left out.
 */
module Session {
  import opened Common
  import opened Schemas

  /** A JSON value of an interaction payload. */
  datatype Value = Str(text: string) | Flag(flag: bool) | Num(number: int) | Strs(items: seq<string>)

  /** The JSON object posted for one interaction. */
  type Payload = map<string, Value>

  /** An MCQ score of at least this much counts as a correct interaction. */
  const PassingMcqScore: int := 80

  /** What the page reads from its contexts. */
  datatype View = View(
    userId: Option<string>,     // `user._id`, `None` when signed out
    problemId: Option<string>,  // the route parameter
    problem: Option<Problem>,   // `currentProblem`
    loading: bool,
    error: Option<string>)

  /** `user && problemId && currentProblem`, with JavaScript truthiness for the id. */
  predicate CanRecord(v: View) {
    v.userId.Some? && v.problemId.Some? && v.problemId.value != "" && v.problem.Some?
  }

  function BasePayload(v: View): Payload
    requires CanRecord(v)
  {
    map["userId" := Str(v.userId.value), "problemId" := Str(v.problemId.value), "skills" := Strs(v.problem.value.tags)]
  }

  /** `{ userId, problemId, skills: currentProblem.tags, ...data }`: a key of `data` wins. */
  function InteractionPayload(v: View, data: Payload): (p: Payload)
    requires CanRecord(v)
    ensures p.Keys == {"userId", "problemId", "skills"} + data.Keys
    ensures forall k :: k in data ==> p[k] == data[k]
    ensures "userId" !in data ==> p["userId"] == Str(v.userId.value)
    ensures "problemId" !in data ==> p["problemId"] == Str(v.problemId.value)
    ensures "skills" !in data ==> p["skills"] == Strs(v.problem.value.tags)
  {
    BasePayload(v) + data
  }

  /** The events `recordInteraction(data)` posts: one payload, or none when it cannot record. */
  function Recorded(v: View, data: Payload): seq<Payload> {
    if CanRecord(v) then [InteractionPayload(v, data)] else []
  }

  function McqData(score: int): Payload {
    map["phase" := Str("mcq"), "correct" := Flag(score >= PassingMcqScore), "mcqScore" := Num(score)]
  }

  function FeedbackData(worked: bool): Payload {
    map["phase" := Str("completed"), "correct" := Flag(worked)]
  }

  /** The MCQ event: phase `mcq`, `correct` exactly when the score reaches 80, and the score. */
  lemma McqEventMeans(v: View, score: int)
    requires CanRecord(v)
    ensures var p := InteractionPayload(v, McqData(score));
      && p["phase"] == Str("mcq") && p["mcqScore"] == Num(score)
      && (p["correct"] == Flag(true) <==> score >= PassingMcqScore)
      && p["skills"] == Strs(v.problem.value.tags) && p["userId"] == Str(v.userId.value)
      && p.Keys == {"userId", "problemId", "skills", "phase", "correct", "mcqScore"}
  {
  }

  /** The page renders its controls only when loaded, without an error, with a problem. */
  predicate ShowsPage(v: View) {
    !v.loading && (v.error.None? || v.error.value == "") && v.problem.Some?
  }

  /** The controls that raise the handlers. */
  datatype UiEvent =
    | ContinueToQuestions
    | McqCompleted(score: int)
    | SubmitAndCompare
    | SolutionFeedback(worked: bool)
    | TryAgain

  class ProblemSolver {
    var phase: Phase
    var timerRunning: bool
    var solutionWorked: Option<bool>
    var sent: seq<Payload>

    /** The timer runs exactly in the coding phase; feedback exists only once completed. */
    ghost predicate Valid()
      reads this
    {
      timerRunning == (phase == Coding) && (solutionWorked.Some? ==> phase == Completed)
    }

    constructor()
      ensures Valid()
      ensures phase == Reading && !timerRunning && solutionWorked == None && sent == []
    {
      phase := Reading;
      timerRunning := false;
      solutionWorked := None;
      sent := [];
    }

    /** The effect on a new route id: a non-empty id starts the session afresh. */
    method ProblemIdChanged(problemId: Option<string>)
      requires Valid()
      modifies this`phase, this`solutionWorked, this`timerRunning
      ensures Valid()
      ensures problemId.Some? && problemId.value != "" ==>
                phase == Reading && solutionWorked == None && !timerRunning
      ensures problemId.None? || problemId.value == "" ==>
                phase == old(phase) && solutionWorked == old(solutionWorked) && timerRunning == old(timerRunning)
    {
      if problemId.Some? && problemId.value != "" {
        phase := Reading;
        solutionWorked := None;
        timerRunning := false;
      }
    }

    /** `recordInteraction`: posts one payload when it can, nothing otherwise. */
    method RecordInteraction(v: View, data: Payload)
      modifies this`sent
      ensures sent == old(sent) + Recorded(v, data)
    {
      if !CanRecord(v) {
        return;
      }
      sent := sent + [InteractionPayload(v, data)];
    }

    /** "Continue to Questions", shown only on the reading step; the timer is not running there. */
    method BeginQuestions()
      requires Valid() && phase == Reading
      modifies this`phase
      ensures Valid() && phase == Mcq && !timerRunning
    {
      phase := Mcq;
    }

    /** `handleMCQComplete`: records the quiz result, then coding starts with the timer on. */
    method HandleMcqComplete(v: View, score: int)
      requires Valid() && solutionWorked.None?
      modifies this`sent, this`phase, this`timerRunning
      ensures Valid()
      ensures sent == old(sent) + Recorded(v, McqData(score))
      ensures phase == Coding && timerRunning
    {
      RecordInteraction(v, McqData(score));
      phase := Coding;
      timerRunning := true;
    }

    /** `handleCodingComplete`: completed, timer off. */
    method HandleCodingComplete()
      requires Valid()
      modifies this`phase, this`timerRunning
      ensures Valid() && phase == Completed && !timerRunning
    {
      phase := Completed;
      timerRunning := false;
    }

    /** `handleSolutionFeedback`: stores the answer and records it as the outcome. */
    method HandleSolutionFeedback(v: View, worked: bool)
      requires Valid() && phase == Completed
      modifies this`solutionWorked, this`sent
      ensures Valid()
      ensures solutionWorked == Some(worked)
      ensures sent == old(sent) + Recorded(v, FeedbackData(worked))
    {
      solutionWorked := Some(worked);
      RecordInteraction(v, FeedbackData(worked));
    }

    /** `handleTryAgain`: back to reading, feedback cleared, timer off. */
    method HandleTryAgain()
      modifies this`phase, this`solutionWorked, this`timerRunning
      ensures Valid() && phase == Reading && solutionWorked == None && !timerRunning
    {
      phase := Reading;
      solutionWorked := None;
      timerRunning := false;
    }

    /**
     * Whether the control raising `e` is on screen: "Continue" in reading, the quiz in
     * mcq, "Submit & Compare" in coding, the Yes/No question once completed and before
     * feedback, "Try Again" after a "No".
     */
    predicate Available(v: View, e: UiEvent)
      reads this
    {
      ShowsPage(v) &&
      match e
      case ContinueToQuestions => phase == Reading
      case McqCompleted(_) => phase == Mcq
      case SubmitAndCompare => phase == Coding
      case SolutionFeedback(_) => phase == Completed && solutionWorked.None?
      case TryAgain => phase == Completed && solutionWorked == Some(false)
    }

    /**
     * One user action. A control that is not on screen does nothing. Each phase is entered
     * from exactly one predecessor: mcq from reading, coding from mcq, completed from
     * coding, and reading again only after a failed attempt. At most one event is posted.
     */
    method Dispatch(v: View, e: UiEvent)
      requires Valid()
      modifies this`phase, this`timerRunning, this`solutionWorked, this`sent
      ensures Valid()
      ensures !old(Available(v, e)) ==>
                phase == old(phase) && timerRunning == old(timerRunning)
                && solutionWorked == old(solutionWorked) && sent == old(sent)
      ensures phase == Mcq && old(phase) != Mcq ==> old(phase) == Reading
      ensures phase == Coding && old(phase) != Coding ==> old(phase) == Mcq
      ensures phase == Completed && old(phase) != Completed ==> old(phase) == Coding
      ensures phase == Reading && old(phase) != Reading ==>
                old(phase) == Completed && old(solutionWorked) == Some(false)
      ensures old(solutionWorked).Some? && solutionWorked.Some? ==> solutionWorked == old(solutionWorked)
      ensures |sent| <= |old(sent)| + 1
      ensures e.ContinueToQuestions? && old(Available(v, e)) ==>
                phase == Mcq && solutionWorked == None && sent == old(sent)
      ensures e.McqCompleted? && old(Available(v, e)) ==>
                phase == Coding && timerRunning && sent == old(sent) + Recorded(v, McqData(e.score))
      ensures e.SubmitAndCompare? && old(Available(v, e)) ==>
                phase == Completed && solutionWorked == None && sent == old(sent)
      ensures e.SolutionFeedback? && old(Available(v, e)) ==>
                phase == Completed && solutionWorked == Some(e.worked)
                && sent == old(sent) + Recorded(v, FeedbackData(e.worked))
      ensures e.TryAgain? && old(Available(v, e)) ==>
                phase == Reading && solutionWorked == None && sent == old(sent)
    {
      if !Available(v, e) {
        return;
      }
      match e {
        case ContinueToQuestions => BeginQuestions();
        case McqCompleted(score) => HandleMcqComplete(v, score);
        case SubmitAndCompare => HandleCodingComplete();
        case SolutionFeedback(worked) => HandleSolutionFeedback(v, worked);
        case TryAgain => HandleTryAgain();
      }
    }
  }

  /**
   * Reading, then a quiz passed with 80: a control that is not on screen is ignored, and
   * the one event posted marks the quiz correct; coding starts with the timer on.
   */
  method PassedQuizScenario(v: View)
    requires ShowsPage(v) && CanRecord(v)
  {
    var s := new ProblemSolver();
    s.Dispatch(v, SubmitAndCompare);
    assert s.phase == Reading && s.sent == [];
    s.Dispatch(v, ContinueToQuestions);
    s.Dispatch(v, McqCompleted(80));
    assert s.phase == Coding && s.timerRunning && |s.sent| == 1;
    assert s.sent[0]["correct"] == Flag(true);
  }

  /**
   * A quiz scored 50, then completing the code and answering "No": the second answer is
   * ignored, one more event marks the attempt failed, and "Try Again" returns to reading
   * with the timer off.
   */
  method FailedAttemptScenario(v: View)
    requires ShowsPage(v) && CanRecord(v)
  {
    var s := new ProblemSolver();
    s.Dispatch(v, ContinueToQuestions);
    s.Dispatch(v, McqCompleted(50));
    var events := s.sent;
    s.Dispatch(v, SubmitAndCompare);
    s.Dispatch(v, SolutionFeedback(false));
    s.Dispatch(v, SolutionFeedback(true));
    assert s.solutionWorked == Some(false) && |s.sent| == |events| + 1;
    assert s.sent[|events|]["correct"] == Flag(false);
    s.Dispatch(v, TryAgain);
    assert s.phase == Reading && !s.timerRunning && s.solutionWorked == None;
  }
}

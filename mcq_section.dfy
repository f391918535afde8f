/**
 * The MCQ quiz shown in the `mcq` phase (src/components/MCQSection.tsx). It reads the
 * current question from the problem store, counts correct answers and reports a percentage
 * score when the last question is done.
 *
 * One `McqSection` object is one mounting of the component: its counter starts at 0, while
 * the question index lives in the store and survives remounting.
 */
module McqSection {
  import opened Common
  import opened Schemas
  import opened ProblemContext

  /** What a press of the Next / Start Coding button did. */
  datatype NextAction = Advanced | Complete(score: nat)

  /**
   * The final score: the rounded percentage of correct answers, and 100 for an empty
   * question list.
   */
  function FinalScore(correctCount: nat, total: nat): (r: nat)
    ensures total == 0 ==> r == 100
    ensures total > 0 ==> -(total as int) <= 200 * correctCount - 2 * total * r < total
    ensures correctCount <= total ==> r <= 100
    ensures total > 0 && correctCount == 0 ==> r == 0
    ensures correctCount == total ==> r == 100
  {
    if total > 0 then RoundedPercent(correctCount, total) else 100
  }

  /** With at most one correct answer out of two or more questions the score is below 80. */
  lemma AtMostOneCorrectFails(correctCount: nat, total: nat)
    requires total >= 2 && correctCount <= 1
    ensures FinalScore(correctCount, total) < 80
  {
    var r := FinalScore(correctCount, total);
    var b := 2 * total;
    assert b * r <= 200 + total;
    assert b * 80 == 160 * total;
    MulCancel(b, r, 80);
  }

  class McqSection {
    const store: ProblemStore
    var selectedAnswer: Option<int>
    var answered: bool
    var correctAnswersCount: nat
    /** The store's index when the component was mounted. */
    ghost var startIndex: nat

    /** `currentProblem?.mcqQuestions || []`. */
    function Questions(): seq<McqQuestion>
      reads store
    {
      if store.currentProblem.Some? then store.currentProblem.value.mcqQuestions else []
    }

    /** `mcqQuestions[currentMCQIndex]`, absent past the end of the list. */
    function CurrentQuestion(): (q: Option<McqQuestion>)
      reads store
      ensures |Questions()| == 0 ==> q.None?
      ensures q.Some? ==> store.currentMcqIndex < |Questions()| && q.value == Questions()[store.currentMcqIndex]
    {
      if store.currentMcqIndex < |Questions()| then Some(Questions()[store.currentMcqIndex]) else None
    }

    /**
     * Each question seen since mounting contributes at most one correct answer, the
     * current one only once it is answered; and a selection exists exactly when answered.
     */
    ghost predicate Valid()
      reads this, store
    {
      && store.Valid()
      && startIndex <= store.currentMcqIndex
      && correctAnswersCount + startIndex <= store.currentMcqIndex + (if answered then 1 else 0)
      && (answered <==> selectedAnswer.Some?)
    }

    constructor(store: ProblemStore)
      requires store.Valid()
      ensures this.store == store && Valid()
      ensures selectedAnswer == None && !answered && correctAnswersCount == 0
      ensures startIndex == store.currentMcqIndex
    {
      this.store := store;
      selectedAnswer := None;
      answered := false;
      correctAnswersCount := 0;
      startIndex := store.currentMcqIndex;
    }

    /**
     * `handleAnswerSelect`: a second answer to the same question is ignored; the first
     * one is recorded, and counts only when it is the question's `correctAnswer`. The
     * options are on screen only while there is a current question.
     */
    method HandleAnswerSelect(answerIndex: int)
      requires Valid() && CurrentQuestion().Some?
      modifies this`selectedAnswer, this`answered, this`correctAnswersCount
      ensures Valid()
      ensures old(answered) ==>
                selectedAnswer == old(selectedAnswer) && answered && correctAnswersCount == old(correctAnswersCount)
      ensures !old(answered) ==>
                selectedAnswer == Some(answerIndex) && answered
                && correctAnswersCount
                   == old(correctAnswersCount) + (if answerIndex == CurrentQuestion().value.correctAnswer then 1 else 0)
    {
      if answered {
        return;
      }
      var question := CurrentQuestion().value;
      selectedAnswer := Some(answerIndex);
      answered := true;
      if answerIndex == question.correctAnswer {
        correctAnswersCount := correctAnswersCount + 1;
      }
    }

    /**
     * `handleNext`, followed by the effect that runs when the index changes: before the
     * last question it advances and clears the selection while keeping the count; at the
     * last question it completes with the final score. The button is on screen only once
     * the current question is answered.
     */
    method HandleNext() returns (action: NextAction)
      requires Valid() && CurrentQuestion().Some? && answered
      modifies store`currentMcqIndex, this`selectedAnswer, this`answered
      ensures Valid()
      ensures correctAnswersCount == old(correctAnswersCount)
      ensures old(store.currentMcqIndex) + 1 < |Questions()| ==>
                action == Advanced && store.currentMcqIndex == old(store.currentMcqIndex) + 1
                && selectedAnswer == None && !answered
      ensures old(store.currentMcqIndex) + 1 >= |Questions()| ==>
                action == Complete(FinalScore(correctAnswersCount, |Questions()|))
                && store.currentMcqIndex == old(store.currentMcqIndex)
                && selectedAnswer == old(selectedAnswer) && answered
      ensures action.Complete? ==>
                action.score <= 100 && correctAnswersCount + startIndex <= |Questions()|
    {
      var n := |Questions()|;
      if store.currentMcqIndex < n - 1 {
        store.NextMcq();
        selectedAnswer := None;
        answered := false;
        action := Advanced;
      } else {
        action := Complete(FinalScore(correctAnswersCount, n));
      }
    }
  }

  /**
   * Retrying a quiz: the store's index is not reset when the quiz is left, so a component
   * mounted again after a completed quiz of `n >= 2` questions starts on the last question;
   * it completes at once with at most one correct answer, which scores below 80.
   */
  method RetryScenario(store: ProblemStore, answer: int) returns (score: nat)
    requires store.Valid() && store.currentProblem.Some?
    requires |store.currentProblem.value.mcqQuestions| >= 2
    requires store.currentMcqIndex == |store.currentProblem.value.mcqQuestions| - 1
    modifies store
    ensures score < 80
  {
    var quiz := new McqSection(store);
    quiz.HandleAnswerSelect(answer);
    var action := quiz.HandleNext();
    score := action.score;
    AtMostOneCorrectFails(quiz.correctAnswersCount, |quiz.Questions()|);
  }
}

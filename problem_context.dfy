/**
 * The client's problem store (src/contexts/ProblemContext.tsx): the problem being solved,
 * the fetch status, and the index of the current MCQ question.
 *
 * A fetch is split at its only suspension point: `BeginFetch` is what happens before the
 * request, `FinishFetch` what happens when it settles. The request itself is left out; its
 * outcome is a parameter.
 */
module ProblemContext {
  import opened Common
  import opened Schemas

  /** How the request for a problem settled. */
  datatype FetchOutcome =
    | Fetched(problem: Problem)      // 2xx response with a problem body
    | HttpError                      // a response that is not ok
    | NetworkError(message: string)  // the request itself failed

  /** The error message of a response that is not ok. */
  const FetchFailedMessage: string := "Failed to fetch problem"

  /** `Math.min(prev + 1, length)`: one step forward, never past the end of the list. */
  function NextIndex(i: nat, n: nat): (r: nat)
    ensures r <= n
    ensures i < n ==> r == i + 1
    ensures i >= n ==> r == n
  {
    Min(i + 1, n)
  }

  /** `k` calls of `nextMCQ` from index `i`. */
  function AdvanceTimes(i: nat, n: nat, k: nat): nat {
    if k == 0 then i else NextIndex(AdvanceTimes(i, n, k - 1), n)
  }

  /** Repeated steps from a valid index move one question at a time and stop at the end. */
  lemma {:induction false} RepeatedNext(i: nat, n: nat, k: nat)
    requires i <= n
    ensures AdvanceTimes(i, n, k) == Min(i + k, n)
  {
    if k > 0 {
      RepeatedNext(i, n, k - 1);
    }
  }

  class ProblemStore {
    var currentProblem: Option<Problem>
    var loading: bool
    var error: Option<string>
    var currentMcqIndex: nat

    /** The index never passes the question list, and stays 0 until a problem is loaded. */
    ghost predicate Valid()
      reads this
    {
      && (currentProblem.Some? ==> currentMcqIndex <= |currentProblem.value.mcqQuestions|)
      && (currentProblem.None? ==> currentMcqIndex == 0)
    }

    constructor()
      ensures Valid()
      ensures currentProblem == None && !loading && error == None && currentMcqIndex == 0
    {
      currentProblem := None;
      loading := false;
      error := None;
      currentMcqIndex := 0;
    }

    /** Start of `fetchProblem`: loading, and the previous error cleared. */
    method BeginFetch()
      modifies this`loading, this`error
      ensures loading && error == None
    {
      loading := true;
      error := None;
    }

    /**
     * End of `fetchProblem`: a fetched problem replaces the current one and the index
     * returns to 0; a failure records its message and keeps problem and index. Loading
     * ends either way.
     */
    method FinishFetch(outcome: FetchOutcome)
      requires Valid()
      modifies this`currentProblem, this`currentMcqIndex, this`error, this`loading
      ensures Valid()
      ensures !loading
      ensures outcome.Fetched? ==>
                currentProblem == Some(outcome.problem) && currentMcqIndex == 0 && error == old(error)
      ensures !outcome.Fetched? ==>
                currentProblem == old(currentProblem) && currentMcqIndex == old(currentMcqIndex)
      ensures outcome.HttpError? ==> error == Some(FetchFailedMessage)
      ensures outcome.NetworkError? ==> error == Some(outcome.message)
    {
      match outcome {
        case Fetched(p) =>
          currentProblem := Some(p);
          currentMcqIndex := 0;
        case HttpError =>
          error := Some(FetchFailedMessage);
        case NetworkError(message) =>
          error := Some(message);
      }
      loading := false;
    }

    /** The whole of `fetchProblem` for one outcome. */
    method FetchProblem(outcome: FetchOutcome)
      requires Valid()
      modifies this`currentProblem, this`currentMcqIndex, this`error, this`loading
      ensures Valid() && !loading
      ensures outcome.Fetched? ==> currentProblem == Some(outcome.problem) && currentMcqIndex == 0 && error == None
      ensures outcome.HttpError? ==> error == Some(FetchFailedMessage)
      ensures outcome.NetworkError? ==> error == Some(outcome.message)
      ensures !outcome.Fetched? ==>
                currentProblem == old(currentProblem) && currentMcqIndex == old(currentMcqIndex)
    {
      BeginFetch();
      FinishFetch(outcome);
    }

    /** `nextMCQ`: without a problem nothing happens; otherwise the clamped step forward. */
    method NextMcq()
      requires Valid()
      modifies this`currentMcqIndex
      ensures Valid()
      ensures currentProblem.None? ==> currentMcqIndex == old(currentMcqIndex)
      ensures currentProblem.Some? ==>
                currentMcqIndex == NextIndex(old(currentMcqIndex), |currentProblem.value.mcqQuestions|)
    {
      if currentProblem.Some? {
        currentMcqIndex := NextIndex(currentMcqIndex, |currentProblem.value.mcqQuestions|);
      }
    }
  }
}

/** The problem store `Frontend/src/store/useProblemStore.js`: the problem list,
    the open problem, the solved list and the two loading flags.

    Each request is given as its outcome: `Some` of the server's data when it
    succeeds, `None` when it throws. The toasts and the console are not part of
    this model. */
module ProblemStore {
  import opened Wrappers

  /** A problem as the store holds it: its id and the rest of its fields. */
  datatype Problem = Problem(id: string, fields: map<string, string>)

  /** `problems.map((p) => (p.id === id ? updated : p))`. */
  function ReplaceById(ps: seq<Problem>, id: string, updated: Problem): (r: seq<Problem>)
    ensures |r| == |ps|
    ensures forall i :: 0 <= i < |ps| ==> r[i] == if ps[i].id == id then updated else ps[i]
  {
    seq(|ps|, i requires 0 <= i < |ps| => if ps[i].id == id then updated else ps[i])
  }

  /** Replacing is idempotent, leaves a list without the id as it is, and keeps
      every position's id when the updated problem keeps its id. */
  lemma ReplaceFacts(ps: seq<Problem>, id: string, updated: Problem)
    ensures ReplaceById(ReplaceById(ps, id, updated), id, updated) == ReplaceById(ps, id, updated)
    ensures (forall i :: 0 <= i < |ps| ==> ps[i].id != id) ==> ReplaceById(ps, id, updated) == ps
    ensures updated.id == id ==> forall i :: 0 <= i < |ps| ==> ReplaceById(ps, id, updated)[i].id == ps[i].id
    ensures updated in ps ==> updated in ReplaceById(ps, id, updated)
  {
    var r := ReplaceById(ps, id, updated);
    if updated in ps {
      var k :| 0 <= k < |ps| && ps[k] == updated;
      assert r[k] == updated;
    }
  }

  /** `{ success: true }` or `{ success: false }`. */
  datatype Outcome = Outcome(success: bool)

  class ProblemStore {
    var problems: seq<Problem>
    var problem: Option<Problem>
    var solvedProblems: seq<Problem>
    var isProblemsLoading: bool
    var isProblemLoading: bool
    /** Every value `isProblemsLoading` has been set to, in order. */
    ghost var problemsLoadingLog: seq<bool>
    /** Every value `isProblemLoading` has been set to, in order. */
    ghost var problemLoadingLog: seq<bool>

    /** Neither flag is up between two operations. */
    predicate Idle()
      reads this
    {
      !isProblemsLoading && !isProblemLoading
    }

    /** The initial state. */
    constructor ()
      ensures problems == [] && problem.None? && solvedProblems == []
      ensures Idle() && problemsLoadingLog == [] && problemLoadingLog == []
    {
      problems := [];
      problem := None;
      solvedProblems := [];
      isProblemsLoading := false;
      isProblemLoading := false;
      problemsLoadingLog := [];
      problemLoadingLog := [];
    }

    /** `getAllProblems`: the flag goes up, the list is replaced when the request
        succeeds, and the flag comes down in `finally`. */
    method GetAllProblems(response: Option<seq<Problem>>)
      modifies this
      ensures problems == if response.Some? then response.value else old(problems)
      ensures !isProblemsLoading && problemsLoadingLog == old(problemsLoadingLog) + [true, false]
      ensures problem == old(problem) && solvedProblems == old(solvedProblems)
      ensures isProblemLoading == old(isProblemLoading) && problemLoadingLog == old(problemLoadingLog)
    {
      isProblemsLoading := true;
      problemsLoadingLog := problemsLoadingLog + [true];
      if response.Some? {
        problems := response.value;
      }
      isProblemsLoading := false;
      problemsLoadingLog := problemsLoadingLog + [false];
    }

    /** `getProblemById`: the same shape over the open problem and its flag. */
    method GetProblemById(response: Option<Problem>)
      modifies this
      ensures problem == if response.Some? then response else old(problem)
      ensures !isProblemLoading && problemLoadingLog == old(problemLoadingLog) + [true, false]
      ensures problems == old(problems) && solvedProblems == old(solvedProblems)
      ensures isProblemsLoading == old(isProblemsLoading) && problemsLoadingLog == old(problemsLoadingLog)
    {
      isProblemLoading := true;
      problemLoadingLog := problemLoadingLog + [true];
      if response.Some? {
        problem := response;
      }
      isProblemLoading := false;
      problemLoadingLog := problemLoadingLog + [false];
    }

    /** `updateProblem`: on success every entry with the id becomes the server's
        problem, which also becomes the open problem; on failure nothing
        changes. No loading flag is touched. */
    method UpdateProblem(id: string, response: Option<Problem>) returns (outcome: Outcome)
      modifies this
      ensures outcome.success <==> response.Some?
      ensures response.Some? ==> problems == ReplaceById(old(problems), id, response.value) && problem == response
      ensures response.None? ==> problems == old(problems) && problem == old(problem)
      ensures |problems| == |old(problems)|
      ensures solvedProblems == old(solvedProblems)
      ensures isProblemsLoading == old(isProblemsLoading) && isProblemLoading == old(isProblemLoading)
      ensures problemsLoadingLog == old(problemsLoadingLog) && problemLoadingLog == old(problemLoadingLog)
    {
      match response {
        case None =>
          return Outcome(false);
        case Some(updated) =>
          problems := ReplaceById(problems, id, updated);
          problem := Some(updated);
          return Outcome(true);
      }
    }

    /** `getSolvedProblemByUser`: the solved list is replaced when the request
        succeeds; there is no loading flag. */
    method GetSolvedProblemByUser(response: Option<seq<Problem>>)
      modifies this
      ensures solvedProblems == if response.Some? then response.value else old(solvedProblems)
      ensures problems == old(problems) && problem == old(problem)
      ensures isProblemsLoading == old(isProblemsLoading) && isProblemLoading == old(isProblemLoading)
      ensures problemsLoadingLog == old(problemsLoadingLog) && problemLoadingLog == old(problemLoadingLog)
    {
      if response.Some? {
        solvedProblems := response.value;
      }
    }
  }
}

/** The problem-authoring handlers of `Backend/src/controllers/problems.controller.js`:
    `createProblem` and `updateProblem` run every reference solution against the
    problem's test cases on the execution service before they write to the
    database; `deleteProblem` removes an existing problem. The database is a map
    from problem id to stored row. */
module ProblemsController {
  import opened Wrappers
  import opened Text
  import opened Judge0

  datatype TestCase = TestCase(input: string, output: string)

  /** The authenticated caller, `req.user`. */
  datatype User = User(id: string, role: string)

  /** The parts of `req.body` the handlers read. `referenceSolutions` lists the
      `[language, code]` pairs of `Object.entries`, in that order; `None` is a
      missing field. Every other field is copied into the row and is `details`. */
  datatype ProblemBody = ProblemBody(
    referenceSolutions: Option<seq<(string, string)>>,
    testcases: Option<seq<TestCase>>,
    details: string)

  datatype StoredProblem = StoredProblem(body: ProblemBody, userId: string)

  type Db = map<string, StoredProblem>

  /** An HTTP answer: a status with the `error`/`message` text it carries (`None`
      for the message of a caught exception), or no answer at all. */
  datatype Reply = Reply(status: nat, text: Option<string>) | NoReply

  /** What running one language's reference solution decided. `FailedAt` carries
      the 1-based position of the first result whose status is not Accepted. */
  datatype LanguageOutcome = Passed | Unsupported | FailedAt(position: nat) | Threw

  /** `testcases.map(({ input, output }) => ({ source_code, language_id, stdin: input, expected_output: output }))`. */
  function BuildSubmissions(code: string, id: LanguageId, testcases: seq<TestCase>): (subs: seq<Submission>)
    ensures |subs| == |testcases|
    ensures forall i :: 0 <= i < |testcases| ==>
      subs[i] == Submission(code, id, testcases[i].input, Some(testcases[i].output))
  {
    if testcases == [] then []
    else [Submission(code, id, testcases[0].input, Some(testcases[0].output))] + BuildSubmissions(code, id, testcases[1..])
  }

  /** The index of the first result whose status id is not 3 (Accepted), if any. */
  function FirstRejected(results: seq<ExecResult>): (r: Option<nat>)
    ensures r.None? <==> forall i :: 0 <= i < |results| ==> results[i].status.id == ACCEPTED
    ensures r.Some? ==> r.value < |results| && results[r.value].status.id != ACCEPTED
    ensures r.Some? ==> forall i :: 0 <= i < r.value ==> results[i].status.id == ACCEPTED
  {
    if results == [] then None
    else if results[0].status.id != ACCEPTED then Some(0)
    else
      var rest := FirstRejected(results[1..]);
      assert forall i :: 1 <= i < |results| ==> results[i] == results[1..][i - 1];
      if rest.None? then None else Some(rest.value + 1)
  }

  /** The `for (let i = 0; i < results.length; i++)` scan of both handlers: stops at
      the first result that is not Accepted. */
  method ScanResults(results: seq<ExecResult>) returns (failed: Option<nat>)
    ensures failed == FirstRejected(results)
    ensures failed.None? <==> forall i :: 0 <= i < |results| ==> results[i].status.id == ACCEPTED
    ensures failed.Some? ==> failed.value < |results| && results[failed.value].status.id != ACCEPTED
    ensures failed.Some? ==> forall i :: 0 <= i < failed.value ==> results[i].status.id == ACCEPTED
  {
    var i := 0;
    while i < |results|
      invariant 0 <= i <= |results|
      invariant forall j :: 0 <= j < i ==> results[j].status.id == ACCEPTED
    {
      if results[i].status.id != ACCEPTED {
        return Some(i);
      }
      i := i + 1;
    }
    return None;
  }

  /** One pass of the language loop body: resolve the id, build one submission per
      test case, submit, poll, and scan the results. */
  function RunLanguage(e: Engine, lang: string, code: string, testcases: Option<seq<TestCase>>): LanguageOutcome {
    match e.languageId(lang)
    case None => Unsupported
    case Some(id) =>
      if testcases.None? then Threw
      else match e.submitBatch(BuildSubmissions(code, id, testcases.value))
        case None => Threw
        case Some(receipts) =>
          match e.pollBatchResults(Tokens(receipts))
          case None => Threw
          case Some(results) =>
            match FirstRejected(results)
            case None => Passed
            case Some(i) => FailedAt(i + 1)
  }

  /** `Language ${language} is not supported`. */
  function UnsupportedMessage(lang: string): string {
    "Language " + lang + " is not supported"
  }

  /** `Testcase ${i + 1} failed for language ${language}`. */
  function FailedMessage(position: nat, lang: string): string {
    "Testcase " + NatToString(position) + " failed for language " + lang
  }

  /** The languages' verdict, in entry order: the first one that did not pass, or
      `None` when every language passed. */
  function FirstStop(e: Engine, entries: seq<(string, string)>, testcases: Option<seq<TestCase>>): Option<(string, LanguageOutcome)> {
    if entries == [] then None
    else
      var outcome := RunLanguage(e, entries[0].0, entries[0].1, testcases);
      if outcome.Passed? then FirstStop(e, entries[1..], testcases) else Some((entries[0].0, outcome))
  }

  /** No language is checked after the first one that fails, and the update gate
      opens exactly when every language passes every test case. */
  lemma {:induction false} FirstStopFacts(e: Engine, entries: seq<(string, string)>, testcases: Option<seq<TestCase>>)
    ensures FirstStop(e, entries, testcases).None? <==>
      forall k :: 0 <= k < |entries| ==> RunLanguage(e, entries[k].0, entries[k].1, testcases).Passed?
    ensures FirstStop(e, entries, testcases).Some? ==>
      exists k :: 0 <= k < |entries| &&
        FirstStop(e, entries, testcases).value == (entries[k].0, RunLanguage(e, entries[k].0, entries[k].1, testcases)) &&
        !RunLanguage(e, entries[k].0, entries[k].1, testcases).Passed? &&
        forall j :: 0 <= j < k ==> RunLanguage(e, entries[j].0, entries[j].1, testcases).Passed?
  {
    if entries != [] {
      FirstStopFacts(e, entries[1..], testcases);
      assert forall k :: 1 <= k < |entries| ==> entries[k] == entries[1..][k - 1];
      var outcome := RunLanguage(e, entries[0].0, entries[0].1, testcases);
      if outcome.Passed? && FirstStop(e, entries[1..], testcases).Some? {
        var k' :| 0 <= k' < |entries| - 1 &&
          FirstStop(e, entries[1..], testcases).value == (entries[1..][k'].0, RunLanguage(e, entries[1..][k'].0, entries[1..][k'].1, testcases)) &&
          !RunLanguage(e, entries[1..][k'].0, entries[1..][k'].1, testcases).Passed? &&
          forall j :: 0 <= j < k' ==> RunLanguage(e, entries[1..][j].0, entries[1..][j].1, testcases).Passed?;
        assert forall j :: 0 <= j < k' + 1 ==> RunLanguage(e, entries[j].0, entries[j].1, testcases).Passed?;
      }
    }
  }

  /** The answer and database for a stopped language loop (400 for a rejected
      language, the handler's catch for a thrown call). */
  function StopReply(lang: string, outcome: LanguageOutcome, thrown: Reply): Reply {
    match outcome
    case Unsupported => Reply(400, Some(UnsupportedMessage(lang)))
    case FailedAt(p) => Reply(400, Some(FailedMessage(p, lang)))
    case _ => thrown
  }

  /** `createProblem`. Only admins get past the role check. The loop over the
      languages returns in its first iteration: after the first language passes,
      the problem is created under the fresh id `newId` and 201 is sent, so the
      other languages are never run. An empty `referenceSolutions` skips the loop
      and sends nothing; a missing one makes `Object.entries` throw (401). */
  method CreateProblem(e: Engine, db: Db, user: User, body: ProblemBody, newId: string) returns (reply: Reply, db': Db)
    requires newId !in db
    ensures user.role != "ADMIN" ==> reply == Reply(403, Some("You are not allowed to create a problem")) && db' == db
    ensures user.role == "ADMIN" && body.referenceSolutions.None? ==> reply == Reply(401, Some("Error creating problem")) && db' == db
    ensures user.role == "ADMIN" && body.referenceSolutions == Some([]) ==> reply == NoReply && db' == db
    ensures user.role == "ADMIN" && body.referenceSolutions.Some? && body.referenceSolutions.value != [] ==>
      var (lang, code) := body.referenceSolutions.value[0];
      var outcome := RunLanguage(e, lang, code, body.testcases);
      if outcome.Passed? then
        reply == Reply(201, Some("Problem created Successfully")) && db' == db[newId := StoredProblem(body, user.id)]
      else
        reply == StopReply(lang, outcome, Reply(401, Some("Error creating problem"))) && db' == db
    ensures db' != db ==> reply.Reply? && reply.status == 201
  {
    if user.role != "ADMIN" {
      return Reply(403, Some("You are not allowed to create a problem")), db;
    }
    if body.referenceSolutions.None? {
      return Reply(401, Some("Error creating problem")), db;
    }
    var entries := body.referenceSolutions.value;
    // Every path through the source's loop body returns, so the loop runs at most once.
    if entries != [] {
      var (lang, code) := entries[0];
      var id := e.languageId(lang);
      if id.None? {
        return Reply(400, Some(UnsupportedMessage(lang))), db;
      }
      if body.testcases.None? {
        return Reply(401, Some("Error creating problem")), db;
      }
      var submissions := BuildSubmissions(code, id.value, body.testcases.value);
      var receipts := e.submitBatch(submissions);
      if receipts.None? {
        return Reply(401, Some("Error creating problem")), db;
      }
      var results := e.pollBatchResults(Tokens(receipts.value));
      if results.None? {
        return Reply(401, Some("Error creating problem")), db;
      }
      var failed := ScanResults(results.value);
      if failed.Some? {
        return Reply(400, Some(FailedMessage(failed.value + 1, lang))), db;
      }
      db' := db[newId := StoredProblem(body, user.id)];
      return Reply(201, Some("Problem created Successfully")), db';
    }
    return NoReply, db;
  }

  /** `updateProblem`. Non-admins get 403 and an unknown id 404 before any
      language is run. Every language is then run in entry order (a missing
      `referenceSolutions` counts as `{}`), and the row is overwritten only after
      all of them passed every test case. A thrown call answers 500 with the
      exception's message. */
  method UpdateProblem(e: Engine, db: Db, user: User, id: string, body: ProblemBody) returns (reply: Reply, db': Db)
    ensures user.role != "ADMIN" ==> reply == Reply(403, Some("You are not allowed to update a problem")) && db' == db
    ensures user.role == "ADMIN" && id !in db ==> reply == Reply(404, Some("Problem not found")) && db' == db
    ensures user.role == "ADMIN" && id in db ==>
      var stop := FirstStop(e, body.referenceSolutions.GetOr([]), body.testcases);
      if stop.None? then
        reply == Reply(200, Some("Problem updated successfully")) && db' == db[id := StoredProblem(body, user.id)]
      else
        reply == StopReply(stop.value.0, stop.value.1, Reply(500, None)) && db' == db
    ensures db' != db ==> reply == Reply(200, Some("Problem updated successfully"))
  {
    if user.role != "ADMIN" {
      return Reply(403, Some("You are not allowed to update a problem")), db;
    }
    if id !in db {
      return Reply(404, Some("Problem not found")), db;
    }
    var entries := body.referenceSolutions.GetOr([]);
    var k := 0;
    while k < |entries|
      invariant 0 <= k <= |entries|
      invariant FirstStop(e, entries, body.testcases) == FirstStop(e, entries[k..], body.testcases)
    {
      assert entries[k..][1..] == entries[k + 1..];
      var (lang, code) := entries[k];
      var languageId := e.languageId(lang);
      if languageId.None? {
        return Reply(400, Some(UnsupportedMessage(lang))), db;
      }
      if body.testcases.None? {
        return Reply(500, None), db;
      }
      var submissions := BuildSubmissions(code, languageId.value, body.testcases.value);
      var receipts := e.submitBatch(submissions);
      if receipts.None? {
        return Reply(500, None), db;
      }
      var results := e.pollBatchResults(Tokens(receipts.value));
      if results.None? {
        return Reply(500, None), db;
      }
      var failed := ScanResults(results.value);
      if failed.Some? {
        return Reply(400, Some(FailedMessage(failed.value + 1, lang))), db;
      }
      k := k + 1;
    }
    db' := db[id := StoredProblem(body, user.id)];
    reply := Reply(200, Some("Problem updated successfully"));
  }

  /** `deleteProblem`: 404 and no change for an unknown id; otherwise the row is
      removed and 200 is sent. */
  function DeleteProblem(db: Db, id: string): (result: (Reply, Db))
    ensures id !in db ==> result == (Reply(404, Some("Problem Not Found")), db)
    ensures id in db ==> result.0 == Reply(200, Some("Problem deleted Successfully"))
    ensures id in db ==> id !in result.1 && forall other :: other in db && other != id ==> other in result.1 && result.1[other] == db[other]
    ensures result.1.Keys <= db.Keys
  {
    if id !in db then (Reply(404, Some("Problem Not Found")), db)
    else (Reply(200, Some("Problem deleted Successfully")), db - {id})
  }

  /** Once the service has answered, a language passes exactly when every
      result is Accepted, and a failing language is reported at the lowest
      1-based position whose result is not Accepted. */
  lemma RunLanguageVerdict(e: Engine, lang: string, code: string, testcases: seq<TestCase>,
                           id: LanguageId, receipts: seq<Receipt>, results: seq<ExecResult>)
    requires e.languageId(lang) == Some(id)
    requires e.submitBatch(BuildSubmissions(code, id, testcases)) == Some(receipts)
    requires e.pollBatchResults(Tokens(receipts)) == Some(results)
    ensures RunLanguage(e, lang, code, Some(testcases)).Passed? <==>
      forall i :: 0 <= i < |results| ==> results[i].status.id == ACCEPTED
    ensures RunLanguage(e, lang, code, Some(testcases)).Passed? || RunLanguage(e, lang, code, Some(testcases)).FailedAt?
    ensures forall p: nat :: RunLanguage(e, lang, code, Some(testcases)) == FailedAt(p) ==>
      1 <= p <= |results| && results[p - 1].status.id != ACCEPTED &&
      forall i :: 0 <= i < p - 1 ==> results[i].status.id == ACCEPTED
  {
  }
}

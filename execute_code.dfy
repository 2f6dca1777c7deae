/** The run-code handler `executeCode` of `Backend/src/controllers/executeCode.controller.js`:
    it checks the request, submits one execution per stdin entry, polls the
    results and judges each against the expected output.

    The handler as written cannot report anything (see `ExecuteAsWritten`); the
    rest of this module states the rule it evidently intends (`Execute`). */
module ExecuteCode {
  import opened Wrappers
  import opened Text
  import opened Judge0

  /** The fields of `req.body` the handler reads; `None` is a field that is not an array. */
  datatype RunRequest = RunRequest(sourceCode: string, languageId: int, stdin: Option<seq<string>>, expectedOutputs: Option<seq<string>>)

  /** One entry of `detailedResults`. */
  datatype TestReport = TestReport(
    testCase: nat,
    passed: bool,
    stdout: Option<string>,
    expected: Option<string>,
    stderr: Option<string>,
    compileOutput: Option<string>,
    status: string,
    memory: Option<string>,
    time: Option<string>)

  /** The handler's answers: 400 for a bad request, 200 "Code Executed!" (with the
      per-test reports and the overall flag where they are sent), 500, or none. */
  datatype RunReply =
    | Rejected(error: string)
    | Executed(details: Option<(seq<TestReport>, bool)>)
    | ServerError
    | NoReply

  /** The guard: `stdin` must be a non-empty array and `expected_outputs` an array
      of the same length. */
  predicate ValidRequest(r: RunRequest) {
    r.stdin.Some? && |r.stdin.value| != 0 && r.expectedOutputs.Some? && |r.expectedOutputs.value| == |r.stdin.value|
  }

  /** `stdin.map((input) => ({ source_code, language_id, stdin: input }))`: no expected output is sent. */
  function RunSubmissions(code: string, languageId: int, stdin: seq<string>): (subs: seq<Submission>)
    ensures |subs| == |stdin|
    ensures forall i :: 0 <= i < |stdin| ==> subs[i] == Submission(code, languageId, stdin[i], None)
  {
    if stdin == [] then [] else [Submission(code, languageId, stdin[0], None)] + RunSubmissions(code, languageId, stdin[1..])
  }

  /** `x?.trim()`. */
  function TrimOpt(x: Option<string>): Option<string> {
    match x
    case None => None
    case Some(s) => Some(Trim(s))
  }

  /** `expected_outputs[i]?.trim()`: undefined past the end of the array. */
  function ExpectedAt(expected: seq<string>, i: nat): Option<string> {
    if i < |expected| then Some(Trim(expected[i])) else None
  }

  /** `x || null` for a string field: the empty string reads as missing. */
  function OrNull(x: Option<string>): Option<string> {
    if x == Some("") then None else x
  }

  /** The verdict of test `i`: the trimmed stdout equals the trimmed expected
      output (two undefined values are equal); the status is not consulted. */
  predicate Passes(result: ExecResult, expected: seq<string>, i: nat) {
    TrimOpt(result.stdout) == ExpectedAt(expected, i)
  }

  /** The record built for result `i`. */
  function Report(result: ExecResult, expected: seq<string>, i: nat): (t: TestReport)
    ensures t.testCase == i + 1
    ensures t.passed <==> Passes(result, expected, i)
    ensures t.stdout == TrimOpt(result.stdout) && t.expected == ExpectedAt(expected, i)
    ensures t.status == result.status.description
    ensures t.stderr.None? <==> result.stderr.None? || result.stderr == Some("")
    ensures t.stderr.Some? ==> t.stderr == result.stderr
    ensures t.compileOutput.None? <==> result.compileOutput.None? || result.compileOutput == Some("")
    ensures t.compileOutput.Some? ==> t.compileOutput == result.compileOutput
    ensures t.memory.Some? <==> result.memory.Some? && result.memory.value != 0
    ensures t.memory.Some? ==> t.memory.value == NatToString(result.memory.value) + " KB"
    ensures t.time.Some? <==> result.time.Some? && result.time.value != ""
    ensures t.time.Some? ==> t.time.value == result.time.value + " s"
  {
    TestReport(
      i + 1,
      Passes(result, expected, i),
      TrimOpt(result.stdout),
      ExpectedAt(expected, i),
      OrNull(result.stderr),
      OrNull(result.compileOutput),
      result.status.description,
      if result.memory.Some? && result.memory.value != 0 then Some(NatToString(result.memory.value) + " KB") else None,
      if result.time.Some? && result.time.value != "" then Some(result.time.value + " s") else None)
  }

  /** The intended `results.map(...)` with its `allPassed` flag: one report per
      result, in result order, and the flag, which starts true and is cleared by
      every test that does not pass. */
  method JudgeResults(results: seq<ExecResult>, expected: seq<string>) returns (reports: seq<TestReport>, allPassed: bool)
    ensures |reports| == |results|
    ensures forall i :: 0 <= i < |results| ==> reports[i] == Report(results[i], expected, i)
    ensures allPassed <==> forall i :: 0 <= i < |results| ==> reports[i].passed
    ensures allPassed <==> forall i :: 0 <= i < |results| ==> Passes(results[i], expected, i)
  {
    reports := [];
    allPassed := true;
    var i := 0;
    while i < |results|
      invariant 0 <= i <= |results|
      invariant |reports| == i
      invariant forall j :: 0 <= j < i ==> reports[j] == Report(results[j], expected, j)
      invariant allPassed <==> forall j :: 0 <= j < i ==> Passes(results[j], expected, j)
    {
      var report := Report(results[i], expected, i);
      if !report.passed {
        allPassed := false;
      }
      reports := reports + [report];
      i := i + 1;
    }
  }

  /** `submitResponse.map((res) => res.tokens)`: the property read does not exist
      on a receipt, so every token is undefined. */
  function TokensAsWritten(receipts: seq<Receipt>): (tokens: seq<Option<string>>)
    ensures |tokens| == |receipts|
  {
    seq(|receipts|, i requires 0 <= i < |receipts| => None)
  }

  /** The handler as written. `passed` is assigned and read without a declaration,
      which throws a ReferenceError in an ES module as soon as the first result is
      judged; the empty `catch` then swallows it, and every thrown call, without
      answering. Only an empty result list reaches the 200, and that answer
      carries no results. */
  function ExecuteAsWritten(e: Engine, r: RunRequest): (reply: RunReply)
    ensures !ValidRequest(r) <==> reply == Rejected("Invalid or Missing test cases")
    ensures !reply.ServerError?
    ensures reply.Executed? ==> reply.details.None?
  {
    if !ValidRequest(r) then Rejected("Invalid or Missing test cases")
    else match e.submitBatch(RunSubmissions(r.sourceCode, r.languageId, r.stdin.value))
      case None => NoReply
      case Some(receipts) =>
        match e.pollBatchResults(TokensAsWritten(receipts))
        case None => NoReply
        case Some(results) => if results == [] then Executed(None) else NoReply
  }

  /** The handler as intended: tokens read from `token`, the reports and the flag
      sent with the 200, and a failed call answered with 500. */
  method Execute(e: Engine, r: RunRequest) returns (reply: RunReply)
    ensures !ValidRequest(r) <==> reply == Rejected("Invalid or Missing test cases")
    ensures reply.Executed? ==> reply.details.Some?
    ensures reply.Executed? ==> exists receipts, results ::
      e.submitBatch(RunSubmissions(r.sourceCode, r.languageId, r.stdin.value)) == Some(receipts) &&
      e.pollBatchResults(Tokens(receipts)) == Some(results) &&
      |reply.details.value.0| == |results| &&
      (forall i :: 0 <= i < |results| ==> reply.details.value.0[i] == Report(results[i], r.expectedOutputs.value, i)) &&
      (reply.details.value.1 <==> forall i :: 0 <= i < |results| ==> Passes(results[i], r.expectedOutputs.value, i))
    ensures ValidRequest(r) ==> reply.Executed? || reply.ServerError?
    ensures ValidRequest(r) ==>
      (reply.ServerError? <==>
        e.submitBatch(RunSubmissions(r.sourceCode, r.languageId, r.stdin.value)).None? ||
        e.pollBatchResults(Tokens(e.submitBatch(RunSubmissions(r.sourceCode, r.languageId, r.stdin.value)).value)).None?)
  {
    if !ValidRequest(r) {
      return Rejected("Invalid or Missing test cases");
    }
    var receipts := e.submitBatch(RunSubmissions(r.sourceCode, r.languageId, r.stdin.value));
    if receipts.None? {
      return ServerError;
    }
    var results := e.pollBatchResults(Tokens(receipts.value));
    if results.None? {
      return ServerError;
    }
    var reports, allPassed := JudgeResults(results.value, r.expectedOutputs.value);
    reply := Executed(Some((reports, allPassed)));
  }

  /** Findings on the handler as written: a request that passes the guard and
      gets results back is never answered. */
  lemma AsWrittenNeverReports(e: Engine, r: RunRequest, receipts: seq<Receipt>, results: seq<ExecResult>)
    requires ValidRequest(r)
    requires e.submitBatch(RunSubmissions(r.sourceCode, r.languageId, r.stdin.value)) == Some(receipts)
    requires e.pollBatchResults(TokensAsWritten(receipts)) == Some(results)
    requires results != []
    ensures ExecuteAsWritten(e, r) == NoReply
  {
  }

  /** Findings on the handler as written: no token reaches the poll, while the
      intended read hands over every receipt's token. */
  lemma {:induction false} AsWrittenLosesTokens(receipts: seq<Receipt>)
    requires receipts != []
    ensures forall i :: 0 <= i < |receipts| ==> TokensAsWritten(receipts)[i] == None
    ensures TokensAsWritten(receipts) != Tokens(receipts)
  {
    assert Tokens(receipts)[0] == Some(receipts[0].token);
  }

  /** Findings on the handler as written: whatever it answers, it never sends a
      test report, and a failed call goes unanswered. */
  lemma AsWrittenSendsNoReports(e: Engine, r: RunRequest)
    ensures ExecuteAsWritten(e, r).Executed? ==> ExecuteAsWritten(e, r).details.None?
    ensures ValidRequest(r) && e.submitBatch(RunSubmissions(r.sourceCode, r.languageId, r.stdin.value)).None? ==>
      ExecuteAsWritten(e, r) == NoReply
  {
  }
}

/** The problem page `Frontend/src/page/ProblemPage.jsx`: the editor text shown
    for a language, the test-case view and the run-code request it sends. */
module ProblemPage {
  import opened Wrappers
  import ExecuteCode

  datatype TestCase = TestCase(input: string, output: string)

  /** The fields of the loaded problem the page reads; `None` is a missing field. */
  datatype Problem = Problem(codeSnippets: Option<map<string, string>>, testcases: Option<seq<TestCase>>)

  /** `problem?.codeSnippets?.[lang] || ""`: the language's snippet, or "" when the
      problem, its snippets or the language's entry is missing. */
  function SnippetFor(problem: Option<Problem>, lang: string): (code: string)
    ensures problem.Some? && problem.value.codeSnippets.Some? && lang in problem.value.codeSnippets.value ==>
      code == problem.value.codeSnippets.value[lang]
    ensures !(problem.Some? && problem.value.codeSnippets.Some? && lang in problem.value.codeSnippets.value) ==>
      code == ""
  {
    if problem.Some? && problem.value.codeSnippets.Some? && lang in problem.value.codeSnippets.value
    then problem.value.codeSnippets.value[lang]
    else ""
  }

  /** `problem.testcases?.map(tc => ({ input: tc.input, output: tc.output })) || []`. */
  function TestcasesView(problem: Problem): (view: seq<TestCase>)
    ensures problem.testcases.None? ==> view == []
    ensures problem.testcases.Some? ==> |view| == |problem.testcases.value|
    ensures problem.testcases.Some? ==> forall i :: 0 <= i < |view| ==>
      view[i].input == problem.testcases.value[i].input && view[i].output == problem.testcases.value[i].output
  {
    match problem.testcases
    case None => []
    case Some(tcs) => seq(|tcs|, i requires 0 <= i < |tcs| => TestCase(tcs[i].input, tcs[i].output))
  }

  /** The page state the effect and the language selector replace. */
  datatype View = View(selectedLanguage: string, code: string, testcases: seq<TestCase>)

  /** The effect on `[problem, selectedLanguage]`: with a problem and a non-empty
      language, the editor shows that language's snippet and the test-case view is
      rebuilt; otherwise nothing changes. */
  function OnProblemLoaded(v: View, problem: Option<Problem>): (v': View)
    ensures problem.None? || v.selectedLanguage == "" ==> v' == v
    ensures problem.Some? && v.selectedLanguage != "" ==>
      v' == View(v.selectedLanguage, SnippetFor(problem, v.selectedLanguage), TestcasesView(problem.value))
  {
    if problem.Some? && v.selectedLanguage != "" then
      v.(code := SnippetFor(problem, v.selectedLanguage), testcases := TestcasesView(problem.value))
    else v
  }

  /** `handleLanguageChange`: the language becomes `lang` and the editor shows its
      snippet, or "" when there is none. */
  function ChangeLanguage(v: View, problem: Option<Problem>, lang: string): (v': View)
    ensures v'.selectedLanguage == lang && v'.testcases == v.testcases
    ensures v'.code == SnippetFor(problem, lang)
  {
    v.(selectedLanguage := lang, code := SnippetFor(problem, lang))
  }

  /** `problem.testcases.map(tc => tc.input)`. */
  function Inputs(tcs: seq<TestCase>): seq<string> {
    seq(|tcs|, i requires 0 <= i < |tcs| => tcs[i].input)
  }

  /** `problem.testcases.map(tc => tc.output)`. */
  function Outputs(tcs: seq<TestCase>): seq<string> {
    seq(|tcs|, i requires 0 <= i < |tcs| => tcs[i].output)
  }

  /** `handleRunCode`: the request sent to the run-code endpoint, built from one
      test-case list; a missing list throws inside the `try` and nothing is sent.
      The language table behind `getLanguageId` is not part of this model and is
      given as `languageId`. */
  function RunRequestFor(problem: Problem, code: string, lang: string, languageId: string -> int): (req: Option<ExecuteCode.RunRequest>)
    ensures problem.testcases.None? <==> req.None?
    ensures req.Some? ==> req.value.sourceCode == code && req.value.languageId == languageId(lang)
    ensures req.Some? ==> req.value.stdin.Some? && req.value.expectedOutputs.Some?
    ensures req.Some? ==> |req.value.stdin.value| == |req.value.expectedOutputs.value| == |problem.testcases.value|
    ensures req.Some? ==> forall i :: 0 <= i < |problem.testcases.value| ==>
      req.value.stdin.value[i] == problem.testcases.value[i].input &&
      req.value.expectedOutputs.value[i] == problem.testcases.value[i].output
  {
    match problem.testcases
    case None => None
    case Some(tcs) => Some(ExecuteCode.RunRequest(code, languageId(lang), Some(Inputs(tcs)), Some(Outputs(tcs))))
  }

  /** The Run button: `disabled={isExecuting}`, so a click while a run is in
      progress sends nothing. */
  function RunClick(isExecuting: bool, problem: Problem, code: string, lang: string, languageId: string -> int): (req: Option<ExecuteCode.RunRequest>)
    ensures isExecuting ==> req.None?
    ensures !isExecuting ==> req == RunRequestFor(problem, code, lang, languageId)
  {
    if isExecuting then None else RunRequestFor(problem, code, lang, languageId)
  }

  /** What the page sends always meets the run-code endpoint's guard exactly when
      the problem has at least one test case. */
  lemma {:induction false} RunRequestMeetsGuard(problem: Problem, code: string, lang: string, languageId: string -> int)
    requires problem.testcases.Some?
    ensures ExecuteCode.ValidRequest(RunRequestFor(problem, code, lang, languageId).value) <==> |problem.testcases.value| != 0
  {
    var req := RunRequestFor(problem, code, lang, languageId).value;
    assert |req.stdin.value| == |req.expectedOutputs.value| == |problem.testcases.value|;
  }
}

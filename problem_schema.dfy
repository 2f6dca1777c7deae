/** The two zod schemas a problem definition is checked against:
    `problemSchema` of `Frontend/src/schemas/problemSchema.js` (examples keyed by
    language) and the live schema of `Frontend/src/components/CreateProblemForm.jsx`
    (examples as a list), the form's default values and its submit handler.

    Each schema is given twice: as a declarative predicate, and as the list of
    issues zod reports, in field order; the two agree. A string's length is its
    number of characters. */
module ProblemSchema {
  import opened Wrappers
  import opened Text

  datatype TestCase = TestCase(input: string, output: string)

  datatype Example = Example(input: string, output: string, explanation: Option<string>)

  /** `examples` as received: an object keyed by language, or an array. */
  datatype Examples = Keyed(byLanguage: map<string, Example>) | Listed(items: seq<Example>)

  /** The definition being validated; a missing language key is a missing map key. */
  datatype ProblemInput = ProblemInput(
    title: string,
    description: string,
    difficuilty: string,
    tags: seq<string>,
    constraints: string,
    hints: Option<string>,
    editorial: Option<string>,
    testcases: seq<TestCase>,
    examples: Examples,
    codeSnippets: map<string, string>,
    referenceSolutions: map<string, string>)

  /** One reported problem: the dotted path of the field and the message. */
  datatype Issue = Issue(path: string, message: string)

  const Languages: seq<string> := ["JAVASCRIPT", "PYTHON", "JAVA"]

  /** `z.enum(["EASY", "MEDIUM", "HARD"])`. */
  predicate IsDifficulty(d: string) {
    d == "EASY" || d == "MEDIUM" || d == "HARD"
  }

  predicate CaseOk(tc: TestCase) {
    |tc.input| >= 1 && |tc.output| >= 1
  }

  predicate ExampleOk(e: Example) {
    |e.input| >= 1 && |e.output| >= 1
  }

  /** An object with a non-empty string under each of the three language keys. */
  predicate CodeComplete(m: map<string, string>) {
    forall l :: l in Languages ==> l in m && |m[l]| >= 1
  }

  /** The rules both schemas share up to the examples: title, description,
      difficulty, tags, constraints and test cases. `hints` and `editorial` are
      optional and unconstrained. */
  predicate HeadRules(p: ProblemInput) {
    |p.title| >= 3 &&
    |p.description| >= 10 &&
    IsDifficulty(p.difficuilty) &&
    |p.tags| >= 1 &&
    |p.constraints| >= 1 &&
    |p.testcases| >= 1 &&
    (forall i :: 0 <= i < |p.testcases| ==> CaseOk(p.testcases[i]))
  }

  /** All the rules both schemas share. */
  predicate CommonRules(p: ProblemInput) {
    HeadRules(p) && CodeComplete(p.codeSnippets) && CodeComplete(p.referenceSolutions)
  }

  /** `problemSchema.js`: examples is an object with a valid example under each
      language key. */
  predicate FileSchemaAccepts(p: ProblemInput) {
    CommonRules(p) && KeyedExamplesOk(p.examples)
  }

  /** A valid example under each language key. */
  predicate KeyedExamplesOk(ex: Examples) {
    ex.Keyed? && forall l :: l in Languages ==> l in ex.byLanguage && ExampleOk(ex.byLanguage[l])
  }

  /** The form's schema: examples is a non-empty list of valid examples. */
  predicate FormSchemaAccepts(p: ProblemInput) {
    CommonRules(p) &&
    p.examples.Listed? &&
    |p.examples.items| >= 1 &&
    forall i :: 0 <= i < |p.examples.items| ==> ExampleOk(p.examples.items[i])
  }

  /** A rule's issue, or none when the rule holds. */
  function Check(ok: bool, path: string, message: string): (issues: seq<Issue>)
    ensures issues == [] <==> ok
  {
    if ok then [] else [Issue(path, message)]
  }

  /** zod's message for a string shorter than `min(1)` without a custom message. */
  const TooShort: string := "String must contain at least 1 character(s)"

  /** The issues of every test case, in order: `testcases.<i>.input` and `.output`. */
  function CaseIssues(tcs: seq<TestCase>): (issues: seq<Issue>)
    ensures issues == [] <==> forall i :: 0 <= i < |tcs| ==> CaseOk(tcs[i])
  {
    if tcs == [] then []
    else
      var i := |tcs| - 1;
      var prefix := "testcases." + NatToString(i);
      CaseIssues(tcs[..i]) +
      Check(|tcs[i].input| >= 1, prefix + ".input", "Input is required") +
      Check(|tcs[i].output| >= 1, prefix + ".output", "Output is required")
  }

  /** The issues of every listed example, in order. */
  function ExampleListIssues(es: seq<Example>): (issues: seq<Issue>)
    ensures issues == [] <==> forall i :: 0 <= i < |es| ==> ExampleOk(es[i])
  {
    if es == [] then []
    else
      var i := |es| - 1;
      var prefix := "examples." + NatToString(i);
      ExampleListIssues(es[..i]) +
      Check(|es[i].input| >= 1, prefix + ".input", "Input is required") +
      Check(|es[i].output| >= 1, prefix + ".output", "Output is required")
  }

  /** The issues of one language key of an object of strings. */
  function CodeKeyIssues(m: map<string, string>, field: string, lang: string, message: string): (issues: seq<Issue>)
    ensures issues == [] <==> lang in m && |m[lang]| >= 1
  {
    if lang !in m then [Issue(field + "." + lang, "Required")]
    else Check(|m[lang]| >= 1, field + "." + lang, message)
  }

  /** The issues of one language key of the keyed examples. */
  function ExampleKeyIssues(m: map<string, Example>, lang: string): (issues: seq<Issue>)
    ensures issues == [] <==> lang in m && ExampleOk(m[lang])
  {
    if lang !in m then [Issue("examples." + lang, "Required")]
    else
      Check(|m[lang].input| >= 1, "examples." + lang + ".input", TooShort) +
      Check(|m[lang].output| >= 1, "examples." + lang + ".output", TooShort)
  }

  lemma LanguagesListed(l: string)
    ensures l in Languages <==> l == "JAVASCRIPT" || l == "PYTHON" || l == "JAVA"
  {
  }

  /** The issues of the fields before `examples`, which both schemas check alike. */
  function HeadIssues(p: ProblemInput): (issues: seq<Issue>)
    ensures issues == [] <==> HeadRules(p)
  {
    Check(|p.title| >= 3, "title", "Title must be at least 3 characters") +
    Check(|p.description| >= 10, "description", "Description must be at least 10 characters") +
    Check(IsDifficulty(p.difficuilty), "difficuilty", "Invalid enum value") +
    Check(|p.tags| >= 1, "tags", "At least one tag is required") +
    Check(|p.constraints| >= 1, "constraints", "Constraints are required") +
    CaseIssues(p.testcases) +
    Check(|p.testcases| >= 1, "testcases", "At least one test case is required")
  }

  /** The issues of an object of code under the three language keys, with the
      messages for JAVASCRIPT, PYTHON and JAVA. */
  function CodeIssues(m: map<string, string>, field: string, messages: seq<string>): (issues: seq<Issue>)
    requires |messages| == 3
    ensures issues == [] <==> CodeComplete(m)
  {
    LanguagesListed("JAVASCRIPT");
    CodeKeyIssues(m, field, "JAVASCRIPT", messages[0]) +
    CodeKeyIssues(m, field, "PYTHON", messages[1]) +
    CodeKeyIssues(m, field, "JAVA", messages[2])
  }

  /** The issues of `examples` for `problemSchema.js`. */
  function KeyedExampleIssues(ex: Examples): (issues: seq<Issue>)
    ensures issues == [] <==> KeyedExamplesOk(ex)
  {
    LanguagesListed("JAVASCRIPT");
    match ex
    case Listed(_) => [Issue("examples", "Expected object, received array")]
    case Keyed(m) => ExampleKeyIssues(m, "JAVASCRIPT") + ExampleKeyIssues(m, "PYTHON") + ExampleKeyIssues(m, "JAVA")
  }

  /** The issues of `examples` for the form's schema. */
  function ListedExampleIssues(ex: Examples): (issues: seq<Issue>)
    ensures issues == [] <==> ex.Listed? && |ex.items| >= 1 && forall i :: 0 <= i < |ex.items| ==> ExampleOk(ex.items[i])
  {
    match ex
    case Keyed(_) => [Issue("examples", "Expected array, received object")]
    case Listed(es) => ExampleListIssues(es) + Check(|es| >= 1, "examples", "At least one example is required")
  }

  /** Four issue lists together are empty exactly when each one is. */
  lemma {:induction false} NoIssuesIn(a: seq<Issue>, b: seq<Issue>, c: seq<Issue>, d: seq<Issue>)
    ensures a + b + c + d == [] <==> a == [] && b == [] && c == [] && d == []
  {
    assert |a + b + c + d| == |a| + |b| + |c| + |d|;
  }

  /** The issues of `problemSchema.js`, field by field. */
  function FileSchemaIssues(p: ProblemInput): (issues: seq<Issue>)
    ensures issues == [] <==> FileSchemaAccepts(p)
  {
    var head := HeadIssues(p);
    var examples := KeyedExampleIssues(p.examples);
    var code := CodeIssues(p.codeSnippets, "codeSnippets", [TooShort, TooShort, TooShort]);
    var solutions := CodeIssues(p.referenceSolutions, "referenceSolutions", [TooShort, TooShort, TooShort]);
    NoIssuesIn(head, examples, code, solutions);
    head + examples + code + solutions
  }

  /** The issues of the form's schema, field by field, with its own messages. */
  function FormSchemaIssues(p: ProblemInput): (issues: seq<Issue>)
    ensures issues == [] <==> FormSchemaAccepts(p)
  {
    var head := HeadIssues(p);
    var examples := ListedExampleIssues(p.examples);
    var code := CodeIssues(p.codeSnippets, "codeSnippets",
      ["JavaScript code snippet is required", "Python code snippet is required", "Java solution is required"]);
    var solutions := CodeIssues(p.referenceSolutions, "referenceSolutions",
      ["JavaScript solution is required", "Python solution is required", "Java solution is required"]);
    NoIssuesIn(head, examples, code, solutions);
    head + examples + code + solutions
  }

  /** The two schemas never accept the same definition: one wants examples keyed
      by language, the other a list. */
  lemma SchemasDisagreeOnExamples(p: ProblemInput)
    ensures !(FileSchemaAccepts(p) && FormSchemaAccepts(p))
    ensures FormSchemaAccepts(p) ==> FileSchemaIssues(p) == [Issue("examples", "Expected object, received array")]
  {
  }

  /** The starter code of `defaultValues.codeSnippets`. */
  const StarterSnippets: map<string, string> := map[
    "JAVASCRIPT" := "function solution() {\n  // Write your code here\n}\n",
    "PYTHON" := "def solution():\n    # Write your code here\n    pass\n",
    "JAVA" := "public class Solution {\n    public static void main(String[] args) {\n        // Write your code here\n    }\n}\n"]

  /** The placeholders of `defaultValues.referenceSolutions`. */
  const StarterSolutions: map<string, string> := map[
    "JAVASCRIPT" := "// Add your reference solution here\n",
    "PYTHON" := "# Add your reference solution here\n",
    "JAVA" := "// Add your reference solution here\n"]

  /** `defaultValues` of the form. */
  function DefaultValues(): ProblemInput {
    ProblemInput("", "", "EASY", [""], "", Some(""), Some(""), [TestCase("", "")],
      Listed([Example("", "", Some(""))]), StarterSnippets, StarterSolutions)
  }

  /** The one default test case, with empty input and output, gives an issue on
      each of its fields. */
  lemma {:induction false} DefaultCaseIssues()
    ensures CaseIssues([TestCase("", "")]) ==
      [Issue("testcases.0.input", "Input is required"), Issue("testcases.0.output", "Output is required")]
  {
    var tcs := [TestCase("", "")];
    assert tcs[..0] == [];
    assert NatToString(0) == "0" by {
      assert DigitChar(0) == '0';
    }
    assert "testcases." + NatToString(0) + ".input" == "testcases.0.input";
    assert "testcases." + NatToString(0) + ".output" == "testcases.0.output";
  }

  /** The head issues of a definition with an empty title, description and
      constraints, a valid difficulty, a tag and one empty test case. */
  lemma {:induction false} BlankHeadIssues(p: ProblemInput)
    requires p.title == "" && p.description == "" && IsDifficulty(p.difficuilty) && |p.tags| >= 1
    requires p.constraints == "" && p.testcases == [TestCase("", "")]
    ensures HeadIssues(p) == [
      Issue("title", "Title must be at least 3 characters"),
      Issue("description", "Description must be at least 10 characters"),
      Issue("constraints", "Constraints are required"),
      Issue("testcases.0.input", "Input is required"),
      Issue("testcases.0.output", "Output is required")]
  {
    DefaultCaseIssues();
  }

  /** The form's issues start with the head issues. */
  lemma {:induction false} FormIssuesStartWithHead(p: ProblemInput)
    ensures |HeadIssues(p)| <= |FormSchemaIssues(p)|
    ensures FormSchemaIssues(p)[..|HeadIssues(p)|] == HeadIssues(p)
  {
  }

  /** Such a definition fails the form's schema, with an issue on the title and
      on the first test case's input. */
  lemma {:induction false} BlankRejected(p: ProblemInput)
    requires p.title == "" && p.description == "" && IsDifficulty(p.difficuilty) && |p.tags| >= 1
    requires p.constraints == "" && p.testcases == [TestCase("", "")]
    ensures !FormSchemaAccepts(p)
    ensures Issue("title", "Title must be at least 3 characters") in FormSchemaIssues(p)
    ensures Issue("testcases.0.input", "Input is required") in FormSchemaIssues(p)
  {
    BlankHeadIssues(p);
    FormIssuesStartWithHead(p);
    var all := FormSchemaIssues(p);
    assert all[0] == HeadIssues(p)[0];
    assert all[3] == HeadIssues(p)[3];
  }

  /** The defaults do not pass the form's own schema: the empty title is too
      short and the empty first test-case input is reported; the one empty tag
      does satisfy the tag rule. */
  lemma {:induction false} DefaultsRejected()
    ensures !FormSchemaAccepts(DefaultValues())
    ensures Issue("title", "Title must be at least 3 characters") in FormSchemaIssues(DefaultValues())
    ensures Issue("testcases.0.input", "Input is required") in FormSchemaIssues(DefaultValues())
    ensures |DefaultValues().tags| >= 1
  {
    BlankRejected(DefaultValues());
  }

  /** The form component's submit state. */
  class CreateProblemForm {
    var isLoading: bool
    /** The values `isLoading` has been set to, in order. */
    ghost var loadingLog: seq<bool>

    constructor ()
      ensures !isLoading && loadingLog == []
    {
      isLoading := false;
      loadingLog := [];
    }

    /** `onSubmit`: loading is switched on, the definition is posted, and loading
        is switched off again whether the post succeeds or fails. Where the post
        succeeds the page navigates home; the request itself is the parameter
        `postSucceeds`. */
    method OnSubmit(data: ProblemInput, postSucceeds: bool) returns (navigatedHome: bool)
      modifies this
      ensures !isLoading
      ensures loadingLog == old(loadingLog) + [true, false]
      ensures navigatedHome == postSucceeds
    {
      isLoading := true;
      loadingLog := loadingLog + [true];
      navigatedHome := postSucceeds;
      isLoading := false;
      loadingLog := loadingLog + [false];
    }

    /** `handleSubmit(onSubmit)`: the resolver runs the schema first, and only a
        definition it accepts reaches `onSubmit`; otherwise its issues are shown
        and nothing changes. */
    method Submit(data: ProblemInput, postSucceeds: bool) returns (issues: seq<Issue>, navigatedHome: bool)
      modifies this
      ensures issues == FormSchemaIssues(data)
      ensures issues != [] ==> !navigatedHome && isLoading == old(isLoading) && loadingLog == old(loadingLog)
      ensures issues == [] ==>
        FormSchemaAccepts(data) && navigatedHome == postSucceeds && !isLoading && loadingLog == old(loadingLog) + [true, false]
    {
      issues := FormSchemaIssues(data);
      if issues != [] {
        return issues, false;
      }
      navigatedHome := OnSubmit(data, postSucceeds);
    }
  }
}

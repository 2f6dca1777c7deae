/** The problem editor `Frontend/src/components/EditProblemModal.jsx`: loading a
    problem into the form, the editor text per language, tag parsing, the Python
    sanitiser, the snippet object built on submit and the example and test-case
    list edits. */
module EditProblemModal {
  import opened Wrappers
  import opened Text
  import opened Seqs

  /** An example or test-case object of the form: the form's lists hold
      references, and the field edits write through them. */
  class Row {
    var input: string
    var output: string

    /** `{ input: "", output: "" }`. */
    constructor Empty()
      ensures input == "" && output == ""
    {
      input := "";
      output := "";
    }
  }

  /** A field of the loaded problem that should be an array: `NotArray` is any
      other JSON value (an object, a string, null or a missing field). */
  datatype ArrayField<T> = ArrayValue(items: seq<T>) | NotArray

  /** `ensureArray`: an array is kept as it is, anything else becomes []. */
  function EnsureArray<T>(f: ArrayField<T>): (r: seq<T>)
    ensures f.ArrayValue? ==> r == f.items
    ensures f.NotArray? ==> r == []
  {
    match f
    case ArrayValue(items) => items
    case NotArray => []
  }

  /** The fields of the problem the modal reads; `None` is a missing or null field. */
  datatype Problem = Problem(
    id: string,
    title: Option<string>,
    description: Option<string>,
    difficuilty: Option<string>,
    tags: ArrayField<string>,
    examples: ArrayField<Row>,
    constraints: Option<string>,
    testcases: ArrayField<Row>,
    codeSnippets: Option<map<string, string>>,
    referenceSolutions: Option<map<string, string>>)

  datatype FormData = FormData(
    title: string,
    description: string,
    difficuilty: string,
    tags: seq<string>,
    examples: seq<Row>,
    constraints: string,
    testcases: seq<Row>)

  /** `x || d` for a string field. */
  function OrDefault(x: Option<string>, d: string): (r: string)
    ensures x.Some? && x.value != "" ==> r == x.value
    ensures x.None? || x.value == "" ==> r == d
  {
    if x.Some? && x.value != "" then x.value else d
  }

  /** The form as loaded from a problem: missing text becomes "", a missing
      difficulty becomes "EASY", and the three lists are always lists. */
  function LoadForm(p: Problem): (f: FormData)
    ensures f.tags == EnsureArray(p.tags) && f.examples == EnsureArray(p.examples) && f.testcases == EnsureArray(p.testcases)
    ensures f.title == OrDefault(p.title, "") && f.description == OrDefault(p.description, "")
    ensures f.constraints == OrDefault(p.constraints, "")
    ensures p.difficuilty.Some? && p.difficuilty.value != "" ==> f.difficuilty == p.difficuilty.value
    ensures p.difficuilty.None? || p.difficuilty.value == "" ==> f.difficuilty == "EASY"
  {
    FormData(
      OrDefault(p.title, ""),
      OrDefault(p.description, ""),
      OrDefault(p.difficuilty, "EASY"),
      EnsureArray(p.tags),
      EnsureArray(p.examples),
      OrDefault(p.constraints, ""),
      EnsureArray(p.testcases))
  }

  /** `{ ...problem.codeSnippets, ...(problem.referenceSolutions || {}) }`: every
      key of either object, with the reference solution's value where both have one. */
  function CodeSources(snippets: Option<map<string, string>>, refs: Option<map<string, string>>): (m: map<string, string>)
    ensures forall k :: k in m <==> (snippets.Some? && k in snippets.value) || (refs.Some? && k in refs.value)
    ensures forall k :: refs.Some? && k in refs.value ==> k in m && m[k] == refs.value[k]
    ensures forall k :: k in m && !(refs.Some? && k in refs.value) ==> snippets.Some? && m[k] == snippets.value[k]
  {
    snippets.GetOr(map[]) + refs.GetOr(map[])
  }

  /** The value under `k`, counting "" as absent (falsy). */
  predicate HasText(m: map<string, string>, k: string) {
    k in m && m[k] != ""
  }

  /** `codeSources.UPPER || codeSources.lower || ""`. */
  function EditorText(m: map<string, string>, upper: string, lower: string): (code: string)
    ensures HasText(m, upper) ==> code == m[upper]
    ensures !HasText(m, upper) && HasText(m, lower) ==> code == m[lower]
    ensures !HasText(m, upper) && !HasText(m, lower) ==> code == ""
  {
    if HasText(m, upper) then m[upper] else if HasText(m, lower) then m[lower] else ""
  }

  /** The editor text for one language: a reference solution wins over a snippet
      under the same key, the UPPERCASE key wins over the lowercase one, and the
      default is "". */
  lemma LoadedTextPrecedence(snippets: Option<map<string, string>>, refs: Option<map<string, string>>, upper: string, lower: string)
    ensures refs.Some? && HasText(refs.value, upper) ==>
      EditorText(CodeSources(snippets, refs), upper, lower) == refs.value[upper]
    ensures !(refs.Some? && upper in refs.value) && snippets.Some? && HasText(snippets.value, upper) ==>
      EditorText(CodeSources(snippets, refs), upper, lower) == snippets.value[upper]
    ensures (refs.Some? && upper in refs.value && refs.value[upper] == "" && lower !in refs.value &&
      snippets.Some? && HasText(snippets.value, lower)) ==>
      EditorText(CodeSources(snippets, refs), upper, lower) == snippets.value[lower]
  {
  }

  /** `s.split(",").map(item => item.trim())`. */
  function TrimAll(parts: seq<string>): (r: seq<string>)
    ensures |r| == |parts|
    ensures forall i :: 0 <= i < |parts| ==> r[i] == Trim(parts[i])
  {
    seq(|parts|, i requires 0 <= i < |parts| => Trim(parts[i]))
  }

  predicate NonEmpty(s: string) {
    s != ""
  }

  /** `handleArrayChange`: the comma-separated pieces, trimmed, without the empty
      ones (`filter(Boolean)`). */
  function ParseTags(s: string): (tags: seq<string>)
    ensures forall t :: t in tags ==> t != "" && ',' !in t && IsTrimmed(t)
    ensures forall t :: t in tags <==> t != "" && t in TrimAll(Split(s, ','))
    ensures SubsequenceOf(tags, TrimAll(Split(s, ',')))
    ensures |tags| <= CountChar(s, ',') + 1
  {
    var pieces := Split(s, ',');
    var trimmed := TrimAll(pieces);
    forall t | t in trimmed ensures ',' !in t {
      var i :| 0 <= i < |trimmed| && trimmed[i] == t;
      assert pieces[i] in pieces;
    }
    Filter(trimmed, NonEmpty)
  }

  /** Each text with a space in front. */
  function Spaced(tags: seq<string>): (r: seq<string>)
    ensures |r| == |tags|
    ensures forall i :: 0 <= i < |tags| ==> r[i] == " " + tags[i]
  {
    seq(|tags|, i requires 0 <= i < |tags| => " " + tags[i])
  }

  lemma {:induction false} JoinSpaced(tags: seq<string>)
    requires |tags| >= 1
    ensures " " + Join(tags, ", ") == Join(Spaced(tags), ",")
  {
    if |tags| > 1 {
      JoinSpaced(tags[1..]);
      assert Spaced(tags)[1..] == Spaced(tags[1..]);
      assert " " + (tags[0] + ", " + Join(tags[1..], ", ")) == (" " + tags[0]) + "," + (" " + Join(tags[1..], ", "));
    }
  }

  /** The pieces `join(", ")` leaves between its commas: the first tag, then each
      later one with a space in front. */
  function ShownPieces(tags: seq<string>): (pieces: seq<string>)
    requires tags != []
    ensures |pieces| == |tags|
  {
    [tags[0]] + Spaced(tags[1..])
  }

  lemma {:induction false} ShownPiecesJoin(tags: seq<string>)
    requires tags != []
    ensures Join(tags, ", ") == Join(ShownPieces(tags), ",")
  {
    if |tags| > 1 {
      JoinSpaced(tags[1..]);
      assert Join(tags, ", ") == tags[0] + "," + Join(Spaced(tags[1..]), ",");
    }
  }

  lemma {:induction false} ShownPiecesTrim(tags: seq<string>)
    requires tags != []
    requires forall i :: 0 <= i < |tags| ==> IsTrimmed(tags[i])
    ensures TrimAll(ShownPieces(tags)) == tags
  {
    var pieces := ShownPieces(tags);
    forall i | 0 <= i < |pieces| ensures Trim(pieces[i]) == tags[i] {
      if i > 0 {
        TrimLeadingSpace(' ', tags[i]);
      }
    }
  }

  /** The tag field shows `tags.join(", ")`; parsing that text back gives the same
      tags, provided every tag is non-empty, trimmed and free of commas. */
  lemma {:induction false} ParseShownTags(tags: seq<string>)
    requires forall i :: 0 <= i < |tags| ==> tags[i] != "" && ',' !in tags[i] && IsTrimmed(tags[i])
    ensures ParseTags(Join(tags, ", ")) == tags
  {
    if tags == [] {
      assert Split([], ',') == [[]];
      assert TrimAll([[]]) == [[]];
    } else {
      var pieces := ShownPieces(tags);
      ShownPiecesJoin(tags);
      forall p | p in pieces ensures ',' !in p {
        var i :| 0 <= i < |pieces| && pieces[i] == p;
      }
      SplitJoin(pieces, ',');
      ShownPiecesTrim(tags);
      FilterKeepsAll(tags, NonEmpty);
    }
  }

  /** `.replace(/\t/g, '    ')`. */
  function ReplaceTabs(s: string): (r: string)
    ensures '\t' !in r
    ensures |r| == |s| + 3 * CountChar(s, '\t')
    ensures CountChar(r, '\n') == CountChar(s, '\n')
    ensures '\t' !in s ==> r == s
  {
    if s == [] then []
    else
      var rest := ReplaceTabs(s[1..]);
      var head := if s[0] == '\t' then "    " else [s[0]];
      CountCharAppend(head, rest, '\n');
      assert '\t' !in s ==> s == [s[0]] + s[1..];
      head + rest
  }

  /** The replacement works piece by piece: the text of a concatenation is the
      concatenation of the texts. */
  lemma {:induction false} ReplaceTabsAppend(a: string, b: string)
    ensures ReplaceTabs(a + b) == ReplaceTabs(a) + ReplaceTabs(b)
  {
    if a == [] {
      assert a + b == b;
    } else {
      var ab := a + b;
      assert ab[0] == a[0] && ab[1..] == a[1..] + b;
      var head := if a[0] == '\t' then "    " else [a[0]];
      calc {
        ReplaceTabs(ab);
        head + ReplaceTabs(a[1..] + b);
        { ReplaceTabsAppend(a[1..], b); }
        head + (ReplaceTabs(a[1..]) + ReplaceTabs(b));
        (head + ReplaceTabs(a[1..])) + ReplaceTabs(b);
        ReplaceTabs(a) + ReplaceTabs(b);
      }
    }
  }

  /** A tab becomes four spaces; any other character stays. */
  lemma ReplaceTabsChar(c: char)
    ensures ReplaceTabs([c]) == if c == '\t' then "    " else [c]
  {
    assert [c][1..] == [];
  }

  lemma {:induction false} CountCharAppend(a: string, b: string, c: char)
    ensures CountChar(a + b, c) == CountChar(a, c) + CountChar(b, c)
  {
    if a == [] {
      assert a + b == b;
    } else {
      CountCharAppend(a[1..], b, c);
      assert (a + b)[1..] == a[1..] + b;
    }
  }

  /** `.map(line => line.replace(/\s+$/, ''))`. */
  function TrimEndAll(lines: seq<string>): (r: seq<string>)
    ensures |r| == |lines|
    ensures forall i :: 0 <= i < |lines| ==> r[i] == TrimEnd(lines[i])
  {
    seq(|lines|, i requires 0 <= i < |lines| => TrimEnd(lines[i]))
  }

  /** The Python sanitiser: tabs become four spaces, and every "\n"-separated
      line loses its trailing white space. */
  function Sanitize(code: string): string {
    Join(TrimEndAll(Split(ReplaceTabs(code), '\n')), "\n")
  }

  /** The sanitised text splits into as many lines as the input, and none of its
      lines ends in white space. */
  lemma {:induction false} SanitizeFacts(code: string)
    ensures |Split(Sanitize(code), '\n')| == |Split(code, '\n')|
    ensures forall line :: line in Split(Sanitize(code), '\n') ==> line == [] || !IsSpace(line[|line| - 1])
  {
    var lines := Split(ReplaceTabs(code), '\n');
    var stripped := TrimEndAll(lines);
    forall p | p in stripped ensures '\n' !in p {
      var i :| 0 <= i < |stripped| && stripped[i] == p;
      assert lines[i] in lines;
      assert forall c :: c in p ==> c in lines[i];
    }
    SplitJoin(stripped, '\n');
  }

  /** The sanitised text has no tab. */
  lemma {:induction false} SanitizeHasNoTab(code: string)
    ensures '\t' !in Sanitize(code)
  {
    var lines := Split(ReplaceTabs(code), '\n');
    var stripped := TrimEndAll(lines);
    SplitLacks(ReplaceTabs(code), '\n', '\t');
    forall p | p in stripped ensures '\t' !in p {
      var i :| 0 <= i < |stripped| && stripped[i] == p;
      assert lines[i] in lines;
      assert forall c :: c in p ==> c in lines[i];
    }
    JoinLacks(stripped, "\n", '\t');
  }

  /** The snippet object `handleSubmit` sends for the three editor texts:
      JavaScript and Java stored trimmed, Python sanitised, each only when its
      editor text is not blank, and no other key. */
  ghost predicate AssembledFrom(snippets: map<string, string>, jsCode: string, pyCode: string, javaCode: string) {
    ("JAVASCRIPT" in snippets <==> !IsBlank(jsCode)) &&
    ("PYTHON" in snippets <==> !IsBlank(pyCode)) &&
    ("JAVA" in snippets <==> !IsBlank(javaCode)) &&
    snippets.Keys <= {"JAVASCRIPT", "PYTHON", "JAVA"} &&
    ("JAVASCRIPT" in snippets ==> snippets["JAVASCRIPT"] == Trim(jsCode)) &&
    ("PYTHON" in snippets ==> snippets["PYTHON"] == Sanitize(pyCode)) &&
    ("JAVA" in snippets ==> snippets["JAVA"] == Trim(javaCode))
  }

  /** The three editor texts fix the snippet object completely. */
  lemma AssembledUnique(a: map<string, string>, b: map<string, string>, jsCode: string, pyCode: string, javaCode: string)
    requires AssembledFrom(a, jsCode, pyCode, javaCode) && AssembledFrom(b, jsCode, pyCode, javaCode)
    ensures a == b
  {
    assert a.Keys == b.Keys;
  }

  /** `handleSubmit`'s `codeSnippets`: JavaScript and Java stored trimmed, Python
      sanitised, each only when its editor text is not blank. */
  method AssembleSnippets(jsCode: string, pyCode: string, javaCode: string) returns (snippets: map<string, string>)
    ensures AssembledFrom(snippets, jsCode, pyCode, javaCode)
    ensures "JAVASCRIPT" in snippets ==> snippets["JAVASCRIPT"] != "" && IsTrimmed(snippets["JAVASCRIPT"])
    ensures "PYTHON" in snippets ==> '\t' !in snippets["PYTHON"]
    ensures "JAVA" in snippets ==> snippets["JAVA"] != "" && IsTrimmed(snippets["JAVA"])
  {
    var js, py, java := Trim(jsCode), Trim(pyCode), Trim(javaCode);
    snippets := map[];
    if js != "" {
      snippets := snippets["JAVASCRIPT" := js];
    }
    assert snippets.Keys <= {"JAVASCRIPT"} && ("JAVASCRIPT" in snippets <==> js != "");
    if py != "" {
      var sanitized := Sanitize(pyCode);
      SanitizeHasNoTab(pyCode);
      snippets := snippets["PYTHON" := sanitized];
    }
    assert snippets.Keys <= {"JAVASCRIPT", "PYTHON"} && ("PYTHON" in snippets <==> py != "");
    if java != "" {
      snippets := snippets["JAVA" := java];
    }
  }

  /** The body sent to the store's `updateProblem`. */
  datatype Payload = Payload(form: FormData, codeSnippets: map<string, string>, referenceSolutions: Option<map<string, string>>)

  /** `handleSubmit`: nothing is sent without a problem; otherwise the form, the
      assembled snippets and the problem's own reference solutions, which the
      editor never changes. */
  method Submit(problem: Option<Problem>, form: FormData, jsCode: string, pyCode: string, javaCode: string) returns (payload: Option<(string, Payload)>)
    ensures problem.None? <==> payload.None?
    ensures payload.Some? ==> payload.value.0 == problem.value.id && payload.value.1.form == form
    ensures payload.Some? ==> payload.value.1.referenceSolutions == problem.value.referenceSolutions
    ensures payload.Some? ==> AssembledFrom(payload.value.1.codeSnippets, jsCode, pyCode, javaCode)
  {
    if problem.None? {
      return None;
    }
    var snippets := AssembleSnippets(jsCode, pyCode, javaCode);
    payload := Some((problem.value.id, Payload(form, snippets, problem.value.referenceSolutions)));
  }

  /** An input or output edit: `[...rows]` copies the list but not its objects, so
      the new list holds the same rows and the edited row changes in place, in the
      previous form state as well. Rows that are other objects keep their text. */
  method EditInput(rows: seq<Row>, idx: nat, value: string) returns (updated: seq<Row>)
    requires idx < |rows|
    modifies rows[idx]
    ensures updated == rows
    ensures rows[idx].input == value && rows[idx].output == old(rows[idx].output)
    ensures forall j :: 0 <= j < |rows| && rows[j] != rows[idx] ==> rows[j].input == old(rows[j].input) && rows[j].output == old(rows[j].output)
  {
    updated := rows;
    updated[idx].input := value;
  }

  /** The output field's edit, as `EditInput`. */
  method EditOutput(rows: seq<Row>, idx: nat, value: string) returns (updated: seq<Row>)
    requires idx < |rows|
    modifies rows[idx]
    ensures updated == rows
    ensures rows[idx].output == value && rows[idx].input == old(rows[idx].input)
    ensures forall j :: 0 <= j < |rows| && rows[j] != rows[idx] ==> rows[j].input == old(rows[j].input) && rows[j].output == old(rows[j].output)
  {
    updated := rows;
    updated[idx].output := value;
  }

  /** "+ Add": one new empty row at the end, the others kept in order. */
  method AddRow(rows: seq<Row>) returns (updated: seq<Row>)
    ensures |updated| == |rows| + 1 && updated[..|rows|] == rows
    ensures fresh(updated[|rows|]) && updated[|rows|].input == "" && updated[|rows|].output == ""
  {
    var row := new Row.Empty();
    updated := rows + [row];
  }
}

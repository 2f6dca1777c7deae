/** The profile page `Frontend/src/page/MyProfilePage.jsx`: the difficulty
    buckets of the solved problems, the pie chart built from them and the colour
    of each slice. */
module MyProfilePage {
  import opened Wrappers
  import opened Text
  import opened Seqs
  import opened Tally

  /** The fields of a solved problem the page reads; `difficuilty` is `None`
      when missing. */
  datatype SolvedProblem = SolvedProblem(title: string, difficuilty: Option<string>)

  /** An entry of `solvedProblems`: it wraps its problem. */
  datatype SolvedEntry = SolvedEntry(id: string, problem: SolvedProblem)

  /** `p.problem.difficuilty || "Unknown"`: a missing or empty difficulty goes to
      the "Unknown" bucket, any other is its own bucket. */
  function Bucket(e: SolvedEntry): (level: string)
    ensures level != ""
    ensures e.problem.difficuilty.Some? && e.problem.difficuilty.value != "" ==> level == e.problem.difficuilty.value
    ensures e.problem.difficuilty.None? || e.problem.difficuilty.value == "" ==> level == "Unknown"
  {
    match e.problem.difficuilty
    case Some(d) => if d != "" then d else "Unknown"
    case None => "Unknown"
  }

  /** The bucket of each entry, in order. */
  function Buckets(solved: seq<SolvedEntry>): (levels: seq<string>)
    ensures |levels| == |solved|
    ensures forall i :: 0 <= i < |solved| ==> levels[i] == Bucket(solved[i])
  {
    seq(|solved|, i requires 0 <= i < |solved| => Bucket(solved[i]))
  }

  /** `pieData`: the `difficultyCounts` fold over `profile?.solvedProblems || []`,
      as its entries in insertion order. */
  function PieData(solved: Option<seq<SolvedEntry>>): Counter<string> {
    TallyOf(Ones(Buckets(solved.GetOr([]))))
  }

  /** The fold adds exactly 1 to the bucket of each next solved problem. */
  lemma {:induction false} PieDataStep(solved: seq<SolvedEntry>, e: SolvedEntry)
    ensures PieData(Some(solved + [e])) == Add(PieData(Some(solved)), Bucket(e), 1)
  {
    assert Buckets(solved + [e]) == Buckets(solved) + [Bucket(e)];
    TallyOfOnesSnoc(Buckets(solved), Bucket(e));
  }

  /** The pie has one slice per distinct bucket, in order of first occurrence;
      each slice's value is the number of solved problems in its bucket, at
      least 1; the values add up to the number of solved problems; a missing
      list gives no slice. */
  lemma {:induction false} PieDataFacts(solved: Option<seq<SolvedEntry>>)
    ensures Keys(PieData(solved)) == Dedup(Buckets(solved.GetOr([])))
    ensures Distinct(Keys(PieData(solved)))
    ensures forall level :: Get(PieData(solved), level) == Occurrences(Buckets(solved.GetOr([])), level)
    ensures Total(PieData(solved)) == |solved.GetOr([])|
    ensures AllPositive(PieData(solved))
    ensures solved.None? ==> PieData(solved) == []
  {
    var levels := Buckets(solved.GetOr([]));
    TallyOfFacts(Ones(levels));
    OnesFacts(levels);
  }

  const DefaultColor := "#8884d8"

  /** `COLORS`. */
  const Colors: map<string, string> := map["EASY" := "#00C49F", "MEDIUM" := "#FFBB28", "HARD" := "#FF4C4C"]

  /** The `fill` of a slice: the colour of its uppercased name, or the default. */
  function CellColor(name: string): (color: string)
    ensures ToUpper(name) == "EASY" ==> color == "#00C49F"
    ensures ToUpper(name) == "MEDIUM" ==> color == "#FFBB28"
    ensures ToUpper(name) == "HARD" ==> color == "#FF4C4C"
    ensures ToUpper(name) !in {"EASY", "MEDIUM", "HARD"} ==> color == DefaultColor
  {
    var key := ToUpper(name);
    if key in Colors then Colors[key] else DefaultColor
  }

  /** The lookup ignores case: a name, its lowercase and its uppercase get the
      same colour; the "Unknown" bucket gets the default colour. */
  lemma ColorIgnoresCase(name: string)
    ensures CellColor(ToLower(name)) == CellColor(name)
    ensures CellColor(ToUpper(name)) == CellColor(name)
    ensures CellColor("Unknown") == DefaultColor
  {
    assert ToUpper(ToLower(name)) == ToUpper(name);
    assert ToUpper(ToUpper(name)) == ToUpper(name);
    assert ToUpper("Unknown") == "UNKNOWN";
  }
}

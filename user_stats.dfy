/** The statistics handlers of `Backend/src/controllers/user.controllers.js`: the
    solved-problem projection of the profile, the difficulty pie chart, the
    per-topic counts and the per-day activity heat map.

    The database queries are not part of this model: each handler is given the
    rows its query returns. The conversion of a timestamp to its
    `YYYY-MM-DD` key is given as the function `dateKey`. */
module UserStats {
  import opened Wrappers
  import opened Seqs
  import opened Tally

  datatype Difficulty = EASY | MEDIUM | HARD

  /** A solved row with the selected fields of its problem. */
  datatype SolvedRow = SolvedRow(problemId: string, title: string, difficuilty: Difficulty)

  /** An entry of the profile's `solvedProblems`. */
  datatype ProfileEntry = ProfileEntry(id: string, title: string, difficulty: Difficulty)

  /** `getProfile`'s projection: one entry per solved row, in order, with the id
      and title copied and `difficuilty` renamed to `difficulty`. */
  function ProfileEntries(rows: seq<SolvedRow>): (entries: seq<ProfileEntry>)
    ensures |entries| == |rows|
    ensures forall i :: 0 <= i < |rows| ==>
      entries[i].id == rows[i].problemId && entries[i].title == rows[i].title && entries[i].difficulty == rows[i].difficuilty
  {
    seq(|rows|, i requires 0 <= i < |rows| => ProfileEntry(rows[i].problemId, rows[i].title, rows[i].difficuilty))
  }

  /** The difficulty of each row, in order. */
  function Difficulties(rows: seq<SolvedRow>): (ds: seq<Difficulty>)
    ensures |ds| == |rows| && forall i :: 0 <= i < |rows| ==> ds[i] == rows[i].difficuilty
  {
    seq(|rows|, i requires 0 <= i < |rows| => rows[i].difficuilty)
  }

  /** Every row has one of the three difficulties. */
  lemma {:induction false} OccurrencesSplit(ds: seq<Difficulty>)
    ensures Occurrences(ds, EASY) + Occurrences(ds, MEDIUM) + Occurrences(ds, HARD) == |ds|
  {
    if ds != [] {
      OccurrencesSplit(ds[..|ds| - 1]);
      var last := ds[|ds| - 1];
      assert last.EASY? || last.MEDIUM? || last.HARD?;
    }
  }

  /** The loop of `getSolvedProblemsStats`: three counters from 0, each row adding
      1 to its own. */
  method CountDifficulties(ds: seq<Difficulty>) returns (easy: nat, medium: nat, hard: nat)
    ensures easy == Occurrences(ds, EASY) && medium == Occurrences(ds, MEDIUM) && hard == Occurrences(ds, HARD)
    ensures easy + medium + hard == |ds|
  {
    easy, medium, hard := 0, 0, 0;
    var i := 0;
    while i < |ds|
      invariant 0 <= i <= |ds|
      invariant easy == Occurrences(ds[..i], EASY)
      invariant medium == Occurrences(ds[..i], MEDIUM)
      invariant hard == Occurrences(ds[..i], HARD)
    {
      assert ds[..i + 1][..i] == ds[..i];
      match ds[i] {
        case EASY => easy := easy + 1;
        case MEDIUM => medium := medium + 1;
        case HARD => hard := hard + 1;
      }
      i := i + 1;
    }
    assert ds[..|ds|] == ds;
    OccurrencesSplit(ds);
  }

  /** `pieChartData`: Easy, Medium and Hard, in that order, with their counts. */
  method SolvedProblemsStats(ds: seq<Difficulty>) returns (pie: seq<(string, nat)>)
    ensures |pie| == 3
    ensures pie[0].0 == "Easy" && pie[1].0 == "Medium" && pie[2].0 == "Hard"
    ensures pie[0].1 == Occurrences(ds, EASY) && pie[1].1 == Occurrences(ds, MEDIUM) && pie[2].1 == Occurrences(ds, HARD)
    ensures pie[0].1 + pie[1].1 + pie[2].1 == |ds|
  {
    var easy, medium, hard := CountDifficulties(ds);
    pie := [("Easy", easy), ("Medium", medium), ("Hard", hard)];
  }

  /** One more tag of the current problem is one more `Add` of 1. */
  lemma {:induction false} CountStep(seen: seq<string>, tags: seq<string>, j: nat)
    requires j < |tags|
    ensures TallyOf(Ones(seen + tags[..j + 1])) == Add(TallyOf(Ones(seen + tags[..j])), tags[j], 1)
  {
    assert seen + tags[..j + 1] == seen + tags[..j] + [tags[j]];
    TallyOfOnesSnoc(seen + tags[..j], tags[j]);
  }

  /** The inner `forEach` of `getSolvedProblemsByTopic`: each tag of one solved
      problem adds 1 to its topic's count. */
  method CountTags(counts: Counter<string>, ghost seen: seq<string>, tags: seq<string>) returns (counts': Counter<string>)
    requires counts == TallyOf(Ones(seen))
    ensures counts' == TallyOf(Ones(seen + tags))
  {
    counts' := counts;
    var j := 0;
    assert seen + tags[..0] == seen;
    while j < |tags|
      invariant 0 <= j <= |tags|
      invariant counts' == TallyOf(Ones(seen + tags[..j]))
    {
      CountStep(seen, tags, j);
      counts' := Add(counts', tags[j], 1);
      j := j + 1;
    }
    assert tags[..|tags|] == tags;
  }

  /** The nested `forEach` of `getSolvedProblemsByTopic`: every tag of every solved
      problem adds 1 to its topic's count. */
  method TopicCounts(tagLists: seq<seq<string>>) returns (counts: Counter<string>)
    ensures counts == TallyOf(Ones(Flatten(tagLists)))
  {
    counts := [];
    var i := 0;
    while i < |tagLists|
      invariant 0 <= i <= |tagLists|
      invariant counts == TallyOf(Ones(Flatten(tagLists[..i])))
    {
      counts := CountTags(counts, Flatten(tagLists[..i]), tagLists[i]);
      assert tagLists[..i + 1][..i] == tagLists[..i];
      i := i + 1;
    }
    assert tagLists[..|tagLists|] == tagLists;
  }

  /** `topicChartData`: one entry per distinct tag, in order of first
      occurrence; each value is the tag's number of occurrences, at least 1, and
      the values add up to the number of tag occurrences. */
  lemma {:induction false} TopicChartFacts(tagLists: seq<seq<string>>)
    ensures Keys(TallyOf(Ones(Flatten(tagLists)))) == Dedup(Flatten(tagLists))
    ensures Distinct(Keys(TallyOf(Ones(Flatten(tagLists)))))
    ensures forall t :: Get(TallyOf(Ones(Flatten(tagLists))), t) == Occurrences(Flatten(tagLists), t)
    ensures Total(TallyOf(Ones(Flatten(tagLists)))) == |Flatten(tagLists)|
    ensures AllPositive(TallyOf(Ones(Flatten(tagLists))))
  {
    var xs := Flatten(tagLists);
    TallyOfFacts(Ones(xs));
    OnesFacts(xs);
  }

  /** A grouped activity row: its timestamp and `_count._all`. */
  datatype ActivityRow = ActivityRow(createdAt: int, count: nat)

  /** Each row's contribution to its day. */
  function DayContributions(rows: seq<ActivityRow>, dateKey: int -> string): (ws: seq<(string, nat)>)
    ensures |ws| == |rows|
    ensures forall i :: 0 <= i < |rows| ==> ws[i] == (dateKey(rows[i].createdAt), rows[i].count)
  {
    seq(|rows|, i requires 0 <= i < |rows| => (dateKey(rows[i].createdAt), rows[i].count))
  }

  /** The loop of `getSolvedProblemsActivity`: each row adds its count to the
      day its timestamp falls on. */
  method DailyCounts(rows: seq<ActivityRow>, dateKey: int -> string) returns (counts: Counter<string>)
    ensures counts == TallyOf(DayContributions(rows, dateKey))
  {
    var ws := DayContributions(rows, dateKey);
    counts := [];
    var i := 0;
    while i < |rows|
      invariant 0 <= i <= |rows|
      invariant counts == TallyOf(ws[..i])
    {
      TallyOfSnoc(ws[..i], dateKey(rows[i].createdAt), rows[i].count);
      assert ws[..i + 1] == ws[..i] + [(dateKey(rows[i].createdAt), rows[i].count)];
      counts := Add(counts, dateKey(rows[i].createdAt), rows[i].count);
      i := i + 1;
    }
    assert ws[..|rows|] == ws;
  }

  /** The sum of the rows' counts. */
  function RowTotal(rows: seq<ActivityRow>): nat {
    if rows == [] then 0 else RowTotal(rows[..|rows| - 1]) + rows[|rows| - 1].count
  }

  /** `heatmapData`: one entry per distinct day; a day's count is the sum of the
      counts of the rows on that day; no submission is lost or counted twice;
      and, since every group holds at least one row, every count is at least 1. */
  lemma {:induction false} HeatmapFacts(rows: seq<ActivityRow>, dateKey: int -> string)
    ensures Distinct(Keys(TallyOf(DayContributions(rows, dateKey))))
    ensures forall d :: Get(TallyOf(DayContributions(rows, dateKey)), d) == SumFor(DayContributions(rows, dateKey), d)
    ensures Total(TallyOf(DayContributions(rows, dateKey))) == RowTotal(rows)
    ensures (forall i :: 0 <= i < |rows| ==> rows[i].count >= 1) ==> AllPositive(TallyOf(DayContributions(rows, dateKey)))
  {
    TallyOfFacts(DayContributions(rows, dateKey));
    RowTotalIsSum(rows, dateKey);
  }

  lemma {:induction false} RowTotalIsSum(rows: seq<ActivityRow>, dateKey: int -> string)
    ensures SumAll(DayContributions(rows, dateKey)) == RowTotal(rows)
  {
    if rows != [] {
      var init := rows[..|rows| - 1];
      RowTotalIsSum(init, dateKey);
      assert DayContributions(rows, dateKey)[..|rows| - 1] == DayContributions(init, dateKey);
    }
  }

  /** The answers of `getSolvedProblemsActivity`. */
  datatype ActivityReply = Unauthorized | Heatmap(data: Counter<string>)

  /** `getSolvedProblemsActivity`: a falsy user id (missing or "") is refused
      before anything is counted; otherwise the heat map of the rows. */
  method SolvedProblemsActivity(userId: Option<string>, rows: seq<ActivityRow>, dateKey: int -> string) returns (reply: ActivityReply)
    ensures (userId.None? || userId.value == "") <==> reply.Unauthorized?
    ensures reply.Heatmap? ==> reply.data == TallyOf(DayContributions(rows, dateKey))
  {
    if userId.None? || userId.value == "" {
      return Unauthorized;
    }
    var counts := DailyCounts(rows, dateKey);
    reply := Heatmap(counts);
  }
}

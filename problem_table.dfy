/** The problem list `Frontend/src/components/ProblemTable.jsx`: the set of solved
    ids, the tag list, the list a playlist selects, the search and filter rules,
    the pages of five and the Prev and Next buttons. */
module ProblemTable {
  import opened Wrappers
  import opened Text
  import opened Seqs

  /** The fields of a problem the table reads; `None` is a missing field. */
  datatype Problem = Problem(id: string, title: Option<string>, difficuilty: string, tags: Option<seq<string>>)

  /** A playlist entry wraps the problem it refers to. */
  datatype PlaylistEntry = PlaylistEntry(problem: Problem)

  /** A playlist; `problems` is `None` when it is not an array. */
  datatype Playlist = Playlist(name: string, problems: Option<seq<PlaylistEntry>>)

  /** `solvedProblemIds`: the ids of the solved problems, or no ids when the
      solved list is not an array. */
  function SolvedIds(solved: Option<seq<Problem>>): (ids: set<string>)
    ensures solved.None? ==> ids == {}
    ensures solved.Some? ==> forall id :: id in ids <==> exists i :: 0 <= i < |solved.value| && solved.value[i].id == id
  {
    match solved
    case None => {}
    case Some(ps) => set i | 0 <= i < |ps| :: ps[i].id
  }

  /** Each problem's tag list, a missing one counting as none. */
  function TagLists(problems: seq<Problem>): (lists: seq<seq<string>>)
    ensures |lists| == |problems|
    ensures forall i :: 0 <= i < |problems| ==> lists[i] == problems[i].tags.GetOr([])
  {
    seq(|problems|, i requires 0 <= i < |problems| => problems[i].tags.GetOr([]))
  }

  /** The inner `forEach` of `allTags`: each tag of one problem is added to the
      set unless it is already there. */
  method AddTags(tags: seq<string>, ghost seen: seq<string>, ts: seq<string>) returns (tags': seq<string>)
    requires tags == Dedup(seen)
    ensures tags' == Dedup(seen + ts)
  {
    tags' := tags;
    var j := 0;
    assert seen + ts[..0] == seen;
    while j < |ts|
      invariant 0 <= j <= |ts|
      invariant tags' == Dedup(seen + ts[..j])
    {
      ghost var before := seen + ts[..j];
      assert (before + [ts[j]])[..|before|] == before;
      assert seen + ts[..j + 1] == before + [ts[j]];
      if ts[j] !in tags' {
        tags' := tags' + [ts[j]];
      }
      j := j + 1;
    }
    assert ts[..|ts|] == ts;
  }

  /** `allTags`: every tag of every problem added to a set, in the order met. */
  method AllTags(problems: Option<seq<Problem>>) returns (tags: seq<string>)
    ensures tags == Dedup(Flatten(TagLists(problems.GetOr([]))))
  {
    var ps := problems.GetOr([]);
    ghost var lists := TagLists(ps);
    tags := [];
    var i := 0;
    while i < |ps|
      invariant 0 <= i <= |ps|
      invariant tags == Dedup(Flatten(lists[..i]))
    {
      tags := AddTags(tags, Flatten(lists[..i]), ps[i].tags.GetOr([]));
      assert lists[..i + 1][..i] == lists[..i];
      i := i + 1;
    }
    assert lists[..|ps|] == lists;
  }

  /** The tag list names each tag of any problem exactly once, in the order in
      which the tags first appear. */
  lemma {:induction false} AllTagsFacts(problems: seq<Problem>, tags: seq<string>)
    requires tags == Dedup(Flatten(TagLists(problems)))
    ensures Distinct(tags)
    ensures forall t :: t in tags <==> exists i :: 0 <= i < |problems| && problems[i].tags.Some? && t in problems[i].tags.value
    ensures forall i, j :: 0 <= i < j < |tags| ==>
      IndexOf(Flatten(TagLists(problems)), tags[i]) < IndexOf(Flatten(TagLists(problems)), tags[j])
  {
    var lists := TagLists(problems);
    DedupFirstOccurrenceOrder(Flatten(lists));
    forall t ensures t in tags <==> exists i :: 0 <= i < |problems| && problems[i].tags.Some? && t in problems[i].tags.value {
      FlattenMembers(lists, t);
      if t in tags {
        var i :| 0 <= i < |lists| && t in lists[i];
        assert problems[i].tags.Some? && t in problems[i].tags.value;
      }
      if exists i :: 0 <= i < |problems| && problems[i].tags.Some? && t in problems[i].tags.value {
        var i :| 0 <= i < |problems| && problems[i].tags.Some? && t in problems[i].tags.value;
        assert t in lists[i];
      }
    }
  }

  /** `baseProblems`: the problems of the active playlist, unwrapped, when it has
      an array of them; otherwise all problems. */
  function BaseProblems(active: Option<Playlist>, problems: Option<seq<Problem>>): (base: Option<seq<Problem>>)
    ensures active.Some? && active.value.problems.Some? ==>
      base.Some? && |base.value| == |active.value.problems.value| &&
      forall i :: 0 <= i < |base.value| ==> base.value[i] == active.value.problems.value[i].problem
    ensures !(active.Some? && active.value.problems.Some?) ==> base == problems
  {
    if active.Some? && active.value.problems.Some? then
      var entries := active.value.problems.value;
      Some(seq(|entries|, i requires 0 <= i < |entries| => entries[i].problem))
    else problems
  }

  /** The search rule: the lowercased title contains the lowercased search text;
      a problem without a title never matches. */
  predicate MatchesSearch(p: Problem, search: string) {
    p.title.Some? && Contains(ToLower(p.title.value), ToLower(search))
  }

  predicate MatchesDifficulty(p: Problem, difficulty: string) {
    difficulty == "ALL" || p.difficuilty == difficulty
  }

  predicate MatchesTag(p: Problem, tag: string) {
    tag == "ALL" || (p.tags.Some? && tag in p.tags.value)
  }

  /** All three rules. */
  predicate Keep(p: Problem, search: string, difficulty: string, tag: string) {
    MatchesSearch(p, search) && MatchesDifficulty(p, difficulty) && MatchesTag(p, tag)
  }

  /** The three filters in a row keep what one filter by all three rules keeps. */
  lemma {:induction false} FilterChain(xs: seq<Problem>, search: string, difficulty: string, tag: string)
    ensures Filter(Filter(Filter(xs, p => MatchesSearch(p, search)), p => MatchesDifficulty(p, difficulty)), p => MatchesTag(p, tag))
      == Filter(xs, p => Keep(p, search, difficulty, tag))
  {
    if xs != [] {
      FilterChain(xs[1..], search, difficulty, tag);
    }
  }

  /** `filteredProblems`: three filters in a row over the base list (none when
      it is missing). */
  function FilteredProblems(base: Option<seq<Problem>>, search: string, difficulty: string, tag: string): (r: seq<Problem>)
    ensures r == Filter(base.GetOr([]), p => Keep(p, search, difficulty, tag))
    ensures forall p :: p in r <==> p in base.GetOr([]) && Keep(p, search, difficulty, tag)
    ensures SubsequenceOf(r, base.GetOr([]))
  {
    var xs := base.GetOr([]);
    var bySearch := Filter(xs, p => MatchesSearch(p, search));
    var byDifficulty := Filter(bySearch, p => MatchesDifficulty(p, difficulty));
    var r := Filter(byDifficulty, p => MatchesTag(p, tag));
    FilterChain(xs, search, difficulty, tag);
    SubsequenceTransitive(byDifficulty, bySearch, xs);
    SubsequenceTransitive(r, byDifficulty, xs);
    r
  }

  const ItemsPerPage: nat := 5

  /** `Math.ceil(n / itemsPerPage)`. */
  function TotalPages(n: nat): (pages: nat)
    ensures pages * ItemsPerPage >= n
    ensures pages == 0 || (pages - 1) * ItemsPerPage < n
  {
    (n + ItemsPerPage - 1) / ItemsPerPage
  }

  /** `paginatedProblems`: `slice((page - 1) * 5, page * 5)`. */
  function Page<T>(xs: seq<T>, page: int): (r: seq<T>)
    ensures |r| <= ItemsPerPage
    ensures page >= 1 && (page - 1) * ItemsPerPage <= |xs| ==>
      r == xs[(page - 1) * ItemsPerPage .. if page * ItemsPerPage <= |xs| then page * ItemsPerPage else |xs|]
    ensures page >= 1 && (page - 1) * ItemsPerPage >= |xs| ==> r == []
  {
    Slice(xs, (page - 1) * ItemsPerPage, page * ItemsPerPage)
  }

  /** The pages 1 .. `TotalPages`, in order. */
  function Pages<T>(xs: seq<T>): (pages: seq<seq<T>>)
    ensures |pages| == TotalPages(|xs|)
    ensures forall k :: 0 <= k < |pages| ==> pages[k] == Page(xs, k + 1)
  {
    seq(TotalPages(|xs|), k requires 0 <= k < TotalPages(|xs|) => Page(xs, k + 1))
  }

  lemma {:induction false} PagesPrefix<T>(xs: seq<T>, k: nat)
    requires k <= TotalPages(|xs|)
    ensures Flatten(Pages(xs)[..k]) == xs[..if k * ItemsPerPage <= |xs| then k * ItemsPerPage else |xs|]
  {
    if k > 0 {
      PagesPrefix(xs, k - 1);
      assert Pages(xs)[..k][..k - 1] == Pages(xs)[..k - 1];
      var lo := (k - 1) * ItemsPerPage;
      var hi := if k * ItemsPerPage <= |xs| then k * ItemsPerPage else |xs|;
      assert lo < |xs|;
      assert Pages(xs)[k - 1] == xs[lo..hi];
      assert xs[..lo] + xs[lo..hi] == xs[..hi];
    }
  }

  /** The pages 1 .. `totalPages` hold the filtered list, each item once, in order. */
  lemma PagesPartition<T>(xs: seq<T>)
    ensures Flatten(Pages(xs)) == xs
  {
    PagesPrefix(xs, TotalPages(|xs|));
    assert Pages(xs)[..TotalPages(|xs|)] == Pages(xs);
    assert xs[..|xs|] == xs;
  }

  /** `disabled={currentPage === 1}`. */
  predicate PrevEnabled(page: int) {
    page != 1
  }

  /** `disabled={currentPage === totalPages}` as written. */
  predicate NextEnabledAsWritten(page: int, totalPages: nat) {
    page != totalPages
  }

  /** Next as intended: enabled only while a later page exists. */
  predicate NextEnabled(page: int, totalPages: nat) {
    page < totalPages
  }

  /** The button as written stays enabled on every page past the last one, so
      Next walks through empty pages without end; on an empty list it is
      already enabled on page 1 ("1 / 0"). */
  lemma NextAsWrittenPassesLastPage<T>(xs: seq<T>, page: int)
    requires page >= 1 && page > TotalPages(|xs|)
    ensures NextEnabledAsWritten(page, TotalPages(|xs|))
    ensures Page(xs, page + 1) == []
    ensures NextEnabledAsWritten(1, TotalPages(0)) && Page(xs[..0], 2) == []
  {
  }

  /** With the intended guard, Next only ever leads to a page that has items. */
  lemma {:induction false} NextLeadsToItems<T>(xs: seq<T>, page: int)
    requires page >= 1 && NextEnabled(page, TotalPages(|xs|))
    ensures Page(xs, page + 1) != []
    ensures Page(xs, page + 1) == Pages(xs)[page]
  {
    assert page * ItemsPerPage < |xs| by {
      assert page <= TotalPages(|xs|) - 1;
      assert page * ItemsPerPage <= (TotalPages(|xs|) - 1) * ItemsPerPage;
    }
  }

  /** The table's paging state. */
  class TableState {
    var currentPage: int
    var activePlaylist: Option<Playlist>

    /** The page is never below 1. */
    predicate Valid()
      reads this
    {
      currentPage >= 1
    }

    constructor ()
      ensures Valid() && currentPage == 1 && activePlaylist.None?
    {
      currentPage := 1;
      activePlaylist := None;
    }

    /** Choosing a playlist shows it from page 1. */
    method ChoosePlaylist(p: Playlist)
      modifies this
      ensures Valid() && activePlaylist == Some(p) && currentPage == 1
    {
      activePlaylist := Some(p);
      currentPage := 1;
    }

    /** "Clear": back to all problems, on the same page. */
    method ClearPlaylist()
      modifies this
      ensures activePlaylist.None? && currentPage == old(currentPage)
    {
      activePlaylist := None;
    }

    /** Prev: one page back unless on page 1. */
    method Prev()
      requires Valid()
      modifies this
      ensures Valid() && activePlaylist == old(activePlaylist)
      ensures currentPage == if PrevEnabled(old(currentPage)) then old(currentPage) - 1 else old(currentPage)
    {
      if PrevEnabled(currentPage) {
        currentPage := currentPage - 1;
      }
    }

    /** Next with the intended guard. The search and filter setters do not reset
        the page, so it may already lie past the last page; Next never moves it
        further, and a page within the filtered list's pages (page 1 for an
        empty list) stays within them. */
    method Next(totalPages: nat)
      requires Valid()
      modifies this
      ensures Valid() && activePlaylist == old(activePlaylist)
      ensures old(currentPage) <= (if totalPages == 0 then 1 else totalPages) ==>
        currentPage <= if totalPages == 0 then 1 else totalPages
      ensures old(currentPage) >= totalPages ==> currentPage == old(currentPage)
      ensures currentPage == if NextEnabled(old(currentPage), totalPages) then old(currentPage) + 1 else old(currentPage)
    {
      if NextEnabled(currentPage, totalPages) {
        currentPage := currentPage + 1;
      }
    }
  }
}

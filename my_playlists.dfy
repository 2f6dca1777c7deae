/** The playlist page `Frontend/src/page/MyPlaylists.jsx`: the one open playlist,
    the search over a playlist's problems and the two playlist filters. */
module MyPlaylists {
  import opened Wrappers
  import opened Text
  import opened Seqs

  /** A playlist entry wraps the problem it refers to. */
  datatype Entry = Entry(title: string)

  /** A playlist; `ownerId` is `playlist.user?.id`, `None` when undefined. */
  datatype Playlist = Playlist(id: string, ownerId: Option<string>, problems: seq<Entry>)

  /** `toggleDropdown`: the open id is closed when toggled again, and any other
      id replaces it; at most one playlist is open at a time. */
  function Toggle(open: Option<string>, id: string): (open': Option<string>)
    ensures open == Some(id) ==> open' == None
    ensures open != Some(id) ==> open' == Some(id)
  {
    if open == Some(id) then None else Some(id)
  }

  /** Toggling the same id twice restores the state when that id was open or
      nothing was, and closes everything when another id was open. */
  lemma ToggleTwice(open: Option<string>, id: string)
    ensures Toggle(Toggle(open, id), id) == if open == Some(id) then Some(id) else None
  {
  }

  /** The search rule on one problem: its lowercased title contains the
      lowercased term. */
  predicate TitleMatches(e: Entry, term: string) {
    Contains(ToLower(e.title), ToLower(term))
  }

  /** `handleSearch`: the problems whose title matches, in order. */
  function HandleSearch(problems: seq<Entry>, term: string): (r: seq<Entry>)
    ensures forall e :: e in r <==> e in problems && TitleMatches(e, term)
    ensures forall e :: multiset(r)[e] == if TitleMatches(e, term) then multiset(problems)[e] else 0
    ensures SubsequenceOf(r, problems)
  {
    FilterCounts(problems, e => TitleMatches(e, term));
    Filter(problems, e => TitleMatches(e, term))
  }

  /** `problems.some(...)`: some problem's title matches. */
  function AnyMatches(problems: seq<Entry>, term: string): bool {
    problems != [] && (TitleMatches(problems[0], term) || AnyMatches(problems[1..], term))
  }

  /** The `some` test of the playlist filter keeps a playlist exactly when the
      search over its problems finds something. */
  lemma {:induction false} AnyMatchesIffFound(problems: seq<Entry>, term: string)
    ensures AnyMatches(problems, term) <==> HandleSearch(problems, term) != []
  {
    if problems != [] {
      AnyMatchesIffFound(problems[1..], term);
      assert problems[0] in problems;
      if HandleSearch(problems, term) != [] && !TitleMatches(problems[0], term) {
        var e := HandleSearch(problems, term)[0];
        assert e in problems && e != problems[0];
        assert e in problems[1..];
      }
      if HandleSearch(problems[1..], term) != [] {
        var e := HandleSearch(problems[1..], term)[0];
        assert e in problems;
      }
    }
  }

  /** The ownership rule: `playlist.user?.id === user?.id`, two undefined ids
      being equal. */
  predicate Owned(p: Playlist, me: Option<string>) {
    p.ownerId == me
  }

  /** `myPlaylists`: the current user's playlists, in order. */
  function MyPlaylists(playlists: seq<Playlist>, me: Option<string>): (r: seq<Playlist>)
    ensures forall p :: p in r <==> p in playlists && Owned(p, me)
    ensures SubsequenceOf(r, playlists)
  {
    Filter(playlists, p => Owned(p, me))
  }

  /** The playlist search rule: a blank term keeps every playlist, another term
      keeps the playlists with a matching problem. */
  predicate ShowPlaylist(p: Playlist, term: string) {
    Trim(term) == "" || AnyMatches(p.problems, term)
  }

  /** `filteredPlaylists`. */
  function FilteredPlaylists(playlists: seq<Playlist>, me: Option<string>, term: string): (r: seq<Playlist>)
    ensures forall p :: p in r <==> p in MyPlaylists(playlists, me) && ShowPlaylist(p, term)
  {
    Filter(MyPlaylists(playlists, me), p => ShowPlaylist(p, term))
  }

  /** The shown playlists are an ordered selection of the user's playlists, and
      those of all playlists; a blank term shows all of the user's playlists, and
      any other term exactly those whose search finds a problem. */
  lemma {:induction false} FilteredPlaylistsFacts(playlists: seq<Playlist>, me: Option<string>, term: string)
    ensures SubsequenceOf(FilteredPlaylists(playlists, me, term), MyPlaylists(playlists, me))
    ensures SubsequenceOf(FilteredPlaylists(playlists, me, term), playlists)
    ensures IsBlank(term) ==> FilteredPlaylists(playlists, me, term) == MyPlaylists(playlists, me)
    ensures !IsBlank(term) ==> forall p :: p in FilteredPlaylists(playlists, me, term) <==>
      p in playlists && Owned(p, me) && HandleSearch(p.problems, term) != []
  {
    var mine := MyPlaylists(playlists, me);
    SubsequenceTransitive(FilteredPlaylists(playlists, me, term), mine, playlists);
    if IsBlank(term) {
      FilterKeepsAll(mine, p => ShowPlaylist(p, term));
    } else {
      forall p ensures p in FilteredPlaylists(playlists, me, term) <==> p in playlists && Owned(p, me) && HandleSearch(p.problems, term) != [] {
        AnyMatchesIffFound(p.problems, term);
      }
    }
  }
}

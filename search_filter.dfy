/** The movie filter of the search page (`filterMovies`, `handleClearFilters`
    and the `genres`/`years` option lists of
    `src/components/pages/SearchPage.jsx`; `src/pages/Search.jsx` holds the
    same code). Four order-keeping filters run one after the other over the
    loaded catalog: the text query, the genre, the year and the minimum
    rating, each only when it is set. */
module SearchFilter {
  import opened Outcomes
  import opened Seqs
  import opened Text
  import opened Movies

  /** The filter selections. An empty genre and a `None` year or minimum
      rating stand for the empty option; `year` is the `parseInt` of the
      chosen year and `minRating` the `parseFloat` of the chosen threshold,
      in tenths. */
  datatype Filters = Filters(genre: string, year: Option<int>, minRating: Option<int>)

  /** The query text and the filter selections of the page. */
  datatype SearchState = SearchState(query: string, filters: Filters)

  /** Movie `m` passes every filter that is set. */
  predicate Selected(m: Movie, query: string, f: Filters)
  {
    (Trim(query) == [] || MatchesQuery(m, query)) &&
    (f.genre == "" || HasGenre(m, f.genre)) &&
    (f.year.None? || m.year == f.year.value) &&
    (f.minRating.None? || m.rating >= f.minRating.value)
  }

  function Selection(query: string, f: Filters): Movie -> bool
  {
    (m: Movie) => Selected(m, query, f)
  }

  /** The genre filter: `movie.genres?.includes(genre)`. */
  function GenreTest(genre: string): Movie -> bool
  {
    (m: Movie) => HasGenre(m, genre)
  }

  /** The year filter: `movie.year === selectedYear`. */
  function YearTest(year: Option<int>): Movie -> bool
  {
    (m: Movie) => year.Some? && m.year == year.value
  }

  /** The rating filter: `movie.rating >= minRating`. */
  function RatingTest(minRating: Option<int>): Movie -> bool
  {
    (m: Movie) => minRating.Some? && m.rating >= minRating.value
  }

  /** `filterMovies`: the text filter runs only for a query that is not
      blank once trimmed, and then matches the untrimmed query; the genre,
      year and rating filters run only when selected. The result keeps the
      catalog's order and holds exactly the movies that pass every filter
      that is set. */
  function FilterMovies(all: seq<Movie>, query: string, f: Filters): (r: seq<Movie>)
    ensures IsSubsequence(r, all)
    ensures forall m :: m in r <==> m in all && Selected(m, query, f)
  {
    var byText := if Trim(query) != [] then Filter(all, Matcher(query)) else all;
    var byGenre := if f.genre != "" then Filter(byText, GenreTest(f.genre)) else byText;
    var byYear := if f.year.Some? then Filter(byGenre, YearTest(f.year)) else byGenre;
    var r := if f.minRating.Some? then Filter(byYear, RatingTest(f.minRating)) else byYear;
    StagesCompose(all, query, f, byText, byGenre, byYear, r);
    r
  }

  /** The four stages of `filterMovies`, run one after another, filter once
      by `Selected`. */
  lemma StagesCompose(all: seq<Movie>, query: string, f: Filters,
                      byText: seq<Movie>, byGenre: seq<Movie>, byYear: seq<Movie>, r: seq<Movie>)
    requires byText == if Trim(query) != [] then Filter(all, Matcher(query)) else all
    requires byGenre == if f.genre != "" then Filter(byText, GenreTest(f.genre)) else byText
    requires byYear == if f.year.Some? then Filter(byGenre, YearTest(f.year)) else byGenre
    requires r == if f.minRating.Some? then Filter(byYear, RatingTest(f.minRating)) else byYear
    ensures r == Filter(all, Selection(query, f))
  {
    TextAndGenreStages(all, query, f);
    YearStageStep(all, query, f);
    RatingStageStep(all, query, f);
  }

  // The filters with "or unset" folded in, and their running conjunctions.

  function TextStage(query: string): Movie -> bool
  {
    (m: Movie) => Trim(query) == [] || MatchesQuery(m, query)
  }

  function GenreStage(query: string, f: Filters): Movie -> bool
  {
    (m: Movie) => TextStage(query)(m) && (f.genre == "" || HasGenre(m, f.genre))
  }

  function YearStage(query: string, f: Filters): Movie -> bool
  {
    (m: Movie) => GenreStage(query, f)(m) && (f.year.None? || m.year == f.year.value)
  }

  lemma TextAndGenreStages(all: seq<Movie>, query: string, f: Filters)
    ensures var byText := if Trim(query) != [] then Filter(all, Matcher(query)) else all;
      (if f.genre != "" then Filter(byText, GenreTest(f.genre)) else byText) ==
      Filter(all, GenreStage(query, f))
  {
    ConditionalFilter(all, Trim(query) != [], Matcher(query), TextStage(query));
    var g := (m: Movie) => f.genre == "" || HasGenre(m, f.genre);
    ConditionalFilter(Filter(all, TextStage(query)), f.genre != "", GenreTest(f.genre), g);
    FilterFilter(all, TextStage(query), g, GenreStage(query, f));
  }

  lemma YearStageStep(all: seq<Movie>, query: string, f: Filters)
    ensures var s := Filter(all, GenreStage(query, f));
      (if f.year.Some? then Filter(s, YearTest(f.year)) else s) == Filter(all, YearStage(query, f))
  {
    var y := (m: Movie) => f.year.None? || m.year == f.year.value;
    ConditionalFilter(Filter(all, GenreStage(query, f)), f.year.Some?, YearTest(f.year), y);
    FilterFilter(all, GenreStage(query, f), y, YearStage(query, f));
  }

  lemma RatingStageStep(all: seq<Movie>, query: string, f: Filters)
    ensures var s := Filter(all, YearStage(query, f));
      (if f.minRating.Some? then Filter(s, RatingTest(f.minRating)) else s) ==
      Filter(all, Selection(query, f))
  {
    var r := (m: Movie) => f.minRating.None? || m.rating >= f.minRating.value;
    ConditionalFilter(Filter(all, YearStage(query, f)), f.minRating.Some?, RatingTest(f.minRating), r);
    forall m
      ensures Selection(query, f)(m) == (YearStage(query, f)(m) && r(m))
    {
      assert YearStage(query, f)(m) == (GenreStage(query, f)(m) && (f.year.None? || m.year == f.year.value));
      assert GenreStage(query, f)(m) == (TextStage(query)(m) && (f.genre == "" || HasGenre(m, f.genre)));
    }
    FilterFilter(all, YearStage(query, f), r, Selection(query, f));
  }

  /** The four filters compose as one filter by their conjunction: the
      result is the catalog with exactly the failing movies removed, order
      and repetitions kept. */
  lemma FilterMoviesIsConjunction(all: seq<Movie>, query: string, f: Filters)
    ensures FilterMovies(all, query, f) == Filter(all, Selection(query, f))
  {
    TextAndGenreStages(all, query, f);
    YearStageStep(all, query, f);
    RatingStageStep(all, query, f);
  }

  /** `handleClearFilters`: empty query, every filter unset. */
  function ClearFilters(): (s: SearchState)
    ensures IsBlank(s.query) && s.filters.genre == ""
    ensures s.filters.year.None? && s.filters.minRating.None?
  {
    SearchState("", Filters("", None, None))
  }

  /** After clearing, the page shows the whole catalog. */
  lemma ClearedShowsAll(all: seq<Movie>)
    ensures var s := ClearFilters(); FilterMovies(all, s.query, s.filters) == all
  {
    var cleared := Filters("", None, None);
    assert ClearFilters() == SearchState("", cleared);
    assert Trim("") == [];
    forall m | m in all
      ensures Selection("", cleared)(m)
    {
    }
    FilterAll(all, Selection("", cleared));
    FilterMoviesIsConjunction(all, "", cleared);
  }

  /** A query of white space only filters like the empty query. */
  lemma BlankQueryIsNoQuery(all: seq<Movie>, query: string, f: Filters)
    requires IsBlank(query)
    ensures FilterMovies(all, query, f) == FilterMovies(all, "", f)
  {
    assert Trim(query) == [] && Trim("") == [];
  }

  /** `flatMap(movie => movie.genres || [])`: the genre lists one after the
      other, so every genre of every movie is in it, and nothing else. */
  function AllGenres(ms: seq<Movie>): (r: seq<string>)
    ensures forall i, g :: 0 <= i < |ms| && g in ms[i].genres.GetOr([]) ==> g in r
    ensures forall g :: g in r ==> exists i :: 0 <= i < |ms| && g in ms[i].genres.GetOr([])
  {
    if |ms| == 0 then [] else ms[0].genres.GetOr([]) + AllGenres(ms[1..])
  }

  /** The flattened list holds exactly the genres some movie lists. */
  lemma {:induction false} AllGenresMembers(ms: seq<Movie>)
    ensures forall g :: g in AllGenres(ms) <==> exists m :: m in ms && HasGenre(m, g)
    decreases |ms|
  {
    if |ms| > 0 {
      AllGenresMembers(ms[1..]);
      forall g
        ensures g in AllGenres(ms) <==> exists m :: m in ms && HasGenre(m, g)
      {
        if g in ms[0].genres.GetOr([]) {
          assert HasGenre(ms[0], g);
        }
        if exists m :: m in ms && HasGenre(m, g) {
          var m :| m in ms && HasGenre(m, g);
          if m != ms[0] {
            assert m in ms[1..];
          }
        }
      }
    }
  }

  /** The `genres` option list: every genre any movie lists, once each, in
      ascending order. */
  function Genres(ms: seq<Movie>): (r: seq<string>)
    ensures forall g :: g in r <==> exists m :: m in ms && HasGenre(m, g)
    ensures forall i, j :: 0 <= i < j < |r| ==> StrLe(r[i], r[j]) && r[i] != r[j]
  {
    var unique := Dedup(AllGenres(ms));
    AllGenresMembers(ms);
    StrOrderIsTotalPreorder();
    var r := SortWith(unique, StrLe);
    PermutationKeepsDistinct(unique, r);
    SameMembers(unique, r);
    r
  }

  lemma SameMembers<T>(a: seq<T>, b: seq<T>)
    requires multiset(a) == multiset(b)
    ensures forall x :: x in a <==> x in b
  {
    assert forall x :: x in a <==> x in multiset(a);
    assert forall x :: x in b <==> x in multiset(b);
  }

  lemma StrOrderIsTotalPreorder()
    ensures Connected(StrLe) && Transitive(StrLe)
  {
    forall a, b
      ensures StrLe(a, b) || StrLe(b, a)
    {
      StrLeConnected(a, b);
    }
    forall a, b, c | StrLe(a, b) && StrLe(b, c)
      ensures StrLe(a, c)
    {
      StrLeTransitive(a, b, c);
    }
  }

  /** `map(movie => movie.year)`: one year per movie, in catalog order. */
  function AllYears(ms: seq<Movie>): (r: seq<int>)
    ensures |r| == |ms|
    ensures forall i :: 0 <= i < |ms| ==> r[i] == ms[i].year
  {
    if |ms| == 0 then [] else [ms[0].year] + AllYears(ms[1..])
  }

  /** The mapped list holds exactly the years of the movies. */
  lemma {:induction false} AllYearsMembers(ms: seq<Movie>)
    ensures forall y :: y in AllYears(ms) <==> exists m :: m in ms && m.year == y
    decreases |ms|
  {
    if |ms| > 0 {
      AllYearsMembers(ms[1..]);
      forall y
        ensures y in AllYears(ms) <==> exists m :: m in ms && m.year == y
      {
        if exists m :: m in ms && m.year == y {
          var m :| m in ms && m.year == y;
          if m != ms[0] {
            assert m in ms[1..];
          }
        }
      }
    }
  }

  /** The `years` option list: every year of a movie, once each, newest
      first. */
  function Years(ms: seq<Movie>): (r: seq<int>)
    ensures forall y :: y in r <==> exists m :: m in ms && m.year == y
    ensures forall i, j :: 0 <= i < j < |r| ==> r[i] > r[j]
  {
    var unique := Dedup(AllYears(ms));
    AllYearsMembers(ms);
    // The comparator `(a, b) => b - a` sorts by the key `-year`.
    var r := SortBy(unique, (y: int) => -y);
    PermutationKeepsDistinct(unique, r);
    SameMembers(unique, r);
    r
  }
}

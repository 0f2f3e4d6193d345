/** The movie catalog (`src/services/api/movieService.js`): an array of movies
    with membership filters by mood and genre, a case-insensitive text search,
    and a private list of watchlisted movie ids.

    A movie's rating is held in tenths (8.5 is 85). `now` stands for the clock
    reading of `create`, whose decimal rendering is the new id. */
module Movies {
  import opened Outcomes
  import opened Seqs
  import opened Text

  /** One catalog entry; `genres` and `moods` may be absent from a record. */
  datatype Movie = Movie(id: string, title: string, synopsis: string, year: int, rating: int,
                         genres: Option<seq<string>>, moods: Option<seq<string>>)

  /** The argument of `create`: every field but the id. */
  datatype MovieInput = MovieInput(title: string, synopsis: string, year: int, rating: int,
                                   genres: Option<seq<string>>, moods: Option<seq<string>>)

  /** The argument of `update`: the fields it carries, each spread over the
      stored movie. */
  datatype MoviePatch = MoviePatch(id: Option<string>, title: Option<string>,
                                   synopsis: Option<string>, year: Option<int>,
                                   rating: Option<int>, genres: Option<seq<string>>,
                                   moods: Option<seq<string>>)

  const NotFound := "Movie not found"

  function IdIndex(ms: seq<Movie>, id: string): int
  {
    FindIndex(ms, (m: Movie) => m.id == id)
  }

  /** `movie.moods && movie.moods.includes(mood)`. */
  predicate HasMood(m: Movie, mood: string)
  {
    m.moods.Some? && mood in m.moods.value
  }

  /** `movie.genres && movie.genres.includes(genre)`. */
  predicate HasGenre(m: Movie, genre: string)
  {
    m.genres.Some? && genre in m.genres.value
  }

  /** `text.toLowerCase().includes(query.toLowerCase())`. */
  predicate ContainsIgnoringCase(text: string, query: string)
  {
    Includes(LowerStr(text), LowerStr(query))
  }

  /** `labels.some(g => g.toLowerCase().includes(query.toLowerCase()))`. */
  function SomeLabelContains(labels: seq<string>, query: string): (b: bool)
    ensures b <==> exists i :: 0 <= i < |labels| && ContainsIgnoringCase(labels[i], query)
  {
    if |labels| == 0 then false
    else if ContainsIgnoringCase(labels[0], query) then true
    else
      var rest := SomeLabelContains(labels[1..], query);
      assert forall i :: 0 < i < |labels| ==> labels[i] == labels[1..][i - 1];
      rest
  }

  /** The text test of `search` (and of the search page): the lower-cased
      query is part of the lower-cased title, synopsis or some genre. */
  function MatchesQuery(m: Movie, query: string): (b: bool)
    ensures b <==> ContainsIgnoringCase(m.title, query) || ContainsIgnoringCase(m.synopsis, query) ||
                   (m.genres.Some? && exists i :: 0 <= i < |m.genres.value| &&
                                                  ContainsIgnoringCase(m.genres.value[i], query))
  {
    ContainsIgnoringCase(m.title, query) || ContainsIgnoringCase(m.synopsis, query) ||
    (m.genres.Some? && SomeLabelContains(m.genres.value, query))
  }

  lemma LowerIdempotent(s: string)
    ensures LowerStr(LowerStr(s)) == LowerStr(s)
  {
  }

  /** Matching ignores the case of the query. */
  lemma MatchIgnoresQueryCase(m: Movie, query: string)
    ensures MatchesQuery(m, LowerStr(query)) == MatchesQuery(m, query)
  {
    LowerIdempotent(query);
    if m.genres.Some? {
      var gs := m.genres.value;
      assert forall i :: 0 <= i < |gs| ==>
        ContainsIgnoringCase(gs[i], LowerStr(query)) == ContainsIgnoringCase(gs[i], query);
    }
  }

  /** Every movie matches the empty query. */
  lemma EmptyQueryMatches(m: Movie)
    ensures MatchesQuery(m, "")
  {
    assert OccursAt(LowerStr(m.title), LowerStr(""), 0);
  }

  /** The filter predicate of `search`. */
  function Matcher(query: string): Movie -> bool
  {
    (m: Movie) => MatchesQuery(m, query)
  }

  /** Searching for the empty string keeps every movie. */
  lemma EmptySearchKeepsAll(ms: seq<Movie>, query: string)
    ensures query == "" ==> Filter(ms, Matcher(query)) == ms
  {
    if query == "" {
      forall m | m in ms
        ensures Matcher(query)(m)
      {
        EmptyQueryMatches(m);
      }
      FilterAll(ms, Matcher(query));
    }
  }

  /** The movie `create` appends. */
  function NewMovie(input: MovieInput, now: nat): (m: Movie)
    ensures m.id == NatToString(now)
    ensures m.(id := "") == Movie("", input.title, input.synopsis, input.year, input.rating,
                                  input.genres, input.moods)
  {
    Movie(NatToString(now), input.title, input.synopsis, input.year, input.rating,
          input.genres, input.moods)
  }

  /** `{ ...stored, ...patch }`: each field the patch carries overrides the
      stored one. */
  function Merge(stored: Movie, patch: MoviePatch): (r: Movie)
    ensures r.id == (if patch.id.Some? then patch.id.value else stored.id)
    ensures r.title == (if patch.title.Some? then patch.title.value else stored.title)
    ensures r.synopsis == (if patch.synopsis.Some? then patch.synopsis.value else stored.synopsis)
    ensures r.year == (if patch.year.Some? then patch.year.value else stored.year)
    ensures r.rating == (if patch.rating.Some? then patch.rating.value else stored.rating)
    ensures r.genres == (if patch.genres.Some? then patch.genres else stored.genres)
    ensures r.moods == (if patch.moods.Some? then patch.moods else stored.moods)
    ensures patch == MoviePatch(None, None, None, None, None, None, None) ==> r == stored
  {
    Movie(patch.id.GetOr(stored.id), patch.title.GetOr(stored.title),
          patch.synopsis.GetOr(stored.synopsis), patch.year.GetOr(stored.year),
          patch.rating.GetOr(stored.rating),
          if patch.genres.Some? then patch.genres else stored.genres,
          if patch.moods.Some? then patch.moods else stored.moods)
  }

  /** The catalog entries whose id is on the watchlist, in catalog order. */
  function WatchlistMovies(ms: seq<Movie>, watchlist: seq<string>): (r: seq<Movie>)
    ensures IsSubsequence(r, ms)
    ensures forall m :: m in r <==> m in ms && m.id in watchlist
    ensures forall m :: multiset(r)[m] == if m.id in watchlist then multiset(ms)[m] else 0
  {
    Filter(ms, (m: Movie) => m.id in watchlist)
  }

  /** Once `addToWatchlist(id)` has run, every catalog entry with that id is
      among the watchlist movies; once `removeFromWatchlist(id)` has run, none
      is, and the other entries are unaffected. */
  lemma WatchlistAddRemove(ms: seq<Movie>, watchlist: seq<string>, id: string)
    ensures forall m :: m in ms && m.id == id ==> m in WatchlistMovies(ms, AppendIfAbsent(watchlist, id))
    ensures forall m :: m in ms && m.id == id ==> m !in WatchlistMovies(ms, Without(watchlist, id))
    ensures forall m :: m in ms && m.id != id ==>
              (m in WatchlistMovies(ms, Without(watchlist, id)) <==> m in WatchlistMovies(ms, watchlist))
  {
    var w := Without(watchlist, id);
    forall m | m in ms && m.id != id
      ensures m.id in w <==> m.id in watchlist
    {
      assert multiset(w)[m.id] == multiset(watchlist)[m.id];
    }
  }

  class MovieService {
    var movies: seq<Movie>
    var watchlist: seq<string>

    /** The catalog starts from the seed records, the watchlist from what
        local storage held (an arbitrary list of ids). */
    constructor (seed: seq<Movie>, stored: seq<string>)
      ensures movies == seed && watchlist == stored
    {
      movies := seed;
      watchlist := stored;
    }

    /** `getById`: the first movie with that id. */
    function GetById(id: string): (r: Result<Movie>)
      reads this
      ensures r.Fail? <==> forall i :: 0 <= i < |movies| ==> movies[i].id != id
      ensures r.Fail? ==> r.message == NotFound
      ensures r.Ok? ==> r.value.id == id && r.value == movies[IdIndex(movies, id)]
    {
      var k := IdIndex(movies, id);
      if k < 0 then Fail(NotFound) else Ok(movies[k])
    }

    /** `getByMood`: the movies listing that mood, in catalog order. */
    function GetByMood(mood: string): (r: seq<Movie>)
      reads this
      ensures IsSubsequence(r, movies)
      ensures forall m :: m in r <==> m in movies && m.moods.Some? && mood in m.moods.value
      ensures forall m :: multiset(r)[m] == if HasMood(m, mood) then multiset(movies)[m] else 0
    {
      Filter(movies, (m: Movie) => HasMood(m, mood))
    }

    /** `getByGenre`: the movies listing that genre, in catalog order. */
    function GetByGenre(genre: string): (r: seq<Movie>)
      reads this
      ensures IsSubsequence(r, movies)
      ensures forall m :: m in r <==> m in movies && m.genres.Some? && genre in m.genres.value
      ensures forall m :: multiset(r)[m] == if HasGenre(m, genre) then multiset(movies)[m] else 0
    {
      Filter(movies, (m: Movie) => HasGenre(m, genre))
    }

    /** `search`: the movies matching the (untrimmed) query, in catalog
        order; the empty query keeps the whole catalog. */
    function Search(query: string): (r: seq<Movie>)
      reads this
      ensures IsSubsequence(r, movies)
      ensures forall m :: m in r <==> m in movies && MatchesQuery(m, query)
      ensures forall m :: multiset(r)[m] == if MatchesQuery(m, query) then multiset(movies)[m] else 0
      ensures query == "" ==> r == movies
    {
      EmptySearchKeepsAll(movies, query);
      Filter(movies, Matcher(query))
    }

    /** `getWatchlistMovies`. */
    function GetWatchlistMovies(): (r: seq<Movie>)
      reads this
      ensures IsSubsequence(r, movies)
      ensures forall m :: m in r <==> m in movies && m.id in watchlist
      ensures forall m :: multiset(r)[m] == if m.id in watchlist then multiset(movies)[m] else 0
    {
      WatchlistMovies(movies, watchlist)
    }

    /** `addToWatchlist`: append the id unless it is already there. */
    method AddToWatchlist(movieId: string) returns (r: bool)
      modifies this
      ensures r
      ensures movies == old(movies)
      ensures watchlist == AppendIfAbsent(old(watchlist), movieId)
    {
      if movieId !in watchlist {
        watchlist := watchlist + [movieId];
      }
      r := true;
    }

    /** `removeFromWatchlist`: drop every occurrence of the id. */
    method RemoveFromWatchlist(movieId: string) returns (r: bool)
      modifies this
      ensures r
      ensures movies == old(movies)
      ensures watchlist == Without(old(watchlist), movieId)
    {
      watchlist := Without(watchlist, movieId);
      r := true;
    }

    /** `create`: append one movie with a fresh id. */
    method Create(input: MovieInput, now: nat) returns (m: Movie)
      modifies this
      ensures m == NewMovie(input, now)
      ensures movies == old(movies) + [m] && watchlist == old(watchlist)
    {
      m := NewMovie(input, now);
      movies := movies + [m];
    }

    /** `update`: merge the patch into the first movie with that id. */
    method Update(id: string, patch: MoviePatch) returns (r: Result<Movie>)
      modifies this
      ensures watchlist == old(watchlist)
      ensures var k := IdIndex(old(movies), id);
        (k < 0 ==> r == Fail(NotFound) && movies == old(movies)) &&
        (k >= 0 ==> r == Ok(Merge(old(movies)[k], patch)) && movies == old(movies)[k := r.value])
    {
      var index := IdIndex(movies, id);
      if index == -1 {
        return Fail(NotFound);
      }
      var updated := Merge(movies[index], patch);
      movies := movies[index := updated];
      r := Ok(updated);
    }

    /** `delete`: remove the first movie with that id. */
    method Delete(id: string) returns (r: Result<bool>)
      modifies this
      ensures watchlist == old(watchlist)
      ensures var k := IdIndex(old(movies), id);
        (k < 0 ==> r == Fail(NotFound) && movies == old(movies)) &&
        (k >= 0 ==> r == Ok(true) && movies == RemoveAt(old(movies), k))
    {
      var index := IdIndex(movies, id);
      if index == -1 {
        return Fail(NotFound);
      }
      movies := movies[..index] + movies[index + 1..];
      r := Ok(true);
    }
  }
}

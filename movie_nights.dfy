/** The movie-night store (`src/services/api/movieNightService.js`): an array
    of themed, dated nights, each with a list of movie ids and a share link.

    Dates are held as their time value in epoch milliseconds. `now` stands for
    the clock reading of `create`: the new id is its decimal rendering, and it
    is the default date and the number at the end of the default share link. */
module MovieNights {
  import opened Outcomes
  import opened Seqs
  import opened Text

  datatype MovieNight = MovieNight(id: string, theme: string, date: int,
                                   movieIds: seq<string>, shareLink: string)

  /** The argument of `create`. A missing or empty date is `None`; a missing
      share link is the empty string, which the service treats alike. */
  datatype MovieNightInput = MovieNightInput(theme: string, date: Option<int>,
                                             movieIds: Option<seq<string>>, shareLink: string)

  /** The argument of `update`: the fields it carries, each spread over the
      stored night. */
  datatype MovieNightPatch = MovieNightPatch(id: Option<string>, theme: Option<string>,
                                             date: Option<int>, movieIds: Option<seq<string>>,
                                             shareLink: Option<string>)

  const NotFound := "Movie night not found"
  const ShareLinkPrefix := "moodflix.app/night/"

  function IdIndex(ns: seq<MovieNight>, id: string): int
  {
    FindIndex(ns, (n: MovieNight) => n.id == id)
  }

  function LinkIndex(ns: seq<MovieNight>, shareLink: string): int
  {
    FindIndex(ns, (n: MovieNight) => n.shareLink == shareLink)
  }

  /** The share link a night created at `now` gets when none is supplied. */
  function DefaultShareLink(now: nat): (link: string)
    ensures |ShareLinkPrefix| < |link| && link[..|ShareLinkPrefix|] == ShareLinkPrefix
    ensures var digits := link[|ShareLinkPrefix|..];
      (forall i :: 0 <= i < |digits| ==> IsDigit(digits[i])) && DigitsValue(digits) == now
  {
    var link := ShareLinkPrefix + NatToString(now);
    assert link[|ShareLinkPrefix|..] == NatToString(now);
    link
  }

  /** Nights created at different times get different default links. */
  lemma DefaultShareLinksDiffer(m: nat, n: nat)
    requires m != n
    ensures DefaultShareLink(m) != DefaultShareLink(n)
  {
  }

  /** The night `create` appends: a supplied date, movie list and share link
      win; otherwise the date is `now`, the list is empty and the link is the
      default one for `now`. */
  function NewNight(input: MovieNightInput, now: nat): (n: MovieNight)
    ensures n.id == NatToString(now) && n.theme == input.theme
    ensures n.date == (if input.date.Some? then input.date.value else now)
    ensures n.movieIds == (if input.movieIds.Some? then input.movieIds.value else [])
    ensures n.shareLink != ""
    ensures input.shareLink != "" ==> n.shareLink == input.shareLink
    ensures input.shareLink == "" ==> n.shareLink == DefaultShareLink(now)
  {
    MovieNight(NatToString(now), input.theme, input.date.GetOr(now), input.movieIds.GetOr([]),
               if input.shareLink != "" then input.shareLink else DefaultShareLink(now))
  }

  /** `{ ...stored, ...patch }`: each field the patch carries overrides the
      stored one. */
  function Merge(stored: MovieNight, patch: MovieNightPatch): (r: MovieNight)
    ensures r.id == (if patch.id.Some? then patch.id.value else stored.id)
    ensures r.theme == (if patch.theme.Some? then patch.theme.value else stored.theme)
    ensures r.date == (if patch.date.Some? then patch.date.value else stored.date)
    ensures r.movieIds == (if patch.movieIds.Some? then patch.movieIds.value else stored.movieIds)
    ensures r.shareLink == (if patch.shareLink.Some? then patch.shareLink.value else stored.shareLink)
    ensures patch == MovieNightPatch(None, None, None, None, None) ==> r == stored
  {
    MovieNight(patch.id.GetOr(stored.id), patch.theme.GetOr(stored.theme),
               patch.date.GetOr(stored.date), patch.movieIds.GetOr(stored.movieIds),
               patch.shareLink.GetOr(stored.shareLink))
  }

  /** The store after `addMovie` finds night `k`: `movieId` is appended to
      that night's list when missing, and nothing else changes. */
  function WithMovie(ns: seq<MovieNight>, k: int, movieId: string): (r: seq<MovieNight>)
    requires 0 <= k < |ns|
    ensures |r| == |ns|
    ensures forall i :: 0 <= i < |ns| && i != k ==> r[i] == ns[i]
    ensures r[k] == ns[k].(movieIds := r[k].movieIds)
    ensures forall x :: x in r[k].movieIds <==> x in ns[k].movieIds || x == movieId
    ensures |ns[k].movieIds| <= |r[k].movieIds| && r[k].movieIds[..|ns[k].movieIds|] == ns[k].movieIds
    ensures movieId in ns[k].movieIds ==> r == ns
    ensures movieId !in ns[k].movieIds ==> r[k].movieIds == ns[k].movieIds + [movieId]
    ensures Distinct(ns[k].movieIds) ==> Distinct(r[k].movieIds)
  {
    ns[k := ns[k].(movieIds := AppendIfAbsent(ns[k].movieIds, movieId))]
  }

  /** The store after `removeMovie` finds night `k`: every occurrence of
      `movieId` leaves that night's list, the other ids keep their order and
      multiplicity, and nothing else changes. */
  function WithoutMovie(ns: seq<MovieNight>, k: int, movieId: string): (r: seq<MovieNight>)
    requires 0 <= k < |ns|
    ensures |r| == |ns|
    ensures forall i :: 0 <= i < |ns| && i != k ==> r[i] == ns[i]
    ensures r[k] == ns[k].(movieIds := r[k].movieIds)
    ensures movieId !in r[k].movieIds
    ensures IsSubsequence(r[k].movieIds, ns[k].movieIds)
    ensures forall x | x != movieId :: multiset(r[k].movieIds)[x] == multiset(ns[k].movieIds)[x]
    ensures Distinct(ns[k].movieIds) ==> Distinct(r[k].movieIds)
  {
    WithoutKeepsDistinct(ns[k].movieIds, movieId);
    ns[k := ns[k].(movieIds := Without(ns[k].movieIds, movieId))]
  }

  /** Adding or removing the same movie a second time, on the night found
      by the same id, changes nothing. */
  lemma MovieOperationsIdempotent(ns: seq<MovieNight>, nightId: string, movieId: string)
    requires IdIndex(ns, nightId) >= 0
    ensures var k := IdIndex(ns, nightId);
      IdIndex(WithMovie(ns, k, movieId), nightId) == k &&
      WithMovie(WithMovie(ns, k, movieId), k, movieId) == WithMovie(ns, k, movieId) &&
      IdIndex(WithoutMovie(ns, k, movieId), nightId) == k &&
      WithoutMovie(WithoutMovie(ns, k, movieId), k, movieId) == WithoutMovie(ns, k, movieId)
  {
    var k := IdIndex(ns, nightId);
    var p := (n: MovieNight) => n.id == nightId;
    FindIndexAgrees(ns, WithMovie(ns, k, movieId), p);
    FindIndexAgrees(ns, WithoutMovie(ns, k, movieId), p);
    WithoutIdempotent(ns[k].movieIds, movieId);
  }

  class MovieNightService {
    var movieNights: seq<MovieNight>

    /** The store starts from what local storage held (an arbitrary list). */
    constructor (stored: seq<MovieNight>)
      ensures movieNights == stored
    {
      movieNights := stored;
    }

    /** `getAll`: a sorted copy of the store, newest date first. The
        comparator `new Date(b.date) - new Date(a.date)` sorts by the key
        `-date`. */
    function GetAll(): (r: seq<MovieNight>)
      reads this
      ensures multiset(r) == multiset(movieNights)
      ensures forall i, j :: 0 <= i < j < |r| ==> r[i].date >= r[j].date
    {
      var newestFirst := (n: MovieNight) => -n.date;
      var sorted := SortBy(movieNights, newestFirst);
      assert forall i, j :: 0 <= i < j < |sorted| ==> newestFirst(sorted[i]) <= newestFirst(sorted[j]);
      sorted
    }

    /** `getById`: the first night with that id. */
    function GetById(id: string): (r: Result<MovieNight>)
      reads this
      ensures r.Fail? <==> forall i :: 0 <= i < |movieNights| ==> movieNights[i].id != id
      ensures r.Fail? ==> r.message == NotFound
      ensures r.Ok? ==> r.value.id == id && r.value == movieNights[IdIndex(movieNights, id)]
    {
      var k := IdIndex(movieNights, id);
      if k < 0 then Fail(NotFound) else Ok(movieNights[k])
    }

    /** `getByShareLink`: the first night whose link is exactly `shareLink`. */
    function GetByShareLink(shareLink: string): (r: Result<MovieNight>)
      reads this
      ensures r.Fail? <==> forall i :: 0 <= i < |movieNights| ==> movieNights[i].shareLink != shareLink
      ensures r.Fail? ==> r.message == NotFound
      ensures r.Ok? ==> r.value.shareLink == shareLink &&
                        r.value == movieNights[LinkIndex(movieNights, shareLink)]
    {
      var k := LinkIndex(movieNights, shareLink);
      if k < 0 then Fail(NotFound) else Ok(movieNights[k])
    }

    /** `create`: append one night with its defaults filled in. */
    method Create(input: MovieNightInput, now: nat) returns (n: MovieNight)
      modifies this
      ensures n == NewNight(input, now)
      ensures movieNights == old(movieNights) + [n]
    {
      n := NewNight(input, now);
      movieNights := movieNights + [n];
    }

    /** `update`: merge the patch into the first night with that id. */
    method Update(id: string, patch: MovieNightPatch) returns (r: Result<MovieNight>)
      modifies this
      ensures var k := IdIndex(old(movieNights), id);
        (k < 0 ==> r == Fail(NotFound) && movieNights == old(movieNights)) &&
        (k >= 0 ==> r == Ok(Merge(old(movieNights)[k], patch)) &&
                    movieNights == old(movieNights)[k := r.value])
    {
      var index := IdIndex(movieNights, id);
      if index == -1 {
        return Fail(NotFound);
      }
      var updated := Merge(movieNights[index], patch);
      movieNights := movieNights[index := updated];
      r := Ok(updated);
    }

    /** `delete`: remove the first night with that id. */
    method Delete(id: string) returns (r: Result<bool>)
      modifies this
      ensures var k := IdIndex(old(movieNights), id);
        (k < 0 ==> r == Fail(NotFound) && movieNights == old(movieNights)) &&
        (k >= 0 ==> r == Ok(true) && movieNights == RemoveAt(old(movieNights), k))
    {
      var index := IdIndex(movieNights, id);
      if index == -1 {
        return Fail(NotFound);
      }
      movieNights := movieNights[..index] + movieNights[index + 1..];
      r := Ok(true);
    }

    /** `addMovie`: append the movie to the first night with that id unless
        it is already listed there. */
    method AddMovie(nightId: string, movieId: string) returns (r: Result<MovieNight>)
      modifies this
      ensures var k := IdIndex(old(movieNights), nightId);
        (k < 0 ==> r == Fail(NotFound) && movieNights == old(movieNights)) &&
        (k >= 0 ==> movieNights == WithMovie(old(movieNights), k, movieId) &&
                    r == Ok(movieNights[k]))
    {
      var index := IdIndex(movieNights, nightId);
      if index < 0 {
        return Fail(NotFound);
      }
      var night := movieNights[index];
      if movieId !in night.movieIds {
        night := night.(movieIds := night.movieIds + [movieId]);
        movieNights := movieNights[index := night];
      }
      r := Ok(night);
    }

    /** `removeMovie`: drop the movie from the first night with that id. */
    method RemoveMovie(nightId: string, movieId: string) returns (r: Result<MovieNight>)
      modifies this
      ensures var k := IdIndex(old(movieNights), nightId);
        (k < 0 ==> r == Fail(NotFound) && movieNights == old(movieNights)) &&
        (k >= 0 ==> movieNights == WithoutMovie(old(movieNights), k, movieId) &&
                    r == Ok(movieNights[k]))
    {
      var index := IdIndex(movieNights, nightId);
      if index < 0 {
        return Fail(NotFound);
      }
      var night := movieNights[index].(movieIds := Without(movieNights[index].movieIds, movieId));
      movieNights := movieNights[index := night];
      r := Ok(night);
    }
  }
}

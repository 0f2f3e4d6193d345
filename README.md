# MoodFlix data-access layer in Dafny

This project models the in-memory data layer of the MoodFlix movie app, a
single-page app where users browse movies by mood, keep a watchlist, rate
movies and plan shared movie nights. It also models the movie filter of its
search page. The Dafny code states what each operation does and proves it.

The four stores are array-backed services:

- the **rating store** (`RatingService`) holds one record per rating;
  `create` keeps at most one per (movie, user) pair (overwriting the earlier
  one), and the store computes per-movie averages, a five-bucket histogram
  and a sorted, paginated listing;
- the **watchlist store** (`WatchlistService`) holds watchlists whose movie-id
  lists gain an id only once (`addMovie`) and lose an id everywhere at once
  (`removeMovie`);
- the **movie-night store** (`MovieNightService`) holds themed, dated nights
  with default fields (date, movie list and a `moodflix.app/night/<millis>`
  share link), lookup by share link, and a newest-first listing;
- the **movie catalog** (`MovieService`) offers mood and genre filters, a
  case-insensitive text search and a private list of watchlisted ids.

The **search filter** (`filterMovies`) chains four order-keeping filters
(text, genre, year, minimum rating), each applied only when set. The search
page also derives its sorted genre and year option lists.
`src/pages/Search.jsx` holds a verbatim copy of this code from
`src/components/pages/SearchPage.jsx`; one model serves both. The table cites
the first file; in the copy, `filterMovies` is at lines 46-78,
`handleClearFilters` at 89-92 and the option lists at 95-96.

Modules, one per file:

| file | module | contents |
|---|---|---|
| `outcomes.dfy` | `Outcomes` | `Option`; `Result` (`Ok` / `Fail(message)`, the thrown error) |
| `seqs.dfy` | `Seqs` | the array built-ins: `findIndex`, `find`, `filter`, a stable `sort`, `splice`, `includes`/`push`, `Set` de-duplication |
| `text.dfy` | `Text` | `toLowerCase`, `includes`, `trim`, the default string order, `Number.prototype.toString` for clock readings |
| `ratings.dfy` | `Ratings` | the rating store |
| `watchlists.dfy` | `Watchlists` | the watchlist store |
| `movie_nights.dfy` | `MovieNights` | the movie-night store |
| `movies.dfy` | `Movies` | the movie catalog |
| `search_filter.dfy` | `SearchFilter` | `filterMovies`, `handleClearFilters`, the `genres` and `years` lists |

Modelling conventions:

- Each service is a class whose array field is a `seq`. Mutators are methods
  (`modifies this`) whose postconditions give the whole new store, usually
  through a pure function of the old one. Queries are functions (`reads this`).
- A thrown `Error` is `Fail(message)`, carrying the service's exact message.
  Every failing call leaves the store unchanged.
- The clock is a parameter `now` (epoch milliseconds). New ids are
  `NatToString(now)`, and dates and timestamps are time values.
- Star ratings and movie ratings are integers in tenths (4.5 stars is 45).
  The one-decimal rounding of `getAverageRating` is then integer rounding:
  `RoundDiv(total, count)` is the integer nearest to `total / count`, with
  halves rounded up like `Math.round`.
- JavaScript falsy inputs are modelled in one of two ways. An empty
  string or a zero stands for the falsy field where the service tests
  truthiness. An `Option` is used where the service tests presence
  (update patches, `movieIds`, `genres`, `moods`, `category`).

## Model

| member | source | states |
|---|---|---|
| Seqs.FindIndex | src/services/api/ratingService.js:90-92 | `findIndex`: -1 exactly when no element matches, otherwise the first matching index |
| Seqs.Find | src/services/api/ratingService.js:35 | `find`: none exactly when no element matches, otherwise the first matching element |
| Seqs.Filter | src/services/api/ratingService.js:44 | `filter`: an order-preserving subsequence that holds exactly the matching elements, each with its original multiplicity |
| Seqs.FilterFilter | src/components/pages/SearchPage.jsx:50-78 | filtering twice equals filtering once by the conjunction |
| Seqs.ConditionalFilter | src/components/pages/SearchPage.jsx:62-66 | a filter that runs only when a flag is set equals the filter by "flag unset, or match" |
| Seqs.FilterAll | src/components/pages/SearchPage.jsx:50 | a filter that keeps every element is the identity |
| Seqs.FilterLength | src/services/api/ratingService.js:62-73 | a filter's length is the number of matching elements |
| Seqs.CountAfterUpdate | src/services/api/ratingService.js:103-106 | overwriting one element with one that gets the same verdict leaves the match count unchanged |
| Seqs.SortWith | src/services/api/ratingService.js:179-189 | `sort` with a total, transitive comparator: a permutation of the input, ordered by the comparator |
| Seqs.InsertSorted | src/services/api/ratingService.js:179-189 | inserting into a sorted sequence keeps it sorted |
| Seqs.InsertPermutes | src/services/api/ratingService.js:179-189 | insertion adds exactly the inserted element |
| Seqs.SortBy | src/services/api/movieNightService.js:24 | `sort` with the numeric comparator `key(a) - key(b)`: a permutation with non-decreasing keys |
| Seqs.AppendIfAbsent | src/services/api/watchlistService.js:77-80 | `if (!includes) push`: the old list is a prefix; the length grows by one exactly when the id was missing; the members are the old ones plus the id; no duplicates are introduced |
| Seqs.AppendIfAbsentIdempotent | src/services/api/watchlistService.js:77-80 | inserting the same id twice equals inserting it once |
| Seqs.Without | src/services/api/watchlistService.js:87 | `filter(id => id !== movieId)`: the id is gone; the rest is a subsequence with every other id's multiplicity unchanged |
| Seqs.WithoutIdempotent | src/services/api/movieService.js:64 | removing twice equals removing once |
| Seqs.WithoutKeepsDistinct | src/services/api/movieNightService.js:91 | removal keeps a duplicate-free list duplicate-free |
| Seqs.RemoveAt | src/services/api/ratingService.js:149 | `splice(k, 1)`: everything before `k` stays, everything after shifts down one |
| Seqs.Dedup | src/components/pages/SearchPage.jsx:97 | `[...new Set(s)]`: duplicate-free, with the same members as `s` |
| Seqs.PermutationKeepsDistinct | src/components/pages/SearchPage.jsx:98 | sorting a duplicate-free list keeps it duplicate-free |
| Text.LowerStr | src/services/api/movieService.js:42 | `toLowerCase`: same length, with each character lower-cased |
| Text.Includes | src/services/api/movieService.js:44 | `includes`: true exactly when the needle occurs at some position |
| Text.TrimStart | src/components/pages/SearchPage.jsx:53 | a suffix of the input that starts with non-white-space; empty exactly when the input is blank |
| Text.TrimEnd | src/components/pages/SearchPage.jsx:53 | a prefix of the input that ends with non-white-space; empty exactly when the input is blank |
| Text.Trim | src/components/pages/SearchPage.jsx:53 | `trim()` is empty (falsy) exactly when the query is all ECMAScript white space |
| Text.NatToString | src/services/api/ratingService.js:95 | `Date.now().toString()`: non-empty decimal digits, no leading zero, denoting the clock reading |
| Text.NatToStringInjective | src/services/api/ratingService.js:95 | different clock readings give different ids |
| Text.StrLeConnected | src/components/pages/SearchPage.jsx:97 | the default string order relates every two strings |
| Text.StrLeTransitive | src/components/pages/SearchPage.jsx:97 | the default string order is transitive |
| Ratings.CreateError | src/services/api/ratingService.js:80-87 | `create` accepts exactly non-empty ids with a rating of 1 to 5 stars; a falsy movie id, user id or rating (0 included) throws the missing-fields message, checked first; otherwise a rating outside 1..5 throws "Rating must be between 1 and 5" |
| Ratings.UpdateError | src/services/api/ratingService.js:124-127 | `update` rejects only a patch rating that is present, non-zero and outside 1..5 |
| Ratings.Merge | src/services/api/ratingService.js:129-133 | `{ ...stored, ...patch, timestamp }`: each field the patch carries overrides the stored one, the timestamp is renewed, and an empty patch only renews the timestamp |
| Ratings.ZeroRatingPassesUpdate | src/services/api/ratingService.js:125 | a patch with rating 0 passes the guard and stores a rating outside 1..5 |
| Ratings.UpdateCanBreakPairsUnique | src/services/api/ratingService.js:129-135 | a patch carrying another record's movie and user passes the guard and leaves two records with the same pair |
| Ratings.Upsert | src/services/api/ratingService.js:89-110 | an existing (movie, user) record is overwritten at its index and keeps its old id, and no other record changes; otherwise the record is appended and the length grows by one |
| Ratings.UpsertKeepsPairsUnique | src/services/api/ratingService.js:89-110 | `create` keeps at most one rating per (movie, user) pair |
| Ratings.ReRatingKeepsCount | src/services/api/ratingService.js:103-106 | re-rating a movie leaves its rating count unchanged |
| Ratings.NewRating | src/services/api/ratingService.js:94-101 | the record `create` builds: id `now.toString()`, timestamp now, the input's movie, user, rating and review |
| Ratings.DeletePairRemovesIt | src/services/api/ratingService.js:155-167 | with pairs unique, `deleteByMovieAndUser` leaves no rating of that pair, and the pairs stay unique |
| Ratings.RoundDiv | src/services/api/ratingService.js:69 | the nearest integer to `n / d`, halves rounded up: `2dq <= 2n + d < 2dq + 2d` |
| Ratings.RoundDivBetween | src/services/api/ratingService.js:69 | rounding keeps a mean within bounds its terms respect |
| Ratings.Total | src/services/api/ratingService.js:68 | the sum of the ratings equals the left-to-right `reduce` with start value 0 |
| Ratings.TotalBetween | src/services/api/ratingService.js:68 | the `reduce` sum lies between count·min and count·max |
| Ratings.MeanInRange | src/services/api/ratingService.js:68-69 | the rounded mean of 1..5-star ratings is between 1 and 5 stars |
| Ratings.MovieMeanInRange | src/services/api/ratingService.js:62-69 | the same for the ratings of one movie |
| Ratings.Tally | src/services/api/ratingService.js:222-225 | the `forEach` counter: bucket `k` holds the number of ratings worth `k + 1` stars |
| Ratings.BucketsSumToCount | src/services/api/ratingService.js:222-230 | for whole-star ratings in 1..5, the five buckets sum to the count |
| Ratings.SliceIndex | src/services/api/ratingService.js:191 | the index `slice` uses: an in-range index as given, an index past the end as the length, a negative index counted from the end and clamped at 0 |
| Ratings.JsSlice | src/services/api/ratingService.js:191 | `slice(start, end)` has at most `end - start` items; for `0 <= start <= end` it is exactly `s[min(start, len)..min(end, len)]`, so a window past the end is cut off there |
| Ratings.TotalPages | src/services/api/ratingService.js:199 | `Math.ceil(total / limit)`: the ceiling for a positive limit, `NaN` for 0/0, `Infinity` for n/0 |
| Ratings.SortKey | src/services/api/ratingService.js:179-189 | the comparator as a key: with `desc`, a smaller key means a larger rating or timestamp; otherwise a smaller one |
| Ratings.SliceDrawsFrom | src/services/api/ratingService.js:191 | a slice is drawn from the list and is sorted when the list is |
| Ratings.PageItems | src/services/api/ratingService.js:173-191 | a page holds at most `limit` items drawn from the sorted list, keeps its order, and for a non-negative window start is exactly the items from `(page-1)·limit` to `page·limit`, cut off at the end of the list |
| Ratings.RatingService.constructor | src/services/api/ratingService.js:4-7 | the store starts as the stored list |
| Ratings.RatingService.GetById | src/services/api/ratingService.js:33-40 | "Rating not found" exactly when no record has the id; otherwise the first record with that id |
| Ratings.RatingService.GetByMovieId | src/services/api/ratingService.js:42-46 | the movie's ratings, in store order, each with its multiplicity in the store |
| Ratings.RatingService.GetByUserId | src/services/api/ratingService.js:48-52 | the user's ratings, in store order, each with its multiplicity in the store |
| Ratings.RatingService.GetUserRatingForMovie | src/services/api/ratingService.js:54-58 | null exactly when the pair has no rating; otherwise the first rating of the pair, which with pairs unique is the only one |
| Ratings.RatingService.GetAverageRating | src/services/api/ratingService.js:60-75 | `{0, 0}` for an unrated movie; otherwise the count of its ratings and their mean rounded to a tenth, between 1 and 5 stars when the ratings are |
| Ratings.RatingService.GetMovieStats | src/services/api/ratingService.js:205-232 | the same average and count as `getAverageRating`, plus five buckets, each counting the ratings of exactly that many stars |
| Ratings.RatingService.GetPaginated | src/services/api/ratingService.js:170-202 | `total` is the store size and `totalPages` the ceiling; the items are at most `limit` records drawn from the store, sorted by the chosen key and order, and exactly the page window of the sorted copy, cut off at its end |
| Ratings.RatingService.Create | src/services/api/ratingService.js:77-114 | a validation failure throws and changes nothing; otherwise the upserted store, the returned record, and pair uniqueness preserved |
| Ratings.RatingService.Update | src/services/api/ratingService.js:116-139 | unknown id: "Rating not found"; bad rating: the range error; otherwise the merged record replaces only that index |
| Ratings.RatingService.Delete | src/services/api/ratingService.js:141-153 | unknown id: "Rating not found", store unchanged; otherwise exactly the first record with the id is removed |
| Ratings.RatingService.DeleteByMovieAndUser | src/services/api/ratingService.js:155-167 | unknown pair: "Rating not found"; otherwise the first record of the pair is removed, leaving none when pairs were unique |
| Watchlists.NewWatchlist | src/services/api/watchlistService.js:38-43 | the new watchlist carries the input's fields, a fresh id and creation time, and an empty movie list when none is given |
| Watchlists.Merge | src/services/api/watchlistService.js:55 | `{ ...stored, ...patch }`: each field the patch carries overrides the stored one; an empty patch changes nothing |
| Watchlists.WithMovie | src/services/api/watchlistService.js:71-82 | only the found watchlist's list changes; when the id was missing it is appended once at the end (the new list is the old one plus the id), and nothing changes when it was present |
| Watchlists.AddMovieIdempotent | src/services/api/watchlistService.js:71-82 | a second `addMovie` finds the same watchlist and changes nothing |
| Watchlists.WithoutMovie | src/services/api/watchlistService.js:84-91 | every watchlist is the old one stripped of the id, and the number of watchlists is unchanged |
| Watchlists.RemoveMovieClears | src/services/api/watchlistService.js:84-91 | afterwards no watchlist lists the id; other ids keep their order and multiplicity, and no other field changes |
| Watchlists.RemoveMovieIdempotent | src/services/api/watchlistService.js:84-91 | removing a movie twice equals removing it once |
| Watchlists.MovieOperationsKeepListsDistinct | src/services/api/watchlistService.js:77-87 | `addMovie` and `removeMovie` keep every movie list duplicate-free |
| Watchlists.WatchlistService.constructor | src/services/api/watchlistService.js:5-9 | the store starts as the stored list |
| Watchlists.WatchlistService.GetById | src/services/api/watchlistService.js:27-34 | "Watchlist not found" exactly when no entry has the id; otherwise the first entry with it |
| Watchlists.WatchlistService.GetByCategory | src/services/api/watchlistService.js:93-97 | exactly the watchlists of that category, in store order, each with its multiplicity in the store |
| Watchlists.WatchlistService.Create | src/services/api/watchlistService.js:36-47 | appends exactly the new watchlist |
| Watchlists.WatchlistService.Update | src/services/api/watchlistService.js:49-58 | unknown id: "Watchlist not found", store unchanged; otherwise the merge replaces only the first match |
| Watchlists.WatchlistService.Delete | src/services/api/watchlistService.js:60-69 | unknown id: "Watchlist not found", store unchanged; otherwise exactly the first match is removed |
| Watchlists.WatchlistService.AddMovie | src/services/api/watchlistService.js:71-82 | unknown id: "Watchlist not found", store unchanged; otherwise the store becomes `WithMovie`, and the updated watchlist is returned |
| Watchlists.WatchlistService.RemoveMovie | src/services/api/watchlistService.js:84-91 | the loop leaves the store equal to `WithoutMovie` and returns true |
| MovieNights.DefaultShareLink | src/services/api/movieNightService.js:43 | `moodflix.app/night/` followed by decimal digits that denote the creation time |
| MovieNights.DefaultShareLinksDiffer | src/services/api/movieNightService.js:43 | nights created at different times get different default links |
| MovieNights.NewNight | src/services/api/movieNightService.js:38-44 | a supplied date, movie list or share link wins; otherwise the date is now, the list is empty and the link is the default; the link is never empty |
| MovieNights.Merge | src/services/api/movieNightService.js:56 | `{ ...stored, ...patch }`: each field the patch carries overrides the stored one; an empty patch changes nothing |
| MovieNights.WithMovie | src/services/api/movieNightService.js:72-83 | only the found night's list changes; when the id was missing it is appended once at the end, nothing changes when it was present, and the list stays duplicate-free when it was |
| MovieNights.WithoutMovie | src/services/api/movieNightService.js:85-94 | only the found night's list changes; every occurrence of the id goes, other ids keep order and multiplicity |
| MovieNights.MovieOperationsIdempotent | src/services/api/movieNightService.js:72-94 | a second add or remove of the same movie on the same night changes nothing |
| MovieNights.MovieNightService.constructor | src/services/api/movieNightService.js:5-9 | the store starts as the stored list |
| MovieNights.MovieNightService.GetAll | src/services/api/movieNightService.js:22-25 | a permutation of the store, with dates non-increasing |
| MovieNights.MovieNightService.GetById | src/services/api/movieNightService.js:27-34 | "Movie night not found" exactly when no night has the id; otherwise the first with it |
| MovieNights.MovieNightService.GetByShareLink | src/services/api/movieNightService.js:96-103 | "Movie night not found" exactly when no link matches exactly; otherwise the first night with that link |
| MovieNights.MovieNightService.Create | src/services/api/movieNightService.js:36-48 | appends exactly `NewNight` |
| MovieNights.MovieNightService.Update | src/services/api/movieNightService.js:50-59 | unknown id: the error, store unchanged; otherwise the merge replaces only the first match |
| MovieNights.MovieNightService.Delete | src/services/api/movieNightService.js:61-70 | unknown id: the error, store unchanged; otherwise exactly the first match is removed |
| MovieNights.MovieNightService.AddMovie | src/services/api/movieNightService.js:72-83 | unknown id: the error, store unchanged; otherwise the store becomes `WithMovie` |
| MovieNights.MovieNightService.RemoveMovie | src/services/api/movieNightService.js:85-94 | unknown id: the error, store unchanged; otherwise the store becomes `WithoutMovie` |
| Movies.SomeLabelContains | src/services/api/movieService.js:46-48 | `some` genre contains the query, ignoring case |
| Movies.MatchesQuery | src/services/api/movieService.js:43-48 | a movie matches when the lower-cased query is part of its lower-cased title, synopsis or some genre |
| Movies.MatchIgnoresQueryCase | src/services/api/movieService.js:42-48 | matching a lower-cased query equals matching the query |
| Movies.LowerIdempotent | src/services/api/movieService.js:42 | lower-casing twice equals lower-casing once |
| Movies.EmptyQueryMatches | src/services/api/movieService.js:43-44 | every movie matches the empty query |
| Movies.EmptySearchKeepsAll | src/services/api/movieService.js:40-51 | searching for the empty string keeps the whole catalog |
| Movies.NewMovie | src/services/api/movieService.js:79-82 | the new movie has the input's fields and the id `now.toString()` |
| Movies.Merge | src/services/api/movieService.js:93 | `{ ...stored, ...patch }`: each field the patch carries overrides the stored one; an empty patch changes nothing |
| Movies.WatchlistMovies | src/services/api/movieService.js:69-75 | the catalog entries whose id is watchlisted, in catalog order, each with its multiplicity in the catalog |
| Movies.WatchlistAddRemove | src/services/api/movieService.js:53-75 | after an add, the movie is among the watchlist movies; after a remove it is not, and other movies are unaffected |
| Movies.MovieService.constructor | src/services/api/movieService.js:5-8 | the catalog and the watchlist start as given |
| Movies.MovieService.GetById | src/services/api/movieService.js:15-22 | "Movie not found" exactly when no movie has the id; otherwise the first with it |
| Movies.MovieService.GetByMood | src/services/api/movieService.js:24-30 | exactly the movies listing the mood (exact, case-sensitive), in catalog order, each with its multiplicity |
| Movies.MovieService.GetByGenre | src/services/api/movieService.js:32-38 | exactly the movies listing the genre, in catalog order, each with its multiplicity |
| Movies.MovieService.Search | src/services/api/movieService.js:40-51 | exactly the movies matching the untrimmed query, in catalog order, each with its multiplicity; the empty query keeps everything |
| Movies.MovieService.GetWatchlistMovies | src/services/api/movieService.js:69-75 | exactly the catalog entries whose id is watchlisted, in catalog order, each with its multiplicity |
| Movies.MovieService.AddToWatchlist | src/services/api/movieService.js:53-60 | returns true; the id list becomes `AppendIfAbsent` of the old one; the catalog is unchanged |
| Movies.MovieService.RemoveFromWatchlist | src/services/api/movieService.js:62-67 | returns true; every occurrence of the id goes; the catalog is unchanged |
| Movies.MovieService.Create | src/services/api/movieService.js:77-85 | appends exactly the new movie |
| Movies.MovieService.Update | src/services/api/movieService.js:87-95 | unknown id: "Movie not found", store unchanged; otherwise the merge replaces only the first match |
| Movies.MovieService.Delete | src/services/api/movieService.js:97-105 | unknown id: "Movie not found", store unchanged; otherwise exactly the first match is removed |
| SearchFilter.FilterMovies | src/components/pages/SearchPage.jsx:49-81 | the result is an order-preserving subsequence of the catalog holding exactly the movies that pass every filter that is set |
| SearchFilter.FilterMoviesIsConjunction | src/components/pages/SearchPage.jsx:49-81 | the four conditional filters equal a single filter by their conjunction |
| SearchFilter.TextAndGenreStages | src/components/pages/SearchPage.jsx:53-66 | the text filter and the genre filter, each applied only when set, equal one filter |
| SearchFilter.YearStageStep | src/components/pages/SearchPage.jsx:69-72 | the year filter, applied only when a year is chosen, extends the conjunction |
| SearchFilter.RatingStageStep | src/components/pages/SearchPage.jsx:75-78 | the rating filter, applied only when a threshold is chosen, completes the conjunction |
| SearchFilter.BlankQueryIsNoQuery | src/components/pages/SearchPage.jsx:53 | a white-space-only query filters like no query |
| SearchFilter.ClearFilters | src/components/pages/SearchPage.jsx:92-95 | `handleClearFilters`: a blank query and every filter unset |
| SearchFilter.ClearedShowsAll | src/components/pages/SearchPage.jsx:92-95 | after `handleClearFilters`, the whole catalog is shown |
| SearchFilter.AllGenres | src/components/pages/SearchPage.jsx:97 | `flatMap(movie => movie.genres \|\| [])` holds every genre of every movie and nothing else |
| SearchFilter.AllGenresMembers | src/components/pages/SearchPage.jsx:97 | the `flatMap` holds exactly the genres some movie lists |
| SearchFilter.Genres | src/components/pages/SearchPage.jsx:97 | every listed genre, each once, strictly ascending |
| SearchFilter.AllYears | src/components/pages/SearchPage.jsx:98 | `map(movie => movie.year)`: one year per movie, in catalog order |
| SearchFilter.AllYearsMembers | src/components/pages/SearchPage.jsx:98 | the `map` holds exactly the movies' years |
| SearchFilter.Years | src/components/pages/SearchPage.jsx:98 | every movie year, each once, strictly descending |

## Left out

- The simulated latency (`delay`) and the promises: every operation is synchronous.
- Local-storage persistence (`loadRatings`/`saveRatings`, `loadFromStorage`/`saveToStorage`): a store starts from an arbitrary list, and the write-back after each mutation is not modelled. So is the "Failed to save rating" error a failing write would raise.
- The clock: `create` reads `Date.now()` and `new Date()` up to three times, and the model uses one reading `now` for all of them. Ids derived from the clock are not unique in general, and the model does not claim they are.
- The seed fixtures (`mockData/*.json`): stores start from arbitrary lists.
- `getAll` of the rating, watchlist and movie services returns a copy of the store and is not modelled separately. The system's documentation calls the watchlist listing "newest-created first", but the code returns store order; the model follows the code.
- Shallow copies (`{ ...record }`) and object aliasing: records are values. For `addMovie`, mutating the found object in place is the same as replacing the record at its index.
- Extra fields a caller spreads into `create`/`update` beyond the modelled fields, and spreading an explicit `undefined` over a field.
- Display-only fields of a movie (poster, runtime, trailer).
- Ratings.RatingService.GetMovieStats: a rating that is not a whole star in 1..5 would add a new key to the JavaScript counter object (`distribution[4.5]` becomes `NaN`). The model counts it in no bucket and does not model the extra key.
- Ratings.RoundDiv: ratings are exact tenths. Floating-point rounding error in `total / count * 10` is not modelled.
- Ratings.RatingService.Update: spreads any patch, so it can give a record the (movie, user) pair of another record (`UpdateCanBreakPairsUnique`). Pair uniqueness is therefore claimed for `create` and `deleteByMovieAndUser` only, not for `update` or for the initial store.
- Seqs.SortWith: the insertion sort is stable, but stability is not stated as a property.
- Text.LowerStr: lower-cases ASCII letters only. Full Unicode case mapping is not modelled.
- Text.StrLe: compares characters by code point. JavaScript's default `sort` compares UTF-16 code units, which differs only for characters outside the Basic Multilingual Plane.
- SearchFilter.FilterMovies: the year and rating selections are taken as the numbers `parseInt`/`parseFloat` produce from the offered options (years of movies; 5 to 8 stars). Parsing arbitrary text and `NaN` thresholds are not modelled.
- Dates are time values. An unparsable date string (`new Date(...)` is `NaN`) is not modelled, so `MovieNights.MovieNightService.GetAll` assumes comparable dates.
- Watchlists.WatchlistService.GetByCategory: the category argument is a string. Calling it with `undefined`, which would match watchlists without a category, is not modelled.

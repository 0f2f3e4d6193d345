/** The rating store (`src/services/api/ratingService.js`): an array of rating
    records, at most one per (movie, user) pair, with per-movie aggregates and
    a paginated, sorted listing.

    Rating values are held in tenths of a star (3 stars is 30, 4.5 stars is 45),
    so the service's decimal arithmetic is exact integer arithmetic here.
    Clock readings are parameters: `now` is `Date.now()` in epoch milliseconds,
    used for the new id (`now.toString()`) and for the timestamp. */
module Ratings {
  import opened Outcomes
  import opened Seqs
  import opened Text

  /** One stored rating; `timestamp` is the time value of the last write. */
  datatype Rating = Rating(id: string, movieId: string, userId: string,
                           rating: int, review: string, timestamp: int)

  /** The argument of `create`. A missing field and an empty string are both
      falsy in the service, so an empty id or a zero rating stands for both. */
  datatype RatingInput = RatingInput(movieId: string, userId: string, rating: int, review: string)

  /** The argument of `update`: the fields it carries, each spread over the
      stored record. */
  datatype RatingPatch = RatingPatch(id: Option<string>, movieId: Option<string>,
                                     userId: Option<string>, rating: Option<int>,
                                     review: Option<string>)

  /** `{ average, count }`; `average` is in tenths of a star. */
  datatype AverageRating = AverageRating(average: int, count: nat)

  /** `{ average, count, distribution }`; `distribution[k]` is the bucket for
      `k + 1` stars. */
  datatype MovieStats = MovieStats(average: int, count: nat, distribution: seq<nat>)

  /** The value of `Math.ceil(total / limit)`: a number, or the `Infinity` and
      `NaN` a zero limit produces. */
  datatype PageCount = Pages(n: int) | Infinity | NaN

  datatype Pagination = Pagination(page: int, limit: int, total: nat, totalPages: PageCount)

  datatype Page = Page(ratings: seq<Rating>, pagination: Pagination)

  const MissingFields := "Missing required fields: movieId, userId, and rating are required"
  const OutOfRange := "Rating must be between 1 and 5"
  const NotFound := "Rating not found"

  /** One star and five stars, in tenths. */
  const MinRating := 10
  const MaxRating := 50

  // ---------------------------------------------------------------------------
  // Validation

  /** The error `create` throws for `input`, if any: a falsy field first, then
      a rating outside 1..5. */
  function CreateError(input: RatingInput): (e: Option<string>)
    ensures e.None? <==> input.movieId != "" && input.userId != "" &&
                         MinRating <= input.rating <= MaxRating
    ensures e.Some? ==> e.value == MissingFields || e.value == OutOfRange
    ensures input.movieId == "" || input.userId == "" || input.rating == 0 ==> e == Some(MissingFields)
    ensures (input.movieId != "" && input.userId != "" && input.rating != 0 &&
             !(MinRating <= input.rating <= MaxRating)) ==> e == Some(OutOfRange)
  {
    if input.movieId == "" || input.userId == "" || input.rating == 0 then Some(MissingFields)
    else if input.rating < MinRating || input.rating > MaxRating then Some(OutOfRange)
    else None
  }

  /** The error `update` throws for `patch` once the record is found: a rating
      that is present, truthy and outside 1..5. */
  function UpdateError(patch: RatingPatch): (e: Option<string>)
    ensures e.None? <==> patch.rating.None? || patch.rating.value == 0 ||
                         MinRating <= patch.rating.value <= MaxRating
    ensures e.Some? ==> e.value == OutOfRange
  {
    if patch.rating.Some? && patch.rating.value != 0 &&
       (patch.rating.value < MinRating || patch.rating.value > MaxRating)
    then Some(OutOfRange)
    else None
  }

  /** `{ ...stored, ...patch, timestamp }`: each field the patch carries
      overrides the stored one, and the timestamp is always renewed. */
  function Merge(stored: Rating, patch: RatingPatch, now: int): (r: Rating)
    ensures r.timestamp == now
    ensures r.id == (if patch.id.Some? then patch.id.value else stored.id)
    ensures r.movieId == (if patch.movieId.Some? then patch.movieId.value else stored.movieId)
    ensures r.userId == (if patch.userId.Some? then patch.userId.value else stored.userId)
    ensures r.rating == (if patch.rating.Some? then patch.rating.value else stored.rating)
    ensures r.review == (if patch.review.Some? then patch.review.value else stored.review)
    ensures patch == RatingPatch(None, None, None, None, None) ==> r == stored.(timestamp := now)
  {
    Rating(patch.id.GetOr(stored.id), patch.movieId.GetOr(stored.movieId),
           patch.userId.GetOr(stored.userId), patch.rating.GetOr(stored.rating),
           patch.review.GetOr(stored.review), now)
  }

  /** The guard of `update` treats a rating of 0 as "not provided", so a patch
      carrying rating 0 passes it and stores a rating outside 1..5. */
  lemma ZeroRatingPassesUpdate(stored: Rating, patch: RatingPatch, now: int)
    requires patch.rating == Some(0)
    ensures UpdateError(patch).None?
    ensures !(MinRating <= Merge(stored, patch, now).rating <= MaxRating)
  {
  }

  // ---------------------------------------------------------------------------
  // Lookups over the record array

  function IdIndex(rs: seq<Rating>, id: string): int
  {
    FindIndex(rs, (r: Rating) => r.id == id)
  }

  function PairIndex(rs: seq<Rating>, movieId: string, userId: string): int
  {
    FindIndex(rs, (r: Rating) => r.movieId == movieId && r.userId == userId)
  }

  /** At most one rating per (movie, user) pair. */
  ghost predicate PairsUnique(rs: seq<Rating>)
  {
    forall i, j :: 0 <= i < j < |rs| && rs[i].movieId == rs[j].movieId ==> rs[i].userId != rs[j].userId
  }

  function MovieRatings(rs: seq<Rating>, movieId: string): seq<Rating>
  {
    Filter(rs, (r: Rating) => r.movieId == movieId)
  }

  /** `rs.reduce((sum, r) => sum + r.rating, acc)`: the running sum, left to
      right. */
  function Reduce(rs: seq<Rating>, acc: int): int
  {
    if |rs| == 0 then acc else Reduce(rs[1..], acc + rs[0].rating)
  }

  /** The start value of the running sum can be pulled out. */
  lemma {:induction false} ReduceShift(rs: seq<Rating>, acc: int)
    ensures Reduce(rs, acc) == acc + Reduce(rs, 0)
    decreases |rs|
  {
    if |rs| > 0 {
      ReduceShift(rs[1..], acc + rs[0].rating);
      ReduceShift(rs[1..], rs[0].rating);
    }
  }

  /** The sum of the ratings, which is what the `reduce` of
      `getAverageRating` computes. */
  function Total(rs: seq<Rating>): (t: int)
    ensures t == Reduce(rs, 0)
  {
    if |rs| == 0 then 0
    else
      ReduceShift(rs[1..], rs[0].rating);
      rs[0].rating + Total(rs[1..])
  }

  /** The number of records in `rs` whose rating is exactly `v`. */
  function CountOf(rs: seq<Rating>, v: int): nat
  {
    if |rs| == 0 then 0
    else CountOf(rs[..|rs| - 1], v) + (if rs[|rs| - 1].rating == v then 1 else 0)
  }

  /** The `forEach` of `getMovieStats`: one pass over `rs`, counting each of
      the five star values; any other value is counted nowhere. */
  method Tally(rs: seq<Rating>) returns (distribution: seq<nat>)
    ensures |distribution| == 5
    ensures forall k :: 0 <= k < 5 ==> distribution[k] == CountOf(rs, MinRating * (k + 1))
  {
    distribution := [0, 0, 0, 0, 0];
    var i := 0;
    while i < |rs|
      invariant 0 <= i <= |rs|
      invariant |distribution| == 5
      invariant forall k :: 0 <= k < 5 ==> distribution[k] == CountOf(rs[..i], MinRating * (k + 1))
    {
      var v := rs[i].rating;
      CountOfPrefix(rs, i);
      if v == 10 || v == 20 || v == 30 || v == 40 || v == 50 {
        var k := v / 10 - 1;
        distribution := distribution[k := distribution[k] + 1];
      }
      i := i + 1;
    }
    assert rs[..|rs|] == rs;
  }

  lemma CountOfPrefix(rs: seq<Rating>, i: int)
    requires 0 <= i < |rs|
    ensures forall v :: CountOf(rs[..i + 1], v) == CountOf(rs[..i], v) + (if rs[i].rating == v then 1 else 0)
  {
    assert rs[..i + 1][..i] == rs[..i];
  }

  // ---------------------------------------------------------------------------
  // Averages

  /** `Math.round(n / d)`: the integer nearest to `n / d`, halves rounded up. */
  function RoundDiv(n: int, d: int): (q: int)
    requires d > 0
    ensures 2 * d * q <= 2 * n + d < 2 * d * q + 2 * d
  {
    (2 * n + d) / (2 * d)
  }

  /** Rounding keeps a mean inside the bounds its terms respect. */
  lemma RoundDivBetween(n: int, d: int, lo: int, hi: int)
    requires d > 0 && lo * d <= n <= hi * d
    ensures lo <= RoundDiv(n, d) <= hi
  {
    var q := RoundDiv(n, d);
    assert 2 * d * (hi + 1) == 2 * (hi * d) + 2 * d;
    MulCancel(2 * d, q, hi + 1);
    assert 2 * d * (q + 1) == 2 * d * q + 2 * d;
    assert 2 * d * lo == 2 * (lo * d);
    MulCancel(2 * d, lo, q + 1);
  }

  lemma MulCancel(a: int, b: int, c: int)
    requires a > 0 && a * b < a * c
    ensures b < c
  {
    assert a * c - a * b == a * (c - b);
  }

  /** The average of a non-empty list of ratings, rounded to a tenth of a star
      (in tenths: the nearest integer to total / count). */
  function MeanTenths(rs: seq<Rating>): int
    requires |rs| > 0
  {
    RoundDiv(Total(rs), |rs|)
  }

  lemma {:induction false} TotalBetween(rs: seq<Rating>, lo: int, hi: int)
    requires forall i :: 0 <= i < |rs| ==> lo <= rs[i].rating <= hi
    ensures lo * |rs| <= Total(rs) <= hi * |rs|
    decreases |rs|
  {
    if |rs| > 0 {
      TotalBetween(rs[1..], lo, hi);
    }
  }

  /** When every rating of the movie is between one and five stars, so is the
      rounded average. */
  lemma MeanInRange(rs: seq<Rating>)
    requires |rs| > 0
    requires forall i :: 0 <= i < |rs| ==> MinRating <= rs[i].rating <= MaxRating
    ensures MinRating <= MeanTenths(rs) <= MaxRating
  {
    TotalBetween(rs, MinRating, MaxRating);
    RoundDivBetween(Total(rs), |rs|, MinRating, MaxRating);
  }

  lemma MovieMeanInRange(rs: seq<Rating>, movieId: string)
    requires |MovieRatings(rs, movieId)| > 0
    ensures (forall x :: x in rs && x.movieId == movieId ==> MinRating <= x.rating <= MaxRating) ==>
              MinRating <= MeanTenths(MovieRatings(rs, movieId)) <= MaxRating
  {
    var mr := MovieRatings(rs, movieId);
    if forall x :: x in rs && x.movieId == movieId ==> MinRating <= x.rating <= MaxRating {
      assert forall i :: 0 <= i < |mr| ==> mr[i] in mr;
      MeanInRange(mr);
    }
  }

  // ---------------------------------------------------------------------------
  // The store update `create` performs

  /** The record `create` builds from a valid input: the clock gives the id
      and the timestamp, the input the rest (a missing review is ""). */
  function NewRating(input: RatingInput, now: nat): (r: Rating)
    ensures r.id == NatToString(now) && r.timestamp == now
    ensures r.movieId == input.movieId && r.userId == input.userId
    ensures r.rating == input.rating && r.review == input.review
  {
    Rating(NatToString(now), input.movieId, input.userId, input.rating, input.review, now)
  }

  /** The store after `create` accepted `rec`: the first record of the same
      (movie, user) pair is overwritten in place and keeps its id; without one,
      `rec` is appended. Records of other pairs never change. */
  function Upsert(rs: seq<Rating>, rec: Rating): (r: seq<Rating>)
    ensures var k := PairIndex(rs, rec.movieId, rec.userId);
      if k >= 0 then |r| == |rs| && r[k] == rec.(id := rs[k].id) &&
                     forall i :: 0 <= i < |rs| && i != k ==> r[i] == rs[i]
      else |r| == |rs| + 1 && r[..|rs|] == rs && r[|rs|] == rec
  {
    var k := PairIndex(rs, rec.movieId, rec.userId);
    if k >= 0 then rs[k := rec.(id := rs[k].id)] else rs + [rec]
  }

  /** `create` keeps at most one rating per (movie, user) pair. */
  lemma UpsertKeepsPairsUnique(rs: seq<Rating>, rec: Rating)
    requires PairsUnique(rs)
    ensures PairsUnique(Upsert(rs, rec))
  {
    var k := PairIndex(rs, rec.movieId, rec.userId);
    var r := Upsert(rs, rec);
    if k < 0 {
      forall i, j | 0 <= i < j < |r| && r[i].movieId == r[j].movieId
        ensures r[i].userId != r[j].userId
      {
        if j == |rs| {
          assert r[i] == rs[i];
        } else {
          assert r[i] == rs[i] && r[j] == rs[j];
        }
      }
    } else {
      forall i, j | 0 <= i < j < |r| && r[i].movieId == r[j].movieId
        ensures r[i].userId != r[j].userId
      {
        if i == k {
          assert r[j] == rs[j];
        } else if j == k {
          assert r[i] == rs[i];
        } else {
          assert r[i] == rs[i] && r[j] == rs[j];
        }
      }
    }
  }

  /** Rating a movie a second time (same user) does not change how many
      ratings the movie has. */
  lemma ReRatingKeepsCount(rs: seq<Rating>, rec: Rating)
    requires PairIndex(rs, rec.movieId, rec.userId) >= 0
    ensures |MovieRatings(Upsert(rs, rec), rec.movieId)| == |MovieRatings(rs, rec.movieId)|
  {
    var k := PairIndex(rs, rec.movieId, rec.userId);
    assert Upsert(rs, rec) == rs[k := rec.(id := rs[k].id)];
    var p := (r: Rating) => r.movieId == rec.movieId;
    FilterLength(rs, p);
    FilterLength(rs[k := rec.(id := rs[k].id)], p);
    CountAfterUpdate(rs, k, rec.(id := rs[k].id), p);
  }

  /** `update` spreads any patch, pair fields included, so it can give a
      record the pair of another one: two records with different movies
      end up sharing a pair, although the patch passes the rating guard. */
  lemma UpdateCanBreakPairsUnique(a: Rating, b: Rating, now: int)
    requires a.movieId != b.movieId
    ensures PairsUnique([a, b])
    ensures var patch := RatingPatch(None, Some(b.movieId), Some(b.userId), None, None);
      UpdateError(patch).None? && !PairsUnique([a, b][0 := Merge(a, patch, now)])
  {
    var patch := RatingPatch(None, Some(b.movieId), Some(b.userId), None, None);
    var r := [a, b][0 := Merge(a, patch, now)];
    assert r[0].movieId == r[1].movieId && r[0].userId == r[1].userId;
  }

  /** With pairs unique, `deleteByMovieAndUser` leaves no rating of that pair
      and keeps the pairs unique. */
  lemma DeletePairRemovesIt(rs: seq<Rating>, movieId: string, userId: string)
    requires PairsUnique(rs)
    requires PairIndex(rs, movieId, userId) >= 0
    ensures var r := RemoveAt(rs, PairIndex(rs, movieId, userId));
      PairsUnique(r) &&
      forall i :: 0 <= i < |r| ==> !(r[i].movieId == movieId && r[i].userId == userId)
  {
    var k := PairIndex(rs, movieId, userId);
    var r := RemoveAt(rs, k);
    forall i | 0 <= i < |r|
      ensures !(r[i].movieId == movieId && r[i].userId == userId)
    {
      if i < k {
        assert r[i] == rs[i];
      } else {
        assert r[i] == rs[i + 1];
        assert k < i + 1;
      }
    }
    forall i, j | 0 <= i < j < |r| && r[i].movieId == r[j].movieId
      ensures r[i].userId != r[j].userId
    {
      var i' := if i < k then i else i + 1;
      var j' := if j < k then j else j + 1;
      assert r[i] == rs[i'] && r[j] == rs[j'] && i' < j';
    }
  }

  // ---------------------------------------------------------------------------
  // Pagination

  function Min(a: int, b: int): int
  {
    if a <= b then a else b
  }

  /** `Array.prototype.slice`'s reading of an index: negative counts from the
      end; the result is clamped to `[0, len]`. */
  function SliceIndex(i: int, len: nat): (r: nat)
    ensures r <= len
    ensures 0 <= i <= len ==> r == i
    ensures i > len ==> r == len
    ensures i < 0 && len + i >= 0 ==> r == len + i
    ensures len + i < 0 ==> r == 0
  {
    if i < 0 then (if len + i < 0 then 0 else len + i)
    else if i > len then len
    else i
  }

  /** `s.slice(start, end)`: for non-negative indices, the elements from
      `start` up to `end`, cut off at the end of `s`. */
  function JsSlice<T>(s: seq<T>, start: int, end: int): (r: seq<T>)
    ensures start <= end ==> |r| <= end - start
    ensures 0 <= start <= end ==> r == s[Min(start, |s|)..Min(end, |s|)]
  {
    var a := SliceIndex(start, |s|);
    var b := SliceIndex(end, |s|);
    if a < b then s[a..b] else []
  }

  /** `Math.ceil(total / limit)`. */
  function TotalPages(total: nat, limit: int): (p: PageCount)
    ensures limit > 0 ==> p.Pages? && (p.n - 1) * limit < total <= p.n * limit
    ensures limit < 0 ==> p.Pages? && p.n * limit <= total < (p.n - 1) * limit
    ensures limit == 0 ==> p == if total == 0 then NaN else Infinity
  {
    if limit > 0 then
      var q := (total + limit - 1) / limit;
      CeilDiv(total, limit);
      Pages(q)
    else if limit < 0 then
      var q := -(total / -limit);
      FloorDiv(total, -limit);
      Pages(q)
    else if total == 0 then NaN
    else Infinity
  }

  lemma CeilDiv(n: nat, d: int)
    requires d > 0
    ensures ((n + d - 1) / d - 1) * d < n <= ((n + d - 1) / d) * d
  {
    var q := (n + d - 1) / d;
    var m := (n + d - 1) % d;
    assert n + d - 1 == q * d + m && 0 <= m < d;
    assert (q - 1) * d == q * d - d;
  }

  lemma FloorDiv(n: nat, d: int)
    requires d > 0
    ensures (-(n / d)) * -d <= n < (-(n / d) - 1) * -d
  {
    var q := n / d;
    var m := n % d;
    assert n == q * d + m && 0 <= m < d;
    assert (-q) * -d == q * d;
    assert (-q - 1) * -d == q * d + d;
  }

  /** The value the comparator of `getPaginated` compares: the rating, the
      timestamp, or nothing for any other `sortBy`. */
  function SortValue(r: Rating, sortBy: string): int
  {
    if sortBy == "rating" then r.rating
    else if sortBy == "timestamp" then r.timestamp
    else 0
  }

  /** The comparator as a key: `desc` negates the comparison, so larger
      values come first; any other order puts smaller values first. */
  function SortKey(sortBy: string, sortOrder: string): (key: Rating -> int)
    ensures sortOrder == "desc" ==>
      forall a, b :: key(a) <= key(b) <==> SortValue(a, sortBy) >= SortValue(b, sortBy)
    ensures sortOrder != "desc" ==>
      forall a, b :: key(a) <= key(b) <==> SortValue(a, sortBy) <= SortValue(b, sortBy)
  {
    if sortOrder == "desc" then (r: Rating) => -SortValue(r, sortBy)
    else (r: Rating) => SortValue(r, sortBy)
  }

  /** A slice is a contiguous part of the sequence: drawn from it, and
      sorted when it is. */
  lemma SliceDrawsFrom<T>(s: seq<T>, start: int, end: int)
    ensures multiset(JsSlice(s, start, end)) <= multiset(s)
    ensures forall key :: SortedBy(s, key) ==> SortedBy(JsSlice(s, start, end), key)
  {
    var a := SliceIndex(start, |s|);
    var b := SliceIndex(end, |s|);
    if a < b {
      assert JsSlice(s, start, end) == s[a..b];
      assert s == s[..a] + s[a..b] + s[b..];
      assert multiset(s) == multiset(s[..a]) + multiset(s[a..b]) + multiset(s[b..]);
      forall key | SortedBy(s, key)
        ensures SortedBy(s[a..b], key)
      {
      }
    }
  }

  /** `startIndex` of `getPaginated`. */
  function PageStart(page: int, limit: int): int
  {
    (page - 1) * limit
  }

  /** `sorted.slice(startIndex, startIndex + limit)`. */
  function PageItems(sorted: seq<Rating>, page: int, limit: int): (items: seq<Rating>)
    ensures 0 <= limit ==> |items| <= limit
    ensures multiset(items) <= multiset(sorted)
    ensures forall key :: SortedBy(sorted, key) ==> SortedBy(items, key)
    ensures var start := PageStart(page, limit);
      0 <= limit && 0 <= start ==>
        items == sorted[Min(start, |sorted|)..Min(start + limit, |sorted|)]
  {
    var start := PageStart(page, limit);
    var end := start + limit;
    SliceDrawsFrom(sorted, start, end);
    assert 0 <= limit ==> start <= end;
    JsSlice(sorted, start, end)
  }

  // ---------------------------------------------------------------------------
  // The service

  class RatingService {
    var ratings: seq<Rating>

    /** The store starts from what local storage held (an arbitrary list). */
    constructor (stored: seq<Rating>)
      ensures ratings == stored
    {
      ratings := stored;
    }

    function GetById(id: string): (r: Result<Rating>)
      reads this
      ensures r.Fail? <==> forall i :: 0 <= i < |ratings| ==> ratings[i].id != id
      ensures r.Fail? ==> r.message == NotFound
      ensures r.Ok? ==> r.value.id == id && r.value == ratings[IdIndex(ratings, id)]
    {
      var k := IdIndex(ratings, id);
      if k < 0 then Fail(NotFound) else Ok(ratings[k])
    }

    function GetByMovieId(movieId: string): (r: seq<Rating>)
      reads this
      ensures IsSubsequence(r, ratings)
      ensures forall x :: x in r <==> x in ratings && x.movieId == movieId
      ensures forall x :: multiset(r)[x] == if x.movieId == movieId then multiset(ratings)[x] else 0
    {
      MovieRatings(ratings, movieId)
    }

    function GetByUserId(userId: string): (r: seq<Rating>)
      reads this
      ensures IsSubsequence(r, ratings)
      ensures forall x :: x in r <==> x in ratings && x.userId == userId
      ensures forall x :: multiset(r)[x] == if x.userId == userId then multiset(ratings)[x] else 0
    {
      Filter(ratings, (x: Rating) => x.userId == userId)
    }

    /** The rating `userId` gave `movieId`, or null; with pairs unique it is
        the only one. */
    function GetUserRatingForMovie(movieId: string, userId: string): (r: Option<Rating>)
      reads this
      ensures r.None? <==> forall i :: 0 <= i < |ratings| ==>
                              !(ratings[i].movieId == movieId && ratings[i].userId == userId)
      ensures r.Some? ==> r.value.movieId == movieId && r.value.userId == userId &&
                          r.value == ratings[PairIndex(ratings, movieId, userId)]
      ensures r.Some? && PairsUnique(ratings) ==>
                forall i :: (0 <= i < |ratings| && ratings[i].movieId == movieId &&
                             ratings[i].userId == userId) ==> ratings[i] == r.value
    {
      var k := PairIndex(ratings, movieId, userId);
      if k < 0 then None else Some(ratings[k])
    }

    /** `getAverageRating`: `{0, 0}` for an unrated movie; otherwise the
        number of the movie's ratings and their mean rounded to a tenth of a
        star, which stays within one to five stars when the ratings do. */
    function GetAverageRating(movieId: string): (r: AverageRating)
      reads this
      ensures r.count == |MovieRatings(ratings, movieId)|
      ensures r.count == 0 ==> r.average == 0
      ensures r.count > 0 ==> var total := Total(MovieRatings(ratings, movieId));
                2 * r.count * r.average <= 2 * total + r.count < 2 * r.count * r.average + 2 * r.count
      ensures r.count > 0 && (forall x :: x in ratings && x.movieId == movieId ==>
                                            MinRating <= x.rating <= MaxRating) ==>
                MinRating <= r.average <= MaxRating
    {
      var mr := MovieRatings(ratings, movieId);
      if |mr| == 0 then AverageRating(0, 0)
      else
        MovieMeanInRange(ratings, movieId);
        AverageRating(MeanTenths(mr), |mr|)
    }

    /** `getMovieStats`: the same average and count as `getAverageRating`,
        and for each of 1..5 stars the number of the movie's ratings with
        exactly that value. */
    method GetMovieStats(movieId: string) returns (stats: MovieStats)
      ensures stats.average == GetAverageRating(movieId).average
      ensures stats.count == GetAverageRating(movieId).count
      ensures |stats.distribution| == 5
      ensures forall k :: 0 <= k < 5 ==>
                stats.distribution[k] == CountOf(MovieRatings(ratings, movieId), MinRating * (k + 1))
    {
      var mr := MovieRatings(ratings, movieId);
      var summary := GetAverageRating(movieId);
      if |mr| == 0 {
        return MovieStats(0, 0, [0, 0, 0, 0, 0]);
      }
      var distribution := Tally(mr);
      stats := MovieStats(summary.average, summary.count, distribution);
    }

    /** `getPaginated`: page `page` of `limit` records of a sorted copy of the
        store, with the page metadata. */
    function GetPaginated(page: int := 1, limit: int := 10, sortBy: string := "timestamp",
                          sortOrder: string := "desc"): (r: Page)
      reads this
      ensures r.pagination == Pagination(page, limit, |ratings|, TotalPages(|ratings|, limit))
      ensures 0 <= limit ==> |r.ratings| <= limit
      ensures multiset(r.ratings) <= multiset(ratings)
      ensures SortedBy(r.ratings, SortKey(sortBy, sortOrder))
      ensures var start := PageStart(page, limit);
        var sorted := SortBy(ratings, SortKey(sortBy, sortOrder));
        0 <= limit && 0 <= start ==>
          r.ratings == sorted[Min(start, |sorted|)..Min(start + limit, |sorted|)]
    {
      var items := PageItems(SortBy(ratings, SortKey(sortBy, sortOrder)), page, limit);
      Page(items, Pagination(page, limit, |ratings|, TotalPages(|ratings|, limit)))
    }

    /** `create`: validate, then upsert on the (movie, user) pair. */
    method Create(input: RatingInput, now: nat) returns (r: Result<Rating>)
      modifies this
      ensures CreateError(input).Some? ==>
                r == Fail(CreateError(input).value) && ratings == old(ratings)
      ensures CreateError(input).None? ==>
                var k := PairIndex(old(ratings), input.movieId, input.userId);
                ratings == Upsert(old(ratings), NewRating(input, now)) &&
                r == Ok(if k >= 0 then NewRating(input, now).(id := old(ratings)[k].id)
                        else NewRating(input, now))
      ensures old(PairsUnique(ratings)) ==> PairsUnique(ratings)
    {
      var e := CreateError(input);
      if e.Some? {
        return Fail(e.value);
      }
      var existingIndex := PairIndex(ratings, input.movieId, input.userId);
      var newRating := NewRating(input, now);
      if existingIndex >= 0 {
        newRating := newRating.(id := ratings[existingIndex].id);
        ratings := ratings[existingIndex := newRating];
      } else {
        ratings := ratings + [newRating];
      }
      if old(PairsUnique(ratings)) {
        UpsertKeepsPairsUnique(old(ratings), NewRating(input, now));
      }
      r := Ok(newRating);
    }

    /** `update`: merge the patch into the record with that id; 1..5 is
        checked only for a truthy patch rating. */
    method Update(id: string, patch: RatingPatch, now: nat) returns (r: Result<Rating>)
      modifies this
      ensures var k := IdIndex(old(ratings), id);
        (k < 0 ==> r == Fail(NotFound) && ratings == old(ratings)) &&
        (k >= 0 && UpdateError(patch).Some? ==> r == Fail(OutOfRange) && ratings == old(ratings)) &&
        (k >= 0 && UpdateError(patch).None? ==>
           r == Ok(Merge(old(ratings)[k], patch, now)) && ratings == old(ratings)[k := r.value])
    {
      var index := IdIndex(ratings, id);
      if index == -1 {
        return Fail(NotFound);
      }
      var e := UpdateError(patch);
      if e.Some? {
        return Fail(e.value);
      }
      var updatedRating := Merge(ratings[index], patch, now);
      ratings := ratings[index := updatedRating];
      r := Ok(updatedRating);
    }

    /** `delete`: remove the first record with that id. */
    method Delete(id: string) returns (r: Result<bool>)
      modifies this
      ensures var k := IdIndex(old(ratings), id);
        (k < 0 ==> r == Fail(NotFound) && ratings == old(ratings)) &&
        (k >= 0 ==> r == Ok(true) && ratings == RemoveAt(old(ratings), k))
    {
      var index := IdIndex(ratings, id);
      if index == -1 {
        return Fail(NotFound);
      }
      ratings := ratings[..index] + ratings[index + 1..];
      r := Ok(true);
    }

    /** `deleteByMovieAndUser`: remove the first record of that pair. */
    method DeleteByMovieAndUser(movieId: string, userId: string) returns (r: Result<bool>)
      modifies this
      ensures var k := PairIndex(old(ratings), movieId, userId);
        (k < 0 ==> r == Fail(NotFound) && ratings == old(ratings)) &&
        (k >= 0 ==> r == Ok(true) && ratings == RemoveAt(old(ratings), k))
      ensures old(PairsUnique(ratings)) && r.Ok? ==>
                PairsUnique(ratings) &&
                forall i :: 0 <= i < |ratings| ==>
                  !(ratings[i].movieId == movieId && ratings[i].userId == userId)
    {
      var index := PairIndex(ratings, movieId, userId);
      if index == -1 {
        return Fail(NotFound);
      }
      if PairsUnique(ratings) {
        DeletePairRemovesIt(ratings, movieId, userId);
      }
      ratings := ratings[..index] + ratings[index + 1..];
      r := Ok(true);
    }
  }

  /** With every rating of the movie a whole number of stars in 1..5, the five
      buckets of `getMovieStats` add up to the count. */
  lemma {:induction false} BucketsSumToCount(rs: seq<Rating>)
    requires forall i :: 0 <= i < |rs| ==> rs[i].rating in {10, 20, 30, 40, 50}
    ensures CountOf(rs, 10) + CountOf(rs, 20) + CountOf(rs, 30) + CountOf(rs, 40) + CountOf(rs, 50) == |rs|
    decreases |rs|
  {
    if |rs| > 0 {
      BucketsSumToCount(rs[..|rs| - 1]);
    }
  }
}

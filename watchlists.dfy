/** The watchlist store (`src/services/api/watchlistService.js`): an array of
    watchlists, each holding a list of movie ids that `addMovie` keeps free of
    duplicates and `removeMovie` clears of one id across the whole store.

    `now` stands for the clock reading of `create`, in epoch milliseconds: the
    new id is its decimal rendering and `createdAt` its time value. */
module Watchlists {
  import opened Outcomes
  import opened Seqs
  import opened Text

  /** One watchlist; `createdAt` is the time value of the creation date. */
  datatype Watchlist = Watchlist(id: string, name: string, category: Option<string>,
                                 movieIds: seq<string>, createdAt: int)

  /** The argument of `create`: the fields spread into the new watchlist. */
  datatype WatchlistInput = WatchlistInput(name: string, category: Option<string>,
                                           movieIds: Option<seq<string>>)

  /** The argument of `update`: the fields it carries, each spread over the
      stored watchlist. */
  datatype WatchlistPatch = WatchlistPatch(id: Option<string>, name: Option<string>,
                                           category: Option<string>,
                                           movieIds: Option<seq<string>>,
                                           createdAt: Option<int>)

  const NotFound := "Watchlist not found"

  function IdIndex(ws: seq<Watchlist>, id: string): int
  {
    FindIndex(ws, (w: Watchlist) => w.id == id)
  }

  /** The watchlist `create` appends: the input's fields, a fresh id and
      creation time, and an empty movie list when the input has none. */
  function NewWatchlist(input: WatchlistInput, now: nat): (w: Watchlist)
    ensures w.id == NatToString(now) && w.createdAt == now
    ensures w.name == input.name && w.category == input.category
    ensures input.movieIds.None? ==> w.movieIds == []
    ensures input.movieIds.Some? ==> w.movieIds == input.movieIds.value
  {
    Watchlist(NatToString(now), input.name, input.category, input.movieIds.GetOr([]), now)
  }

  /** `{ ...stored, ...patch }`: each field the patch carries overrides the
      stored one. */
  function Merge(stored: Watchlist, patch: WatchlistPatch): (r: Watchlist)
    ensures r.id == (if patch.id.Some? then patch.id.value else stored.id)
    ensures r.name == (if patch.name.Some? then patch.name.value else stored.name)
    ensures r.category == (if patch.category.Some? then patch.category else stored.category)
    ensures r.movieIds == (if patch.movieIds.Some? then patch.movieIds.value else stored.movieIds)
    ensures r.createdAt == (if patch.createdAt.Some? then patch.createdAt.value else stored.createdAt)
    ensures patch == WatchlistPatch(None, None, None, None, None) ==> r == stored
  {
    Watchlist(patch.id.GetOr(stored.id), patch.name.GetOr(stored.name),
              if patch.category.Some? then patch.category else stored.category,
              patch.movieIds.GetOr(stored.movieIds), patch.createdAt.GetOr(stored.createdAt))
  }

  /** The store after `addMovie` finds watchlist `k`: `movieId` is appended to
      that watchlist's list when missing, and nothing else changes. */
  function WithMovie(ws: seq<Watchlist>, k: int, movieId: string): (r: seq<Watchlist>)
    requires 0 <= k < |ws|
    ensures |r| == |ws|
    ensures forall i :: 0 <= i < |ws| && i != k ==> r[i] == ws[i]
    ensures r[k] == ws[k].(movieIds := r[k].movieIds)
    ensures movieId in r[k].movieIds
    ensures forall x :: x in r[k].movieIds <==> x in ws[k].movieIds || x == movieId
    ensures |ws[k].movieIds| <= |r[k].movieIds| && r[k].movieIds[..|ws[k].movieIds|] == ws[k].movieIds
    ensures movieId in ws[k].movieIds ==> r == ws
    ensures movieId !in ws[k].movieIds ==> r[k].movieIds == ws[k].movieIds + [movieId]
  {
    ws[k := ws[k].(movieIds := AppendIfAbsent(ws[k].movieIds, movieId))]
  }

  /** Adding the same movie to the same watchlist twice is adding it once:
      the second call finds the same watchlist and changes nothing. */
  lemma AddMovieIdempotent(ws: seq<Watchlist>, watchlistId: string, movieId: string)
    requires IdIndex(ws, watchlistId) >= 0
    ensures var k := IdIndex(ws, watchlistId);
      IdIndex(WithMovie(ws, k, movieId), watchlistId) == k &&
      WithMovie(WithMovie(ws, k, movieId), k, movieId) == WithMovie(ws, k, movieId)
  {
    var k := IdIndex(ws, watchlistId);
    FindIndexAgrees(ws, WithMovie(ws, k, movieId), (w: Watchlist) => w.id == watchlistId);
  }

  /** One watchlist with `movieId` removed from its list. */
  function Strip(w: Watchlist, movieId: string): Watchlist
  {
    w.(movieIds := Without(w.movieIds, movieId))
  }

  /** The store after `removeMovie(movieId)`: each watchlist stripped of
      `movieId`. */
  function WithoutMovie(ws: seq<Watchlist>, movieId: string): (r: seq<Watchlist>)
    ensures |r| == |ws|
    ensures forall i :: 0 <= i < |r| ==> r[i] == Strip(ws[i], movieId)
  {
    if |ws| == 0 then []
    else [Strip(ws[0], movieId)] + WithoutMovie(ws[1..], movieId)
  }

  /** After `removeMovie(movieId)` no watchlist lists `movieId`; every other
      id keeps its order and multiplicity, and nothing but the movie lists
      changes. */
  lemma RemoveMovieClears(ws: seq<Watchlist>, movieId: string)
    ensures var r := WithoutMovie(ws, movieId);
      |r| == |ws| &&
      (forall i :: 0 <= i < |r| ==> r[i] == ws[i].(movieIds := r[i].movieIds)) &&
      (forall i :: 0 <= i < |r| ==> movieId !in r[i].movieIds) &&
      (forall i :: 0 <= i < |r| ==> IsSubsequence(r[i].movieIds, ws[i].movieIds)) &&
      (forall i, x :: 0 <= i < |r| && x != movieId ==>
         multiset(r[i].movieIds)[x] == multiset(ws[i].movieIds)[x])
  {
  }

  /** Removing a movie twice is removing it once. */
  lemma RemoveMovieIdempotent(ws: seq<Watchlist>, movieId: string)
    ensures WithoutMovie(WithoutMovie(ws, movieId), movieId) == WithoutMovie(ws, movieId)
  {
    var r := WithoutMovie(ws, movieId);
    forall i | 0 <= i < |ws|
      ensures Strip(r[i], movieId) == r[i]
    {
      WithoutIdempotent(ws[i].movieIds, movieId);
    }
  }

  /** Every watchlist's movie list is free of duplicates. */
  predicate MovieListsDistinct(ws: seq<Watchlist>)
  {
    forall i :: 0 <= i < |ws| ==> Distinct(ws[i].movieIds)
  }

  /** `addMovie` and `removeMovie` keep every movie list free of duplicates. */
  lemma MovieOperationsKeepListsDistinct(ws: seq<Watchlist>, k: int, movieId: string)
    requires MovieListsDistinct(ws)
    ensures 0 <= k < |ws| ==> MovieListsDistinct(WithMovie(ws, k, movieId))
    ensures MovieListsDistinct(WithoutMovie(ws, movieId))
  {
    forall i | 0 <= i < |ws|
      ensures Distinct(Without(ws[i].movieIds, movieId))
    {
      WithoutKeepsDistinct(ws[i].movieIds, movieId);
    }
  }

  class WatchlistService {
    var watchlists: seq<Watchlist>

    /** The store starts from what local storage held (an arbitrary list). */
    constructor (stored: seq<Watchlist>)
      ensures watchlists == stored
    {
      watchlists := stored;
    }

    /** `getById`: the first watchlist with that id. */
    function GetById(id: string): (r: Result<Watchlist>)
      reads this
      ensures r.Fail? <==> forall i :: 0 <= i < |watchlists| ==> watchlists[i].id != id
      ensures r.Fail? ==> r.message == NotFound
      ensures r.Ok? ==> r.value.id == id && r.value == watchlists[IdIndex(watchlists, id)]
    {
      var k := IdIndex(watchlists, id);
      if k < 0 then Fail(NotFound) else Ok(watchlists[k])
    }

    /** `getByCategory`: the watchlists with exactly that category, in store
        order. */
    function GetByCategory(category: string): (r: seq<Watchlist>)
      reads this
      ensures IsSubsequence(r, watchlists)
      ensures forall w :: w in r <==> w in watchlists && w.category == Some(category)
      ensures forall w :: multiset(r)[w] == if w.category == Some(category) then multiset(watchlists)[w] else 0
    {
      Filter(watchlists, (w: Watchlist) => w.category == Some(category))
    }

    /** `create`: append one watchlist. */
    method Create(input: WatchlistInput, now: nat) returns (w: Watchlist)
      modifies this
      ensures w == NewWatchlist(input, now)
      ensures watchlists == old(watchlists) + [w]
    {
      w := NewWatchlist(input, now);
      watchlists := watchlists + [w];
    }

    /** `update`: merge the patch into the first watchlist with that id. */
    method Update(id: string, patch: WatchlistPatch) returns (r: Result<Watchlist>)
      modifies this
      ensures var k := IdIndex(old(watchlists), id);
        (k < 0 ==> r == Fail(NotFound) && watchlists == old(watchlists)) &&
        (k >= 0 ==> r == Ok(Merge(old(watchlists)[k], patch)) &&
                    watchlists == old(watchlists)[k := r.value])
    {
      var index := IdIndex(watchlists, id);
      if index == -1 {
        return Fail(NotFound);
      }
      var updated := Merge(watchlists[index], patch);
      watchlists := watchlists[index := updated];
      r := Ok(updated);
    }

    /** `delete`: remove the first watchlist with that id. */
    method Delete(id: string) returns (r: Result<bool>)
      modifies this
      ensures var k := IdIndex(old(watchlists), id);
        (k < 0 ==> r == Fail(NotFound) && watchlists == old(watchlists)) &&
        (k >= 0 ==> r == Ok(true) && watchlists == RemoveAt(old(watchlists), k))
    {
      var index := IdIndex(watchlists, id);
      if index == -1 {
        return Fail(NotFound);
      }
      watchlists := watchlists[..index] + watchlists[index + 1..];
      r := Ok(true);
    }

    /** `addMovie`: append the movie to the first watchlist with that id
        unless it is already listed there. */
    method AddMovie(watchlistId: string, movieId: string) returns (r: Result<Watchlist>)
      modifies this
      ensures var k := IdIndex(old(watchlists), watchlistId);
        (k < 0 ==> r == Fail(NotFound) && watchlists == old(watchlists)) &&
        (k >= 0 ==> watchlists == WithMovie(old(watchlists), k, movieId) &&
                    r == Ok(watchlists[k]))
    {
      var index := IdIndex(watchlists, watchlistId);
      if index < 0 {
        return Fail(NotFound);
      }
      var watchlist := watchlists[index];
      if movieId !in watchlist.movieIds {
        watchlist := watchlist.(movieIds := watchlist.movieIds + [movieId]);
        watchlists := watchlists[index := watchlist];
      }
      r := Ok(watchlist);
    }

    /** `removeMovie`: one pass over the store, dropping the movie from each
        watchlist's list. */
    method RemoveMovie(movieId: string) returns (r: bool)
      modifies this
      ensures r
      ensures watchlists == WithoutMovie(old(watchlists), movieId)
    {
      var i := 0;
      while i < |watchlists|
        invariant 0 <= i <= |watchlists| == |old(watchlists)|
        invariant forall j :: 0 <= j < i ==> watchlists[j] == Strip(old(watchlists)[j], movieId)
        invariant forall j :: i <= j < |watchlists| ==> watchlists[j] == old(watchlists)[j]
      {
        watchlists := watchlists[i := Strip(watchlists[i], movieId)];
        i := i + 1;
      }
      r := true;
    }
  }
}

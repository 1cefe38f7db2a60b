/** The repository's state machine: the cached dataset, the favorite and
    rating preference stores, the published LiveData values, and the
    operations that change them (DataRepository.kt). */
module Repository {
  import opened Wrappers
  import opened Seqs
  import opened Entities
  import opened Projections

  /** `DataRepository.Error`: what the repository reports through `onError`. */
  datatype Error = FailedToPostRating | FailedToDeleteRating | FailedToGetData | EarlyToVote | LateToVote

  const HTTP_COME_BACK_LATER := 477
  const HTTP_TOO_LATE := 478

  /** Why a call to the server failed: an `ApiException` carrying the HTTP
      status, or any other `Throwable`. */
  datatype Failure = ApiException(status: int) | OtherException

  /** The result of a call to the server: it returns, or it throws. */
  datatype Outcome<T> = Success(value: T) | Thrown(cause: Failure)

  /** A request sent through `KotlinConfApi`. */
  datatype Request =
    | GetAll
    | PostFavorite(favorite: Favorite)
    | DeleteFavorite(favorite: Favorite)
    | PostVote(vote: Vote)
    | DeleteVote(vote: Vote)

  /** The cache file `data.json`: missing, present but read by Gson as null,
      or holding a dataset. */
  datatype CacheFile = NoFile | ParsesToNull | Cached(data: AllData)

  /** The error `addRating` reports when posting the vote failed. */
  function PostRatingError(cause: Failure): (e: Error)
    ensures e == EarlyToVote <==> cause == ApiException(HTTP_COME_BACK_LATER)
    ensures e == LateToVote <==> cause == ApiException(HTTP_TOO_LATE)
    ensures e == FailedToPostRating <==>
      cause != ApiException(HTTP_COME_BACK_LATER) && cause != ApiException(HTTP_TOO_LATE)
  {
    match cause
    case ApiException(status) =>
      if status == HTTP_COME_BACK_LATER then EarlyToVote
      else if status == HTTP_TOO_LATE then LateToVote
      else FailedToPostRating
    case OtherException => FailedToPostRating
  }

  /** `posted` posts each id of `ids` exactly once and nothing else. */
  ghost predicate PostsEach(posted: seq<Request>, ids: set<string>) {
    && |posted| == |ids|
    && (forall i :: 0 <= i < |posted| ==> posted[i].PostFavorite? && posted[i].favorite.sessionId in ids)
    && (forall id :: id in ids ==> PostFavorite(Favorite(id)) in posted)
  }

  /** The coroutine `syncLocalFavorites` launches: post every favorite the
      server is missing. Returns the requests it sends, in sending order. */
  method RepostFavorites(missingOnServer: set<string>) returns (posted: seq<Request>)
    ensures PostsEach(posted, missingOnServer)
  {
    posted := [];
    var remaining := missingOnServer;
    while remaining != {}
      invariant remaining <= missingOnServer
      invariant |posted| + |remaining| == |missingOnServer|
      invariant forall i :: 0 <= i < |posted| ==>
        posted[i].PostFavorite? && posted[i].favorite.sessionId in missingOnServer - remaining
      invariant forall id :: id in missingOnServer - remaining ==> PostFavorite(Favorite(id)) in posted
      decreases remaining
    {
      var id :| id in remaining;
      posted := posted + [PostFavorite(Favorite(id))];
      remaining := remaining - {id};
    }
  }

  /** The edits `syncLocalRatings` commits to the rating preferences:
      `clear()`, then `putInt(id, rating.value)` for every server rating. */
  method RatingEdits(ratings: Option<map<string, SessionRating>>) returns (edits: map<string, int>)
    ensures ratings.None? ==> edits == map[]
    ensures ratings.Some? ==> edits.Keys == ratings.value.Keys
    ensures ratings.Some? ==> forall id :: id in edits ==> edits[id] == ratings.value[id].value
  {
    edits := map[];
    if ratings.Some? {
      var pending := ratings.value.Keys;
      while pending != {}
        invariant pending <= ratings.value.Keys
        invariant edits.Keys == ratings.value.Keys - pending
        invariant forall id :: id in edits ==> edits[id] == ratings.value[id].value
        decreases pending
      {
        var id :| id in pending;
        edits := edits[id := ratings.value[id].value];
        pending := pending - {id};
      }
    }
  }

  class DataRepository {
    const userId: string
    /** `SessionRating.valueOf` */
    const decode: RatingDecoder
    /** `SessionModel.forSession` */
    const resolve: SessionResolver

    /** The cache file `data.json` in the app's files directory. */
    var cacheFile: CacheFile
    /** The string set under `FAVORITES_KEY` in the "favorites" preferences. */
    var favoriteStore: set<string>
    /** The session id to rating code entries of the "votes" preferences. */
    var ratingStore: map<string, int>
    /** `_data.value` */
    var data: Option<AllData>
    /** `_favorites.value` */
    var favorites: Option<seq<SessionModel>>
    /** `_ratings.value` */
    var ratings: Option<map<string, SessionRating>>
    /** `_isUpdating.value == true` */
    var isUpdating: bool
    /** Every request sent to the server, in order. */
    var requests: seq<Request>
    /** Every `onError` invocation, in order. */
    var errors: seq<Error>

    /** Holds between any two steps: the published favorites are always the
        sessions filtered by the persisted favorite set, and the dataset in
        memory is the one in the cache file. */
    ghost predicate Valid()
      reads this
    {
      && CodecValid(decode)
      && favorites == FavoritesOf(resolve, data, favoriteStore)
      && (data.Some? ==> cacheFile == Cached(data.value))
    }

    /** The published ratings, once there are any, are what the rating store
        reads back as. Broken only while a rating call is in flight. */
    ghost predicate RatingsSettled()
      reads this
    {
      ratings.Some? ==> ratings.value == LocalRatings(decode, ratingStore)
    }

    constructor (userId: string, decode: RatingDecoder, resolve: SessionResolver,
                 cacheFile: CacheFile, favoriteStore: set<string>, ratingStore: map<string, int>)
      requires CodecValid(decode)
      ensures Valid() && RatingsSettled()
      ensures this.userId == userId && this.decode == decode && this.resolve == resolve
      ensures this.cacheFile == cacheFile && this.favoriteStore == favoriteStore && this.ratingStore == ratingStore
      ensures data == None && favorites == None && ratings == None
      ensures !isUpdating && requests == [] && errors == []
    {
      this.userId := userId;
      this.decode := decode;
      this.resolve := resolve;
      this.cacheFile := cacheFile;
      this.favoriteStore := favoriteStore;
      this.ratingStore := ratingStore;
      data := None;
      favorites := None;
      ratings := None;
      isUpdating := false;
      requests := [];
      errors := [];
    }

    // -------------------------------------------------------------------------
    // Favorites

    /** `addLocalFavorite` */
    method AddLocalFavorite(sessionId: string)
      requires Valid()
      modifies this
      ensures Valid()
      ensures favoriteStore == old(favoriteStore) + {sessionId}
      ensures unchanged(this`data, this`cacheFile, this`ratingStore, this`ratings)
      ensures unchanged(this`isUpdating, this`requests, this`errors)
    {
      var edited := favoriteStore;
      edited := edited + {sessionId};
      favoriteStore := edited;
      favorites := FavoritesOf(resolve, data, edited);
    }

    /** `deleteLocalFavorite` */
    method DeleteLocalFavorite(sessionId: string)
      requires Valid()
      modifies this
      ensures Valid()
      ensures favoriteStore == old(favoriteStore) - {sessionId}
      ensures unchanged(this`data, this`cacheFile, this`ratingStore, this`ratings)
      ensures unchanged(this`isUpdating, this`requests, this`errors)
    {
      var edited := favoriteStore;
      edited := edited - {sessionId};
      favoriteStore := edited;
      favorites := FavoritesOf(resolve, data, edited);
    }

    /** `setFavorite`: change the persisted set first, then call the server.
        A failure is not caught: it propagates (`thrown`) and the local
        change stays. */
    method SetFavorite(sessionId: string, isFavorite: bool, outcome: Outcome<()>) returns (thrown: bool)
      requires Valid()
      modifies this
      ensures Valid()
      ensures isFavorite ==> favoriteStore == old(favoriteStore) + {sessionId}
      ensures !isFavorite ==> favoriteStore == old(favoriteStore) - {sessionId}
      ensures requests == old(requests) +
        [if isFavorite then PostFavorite(Favorite(sessionId)) else DeleteFavorite(Favorite(sessionId))]
      ensures thrown <==> outcome.Thrown?
      ensures unchanged(this`data, this`cacheFile, this`ratingStore, this`ratings)
      ensures unchanged(this`isUpdating, this`errors)
    {
      if isFavorite {
        AddLocalFavorite(sessionId);
        requests := requests + [PostFavorite(Favorite(sessionId))];
      } else {
        DeleteLocalFavorite(sessionId);
        requests := requests + [DeleteFavorite(Favorite(sessionId))];
      }
      thrown := outcome.Thrown?;
    }

    // -------------------------------------------------------------------------
    // Ratings. Each suspend function is split at its server call: the part
    // before it (the optimistic publication and the request) and the
    // continuation that runs once the call has returned or thrown.

    /** `addRating` up to the `postVote` call. */
    method AddRatingOptimistic(sessionId: string, rating: SessionRating)
      requires Valid() && IsRating(decode, rating)
      modifies this
      ensures Valid()
      ensures ratings == Some(LocalRatings(decode, ratingStore)[sessionId := rating])
      ensures requests == old(requests) + [PostVote(Vote(Some(sessionId), Some(rating.value)))]
      ensures unchanged(this`data, this`cacheFile, this`favoriteStore, this`favorites, this`ratingStore)
      ensures unchanged(this`isUpdating, this`errors)
    {
      ratings := Some(LocalRatings(decode, ratingStore)[sessionId := rating]);
      requests := requests + [PostVote(Vote(Some(sessionId), Some(rating.value)))];
    }

    /** `addRating` after the `postVote` call: on success save the rating
        (`saveLocalRating`); on failure republish the store and report one
        error classified by status. */
    method AddRatingResolve(sessionId: string, rating: SessionRating, outcome: Outcome<()>)
      requires Valid() && IsRating(decode, rating)
      modifies this
      ensures Valid() && RatingsSettled() && ratings.Some?
      ensures outcome.Success? ==> ratingStore == old(ratingStore)[sessionId := rating.value] && errors == old(errors)
      ensures outcome.Success? ==> ratings.value == LocalRatings(decode, old(ratingStore))[sessionId := rating]
      ensures outcome.Thrown? ==>
        ratingStore == old(ratingStore) && errors == old(errors) + [PostRatingError(outcome.cause)]
      ensures unchanged(this`data, this`cacheFile, this`favoriteStore, this`favorites)
      ensures unchanged(this`isUpdating, this`requests)
    {
      match outcome
      case Success(_) =>
        LocalRatingsSave(decode, ratingStore, sessionId, rating);
        ratingStore := ratingStore[sessionId := rating.value];
        ratings := Some(LocalRatings(decode, ratingStore));
      case Thrown(cause) =>
        ratings := Some(LocalRatings(decode, ratingStore));
        errors := errors + [PostRatingError(cause)];
    }

    /** `addRating`, run without interleaving. */
    method AddRating(sessionId: string, rating: SessionRating, outcome: Outcome<()>)
      requires Valid() && IsRating(decode, rating)
      modifies this
      ensures Valid() && RatingsSettled() && ratings.Some?
      ensures outcome.Success? ==> ratingStore == old(ratingStore)[sessionId := rating.value] && errors == old(errors)
      ensures outcome.Success? ==>
        ratings.value == LocalRatings(decode, old(ratingStore))[sessionId := rating]
      ensures outcome.Thrown? ==>
        ratingStore == old(ratingStore) && errors == old(errors) + [PostRatingError(outcome.cause)]
      ensures outcome.Thrown? ==> ratings.value == LocalRatings(decode, old(ratingStore))
      ensures requests == old(requests) + [PostVote(Vote(Some(sessionId), Some(rating.value)))]
      ensures unchanged(this`data, this`cacheFile, this`favoriteStore, this`favorites, this`isUpdating)
    {
      AddRatingOptimistic(sessionId, rating);
      AddRatingResolve(sessionId, rating, outcome);
    }

    /** `removeRating` up to the `deleteVote` call. */
    method RemoveRatingOptimistic(sessionId: string)
      requires Valid()
      modifies this
      ensures Valid()
      ensures ratings == Some(LocalRatings(decode, ratingStore) - {sessionId})
      ensures requests == old(requests) + [DeleteVote(Vote(Some(sessionId), None))]
      ensures unchanged(this`data, this`cacheFile, this`favoriteStore, this`favorites, this`ratingStore)
      ensures unchanged(this`isUpdating, this`errors)
    {
      ratings := Some(LocalRatings(decode, ratingStore) - {sessionId});
      requests := requests + [DeleteVote(Vote(Some(sessionId), None))];
    }

    /** `removeRating` after the `deleteVote` call: on success delete the
        rating (`deleteLocalRating`); on failure republish the store and
        report `FailedToDeleteRating`. */
    method RemoveRatingResolve(sessionId: string, outcome: Outcome<()>)
      requires Valid()
      modifies this
      ensures Valid() && RatingsSettled() && ratings.Some?
      ensures outcome.Success? ==> ratingStore == old(ratingStore) - {sessionId} && errors == old(errors)
      ensures outcome.Thrown? ==> ratingStore == old(ratingStore) && errors == old(errors) + [FailedToDeleteRating]
      ensures unchanged(this`data, this`cacheFile, this`favoriteStore, this`favorites)
      ensures unchanged(this`isUpdating, this`requests)
    {
      match outcome
      case Success(_) =>
        ratingStore := ratingStore - {sessionId};
        ratings := Some(LocalRatings(decode, ratingStore));
      case Thrown(_) =>
        ratings := Some(LocalRatings(decode, ratingStore));
        errors := errors + [FailedToDeleteRating];
    }

    /** `removeRating`, run without interleaving. */
    method RemoveRating(sessionId: string, outcome: Outcome<()>)
      requires Valid()
      modifies this
      ensures Valid() && RatingsSettled() && ratings.Some?
      ensures outcome.Success? ==> ratingStore == old(ratingStore) - {sessionId} && errors == old(errors)
      ensures outcome.Success? ==> ratings.value == LocalRatings(decode, old(ratingStore)) - {sessionId}
      ensures outcome.Thrown? ==> ratingStore == old(ratingStore) && errors == old(errors) + [FailedToDeleteRating]
      ensures outcome.Thrown? ==> ratings.value == LocalRatings(decode, old(ratingStore))
      ensures requests == old(requests) + [DeleteVote(Vote(Some(sessionId), None))]
      ensures unchanged(this`data, this`cacheFile, this`favoriteStore, this`favorites, this`isUpdating)
    {
      RemoveRatingOptimistic(sessionId);
      RemoveRatingResolve(sessionId, outcome);
      if outcome.Success? {
        LocalRatingsDelete(decode, old(ratingStore), sessionId);
      }
    }

    // -------------------------------------------------------------------------
    // Loading and refreshing

    /** `loadLocalData`: publish the cached dataset, the favorites and the
        stored ratings; report false and change nothing when there is no
        usable cache file. */
    method LoadLocalData() returns (loaded: bool)
      requires Valid()
      modifies this
      ensures Valid()
      ensures loaded <==> old(cacheFile).Cached?
      ensures !loaded ==> unchanged(this)
      ensures loaded ==> data == Some(old(cacheFile).data) && ratings == Some(LocalRatings(decode, ratingStore))
      ensures loaded ==> RatingsSettled()
      ensures unchanged(this`cacheFile, this`favoriteStore, this`ratingStore)
      ensures unchanged(this`isUpdating, this`requests, this`errors)
    {
      match cacheFile
      case NoFile =>
        return false;
      case ParsesToNull =>
        return false;
      case Cached(allData) =>
        data := Some(allData);
        favorites := FavoritesOf(resolve, data, favoriteStore);
        ratings := Some(LocalRatings(decode, ratingStore));
        return true;
    }

    /** `syncLocalFavorites`: union the server's favorite ids into the store
        and re-post the ids the server is missing. Nothing happens when the
        server sent no favorite list. */
    method SyncLocalFavorites(allData: AllData)
      requires Valid()
      modifies this
      ensures Valid()
      ensures allData.favorites.None? ==> unchanged(this)
      ensures allData.favorites.Some? ==>
        favoriteStore == old(favoriteStore) + FavoriteIds(allData.favorites.value)
      ensures allData.favorites.Some? ==>
        |requests| >= |old(requests)| && requests[..|old(requests)|] == old(requests)
        && PostsEach(requests[|old(requests)|..], old(favoriteStore) - FavoriteIds(allData.favorites.value))
      ensures unchanged(this`data, this`cacheFile, this`ratingStore, this`ratings)
      ensures unchanged(this`isUpdating, this`errors)
    {
      if allData.favorites.None? {
        return;
      }
      var sessionIds := FavoriteIds(allData.favorites.value);
      var edited := favoriteStore;
      var missingOnServer := edited - sessionIds;
      var posted := RepostFavorites(missingOnServer);
      requests := requests + posted;
      assert requests[|old(requests)|..] == posted;
      edited := edited + sessionIds;
      favoriteStore := edited;
      favorites := FavoritesOf(resolve, data, edited);
    }

    /** `syncLocalRatings`: replace the rating store with the server's votes
        and publish them. */
    method SyncLocalRatings(allData: AllData)
      requires Valid()
      modifies this
      ensures Valid() && RatingsSettled()
      ensures ratings == ServerRatingsOf(decode, allData)
      ensures ratingStore == StoreOf(ServerRatingsOf(decode, allData).GetOr(map[]))
      ensures unchanged(this`data, this`cacheFile, this`favoriteStore, this`favorites)
      ensures unchanged(this`isUpdating, this`requests, this`errors)
    {
      var serverRatings := ServerRatingsOf(decode, allData);
      var edits := RatingEdits(serverRatings);
      ratingStore := edits;
      ratings := serverRatings;
      if serverRatings.Some? {
        ServerRatingsRoundTrip(decode, allData.votes.value);
      }
    }

    /** `updateLocalData`: rewrite the cache file and publish the dataset (the
        favorites projection is recomputed from the new sessions). */
    method UpdateLocalData(allData: AllData)
      requires Valid()
      modifies this
      ensures Valid()
      ensures cacheFile == Cached(allData) && data == Some(allData)
      ensures unchanged(this`favoriteStore, this`ratingStore, this`ratings)
      ensures unchanged(this`isUpdating, this`requests, this`errors)
    {
      cacheFile := Cached(allData);
      data := Some(allData);
      favorites := FavoritesOf(resolve, data, favoriteStore);
    }

    /** `update` up to the `getAll` call: a no-op while a refresh is in flight. */
    method BeginUpdate() returns (started: bool)
      requires Valid()
      modifies this
      ensures Valid()
      ensures started <==> !old(isUpdating)
      ensures !started ==> unchanged(this)
      ensures started ==> isUpdating && requests == old(requests) + [GetAll]
      ensures unchanged(this`data, this`cacheFile, this`favoriteStore, this`favorites)
      ensures unchanged(this`ratingStore, this`ratings, this`errors)
    {
      if isUpdating {
        return false;
      }
      isUpdating := true;
      requests := requests + [GetAll];
      started := true;
    }

    /** `update` after the `getAll` call: reconcile, persist and publish a
        fetched dataset, or report `FailedToGetData` and change nothing else.
        The in-flight flag is cleared either way. */
    method FinishUpdate(fetched: Outcome<AllData>)
      requires Valid()
      modifies this
      ensures Valid() && !isUpdating
      ensures fetched.Thrown? ==> errors == old(errors) + [FailedToGetData]
      ensures fetched.Thrown? ==> unchanged(this`data, this`cacheFile, this`favoriteStore, this`favorites)
      ensures fetched.Thrown? ==> unchanged(this`ratingStore, this`ratings, this`requests)
      ensures fetched.Success? ==> errors == old(errors) && RatingsSettled()
      ensures fetched.Success? ==> data == Some(fetched.value) && cacheFile == Cached(fetched.value)
      ensures fetched.Success? && fetched.value.favorites.None? ==>
        favoriteStore == old(favoriteStore) && requests == old(requests)
      ensures fetched.Success? && fetched.value.favorites.Some? ==>
        favoriteStore == old(favoriteStore) + FavoriteIds(fetched.value.favorites.value)
        && |requests| >= |old(requests)| && requests[..|old(requests)|] == old(requests)
        && PostsEach(requests[|old(requests)|..], old(favoriteStore) - FavoriteIds(fetched.value.favorites.value))
      ensures fetched.Success? ==> ratings == ServerRatingsOf(decode, fetched.value)
      ensures fetched.Success? ==> ratingStore == StoreOf(ServerRatingsOf(decode, fetched.value).GetOr(map[]))
    {
      match fetched {
        case Success(allData) =>
          SyncLocalFavorites(allData);
          SyncLocalRatings(allData);
          UpdateLocalData(allData);
        case Thrown(_) =>
          errors := errors + [FailedToGetData];
      }
      isUpdating := false;
    }

    /** `update`, run without interleaving. */
    method Update(fetched: Outcome<AllData>)
      requires Valid()
      modifies this
      ensures Valid()
      ensures old(isUpdating) ==> unchanged(this)
      ensures !old(isUpdating) ==> !isUpdating && |requests| > |old(requests)| && requests[|old(requests)|] == GetAll
      ensures !old(isUpdating) && fetched.Thrown? ==>
        errors == old(errors) + [FailedToGetData] && requests == old(requests) + [GetAll]
      ensures !old(isUpdating) && fetched.Thrown? ==>
        unchanged(this`data, this`cacheFile, this`favoriteStore, this`favorites, this`ratingStore, this`ratings)
      ensures !old(isUpdating) && fetched.Success? ==>
        errors == old(errors) && RatingsSettled() && data == Some(fetched.value) && cacheFile == Cached(fetched.value)
        && favoriteStore == old(favoriteStore) + FavoriteIds(fetched.value.favorites.GetOr([]))
        && ratings == ServerRatingsOf(decode, fetched.value)
        && ratingStore == StoreOf(ServerRatingsOf(decode, fetched.value).GetOr(map[]))
      ensures !old(isUpdating) && fetched.Success? && fetched.value.favorites.None? ==>
        requests == old(requests) + [GetAll]
      ensures !old(isUpdating) && fetched.Success? && fetched.value.favorites.Some? ==>
        requests[..|old(requests)| + 1] == old(requests) + [GetAll]
        && PostsEach(requests[|old(requests)| + 1..], old(favoriteStore) - FavoriteIds(fetched.value.favorites.value))
    {
      var started := BeginUpdate();
      if started {
        FinishUpdate(fetched);
      }
    }
  }
}

/** Scripted call sequences on fresh objects that show the repository's and
    the application's behaviour end to end: reconciliation on
    refresh, the exclusive refresh, rating rollback, cold start, favorite
    idempotence and the stable user id. */
module Scenarios {
  import opened Wrappers
  import opened Entities
  import opened Projections
  import opened Repository
  import opened Application

  /** Local favorites {A, B} and local rating A:3 against a server listing
      favorites {B, C} and one vote B:5: the favorites become {A, B, C}, only
      A is re-posted, and the ratings become exactly {B: 5}. */
  method RefreshReconciles(decode: RatingDecoder, resolve: SessionResolver)
    returns (favoriteStore: set<string>, reposted: seq<Request>, ratings: Option<map<string, SessionRating>>)
    requires CodecValid(decode) && decode(5) == Some(SessionRating(5))
    ensures favoriteStore == {"A", "B", "C"}
    ensures reposted == [PostFavorite(Favorite("A"))]
    ensures ratings == Some(map["B" := SessionRating(5)])
  {
    var repo := new DataRepository("user", decode, resolve, NoFile, {"A", "B"}, map["A" := 3]);
    var server := AllData(None, None, None, None,
                          Some([Favorite("B"), Favorite("C")]),
                          Some([Vote(Some("B"), Some(5))]));
    var started := repo.BeginUpdate();
    repo.FinishUpdate(Success(server));
    assert FavoriteIds(server.favorites.value) == {"B", "C"};
    assert {"A", "B"} - {"B", "C"} == {"A"};
    favoriteStore := repo.favoriteStore;
    reposted := repo.requests[1..];
    assert |reposted| == 1 && PostFavorite(Favorite("A")) in reposted;
    ratings := repo.ratings;
    var pairs := [("B", SessionRating(5))];
    assert Seqs.MapNotNull([Vote(Some("B"), Some(5))], EntryOf(decode)) == pairs;
    assert pairs[..0] == [];
    assert Seqs.ToMap(pairs) == map["B" := SessionRating(5)];
  }

  /** A second `update` issued while the first is in flight sends nothing:
      exactly one `getAll` goes out. */
  method RefreshIsExclusive(decode: RatingDecoder, resolve: SessionResolver)
    returns (first: bool, second: bool, requests: seq<Request>)
    requires CodecValid(decode)
    ensures first && !second
    ensures requests == [GetAll]
  {
    var repo := new DataRepository("user", decode, resolve, NoFile, {}, map[]);
    first := repo.BeginUpdate();
    second := repo.BeginUpdate();
    requests := repo.requests;
  }

  /** Rating S1 when the vote is rejected, after the cache has loaded: the
      published ratings, S1's included, are back to what they were before the
      vote and exactly the classified error is reported. */
  method RatingRollback(decode: RatingDecoder, resolve: SessionResolver, d: AllData,
                        stored: int, rating: SessionRating, cause: Failure)
    returns (before: Option<map<string, SessionRating>>, after: Option<map<string, SessionRating>>, errors: seq<Error>)
    requires CodecValid(decode) && IsRating(decode, rating)
    ensures before.Some? && after == before
    ensures errors == [PostRatingError(cause)]
    ensures cause == ApiException(478) ==> errors == [LateToVote]
    ensures cause == OtherException ==> errors == [FailedToPostRating]
  {
    var repo := new DataRepository("user", decode, resolve, Cached(d), {}, map["S1" := stored]);
    var loaded := repo.LoadLocalData();
    before := repo.ratings;
    repo.AddRating("S1", rating, Thrown(cause));
    after := repo.ratings;
    errors := repo.errors;
  }

  /** Without a cache file nothing is loaded and nothing is published. */
  method ColdStart(decode: RatingDecoder, resolve: SessionResolver, favoriteStore: set<string>, ratingStore: map<string, int>)
    returns (loaded: bool, sessions: Option<seq<SessionModel>>, favorites: Option<seq<SessionModel>>, ratings: Option<map<string, SessionRating>>)
    requires CodecValid(decode)
    ensures !loaded && sessions == None && favorites == None && ratings == None
  {
    var repo := new DataRepository("user", decode, resolve, NoFile, favoriteStore, ratingStore);
    loaded := repo.LoadLocalData();
    sessions := SessionsValue(repo.resolve, repo.data);
    favorites := repo.favorites;
    ratings := repo.ratings;
  }

  /** Marking a session favorite twice leaves the same persisted set and the
      same published favorites as marking it once. */
  method FavoriteTwice(decode: RatingDecoder, resolve: SessionResolver, cacheFile: CacheFile,
                       favoriteStore: set<string>, sessionId: string)
    returns (once: set<string>, twice: set<string>, publishedOnce: Option<seq<SessionModel>>, publishedTwice: Option<seq<SessionModel>>)
    requires CodecValid(decode)
    ensures once == twice == favoriteStore + {sessionId}
    ensures publishedOnce == publishedTwice
  {
    var repo := new DataRepository("user", decode, resolve, cacheFile, favoriteStore, map[]);
    var loaded := repo.LoadLocalData();
    var thrown := repo.SetFavorite(sessionId, true, Success(()));
    once, publishedOnce := repo.favoriteStore, repo.favorites;
    thrown := repo.SetFavorite(sessionId, true, Success(()));
    twice, publishedTwice := repo.favoriteStore, repo.favorites;
  }

  /** The user id is created once: a second lookup returns the first id. */
  method UserIdIsStable(preferences: map<string, string>, uuid1: string, uuid2: string)
    returns (first: string, second: string)
    ensures first == second
    ensures USER_ID_KEY !in preferences ==> first == "android-" + uuid1
  {
    var app := new KotlinConfApplication(preferences);
    first := app.GetUserId(uuid1);
    second := app.GetUserId(uuid2);
  }
}

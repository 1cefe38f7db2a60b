/** The application object (KotlinConfApplication.kt): the persisted user id,
    the error callback, and the start-up sequence. */
module Application {
  import opened Wrappers
  import opened Entities
  import opened Projections
  import opened Repository

  const USER_ID_KEY := "UserId"
  const USER_ID_PREFIX := "android-"

  /** The string resources the error callback shows as toasts. */
  datatype Message =
    | MsgFailedToDeleteVote
    | MsgFailedToPostVote
    | MsgFailedToGetData
    | MsgEarlyVote
    | MsgLateVote

  /** The `onError` callback passed to the repository: one message per error. */
  function ErrorMessage(e: Error): Message {
    match e
    case FailedToDeleteRating => MsgFailedToDeleteVote
    case FailedToPostRating => MsgFailedToPostVote
    case FailedToGetData => MsgFailedToGetData
    case EarlyToVote => MsgEarlyVote
    case LateToVote => MsgLateVote
  }

  /** No two errors share a message, so the toast tells which error occurred. */
  lemma ErrorMessagesDistinct(e1: Error, e2: Error)
    ensures ErrorMessage(e1) == ErrorMessage(e2) ==> e1 == e2
  {
  }

  class KotlinConfApplication {
    /** The string entries of `defaultSharedPreferences`. */
    var preferences: map<string, string>
    /** `lateinit var repository`: null until `onCreate` has run. */
    var repository: DataRepository?

    constructor (preferences: map<string, string>)
      ensures this.preferences == preferences && repository == null
    {
      this.preferences := preferences;
      repository := null;
    }

    /** `getUserId`: the stored id, or a new one ("android-" followed by the
        generated `uuid`) that is stored before it is returned. */
    method GetUserId(uuid: string) returns (userId: string)
      modifies this`preferences
      ensures USER_ID_KEY in old(preferences) ==>
        userId == old(preferences)[USER_ID_KEY] && preferences == old(preferences)
      ensures USER_ID_KEY !in old(preferences) ==>
        userId == USER_ID_PREFIX + uuid && preferences == old(preferences)[USER_ID_KEY := userId]
      ensures USER_ID_KEY in preferences && preferences[USER_ID_KEY] == userId
    {
      if USER_ID_KEY in preferences {
        return preferences[USER_ID_KEY];
      }
      userId := USER_ID_PREFIX + uuid;
      preferences := preferences[USER_ID_KEY := userId];
    }

    /** `onCreate`: obtain the user id, create the repository over the
        persisted stores, load the cache, and refresh only when there was no
        usable cache. */
    method OnCreate(uuid: string, decode: RatingDecoder, resolve: SessionResolver,
                    cacheFile: CacheFile, favoriteStore: set<string>, ratingStore: map<string, int>,
                    fetched: Outcome<AllData>)
      requires CodecValid(decode)
      modifies this
      ensures repository != null && fresh(repository) && repository.Valid()
      ensures USER_ID_KEY in preferences && repository.userId == preferences[USER_ID_KEY]
      ensures USER_ID_KEY in old(preferences) ==> preferences == old(preferences)
      ensures cacheFile.Cached? ==>
        repository.requests == [] && repository.errors == [] && repository.data == Some(cacheFile.data)
      ensures !cacheFile.Cached? ==> |repository.requests| > 0 && repository.requests[0] == GetAll
      ensures !cacheFile.Cached? && fetched.Thrown? ==>
        repository.errors == [FailedToGetData] && repository.data == None
      ensures !cacheFile.Cached? && fetched.Success? ==>
        repository.errors == [] && repository.data == Some(fetched.value)
    {
      var userId := GetUserId(uuid);
      repository := new DataRepository(userId, decode, resolve, cacheFile, favoriteStore, ratingStore);
      var dataLoaded := repository.LoadLocalData();
      if !dataLoaded {
        repository.Update(fetched);
      }
    }
  }
}

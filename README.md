# KotlinConf app: the repository's cache and sync engine, in Dafny

This project models the client-side data layer of the KotlinConf Android
app: `DataRepository`, which keeps the conference dataset cached on disk,
the user's favorite sessions and session ratings in preference stores, and
publishes four LiveData values (`sessions`, `favorites`, `ratings`,
`isUpdating`) to the UI. It also models the two parts of
`KotlinConfApplication` that drive it: the get-or-create user id and the
start-up rule "load the cache, refresh only if there is none".

What is modelled:

- **State.** `Repository.DataRepository` is a class whose fields are the
  cache file `data.json` (`CacheFile`: missing, read as null, or holding a
  dataset), the favorite-id set stored under `FAVORITES_KEY`, the
  session-id to rating-code entries of the "votes" preferences, the LiveData
  values `_data`, `_favorites`, `_ratings` and `_isUpdating`, a log of the
  requests sent through `KotlinConfApi` and a log of the `onError`
  invocations.
- **Server calls.** The result of each call is a parameter:
  `Success(value)` or `Thrown(ApiException(status))` / `Thrown(OtherException)`.
- **Suspension points.** Three `suspend fun`s change state on both sides
  of their server call: `addRating`, `removeRating` and `update`. Each is
  split at that call into two methods: `AddRatingOptimistic` and
  `AddRatingResolve`, `RemoveRatingOptimistic` and `RemoveRatingResolve`,
  and `BeginUpdate` and `FinishUpdate`. `AddRating`, `RemoveRating` and
  `Update` each run their pair back to back. Other operations may run
  between the two halves, which is how the coroutines interleave.
- **Invariants.** `Valid()` holds after every step. It says that the
  published favorites are always `sessions` filtered by the persisted
  favorite set, in session order, and that the dataset in memory is the one
  in the cache file. `RatingsSettled()` says that the published ratings are
  what the rating store reads back as. It holds whenever no rating call is
  in flight: only the optimistic halves break it. Every resolving half and
  every successful refresh restores it, and a failed refresh leaves the
  ratings and the store as they were.
- **Unseen helpers.** `SessionRating.valueOf` and `SessionModel.forSession`
  are not part of this model. They are the class's constant function fields
  `decode` and `resolve`. Of `valueOf` the model assumes only that the
  rating it returns for a code carries that code (`CodecValid`). Kotlin's
  `SessionRating` is a closed enum; the model's is any code, so the rating
  operations require their argument to be a constant of it (`IsRating`).

Behaviour of the code worth noting:

- `setFavorite` does not roll back on failure and reports no error. The
  local change stays and the exception propagates to the caller (modelled
  as the `thrown` result).
- `loadLocalData` returns false only when the file is missing or Gson reads
  it as null. A malformed file makes Gson throw (see Left out).
- When the server's vote list is null, `syncLocalRatings` still clears the
  rating store and publishes null ratings.
- The refresh failure is reported as `FAILED_TO_GET_DATA`.

## Model

| member | source | states |
|---|---|---|
| `Seqs.FirstIndex` | android/app/src/main/java/org/jetbrains/kotlinconf/model/DataRepository.kt:149-156 | the position found is the first element satisfying the predicate, or the end when none does |
| `Seqs.Find` | android/app/src/main/java/org/jetbrains/kotlinconf/model/DataRepository.kt:149-156 | `find` returns null exactly when no element matches, otherwise the first matching element |
| `Seqs.MapNotNull` | android/app/src/main/java/org/jetbrains/kotlinconf/model/DataRepository.kt:40-42 | Kotlin's `mapNotNull`: the non-null images of the inputs, in input order; never longer than the input |
| `Seqs.MapNotNullMembership` | android/app/src/main/java/org/jetbrains/kotlinconf/model/DataRepository.kt:40-42 | an element is in a `mapNotNull` result exactly when some input maps to it |
| `Seqs.MapNotNullAppend` | android/app/src/main/java/org/jetbrains/kotlinconf/model/DataRepository.kt:40-42 | `mapNotNull` keeps input order: it distributes over concatenation |
| `Seqs.Filter` | android/app/src/main/java/org/jetbrains/kotlinconf/model/DataRepository.kt:48 | the filtered list holds exactly the elements satisfying the predicate |
| `Seqs.FilterAppend` | android/app/src/main/java/org/jetbrains/kotlinconf/model/DataRepository.kt:48 | `filter` keeps input order: it distributes over concatenation |
| `Seqs.FlatMap` | android/app/src/main/java/org/jetbrains/kotlinconf/model/DataRepository.kt:155 | Kotlin's `flatMap`: the concatenation of each input's list, in input order |
| `Seqs.FlatMapMembership` | android/app/src/main/java/org/jetbrains/kotlinconf/model/DataRepository.kt:155 | an element is in the `flatMap` result exactly when some input's list contains it |
| `Seqs.ToMap` | android/app/src/main/java/org/jetbrains/kotlinconf/model/DataRepository.kt:221 | Kotlin's `toMap` on a list of pairs: each pair in order overrides an earlier one with the same key |
| `Seqs.ToMapKeys` | android/app/src/main/java/org/jetbrains/kotlinconf/model/DataRepository.kt:221 | `toMap` has exactly the keys of its pairs |
| `Seqs.ToMapEntries` | android/app/src/main/java/org/jetbrains/kotlinconf/model/DataRepository.kt:221 | every entry of the `toMap` result is one of the pairs |
| `Seqs.ToMapLastWins` | android/app/src/main/java/org/jetbrains/kotlinconf/model/DataRepository.kt:221 | for a repeated key, `toMap` keeps the value of the last pair |
| `Projections.GetRoom` | android/app/src/main/java/org/jetbrains/kotlinconf/model/DataRepository.kt:149 | the first room of the dataset with the id; null when there is no dataset, no room list or no such room |
| `Projections.GetSpeaker` | android/app/src/main/java/org/jetbrains/kotlinconf/model/DataRepository.kt:151 | the first speaker with the id; null exactly when no speaker has it |
| `Projections.GetCategoryItem` | android/app/src/main/java/org/jetbrains/kotlinconf/model/DataRepository.kt:153-157 | the first item with the id in the flattened item list of all categories; null items never match |
| `Projections.GetCategoryItemSearchesAllCategories` | android/app/src/main/java/org/jetbrains/kotlinconf/model/DataRepository.kt:153-157 | an item is found exactly when some category lists an item with that id, and the found item is listed by a category |
| `Projections.CreateSessionModel` | android/app/src/main/java/org/jetbrains/kotlinconf/model/DataRepository.kt:142-147 | `createSessionModel`: `forSession` applied to the session with `getSpeaker`, `getCategoryItem` and `getRoom` over the current dataset as its three providers |
| `Projections.Sessions` | android/app/src/main/java/org/jetbrains/kotlinconf/model/DataRepository.kt:39-43 | the `sessions` list for a dataset: its sessions that resolve to a model, in server order, an empty list when the session list is null; never longer than the session list |
| `Projections.SessionsValue` | android/app/src/main/java/org/jetbrains/kotlinconf/model/DataRepository.kt:39-43 | `sessions.value`: defined exactly when a dataset has been set |
| `Projections.SessionsSpec` | android/app/src/main/java/org/jetbrains/kotlinconf/model/DataRepository.kt:39-43 | `sessions` holds exactly the models of the sessions that resolve, is no longer than the session list, and is empty when the dataset has no sessions |
| `Projections.SessionsKeepOrder` | android/app/src/main/java/org/jetbrains/kotlinconf/model/DataRepository.kt:39-43 | `sessions` keeps the server's order: the models of any prefix come first |
| `Projections.FavoritesOf` | android/app/src/main/java/org/jetbrains/kotlinconf/model/DataRepository.kt:45-49 | the favorites value for a dataset and a favorite-id set: defined exactly when a dataset is set, holding only sessions whose id is a favorite and never more than the sessions |
| `Projections.FavoritesSpec` | android/app/src/main/java/org/jetbrains/kotlinconf/model/DataRepository.kt:45-49 | once a dataset is set, the favorites value is defined and holds exactly the sessions whose id is in the favorite set |
| `Projections.LocalRatings` | android/app/src/main/java/org/jetbrains/kotlinconf/model/DataRepository.kt:181-185 | `getAllLocalRatings`: every stored session whose code names a rating, mapped to that rating, and no other session |
| `Projections.LocalRatingsOfStore` | android/app/src/main/java/org/jetbrains/kotlinconf/model/DataRepository.kt:181-185 | writing ratings as codes and reading them back with `getAllLocalRatings` gives the same ratings |
| `Projections.LocalRatingsSave` | android/app/src/main/java/org/jetbrains/kotlinconf/model/DataRepository.kt:187-190 | after `saveLocalRating` the store reads back as before plus the saved entry |
| `Projections.LocalRatingsDelete` | android/app/src/main/java/org/jetbrains/kotlinconf/model/DataRepository.kt:192-195 | after `deleteLocalRating` the store reads back as before minus that session |
| `Projections.VoteEntry` | android/app/src/main/java/org/jetbrains/kotlinconf/model/DataRepository.kt:217-220 | the pair kept for one server vote: its session id with the rating its code names, or null when the id or the code is null or names no rating |
| `Projections.ServerRatings` | android/app/src/main/java/org/jetbrains/kotlinconf/model/DataRepository.kt:217-221 | the server ratings of a vote list: the kept pairs of its votes, collected with `toMap` |
| `Projections.ServerRatingsOf` | android/app/src/main/java/org/jetbrains/kotlinconf/model/DataRepository.kt:216-221 | the ratings a refresh derives from a dataset: null exactly when the vote list is null |
| `Projections.ServerRatingsKeys` | android/app/src/main/java/org/jetbrains/kotlinconf/model/DataRepository.kt:217-221 | a session is rated after a refresh exactly when a server vote has its non-null id and a rating code that names a rating |
| `Projections.ServerRatingsAreRatings` | android/app/src/main/java/org/jetbrains/kotlinconf/model/DataRepository.kt:219 | every rating taken from the server is a constant of the enum |
| `Projections.ServerRatingsLastVoteWins` | android/app/src/main/java/org/jetbrains/kotlinconf/model/DataRepository.kt:217-221 | of several votes for one session, the last valid one is kept |
| `Projections.ServerRatingsRoundTrip` | android/app/src/main/java/org/jetbrains/kotlinconf/model/DataRepository.kt:216-228 | the rating store written by a refresh reads back as exactly the published server ratings |
| `Repository.PostRatingError` | android/app/src/main/java/org/jetbrains/kotlinconf/model/DataRepository.kt:74-84 | status 477 gives `EARLY_TO_VOTE`, 478 gives `LATE_TO_VOTE`, any other status or non-API failure gives `FAILED_TO_POST_RATING` |
| `Repository.RepostFavorites` | android/app/src/main/java/org/jetbrains/kotlinconf/model/DataRepository.kt:202-205 | the launched coroutine posts each favorite missing on the server exactly once and nothing else |
| `Repository.RatingEdits` | android/app/src/main/java/org/jetbrains/kotlinconf/model/DataRepository.kt:223-226 | after `clear()` and the `putInt` loop the store holds exactly the server ratings' codes |
| `Repository.DataRepository.Valid` | android/app/src/main/java/org/jetbrains/kotlinconf/model/DataRepository.kt:45-49 | the invariant behind the favorites mediator and the cache: the published favorites are the sessions filtered by the stored favorite set, and a dataset in memory is the one in the cache file |
| `Repository.DataRepository.RatingsSettled` | android/app/src/main/java/org/jetbrains/kotlinconf/model/DataRepository.kt:66-97 | the published ratings, once set, are exactly what the rating store reads back as; only an in-flight rating call leaves it broken |
| `Repository.DataRepository.constructor` | android/app/src/main/java/org/jetbrains/kotlinconf/model/DataRepository.kt:17-37 | the stores are the persisted ones; no LiveData has a value yet; no refresh is in flight |
| `Repository.DataRepository.AddLocalFavorite` | android/app/src/main/java/org/jetbrains/kotlinconf/model/DataRepository.kt:159-168 | the favorite set becomes old plus the id; favorites are republished; nothing else changes |
| `Repository.DataRepository.DeleteLocalFavorite` | android/app/src/main/java/org/jetbrains/kotlinconf/model/DataRepository.kt:170-179 | the favorite set becomes old minus the id; favorites are republished; nothing else changes |
| `Repository.DataRepository.SetFavorite` | android/app/src/main/java/org/jetbrains/kotlinconf/model/DataRepository.kt:56-64 | the local change is made before the request and kept whatever the outcome; a failure propagates and reports no error |
| `Repository.DataRepository.AddRatingOptimistic` | android/app/src/main/java/org/jetbrains/kotlinconf/model/DataRepository.kt:66-70 | before the call, the published ratings are the stored ones plus the new rating, and the vote is posted |
| `Repository.DataRepository.AddRatingResolve` | android/app/src/main/java/org/jetbrains/kotlinconf/model/DataRepository.kt:69-85 | on success the code is stored and no error is reported; on failure the store is unchanged and exactly the classified error is reported; either way the published ratings are the store's |
| `Repository.DataRepository.AddRating` | android/app/src/main/java/org/jetbrains/kotlinconf/model/DataRepository.kt:66-86 | on success the published ratings are the old ones plus the new rating; on failure they are the old ones and one classified error is reported |
| `Repository.DataRepository.RemoveRatingOptimistic` | android/app/src/main/java/org/jetbrains/kotlinconf/model/DataRepository.kt:88-91 | before the call, the published ratings are the stored ones minus the session, and the delete is sent |
| `Repository.DataRepository.RemoveRatingResolve` | android/app/src/main/java/org/jetbrains/kotlinconf/model/DataRepository.kt:90-96 | on success the session is deleted from the store; on failure the store is unchanged and exactly `FAILED_TO_DELETE_RATING` is reported; the published ratings are the store's |
| `Repository.DataRepository.RemoveRating` | android/app/src/main/java/org/jetbrains/kotlinconf/model/DataRepository.kt:88-97 | on success the published ratings lose the session; on failure they are restored and one error is reported |
| `Repository.DataRepository.LoadLocalData` | android/app/src/main/java/org/jetbrains/kotlinconf/model/DataRepository.kt:99-120 | returns false with no state change when the file is missing or reads as null; otherwise sets the dataset and publishes favorites and the decodable stored ratings |
| `Repository.DataRepository.SyncLocalFavorites` | android/app/src/main/java/org/jetbrains/kotlinconf/model/DataRepository.kt:197-214 | with a server list, the favorite set becomes local union server and exactly local minus server is re-posted; without one, nothing changes |
| `Repository.DataRepository.SyncLocalRatings` | android/app/src/main/java/org/jetbrains/kotlinconf/model/DataRepository.kt:216-229 | the rating store is replaced by the server ratings' codes, local-only ratings are dropped, and the published ratings are the server's |
| `Repository.DataRepository.UpdateLocalData` | android/app/src/main/java/org/jetbrains/kotlinconf/model/DataRepository.kt:231-237 | the cache file and the published dataset become the fetched dataset; favorites are recomputed from it |
| `Repository.DataRepository.BeginUpdate` | android/app/src/main/java/org/jetbrains/kotlinconf/model/DataRepository.kt:122-130 | a no-op while a refresh is in flight; otherwise marks one in flight and sends one `getAll` |
| `Repository.DataRepository.FinishUpdate` | android/app/src/main/java/org/jetbrains/kotlinconf/model/DataRepository.kt:129-140 | on a failed fetch only `FAILED_TO_GET_DATA` is reported; on success favorites, ratings and the cache are reconciled; the in-flight flag is cleared either way |
| `Repository.DataRepository.Update` | android/app/src/main/java/org/jetbrains/kotlinconf/model/DataRepository.kt:122-140 | the whole refresh: nothing if one is in flight, else one fetch, then reconciliation or one error, and the flag is cleared |
| `Application.ErrorMessage` | android/app/src/main/java/org/jetbrains/kotlinconf/KotlinConfApplication.kt:18-25 | the `onError` callback: the toast message shown for each error |
| `Application.ErrorMessagesDistinct` | android/app/src/main/java/org/jetbrains/kotlinconf/KotlinConfApplication.kt:18-25 | the error callback shows a different message for each error |
| `Application.KotlinConfApplication.constructor` | android/app/src/main/java/org/jetbrains/kotlinconf/KotlinConfApplication.kt:9-10 | the repository is not set before `onCreate` |
| `Application.KotlinConfApplication.GetUserId` | android/app/src/main/java/org/jetbrains/kotlinconf/KotlinConfApplication.kt:34-44 | a stored id is returned and nothing is written; otherwise "android-" plus the UUID is stored and returned |
| `Application.KotlinConfApplication.OnCreate` | android/app/src/main/java/org/jetbrains/kotlinconf/KotlinConfApplication.kt:12-32 | the repository uses the stored user id; a refresh runs exactly when the cache did not load |
| `Scenarios.RefreshReconciles` | android/app/src/main/java/org/jetbrains/kotlinconf/model/DataRepository.kt:197-229 | local {A, B} and server {B, C} give {A, B, C} with only A re-posted; local rating A:3 and server vote B:5 give exactly {B: 5} |
| `Scenarios.RefreshIsExclusive` | android/app/src/main/java/org/jetbrains/kotlinconf/model/DataRepository.kt:122-130 | a second refresh started while one is in flight sends no second fetch |
| `Scenarios.RatingRollback` | android/app/src/main/java/org/jetbrains/kotlinconf/model/DataRepository.kt:66-86 | after the cache has loaded, a rejected vote leaves the published ratings exactly as they were before the vote and reports exactly one classified error |
| `Scenarios.ColdStart` | android/app/src/main/java/org/jetbrains/kotlinconf/model/DataRepository.kt:99-103 | without a cache file nothing loads and no projection has a value |
| `Scenarios.FavoriteTwice` | android/app/src/main/java/org/jetbrains/kotlinconf/model/DataRepository.kt:56-64 | marking a favorite twice gives the same stored set and published favorites as marking it once |
| `Scenarios.UserIdIsStable` | android/app/src/main/java/org/jetbrains/kotlinconf/KotlinConfApplication.kt:34-44 | a second lookup of the user id returns the first one |

## Left out

- The JSON wire format and file I/O. Gson, `File.exists`, `readText`, `writeText`, `delete` and `createNewFile` are not modelled. The cache file is a value, and writing a dataset then reading it back is assumed to give the same dataset.
- Malformed cache files. Gson throws on malformed JSON, and that exception would escape `loadLocalData`. The model covers only a missing file, a file Gson reads as null, and a readable dataset.
- Exceptions inside a refresh after `getAll` has returned. A file write failing in `updateLocalData` is an example. Such an exception would leave the earlier reconciliation steps applied and report `FAILED_TO_GET_DATA`, but the model has no way to fail there.
- LiveData and MediatorLiveData delivery. Observers are assumed active, so `sessions` and the favorites mediator recompute synchronously whenever the dataset is set. The published values are plain fields. `isUpdating` is a bool: the initial null behaves like false for the guard.
- SharedPreferences. `apply()` is treated as an immediate write, and each store is a field. The preference file names and `FAVORITES_KEY` are not modelled.
- Coroutines and concurrency. `launch(CommonPool)` runs at the point of launch, and its requests are appended to the request log then. A failing re-post inside that coroutine is not modelled. Interleaving is only possible at the split suspension points.
- `KotlinConfApi`. HTTP, URLs, headers and `createUser` are not modelled. Each call is an entry in the request log, and its result is a parameter.
- `SessionRating.valueOf` and `SessionModel.forSession`. Their bodies are not part of this model. They are function parameters, and `valueOf` is assumed to return ratings carrying the looked-up code.
- The records of `org.jetbrains.kotlinconf.data` keep their Kotlin nullability only for the fields the repository reads (ids, the dataset's lists, a category's items, a vote's session id and rating). The fields that only `SessionModel.forSession` uses (names, titles, a session's room, speaker and item ids) are not read by the modelled code, so their shape in `Entities` is a plausible reading, not a copy of the Kotlin declarations.
- UUID generation. The generated string is a parameter of `GetUserId`.
- Toast display and the `warn` log line. Only the error-to-message mapping of the callback is modelled.
- `common/.../model/Data.kt`. It is an unfinished second repository with empty and `TODO` bodies, and it is not modelled.

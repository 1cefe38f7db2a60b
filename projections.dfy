/** The side-effect-free part of `DataRepository`: the lookups handed to
    `SessionModel.forSession`, the `sessions` and favorites projections, and
    the conversions between the persisted rating codes and `SessionRating`s. */
module Projections {
  import opened Wrappers
  import opened Seqs
  import opened Entities

  /** `SessionRating.valueOf`: the rating with a given code, or null. Its body
      is not part of this model; the repository is parameterised by it. */
  type RatingDecoder = int -> Option<SessionRating>

  /** `SessionModel.forSession(session, speakerProvider, categoryProvider,
      roomProvider)`, whose body is not part of this model either. */
  type SessionResolver =
    (Session, string -> Option<Speaker>, int -> Option<CategoryItem>, int -> Option<Room>) -> Option<SessionModel>

  /** What is assumed of `valueOf`: the rating it returns for a code has that code. */
  ghost predicate CodecValid(decode: RatingDecoder) {
    forall n :: decode(n).Some? ==> decode(n).value.value == n
  }

  /** `r` is one of the enum's constants: looking its code up gives it back. */
  predicate IsRating(decode: RatingDecoder, r: SessionRating) {
    decode(r.value) == Some(r)
  }

  // ---------------------------------------------------------------------------
  // Lookups into the cached dataset (null dataset or null list: nothing found)

  function Rooms(data: Option<AllData>): seq<Room> {
    if data.Some? then data.value.rooms.GetOr([]) else []
  }

  function Speakers(data: Option<AllData>): seq<Speaker> {
    if data.Some? then data.value.speakers.GetOr([]) else []
  }

  function Categories(data: Option<AllData>): seq<Category> {
    if data.Some? then data.value.categories.GetOr([]) else []
  }

  /** `getRoom`: the first room with the given id. */
  function GetRoom(data: Option<AllData>, roomId: int): (r: Option<Room>)
    ensures r.None? <==> forall i :: 0 <= i < |Rooms(data)| ==> Rooms(data)[i].id != roomId
    ensures r.Some? ==>
      exists k :: 0 <= k < |Rooms(data)| && Rooms(data)[k] == r.value
        && r.value.id == roomId && forall j :: 0 <= j < k ==> Rooms(data)[j].id != roomId
  {
    Find(Rooms(data), (room: Room) => room.id == roomId)
  }

  /** `getSpeaker`: the first speaker with the given id. */
  function GetSpeaker(data: Option<AllData>, speakerId: string): (r: Option<Speaker>)
    ensures r.None? <==> forall i :: 0 <= i < |Speakers(data)| ==> Speakers(data)[i].id != speakerId
    ensures r.Some? ==>
      exists k :: 0 <= k < |Speakers(data)| && Speakers(data)[k] == r.value
        && r.value.id == speakerId && forall j :: 0 <= j < k ==> Speakers(data)[j].id != speakerId
  {
    Find(Speakers(data), (speaker: Speaker) => speaker.id == speakerId)
  }

  /** The items of all categories, in category order (`flatMap { it.items ?: emptyList() }`). */
  function CategoryItems(data: Option<AllData>): seq<Option<CategoryItem>> {
    FlatMap(Categories(data), ItemsOf)
  }

  function ItemsOf(c: Category): seq<Option<CategoryItem>> {
    c.items.GetOr([])
  }

  /** `it?.id == categoryItemId`: a null item never matches. */
  predicate MatchesItem(it: Option<CategoryItem>, itemId: int) {
    it.Some? && it.value.id == itemId
  }

  /** `getCategoryItem`: the first matching item of the flattened item list. */
  function GetCategoryItem(data: Option<AllData>, itemId: int): (r: Option<CategoryItem>)
    ensures r.None? <==> forall i :: 0 <= i < |CategoryItems(data)| ==> !MatchesItem(CategoryItems(data)[i], itemId)
    ensures r.Some? ==> r.value.id == itemId
    ensures r.Some? ==>
      exists k :: 0 <= k < |CategoryItems(data)| && CategoryItems(data)[k] == Some(r.value)
        && forall j :: 0 <= j < k ==> !MatchesItem(CategoryItems(data)[j], itemId)
  {
    match Find(CategoryItems(data), (it: Option<CategoryItem>) => MatchesItem(it, itemId))
    case Some(it) => it
    case None => None
  }

  /** The item search covers every category: an item is found exactly when
      some category lists an item with that id, and what is found is listed
      by some category. */
  lemma GetCategoryItemSearchesAllCategories(data: Option<AllData>, itemId: int)
    ensures GetCategoryItem(data, itemId).Some? <==>
      exists c, it :: c in Categories(data) && it in ItemsOf(c) && MatchesItem(it, itemId)
    ensures GetCategoryItem(data, itemId).Some? ==>
      exists c :: c in Categories(data) && Some(GetCategoryItem(data, itemId).value) in ItemsOf(c)
  {
    var cats, items := Categories(data), CategoryItems(data);
    var r := GetCategoryItem(data, itemId);
    if r.Some? {
      var k :| 0 <= k < |items| && items[k] == Some(r.value);
      FlatMapMembership(cats, ItemsOf, Some(r.value));
      var i :| 0 <= i < |cats| && Some(r.value) in ItemsOf(cats[i]);
      assert cats[i] in cats && MatchesItem(Some(r.value), itemId);
    } else if exists c, it :: c in cats && it in ItemsOf(c) && MatchesItem(it, itemId) {
      var c, it :| c in cats && it in ItemsOf(c) && MatchesItem(it, itemId);
      var i :| 0 <= i < |cats| && cats[i] == c;
      FlatMapMembership(cats, ItemsOf, it);
      assert false;
    }
  }

  // ---------------------------------------------------------------------------
  // The `sessions` and favorites projections

  /** `createSessionModel`: resolve a session against the dataset `data`. */
  function CreateSessionModel(resolve: SessionResolver, data: Option<AllData>, session: Session): Option<SessionModel> {
    resolve(session,
            (id: string) => GetSpeaker(data, id),
            (id: int) => GetCategoryItem(data, id),
            (id: int) => GetRoom(data, id))
  }

  function ResolveIn(resolve: SessionResolver, d: AllData): Session -> Option<SessionModel> {
    (s: Session) => CreateSessionModel(resolve, Some(d), s)
  }

  function SessionList(d: AllData): seq<Session> {
    d.sessions.GetOr([])
  }

  /** The value `sessions` maps a dataset to: its sessions resolved, the
      unresolvable ones dropped (`mapNotNull ... ?: emptyList()`). */
  function Sessions(resolve: SessionResolver, d: AllData): (r: seq<SessionModel>)
    ensures |r| <= |SessionList(d)|
  {
    MapNotNull(SessionList(d), ResolveIn(resolve, d))
  }

  /** `sessions.value`: no value until a dataset has been set. */
  function SessionsValue(resolve: SessionResolver, data: Option<AllData>): (r: Option<seq<SessionModel>>)
    ensures r.Some? <==> data.Some?
  {
    match data
    case None => None
    case Some(d) => Some(Sessions(resolve, d))
  }

  /** The session list holds exactly the models of the sessions that resolve,
      at most one per session, and is empty when the dataset has no sessions. */
  lemma SessionsSpec(resolve: SessionResolver, d: AllData, m: SessionModel)
    ensures m in Sessions(resolve, d) <==>
      exists i :: 0 <= i < |SessionList(d)| && CreateSessionModel(resolve, Some(d), SessionList(d)[i]) == Some(m)
    ensures |Sessions(resolve, d)| <= |SessionList(d)|
    ensures d.sessions.None? ==> Sessions(resolve, d) == []
  {
    MapNotNullMembership(SessionList(d), ResolveIn(resolve, d), m);
  }

  /** Resolution keeps the server's session order: the models of a prefix of
      the session list come before those of the rest. */
  lemma SessionsKeepOrder(resolve: SessionResolver, d: AllData, n: nat)
    requires n <= |SessionList(d)|
    ensures Sessions(resolve, d) ==
      MapNotNull(SessionList(d)[..n], ResolveIn(resolve, d)) + MapNotNull(SessionList(d)[n..], ResolveIn(resolve, d))
  {
    assert SessionList(d) == SessionList(d)[..n] + SessionList(d)[n..];
    MapNotNullAppend(SessionList(d)[..n], SessionList(d)[n..], ResolveIn(resolve, d));
  }

  function IsFavoriteIn(favoriteIds: set<string>): SessionModel -> bool {
    (m: SessionModel) => m.id in favoriteIds
  }

  /** The favorites value published for a dataset and a favorite-id set:
      `sessions.value?.filter { favorites.contains(it.id) }`. */
  function FavoritesOf(resolve: SessionResolver, data: Option<AllData>, favoriteIds: set<string>): (r: Option<seq<SessionModel>>)
    ensures r.Some? <==> data.Some?
    ensures r.Some? ==> |r.value| <= |Sessions(resolve, data.value)|
    ensures r.Some? ==> forall i :: 0 <= i < |r.value| ==> r.value[i].id in favoriteIds
  {
    match SessionsValue(resolve, data)
    case None => None
    case Some(sessions) => Some(Filter(sessions, IsFavoriteIn(favoriteIds)))
  }

  /** The favorites are the sessions whose id is a favorite, in session order. */
  lemma FavoritesSpec(resolve: SessionResolver, d: AllData, favoriteIds: set<string>, m: SessionModel)
    ensures FavoritesOf(resolve, Some(d), favoriteIds).Some?
    ensures m in FavoritesOf(resolve, Some(d), favoriteIds).value <==> m in Sessions(resolve, d) && m.id in favoriteIds
  {
    var ss := Sessions(resolve, d);
    var fs := Filter(ss, IsFavoriteIn(favoriteIds));
    if m in fs {
      var i :| 0 <= i < |fs| && fs[i] == m;
    }
    if m in ss && m.id in favoriteIds {
      var i :| 0 <= i < |ss| && ss[i] == m;
    }
  }

  // ---------------------------------------------------------------------------
  // Ratings: the persisted code store and the published rating map

  /** `getAllLocalRatings`: the stored codes that name a rating, decoded. */
  function LocalRatings(decode: RatingDecoder, store: map<string, int>): (r: map<string, SessionRating>)
    ensures forall id :: id in r ==> id in store && decode(store[id]) == Some(r[id])
    ensures forall id :: id in store && decode(store[id]).Some? ==> id in r
  {
    map id | id in store && decode(store[id]).Some? :: decode(store[id]).value
  }

  /** The codes `putInt(id, rating.value)` writes for a rating map. */
  function StoreOf(ratings: map<string, SessionRating>): map<string, int> {
    map id | id in ratings :: ratings[id].value
  }

  /** Reading back what was written gives the ratings back. */
  lemma LocalRatingsOfStore(decode: RatingDecoder, ratings: map<string, SessionRating>)
    requires forall id :: id in ratings ==> IsRating(decode, ratings[id])
    ensures LocalRatings(decode, StoreOf(ratings)) == ratings
  {
    var back := LocalRatings(decode, StoreOf(ratings));
    assert back.Keys == ratings.Keys;
  }

  /** Saving a rating adds exactly that entry to what is read back. */
  lemma LocalRatingsSave(decode: RatingDecoder, store: map<string, int>, sessionId: string, rating: SessionRating)
    requires IsRating(decode, rating)
    ensures LocalRatings(decode, store[sessionId := rating.value]) == LocalRatings(decode, store)[sessionId := rating]
  {
    var after := LocalRatings(decode, store[sessionId := rating.value]);
    assert after.Keys == LocalRatings(decode, store).Keys + {sessionId};
  }

  /** Deleting a rating removes exactly that entry from what is read back. */
  lemma LocalRatingsDelete(decode: RatingDecoder, store: map<string, int>, sessionId: string)
    ensures LocalRatings(decode, store - {sessionId}) == LocalRatings(decode, store) - {sessionId}
  {
    var after := LocalRatings(decode, store - {sessionId});
    assert after.Keys == LocalRatings(decode, store).Keys - {sessionId};
  }

  /** The pair `syncLocalRatings` keeps for a server vote, or null when its
      session id is null or its code names no rating. */
  function VoteEntry(decode: RatingDecoder, v: Vote): Option<(string, SessionRating)> {
    if v.sessionId.Some? && v.rating.Some? && decode(v.rating.value).Some?
    then Some((v.sessionId.value, decode(v.rating.value).value))
    else None
  }

  function EntryOf(decode: RatingDecoder): Vote -> Option<(string, SessionRating)> {
    (v: Vote) => VoteEntry(decode, v)
  }

  /** `votes.mapNotNull { ... }.toMap()`. */
  function ServerRatings(decode: RatingDecoder, votes: seq<Vote>): map<string, SessionRating> {
    ToMap(MapNotNull(votes, EntryOf(decode)))
  }

  /** The ratings `syncLocalRatings` derives from a dataset: null when the
      server sent no vote list. */
  function ServerRatingsOf(decode: RatingDecoder, d: AllData): (r: Option<map<string, SessionRating>>)
    ensures r.Some? <==> d.votes.Some?
  {
    match d.votes
    case None => None
    case Some(votes) => Some(ServerRatings(decode, votes))
  }

  /** A session is rated after a refresh exactly when the server sent a vote
      for it with a non-null id and a code that names a rating. */
  lemma ServerRatingsKeys(decode: RatingDecoder, votes: seq<Vote>, sessionId: string)
    ensures sessionId in ServerRatings(decode, votes) <==>
      exists i :: 0 <= i < |votes| && votes[i].sessionId == Some(sessionId)
        && votes[i].rating.Some? && decode(votes[i].rating.value).Some?
  {
    var pairs := MapNotNull(votes, EntryOf(decode));
    ToMapKeys(pairs, sessionId);
    if sessionId in ServerRatings(decode, votes) {
      var i :| 0 <= i < |pairs| && pairs[i].0 == sessionId;
      MapNotNullMembership(votes, EntryOf(decode), pairs[i]);
      var j :| 0 <= j < |votes| && EntryOf(decode)(votes[j]) == Some(pairs[i]);
      assert votes[j].sessionId == Some(sessionId);
    }
    if exists i :: 0 <= i < |votes| && votes[i].sessionId == Some(sessionId)
        && votes[i].rating.Some? && decode(votes[i].rating.value).Some? {
      var i :| 0 <= i < |votes| && votes[i].sessionId == Some(sessionId)
        && votes[i].rating.Some? && decode(votes[i].rating.value).Some?;
      var p := VoteEntry(decode, votes[i]).value;
      MapNotNullMembership(votes, EntryOf(decode), p);
      var k :| 0 <= k < |pairs| && pairs[k] == p;
    }
  }

  /** Every rating taken from the server is one of the enum's constants. */
  lemma ServerRatingsAreRatings(decode: RatingDecoder, votes: seq<Vote>)
    requires CodecValid(decode)
    ensures forall id :: id in ServerRatings(decode, votes) ==> IsRating(decode, ServerRatings(decode, votes)[id])
  {
    var pairs := MapNotNull(votes, EntryOf(decode));
    forall id | id in ServerRatings(decode, votes)
      ensures IsRating(decode, ServerRatings(decode, votes)[id])
    {
      var r := ServerRatings(decode, votes)[id];
      ToMapEntries(pairs, id);
      MapNotNullMembership(votes, EntryOf(decode), (id, r));
      var j :| 0 <= j < |votes| && EntryOf(decode)(votes[j]) == Some((id, r));
      assert decode(votes[j].rating.value) == Some(r);
      assert r.value == votes[j].rating.value;
    }
  }

  /** When the server sends several votes for a session, the last valid one wins. */
  lemma ServerRatingsLastVoteWins(decode: RatingDecoder, votes: seq<Vote>, i: nat, sessionId: string, rating: SessionRating)
    requires i < |votes| && VoteEntry(decode, votes[i]) == Some((sessionId, rating))
    requires forall j :: i < j < |votes| ==> VoteEntry(decode, votes[j]).None? || VoteEntry(decode, votes[j]).value.0 != sessionId
    ensures sessionId in ServerRatings(decode, votes) && ServerRatings(decode, votes)[sessionId] == rating
  {
    var f := EntryOf(decode);
    var front, back := votes[..i + 1], votes[i + 1..];
    assert votes == front + back;
    MapNotNullAppend(front, back, f);
    assert front == votes[..i] + [votes[i]];
    MapNotNullAppend(votes[..i], [votes[i]], f);
    var pre := MapNotNull(front, f);
    var post := MapNotNull(back, f);
    var pairs := pre + post;
    assert pre[|pre| - 1] == (sessionId, rating);
    forall j | |pre| - 1 < j < |pairs|
      ensures pairs[j].0 != sessionId
    {
      assert pairs[j] == post[j - |pre|];
      MapNotNullMembership(back, f, pairs[j]);
      var k :| 0 <= k < |back| && f(back[k]) == Some(pairs[j]);
      assert back[k] == votes[i + 1 + k];
    }
    ToMapLastWins(pairs, |pre| - 1);
  }

  /** After a refresh the rating store read back equals the published server
      ratings, so the two never disagree. */
  lemma ServerRatingsRoundTrip(decode: RatingDecoder, votes: seq<Vote>)
    requires CodecValid(decode)
    ensures LocalRatings(decode, StoreOf(ServerRatings(decode, votes))) == ServerRatings(decode, votes)
  {
    ServerRatingsAreRatings(decode, votes);
    LocalRatingsOfStore(decode, ServerRatings(decode, votes));
  }

  /** The favorite ids the server lists. */
  function FavoriteIds(favorites: seq<Favorite>): set<string> {
    set f | f in favorites :: f.sessionId
  }
}

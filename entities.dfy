/** The records of the server dataset (package `org.jetbrains.kotlinconf.data`).
    The repository itself reads only the ids, the dataset's lists, a
    category's item list and a vote's session id and rating; those keep their
    Kotlin nullability as Options. The remaining fields (names, titles and a
    session's room, speaker and item ids) matter only to `SessionModel.forSession`,
    which is not part of this model, so their shape here is a plausible reading. */
module Entities {
  import opened Wrappers

  datatype Room = Room(id: int, name: string)

  datatype Speaker = Speaker(id: string, fullName: string)

  datatype CategoryItem = CategoryItem(id: int, name: string)

  /** A category's item list is nullable and so are its items. */
  datatype Category = Category(id: int, name: string, items: Option<seq<Option<CategoryItem>>>)

  /** A session refers to its room, speakers and category items by id. */
  datatype Session = Session(id: string, title: string, roomId: int, speakerIds: seq<string>, categoryItemIds: seq<int>)

  datatype Favorite = Favorite(sessionId: string)

  /** A vote as the server sends it: both fields may be null. */
  datatype Vote = Vote(sessionId: Option<string>, rating: Option<int>)

  /** The whole dataset returned by `getAll` and cached on disk. */
  datatype AllData = AllData(
    sessions: Option<seq<Session>>,
    rooms: Option<seq<Room>>,
    speakers: Option<seq<Speaker>>,
    categories: Option<seq<Category>>,
    favorites: Option<seq<Favorite>>,
    votes: Option<seq<Vote>>)

  /** A rating is identified by its integer code `value`; which codes exist
      is decided by `SessionRating.valueOf` (see Projections.CodecValid). */
  datatype SessionRating = SessionRating(value: int)

  /** A session resolved against the dataset. */
  datatype SessionModel = SessionModel(
    id: string,
    session: Session,
    room: Room,
    speakers: seq<Speaker>,
    categoryItems: seq<CategoryItem>)
}

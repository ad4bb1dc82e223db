/**
 * The mapped mention record: the dictionary shape that the tweet scraper
 * produces and the graph indexer consumes.
 *
 * The record is a dynamically typed dictionary in the system. Here every
 * member that the consumer reads by subscript is an `Option`: `None` means
 * the key is absent, which raises a KeyError at the point of the read.
 * Members where JSON null and absence behave differently are a `Field`.
 */
module Records {

  datatype Option<+T> = None | Some(value: T)

  /** A dictionary member that is absent, present with null, or present with a value. */
  datatype Field<+T> = Absent | Null | Val(value: T)

  /** The 'tweet' member of a record. */
  datatype TweetRec = TweetRec(
    id: Option<string>,
    url: Option<string>,
    text: Field<string>,
    likes: Option<int>,
    images: Option<seq<string>>,
    timestamp: Option<string>)

  /** The 'user_account' member of a record. */
  datatype UserRec = UserRec(
    username: Option<string>,
    userId: Option<string>,
    isVerified: Option<bool>)

  /** The 'region' member of a record. */
  datatype RegionRec = RegionRec(name: Field<string>)

  /** The 'attributes' member of an edge. */
  datatype EdgeAttrs = EdgeAttrs(
    timestamp: Option<string>,
    hashtagCount: Option<int>,
    likes: Option<int>)

  /** One element of the 'edges' list; `kind` is the 'type' member. */
  datatype EdgeRec = EdgeRec(
    kind: Option<string>,
    fromKey: Option<string>,
    toKey: Option<string>,
    attributes: Option<EdgeAttrs>)

  /** One mapped mention record. */
  datatype Entry = Entry(
    token: Option<string>,
    tweet: Option<TweetRec>,
    userAccount: Option<UserRec>,
    region: Option<RegionRec>,
    hashtags: Option<seq<string>>,
    edges: Option<seq<EdgeRec>>)

  const MENTIONS := "MENTIONS"
  const POSTED := "POSTED"
  const LOCATED_IN := "LOCATED_IN"

  /** The region label used when an author has no location. */
  const UNKNOWN := "Unknown"
}

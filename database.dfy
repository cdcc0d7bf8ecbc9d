/** The persistence layer as an abstract store: the `posts` and `users` tables become
    maps keyed by their primary keys, and SQLite's autoincrement becomes a counter. */
module Database {
  import opened Wrappers
  import opened UserData
  import Config

  // The post statuses the bot writes.
  const STATUS_PENDING: string := "pending"
  const STATUS_PUBLISHED: string := "published"
  const STATUS_NO_MESSAGE_SENT: string := "failed_to_publish_no_message_sent"
  const STATUS_EXCEPTION: string := "failed_to_publish_exception"

  /** One row of `posts`. `description` is `None` both when the key is absent and when the
      description was skipped, as `user_data.get('description')` reads them alike. */
  datatype PostRecord = PostRecord(
    userId: int,
    userLang: string,
    category: string,
    price: Option<string>,
    location: Option<string>,
    description: Option<string>,
    media: seq<MediaItem>,
    catData: map<string, Option<string>>,
    status: string,
    channelMessageId: Option<int>)

  /** One row of `users`. */
  datatype UserRow = UserRow(lang: string, firstName: string, username: Option<string>)

  /** The record `save_post` inserts for a session that has a category and an identity. */
  function NewRecord(d: UserData): (r: PostRecord)
    requires d.category.Some? && d.user.Some?
    ensures r.userId == d.user.value.id && r.category == d.category.value
    ensures r.userLang == d.lang.GetOr(Config.DEFAULT_LANGUAGE)
    ensures r.status == STATUS_PENDING && r.channelMessageId.None?
  {
    PostRecord(
      d.user.value.id,
      d.lang.GetOr(Config.DEFAULT_LANGUAGE),
      d.category.value,
      d.price,
      d.location,
      if d.description.Some? then d.description.value else None,
      d.media,
      d.catData,
      STATUS_PENDING,
      None)
  }

  class Store {
    var posts: map<int, PostRecord>
    var nextId: int
    var users: map<int, UserRow>

    /** Every post id was handed out before the counter's current value. */
    predicate Valid()
      reads this
    {
      nextId >= 1 && forall id :: id in posts ==> 1 <= id < nextId
    }

    /** Empty tables. */
    constructor()
      ensures Valid() && posts == map[] && users == map[] && nextId == 1
    {
      posts := map[];
      nextId := 1;
      users := map[];
    }

    /** `save_post`: inserts a pending record under a fresh id and returns the id. A session
        without a category or an identity makes the source raise `KeyError` before the insert;
        here that is `None` with nothing written. */
    method SavePost(d: UserData) returns (id: Option<int>)
      requires Valid()
      modifies this
      ensures Valid() && users == old(users)
      ensures d.category.None? || d.user.None? ==> id.None? && unchanged(this)
      ensures d.category.Some? && d.user.Some? ==>
        && id == Some(old(nextId))
        && old(nextId) !in old(posts)
        && posts == old(posts)[old(nextId) := NewRecord(d)]
        && nextId == old(nextId) + 1
    {
      if d.category.None? || d.user.None? {
        return None;
      }
      id := Some(nextId);
      posts := posts[nextId := NewRecord(d)];
      nextId := nextId + 1;
    }

    /** `update_post_status`: sets the status of an existing post, and its channel message id
        only when one is given and is not zero (the source tests it for truthiness). An id
        with no row changes nothing. */
    method UpdatePostStatus(postId: int, status: string, messageId: Option<int>)
      requires Valid()
      modifies this
      ensures Valid() && users == old(users) && nextId == old(nextId)
      ensures postId !in old(posts) ==> posts == old(posts)
      ensures postId in old(posts) ==>
        posts == old(posts)[postId := old(posts)[postId].(
          status := status,
          channelMessageId := if messageId.Some? && messageId.value != 0 then messageId
                              else old(posts)[postId].channelMessageId)]
    {
      if postId in posts {
        var row := posts[postId];
        if messageId.Some? && messageId.value != 0 {
          posts := posts[postId := row.(status := status, channelMessageId := messageId)];
        } else {
          posts := posts[postId := row.(status := status)];
        }
      }
    }

    /** `get_user_pref_lang`: the stored language of a user, if the user has a row. */
    function PrefLang(userId: int): (l: Option<string>)
      reads this
      ensures l.Some? <==> userId in users
      ensures l.Some? ==> l.value == users[userId].lang
    {
      if userId in users then Some(users[userId].lang) else None
    }

    /** `set_user_pref_lang`: inserts or replaces the user's row; afterwards the stored
        language is the one given. */
    method SetUserPrefLang(userId: int, lang: string, firstName: string, username: Option<string>)
      requires Valid()
      modifies this
      ensures Valid() && posts == old(posts) && nextId == old(nextId)
      ensures users == old(users)[userId := UserRow(lang, firstName, username)]
      ensures PrefLang(userId) == Some(lang)
      ensures forall other :: other != userId ==> PrefLang(other) == old(PrefLang(other))
    {
      users := users[userId := UserRow(lang, firstName, username)];
    }
  }
}

/** The per-user session dictionary (`context.user_data`) as a value. A key the source
    may leave out is an `Option`; the category data and the media list are always
    present once a conversation has started, so they are plain collections. */
module UserData {
  import opened Wrappers
  import Config

  datatype MediaKind = Photo | Video

  /** One uploaded photo or video, by its Telegram file id. */
  datatype MediaItem = MediaItem(kind: MediaKind, fileId: string)

  /** The light identity kept across resets: `user_id`, `first_name`, `username`. */
  datatype User = User(id: int, firstName: string, username: Option<string>)

  /** `context.user_data`.
      - `catData`: a key that is absent was never asked; `None` means skipped.
      - `description`: `None` is an absent key, `Some(None)` a skipped description.
      - `interrupted` is the `_interrupted_ad_flow` flag, `lastPreviewId` the
        `last_preview_message_id`. */
  datatype UserData = UserData(
    lang: Option<string>,
    user: Option<User>,
    dbPrefLang: Option<string>,
    category: Option<string>,
    catData: map<string, Option<string>>,
    price: Option<string>,
    location: Option<string>,
    description: Option<Option<string>>,
    media: seq<MediaItem>,
    editingField: Option<string>,
    mediaEditedFlag: bool,
    interrupted: bool,
    lastPreviewId: Option<int>)

  /** A session with nothing in it but the two collections. */
  const EMPTY: UserData := UserData(None, None, None, None, map[], None, None, None, [], None, false, false, None)

  /** Python truthiness of an optional text: present and non-empty. */
  predicate Truthy(o: Option<string>) {
    o.Some? && o.value != ""
  }

  /** The category field `f` holds a truthy value. */
  predicate FieldTruthy(catData: map<string, Option<string>>, f: string) {
    f in catData && Truthy(catData[f])
  }

  /** The description holds a truthy value (neither absent, skipped nor empty). */
  predicate DescriptionTruthy(d: UserData) {
    d.description.Some? && Truthy(d.description.value)
  }

  /** An ad is in progress: a category is chosen or some category field was written. */
  predicate InAdFlow(d: UserData) {
    Truthy(d.category) || |d.catData| > 0
  }

  /** The media list respects the cap, and holds non-empty, pairwise distinct file ids. */
  predicate MediaWellFormed(media: seq<MediaItem>) {
    && |media| <= Config.MAX_MEDIA_ITEMS
    && (forall i :: 0 <= i < |media| ==> media[i].fileId != "")
    && (forall i, j :: 0 <= i < j < |media| ==> media[i].fileId != media[j].fileId)
  }

  /** Some item of the list carries this file id. */
  predicate HasFileId(media: seq<MediaItem>, fileId: string) {
    exists i :: 0 <= i < |media| && media[i].fileId == fileId
  }

  /** The session after `get_common_data`: the identity is filled in if absent, a missing
      language becomes the stored preference when that is supported and the default
      language otherwise; nothing else changes. */
  function WithCommonData(d: UserData, u: User): (r: UserData)
    ensures r.user.Some? && (d.user.Some? ==> r.user == d.user)
    ensures d.lang.Some? ==> r.lang == d.lang
    ensures d.lang.None? ==> r.lang.Some? && r.lang.value in Config.SUPPORTED_LANGUAGES
    ensures d.lang.None? && d.dbPrefLang.Some? && d.dbPrefLang.value in Config.SUPPORTED_LANGUAGES ==>
      r.lang == d.dbPrefLang
    ensures r.(lang := d.lang, user := d.user) == d
  {
    var user := if d.user.Some? then d.user else Some(u);
    var lang :=
      if d.lang.Some? then d.lang
      else if d.dbPrefLang.Some? && d.dbPrefLang.value in Config.SUPPORTED_LANGUAGES then d.dbPrefLang
      else Some(Config.DEFAULT_LANGUAGE);
    d.(user := user, lang := lang)
  }

  /** Filling in the common data twice is the same as once. */
  lemma WithCommonDataIdempotent(d: UserData, u: User, v: User)
    ensures WithCommonData(WithCommonData(d, u), v) == WithCommonData(d, u)
  {
  }

  /** The session after `clear_user_data_for_new_post`. */
  function Cleared(d: UserData): (r: UserData)
    ensures r.lang == d.lang && r.user == d.user && r.dbPrefLang == d.dbPrefLang
    ensures r.category.None? && r.catData == map[] && r.media == []
    ensures r.price.None? && r.location.None? && r.description.None?
    ensures r.editingField.None? && !r.mediaEditedFlag && !r.interrupted && r.lastPreviewId.None?
  {
    UserData(d.lang, d.user, d.dbPrefLang, None, map[], None, None, None, [], None, false, false, None)
  }

  /** A reset keeps exactly the language, identity and stored preference: two sessions that
      agree on those clear to the same session, and clearing twice is clearing once. */
  lemma ClearKeepsOnlyIdentity(d: UserData, e: UserData)
    requires d.lang == e.lang && d.user == e.user && d.dbPrefLang == e.dbPrefLang
    ensures Cleared(d) == Cleared(e)
    ensures Cleared(Cleared(d)) == Cleared(d)
    ensures !InAdFlow(Cleared(d)) && MediaWellFormed(Cleared(d).media)
  {
  }
}

/** The ad-posting conversation: the session (`context.user_data`) as an object whose
    fields the handlers update in place, and one method per handler. A handler returns
    the next state and the key of the main text it sends; the Telegram calls themselves
    are not modelled. */
module ConversationFlow {
  import opened Wrappers
  import opened Strings
  import opened UserData
  import opened Constants
  import Config
  import L = Localization
  import MF = MessageFormatter
  import DB = Database

  /** A step of a category branch: the field it writes, the state that comes next and the
      question that state opens with. */
  datatype Step = Step(field: string, next: State, question: string)

  /** The text states whose handler goes through `_handle_text_input`, and their step. */
  function TextStepOf(s: State): (t: Option<Step>)
    ensures t.Some? ==> FieldOfState(s) == Some(t.value.field)
    ensures t.Some? ==> BlockOf(t.value.next) == BlockOf(s) || t.value.next == AskPrice
    ensures t.Some? ==> s != HousePropertyType && s != AnimalType && s != AnimalAge && s != AnimalSex
  {
    match s
    case CarMakeModel => Some(Step("car_make_model", CarYear, "ask_car_year"))
    case CarYear => Some(Step("car_year", CarMileage, "ask_car_mileage"))
    case CarMileage => Some(Step("car_mileage", AskPrice, "ask_price"))
    case HouseRooms => Some(Step("house_rooms", HouseArea, "ask_house_area"))
    case HouseArea => Some(Step("house_area", HouseYearBuilt, "ask_house_year_built"))
    case HouseYearBuilt => Some(Step("house_year_built", AskPrice, "ask_price"))
    case AnimalBreed => Some(Step("animal_breed", AnimalAge, "ask_animal_age"))
    case OtherItemName => Some(Step("other_item_name", AskPrice, "ask_price"))
    case _ => None
  }

  /** The states with a skip button, and the step a skip takes there. */
  function SkipStepOf(s: State): (t: Option<Step>)
    ensures t.Some? <==> s in {CarYear, HouseRooms, HouseArea, HouseYearBuilt, AnimalBreed, AnimalSex}
    ensures t.Some? ==> FieldOfState(s) == Some(t.value.field)
    ensures t.Some? && s != AnimalSex ==>
      TextStepOf(s).Some? && t.value.next == TextStepOf(s).value.next && t.value.question == TextStepOf(s).value.question
    ensures s == AnimalSex ==> t.Some? && t.value.next == AskPrice
  {
    match s
    case CarYear => Some(Step("car_year", CarMileage, "ask_car_mileage"))
    case HouseRooms => Some(Step("house_rooms", HouseArea, "ask_house_area"))
    case HouseArea => Some(Step("house_area", HouseYearBuilt, "ask_house_year_built"))
    case HouseYearBuilt => Some(Step("house_year_built", AskPrice, "ask_price"))
    case AnimalBreed => Some(Step("animal_breed", AnimalAge, "ask_animal_age"))
    case AnimalSex => Some(Step("animal_sex", AskPrice, "ask_price"))
    case _ => None
  }

  /** The session after `show_preview`: the common data is filled in, the id of the new
      preview message is recorded and the media-edited flag is consumed; nothing else changes. */
  function Previewed(d: UserData, u: User, sentId: int): (r: UserData)
    ensures r.lastPreviewId == Some(sentId) && !r.mediaEditedFlag && r.user.Some?
    ensures r.(lang := d.lang, user := d.user, lastPreviewId := d.lastPreviewId, mediaEditedFlag := d.mediaEditedFlag) == d
  {
    WithCommonData(d, u).(lastPreviewId := Some(sentId), mediaEditedFlag := false)
  }

  /** The session after a language change: the language is set and, when an ad was
      interrupted, the ad keys are dropped and the collections emptied. */
  function LanguageChanged(d: UserData, code: string): UserData {
    if d.interrupted then
      d.(lang := Some(code), interrupted := false, category := None, price := None, location := None,
         description := None, editingField := None, lastPreviewId := None, mediaEditedFlag := false,
         catData := map[], media := [])
    else d.(lang := Some(code))
  }

  /** A language change made while an ad was interrupted wipes the ad exactly as a reset
      does, keeping the new language; without the flag only the language changes. */
  lemma LanguageChangeWipesInterruptedAd(d: UserData, code: string)
    ensures LanguageChanged(d, code).lang == Some(code) && !LanguageChanged(d, code).interrupted
    ensures d.interrupted ==> LanguageChanged(d, code) == Cleared(d).(lang := Some(code))
    ensures !d.interrupted ==> LanguageChanged(d, code) == d.(lang := Some(code))
    ensures d.interrupted ==> !InAdFlow(LanguageChanged(d, code))
  {
  }

  /** The state a category's branch starts in: the state of its first field. */
  function BranchStart(category: string): (s: State)
    requires category in Config.CATEGORY_KEYS
    ensures BlockOf(s) == Some(category)
    ensures FieldOfState(s) == Some(CategoryFieldOrder(category)[0])
  {
    if category == "cars" then CarMakeModel
    else if category == "houses" then HousePropertyType
    else if category == "animals" then AnimalType
    else OtherItemName
  }

  /** The question a category's branch opens with. */
  function BranchQuestion(category: string): string
    requires category in Config.CATEGORY_KEYS
  {
    if category == "cars" then "ask_car_make_model"
    else if category == "houses" then "ask_house_property_type"
    else if category == "animals" then "ask_animal_type"
    else "ask_other_item_name"
  }

  /** The payload prefix of the language-change buttons: `LANG_CALLBACK_PREFIX` followed by
      `change_`. */
  const LANG_CHANGE_CALLBACK_PREFIX: string := "lang_change_"

  // ---- The edit menu ----

  /** A common field the edit menu offers: its key is in the session. `'media'` never is,
      because the list is stored under `media_files`. */
  predicate CommonFieldPresent(d: UserData, f: string) {
    (f == "price" && d.price.Some?) || (f == "location" && d.location.Some?) || (f == "description" && d.description.Some?)
  }

  /** A category field the edit menu offers: asked and not skipped. */
  predicate CategoryFieldSet(d: UserData, f: string) {
    f in d.catData && d.catData[f].Some?
  }

  /** The fields of the current category, when a category is set and known. */
  function MenuCategoryFields(d: UserData): seq<string> {
    if Truthy(d.category) && d.category.value in EDITABLE_FIELDS_CATEGORY then CategoryFieldOrder(d.category.value)
    else []
  }

  /** The offered fields of `fields`, in order: by `CommonFieldPresent` when `common`, by
      `CategoryFieldSet` otherwise. */
  function Kept(d: UserData, fields: seq<string>, common: bool): seq<string> {
    if fields == [] then []
    else
      var last := fields[|fields| - 1];
      var keep := if common then CommonFieldPresent(d, last) else CategoryFieldSet(d, last);
      Kept(d, fields[..|fields| - 1], common) + (if keep then [last] else [])
  }

  /** A field is kept exactly when it is listed and passes the test. */
  lemma {:induction false} KeptMembership(d: UserData, fields: seq<string>, common: bool, f: string)
    ensures f in Kept(d, fields, common) <==>
      f in fields && (if common then CommonFieldPresent(d, f) else CategoryFieldSet(d, f))
  {
    if fields != [] {
      var init := fields[..|fields| - 1];
      KeptMembership(d, init, common, f);
      assert fields == init + [fields[|fields| - 1]];
    }
  }

  /** The fields `ask_edit_choice` offers, common ones first, each group in declaration order. */
  function OfferedFields(d: UserData): seq<string> {
    Kept(d, COMMON_FIELD_ORDER, true) + Kept(d, MenuCategoryFields(d), false)
  }

  /** The edit menu offers a common field exactly when its key is in the session, and a category field exactly when it belongs to the current category and
      holds a value that is not `None`. */
  lemma EditMenuOffers(d: UserData, f: string)
    ensures f in OfferedFields(d) <==>
      || (f in EDITABLE_FIELDS_COMMON && CommonFieldPresent(d, f))
      || (Truthy(d.category) && d.category.value in EDITABLE_FIELDS_CATEGORY
          && f in EDITABLE_FIELDS_CATEGORY[d.category.value] && CategoryFieldSet(d, f))
  {
    KeptMembership(d, COMMON_FIELD_ORDER, true, f);
    KeptMembership(d, MenuCategoryFields(d), false, f);
    CommonFieldsTargetCommonSteps();
    CategoryFieldsStayInBlock();
  }

  /** The media list is never offered for editing, whatever the session holds. */
  lemma MediaNeverOffered(d: UserData)
    ensures "media" !in OfferedFields(d)
  {
    KeptMembership(d, COMMON_FIELD_ORDER, true, "media");
    KeptMembership(d, MenuCategoryFields(d), false, "media");
  }

  /** The label of an edit button: the `btn_edit_<field>` text, except that for a category
      field whose text came back as the `_btn_edit_<field>_` placeholder, the field name
      with spaces for underscores, title-cased. */
  function EditLabel(table: L.Table, lang: string, f: string, common: bool): string {
    var key := "btn_edit_" + f;
    L.NotDefaultedByLeadingLetters(key);
    var text := L.GetText(table, key, lang, map[]).value;
    if !common && Contains(text, L.MissingKeyText(key)) then Title(ReplaceChar(f, '_', ' ')) else text
  }

  /** A category field without a button text is labelled with its own name, title-cased. */
  lemma EditLabelFallsBack(table: L.Table, lang: string, f: string)
    requires (L.NormalizeLang(lang), "btn_edit_" + f) !in table
    requires '{' !in f
    ensures EditLabel(table, lang, f, false) == Title(ReplaceChar(f, '_', ' '))
  {
    var key := "btn_edit_" + f;
    L.UnknownKeyPlaceholder(table, key, lang, map[]);
    var text := L.MissingKeyText(key);
    assert OccursAt(text, text, 0);
  }

  /** A button of the edit menu: its caption and its callback payload. */
  datatype EditButton = EditButton(caption: string, data: string)

  function ButtonFor(table: L.Table, lang: string, f: string, common: bool): EditButton {
    EditButton(EditLabel(table, lang, f, common), EDIT_FIELD_CALLBACK_PREFIX + f)
  }

  /** The state `handle_edit_field_selection` jumps to for a key: the common map first, then
      the map of the current category. */
  function EditTarget(d: UserData, key: string): Option<State> {
    if key in EDITABLE_FIELDS_COMMON then Some(EDITABLE_FIELDS_COMMON[key])
    else if Truthy(d.category) && d.category.value in EDITABLE_FIELDS_CATEGORY
      && key in EDITABLE_FIELDS_CATEGORY[d.category.value]
    then Some(EDITABLE_FIELDS_CATEGORY[d.category.value][key])
    else None
  }

  /** The common field a common step collects. */
  function CommonFieldOfState(s: State): Option<string> {
    match s
    case AskPrice => Some("price")
    case AskLocation => Some("location")
    case AskDescription => Some("description")
    case AskMedia => Some("media")
    case _ => None
  }

  /** Every offered field has a target, and the target is the state that collects exactly
      that field. */
  lemma EditTargetCollectsField(d: UserData, key: string)
    ensures key in OfferedFields(d) ==> EditTarget(d, key).Some?
    ensures EditTarget(d, key).Some? ==>
      CommonFieldOfState(EditTarget(d, key).value) == Some(key) || FieldOfState(EditTarget(d, key).value) == Some(key)
  {
    EditMenuOffers(d, key);
    CategoryTargetsCollectTheirField();
  }

  /** The buttons for a list of fields, in order. */
  function Buttons(table: L.Table, lang: string, fields: seq<string>, common: bool): seq<EditButton> {
    seq(|fields|, k requires 0 <= k < |fields| => ButtonFor(table, lang, fields[k], common))
  }

  /** Adding a field to the list adds its button at the end. */
  lemma ButtonsAppend(table: L.Table, lang: string, fields: seq<string>, f: string, common: bool)
    ensures Buttons(table, lang, fields + [f], common) == Buttons(table, lang, fields, common) + [ButtonFor(table, lang, f, common)]
  {
    var a, b := Buttons(table, lang, fields + [f], common), Buttons(table, lang, fields, common) + [ButtonFor(table, lang, f, common)];
    assert |a| == |b|;
    forall k | 0 <= k < |a| ensures a[k] == b[k] {
      if k < |fields| {
        assert (fields + [f])[k] == fields[k];
      }
    }
  }

  /** One loop of `ask_edit_choice`: a button for each field of the list that passes the
      test, in list order. */
  method CollectButtons(table: L.Table, lang: string, d: UserData, fields: seq<string>, common: bool)
    returns (buttons: seq<EditButton>)
    ensures buttons == Buttons(table, lang, Kept(d, fields, common), common)
  {
    buttons := [];
    var i := 0;
    while i < |fields|
      invariant 0 <= i <= |fields|
      invariant buttons == Buttons(table, lang, Kept(d, fields[..i], common), common)
    {
      var f := fields[i];
      var keep := if common then CommonFieldPresent(d, f) else CategoryFieldSet(d, f);
      KeptStep(d, fields, i, common);
      if keep {
        ButtonsAppend(table, lang, Kept(d, fields[..i], common), f, common);
        buttons := buttons + [ButtonFor(table, lang, f, common)];
      }
      i := i + 1;
    }
    assert fields[..i] == fields;
  }

  /** Extending the list by its next field keeps that field exactly when it passes the test. */
  lemma KeptStep(d: UserData, fields: seq<string>, i: int, common: bool)
    requires 0 <= i < |fields|
    ensures Kept(d, fields[..i + 1], common) == Kept(d, fields[..i], common) +
      (if (if common then CommonFieldPresent(d, fields[i]) else CategoryFieldSet(d, fields[i])) then [fields[i]] else [])
  {
    assert fields[..i + 1][..i] == fields[..i];
  }

  /** The field buttons of the edit menu: the common ones, then the category's. */
  function MenuButtons(table: L.Table, lang: string, d: UserData): seq<EditButton> {
    Buttons(table, lang, Kept(d, COMMON_FIELD_ORDER, true), true)
      + Buttons(table, lang, Kept(d, MenuCategoryFields(d), false), false)
  }

  /** Every field name the menu can list, common or of any category, lacks the letter `f`,
      which the edit prefix has. */
  lemma MenuFieldNamesLackF(d: UserData, f: string)
    requires f in COMMON_FIELD_ORDER || f in MenuCategoryFields(d)
    ensures 'f' !in f
  {
  }

  /** The menu has one button per offered field, in the same order, and the payload of
      each button, split after the edit prefix as `handle_edit_field_selection` does, gives
      back exactly that field. */
  lemma MenuButtonsRoundTrip(table: L.Table, lang: string, d: UserData)
    ensures |MenuButtons(table, lang, d)| == |OfferedFields(d)|
    ensures forall k :: 0 <= k < |OfferedFields(d)| ==>
      && EDIT_FIELD_CALLBACK_PREFIX <= MenuButtons(table, lang, d)[k].data
      && AfterPrefix(MenuButtons(table, lang, d)[k].data, EDIT_FIELD_CALLBACK_PREFIX) == OfferedFields(d)[k]
  {
    var common, cat := Kept(d, COMMON_FIELD_ORDER, true), Kept(d, MenuCategoryFields(d), false);
    var bs, fs := MenuButtons(table, lang, d), OfferedFields(d);
    forall k | 0 <= k < |fs|
      ensures EDIT_FIELD_CALLBACK_PREFIX <= bs[k].data && AfterPrefix(bs[k].data, EDIT_FIELD_CALLBACK_PREFIX) == fs[k]
    {
      var f := fs[k];
      assert bs[k].data == EDIT_FIELD_CALLBACK_PREFIX + f by {
        if k < |common| {
          assert bs[k] == Buttons(table, lang, common, true)[k];
        } else {
          assert bs[k] == Buttons(table, lang, cat, false)[k - |common|];
        }
      }
      if k < |common| {
        assert f in common;
        KeptMembership(d, COMMON_FIELD_ORDER, true, f);
      } else {
        assert f == cat[k - |common|] && f in cat;
        KeptMembership(d, MenuCategoryFields(d), false, f);
      }
      MenuFieldNamesLackF(d, f);
      NoOccurrenceWithoutChar(f, EDIT_FIELD_CALLBACK_PREFIX, 'f');
      AfterPrefixOfJoined(EDIT_FIELD_CALLBACK_PREFIX, f);
    }
  }

  // ---- Publication ----

  /** What the feed did with the post: it returned a sent message with its id, returned no
      message, or raised. */
  datatype FeedResult = Delivered(messageId: int) | NothingSent | Raised

  /** The effects of the post action outside the session, in the order they happen: the
      record is saved, the ad is handed to the feed, and statuses are written. */
  datatype Effect = Saved(postId: int) | Sent(text: string, media: seq<MediaItem>) | StatusSet(postId: int, status: string)

  /** The status a published post ends with. `notifyFails` says that editing the user's
      message to report the outcome raised, which the source's `except` branch catches. */
  function FinalStatus(feed: FeedResult, notifyFails: bool): (s: string)
    ensures s == DB.STATUS_PUBLISHED <==> feed.Delivered? && !notifyFails
    ensures s == DB.STATUS_NO_MESSAGE_SENT <==> feed.NothingSent? && !notifyFails
    ensures s == DB.STATUS_EXCEPTION <==> feed.Raised? || notifyFails
  {
    if feed.Raised? || notifyFails then DB.STATUS_EXCEPTION
    else if feed.Delivered? then DB.STATUS_PUBLISHED
    else DB.STATUS_NO_MESSAGE_SENT
  }

  /** The status writes of the post action: the outcome of the feed, followed by the
      exception status when reporting a normal outcome to the user raised. */
  function StatusWrites(postId: int, feed: FeedResult, notifyFails: bool): (ws: seq<Effect>)
    ensures 1 <= |ws| <= 2
    ensures ws[|ws| - 1] == StatusSet(postId, FinalStatus(feed, notifyFails))
    ensures |ws| == 2 <==> !feed.Raised? && notifyFails
  {
    if feed.Raised? then [StatusSet(postId, DB.STATUS_EXCEPTION)]
    else
      var first := StatusSet(postId, if feed.Delivered? then DB.STATUS_PUBLISHED else DB.STATUS_NO_MESSAGE_SENT);
      if notifyFails then [first, StatusSet(postId, DB.STATUS_EXCEPTION)] else [first]
  }

  /** The channel message id a published post ends with: the id of the delivered message
      when it is not zero, else what the record had. */
  function FinalMessageId(feed: FeedResult, before: Option<int>): Option<int> {
    if feed.Delivered? && feed.messageId != 0 then Some(feed.messageId) else before
  }

  /** The key of the message reporting the outcome: a success message (for a channel or for
      an admin chat) exactly when the post ends published, the general error otherwise. */
  function OutcomeMessage(feed: FeedResult, notifyFails: bool, isChannel: bool): (key: string)
    ensures key != "general_error" <==> FinalStatus(feed, notifyFails) == DB.STATUS_PUBLISHED
  {
    if feed.Delivered? && !notifyFails then
      (if isChannel then "post_successful_channel" else "post_successful_admin")
    else "general_error"
  }

  /** The part of the post action after the record is saved: hand the ad to the feed and
      record the outcome, as the `try` block and its `except` branch do. */
  method Publish(store: DB.Store, postId: int, text: string, media: seq<MediaItem>, feed: FeedResult,
                 notifyFails: bool, isChannel: bool) returns (prompt: string, effects: seq<Effect>)
    requires store.Valid() && postId in store.posts
    modifies store
    ensures store.Valid() && store.users == old(store.users) && store.nextId == old(store.nextId)
    ensures store.posts == old(store.posts)[postId := old(store.posts)[postId].(
      status := FinalStatus(feed, notifyFails),
      channelMessageId := FinalMessageId(feed, old(store.posts)[postId].channelMessageId))]
    ensures effects == [Sent(text, media)] + StatusWrites(postId, feed, notifyFails)
    ensures prompt == OutcomeMessage(feed, notifyFails, isChannel)
  {
    effects := [Sent(text, media)];
    match feed {
      case Raised =>
        store.UpdatePostStatus(postId, DB.STATUS_EXCEPTION, None);
        effects := effects + [StatusSet(postId, DB.STATUS_EXCEPTION)];
        prompt := "general_error";
      case Delivered(messageId) =>
        store.UpdatePostStatus(postId, DB.STATUS_PUBLISHED, Some(messageId));
        effects := effects + [StatusSet(postId, DB.STATUS_PUBLISHED)];
        prompt := if isChannel then "post_successful_channel" else "post_successful_admin";
      case NothingSent =>
        store.UpdatePostStatus(postId, DB.STATUS_NO_MESSAGE_SENT, None);
        effects := effects + [StatusSet(postId, DB.STATUS_NO_MESSAGE_SENT)];
        prompt := "general_error";
    }
    if notifyFails && !feed.Raised? {
      store.UpdatePostStatus(postId, DB.STATUS_EXCEPTION, None);
      effects := effects + [StatusSet(postId, DB.STATUS_EXCEPTION)];
      prompt := "general_error";
    }
  }

  /** The store side of the post action: save the record, then publish it. A session
      without a category or an identity saves nothing. */
  method SaveAndPublish(store: DB.Store, d: UserData, table: L.Table, feed: FeedResult, notifyFails: bool, isChannel: bool)
    returns (saved: bool, prompt: string, effects: seq<Effect>)
    requires store.Valid()
    modifies store
    ensures store.Valid()
    ensures saved <==> d.category.Some? && d.user.Some?
    ensures !saved ==> unchanged(store) && effects == []
    ensures saved ==>
      var id := old(store.nextId);
      && store.nextId == id + 1 && store.users == old(store.users)
      && id !in old(store.posts)
      && store.posts == old(store.posts)[id := DB.NewRecord(d).(
           status := FinalStatus(feed, notifyFails), channelMessageId := FinalMessageId(feed, None))]
      && effects == [Saved(id), Sent(MF.FormatFinalPost(table, d), d.media)] + StatusWrites(id, feed, notifyFails)
      && prompt == OutcomeMessage(feed, notifyFails, isChannel)
  {
    var text := MF.FormatFinalPost(table, d);
    var postId := store.SavePost(d);
    if postId.None? {
      return false, "", [];
    }
    var id := postId.value;
    ghost var pending := store.posts;
    var writes;
    prompt, writes := Publish(store, id, text, d.media, feed, notifyFails, isChannel);
    effects := [Saved(id)] + writes;
    PrependTwo(Saved(id), Sent(text, d.media), StatusWrites(id, feed, notifyFails));
    RecordRewritten(old(store.posts), id, pending[id], store.posts[id]);
    saved := true;
  }

  /** Putting two effects in front one at a time is putting both in front at once. */
  lemma PrependTwo(a: Effect, b: Effect, rest: seq<Effect>)
    ensures [a] + ([b] + rest) == [a, b] + rest
  {
    assert forall k :: 0 <= k < 2 + |rest| ==> ([a] + ([b] + rest))[k] == ([a, b] + rest)[k];
  }

  /** Rewriting a record that was just inserted is inserting the rewritten record. */
  lemma RecordRewritten(posts: map<int, DB.PostRecord>, id: int, inserted: DB.PostRecord, rewritten: DB.PostRecord)
    ensures posts[id := inserted][id := rewritten] == posts[id := rewritten]
  {
  }

  /** The session object. */
  class Session {
    var lang: Option<string>
    var user: Option<User>
    var dbPrefLang: Option<string>
    var category: Option<string>
    var catData: map<string, Option<string>>
    var price: Option<string>
    var location: Option<string>
    var description: Option<Option<string>>
    var media: seq<MediaItem>
    var editingField: Option<string>
    var mediaEditedFlag: bool
    var interrupted: bool
    var lastPreviewId: Option<int>

    /** The session's contents as a value. */
    function Snap(): UserData
      reads this
    {
      UserData(lang, user, dbPrefLang, category, catData, price, location, description, media,
               editingField, mediaEditedFlag, interrupted, lastPreviewId)
    }

    /** The media list stays within the cap and holds distinct, non-empty file ids. */
    predicate Valid()
      reads this
    {
      MediaWellFormed(media)
    }

    /** A session before any handler ran. */
    constructor()
      ensures Snap() == EMPTY && Valid()
    {
      lang, user, dbPrefLang, category := None, None, None, None;
      catData, price, location, description := map[], None, None, None;
      media, editingField, mediaEditedFlag, interrupted, lastPreviewId := [], None, false, false, None;
    }

    /** Replaces the whole session with `d`. */
    method Load(d: UserData)
      modifies this
      ensures Snap() == d
    {
      lang, user, dbPrefLang := d.lang, d.user, d.dbPrefLang;
      LoadAnswers(d);
      LoadProgress(d);
    }

    method LoadAnswers(d: UserData)
      modifies this
      ensures Snap() == old(Snap()).(category := d.category, catData := d.catData, price := d.price,
        location := d.location, description := d.description)
    {
      category, catData, price, location, description := d.category, d.catData, d.price, d.location, d.description;
    }

    method LoadProgress(d: UserData)
      modifies this
      ensures Snap() == old(Snap()).(media := d.media, editingField := d.editingField,
        mediaEditedFlag := d.mediaEditedFlag, interrupted := d.interrupted, lastPreviewId := d.lastPreviewId)
    {
      media, editingField, mediaEditedFlag := d.media, d.editingField, d.mediaEditedFlag;
      interrupted, lastPreviewId := d.interrupted, d.lastPreviewId;
    }

    /** `get_common_data`. */
    method GetCommonData(u: User)
      modifies this
      ensures Snap() == WithCommonData(old(Snap()), u)
    {
      if user.None? {
        user := Some(u);
      }
      if lang.None? {
        if dbPrefLang.Some? && dbPrefLang.value in Config.SUPPORTED_LANGUAGES {
          lang := dbPrefLang;
        } else {
          lang := Some(Config.DEFAULT_LANGUAGE);
        }
      }
    }

    /** `clear_user_data_for_new_post`. */
    method ClearUserDataForNewPost()
      modifies this
      ensures Snap() == Cleared(old(Snap())) && Valid()
    {
      DropAnswers();
      DropProgress();
    }

    /** The answers of the ad: category, category data and common fields. */
    method DropAnswers()
      modifies this
      ensures Snap() == old(Snap()).(category := None, catData := map[], price := None, location := None, description := None)
    {
      category, catData, price, location, description := None, map[], None, None, None;
    }

    /** The media list and the progress flags. */
    method DropProgress()
      modifies this
      ensures Valid()
      ensures Snap() == old(Snap()).(media := [], editingField := None, mediaEditedFlag := false, interrupted := false,
        lastPreviewId := None)
    {
      media, editingField, mediaEditedFlag, interrupted, lastPreviewId := [], None, false, false, None;
    }

    /** `show_preview`, for its effect on the session; `sentId` is the id of the message the
        bot sends with the action buttons. */
    method ShowPreview(u: User, sentId: int) returns (next: State, prompt: string)
      requires Valid()
      modifies this
      ensures Valid()
      ensures Snap() == Previewed(old(Snap()), u, sentId)
      ensures next == Preview && prompt == "preview_confirm_prompt"
    {
      GetCommonData(u);
      if lastPreviewId.Some? && lastPreviewId.value != 0 {
        lastPreviewId := None;
      }
      lastPreviewId := Some(sentId);
      mediaEditedFlag := false;
      next, prompt := Preview, "preview_confirm_prompt";
    }

    /** `_handle_text_input`: text that is empty once stripped writes nothing and re-asks;
        otherwise the stripped text is stored under the step's field, and the handler goes
        to the preview, consuming the flag, exactly when the field was being edited, and to
        the step's next state with the flag untouched otherwise. */
    method HandleTextInput(t: Step, reask: State, text: string, u: User, sentId: int)
      returns (next: State, prompt: string)
      requires Valid()
      modifies this
      ensures Valid()
      ensures Strip(text) == [] ==> Snap() == old(Snap()) && next == reask && prompt == "invalid_input"
      ensures Strip(text) != [] && old(editingField) == Some(t.field) ==>
        && next == Preview
        && Snap() == Previewed(old(Snap()).(catData := old(catData)[t.field := Some(Strip(text))], editingField := None), u, sentId)
      ensures Strip(text) != [] && old(editingField) != Some(t.field) ==>
        && next == t.next && prompt == t.question
        && Snap() == old(Snap()).(catData := old(catData)[t.field := Some(Strip(text))])
    {
      next, prompt := StoreStepAnswer(t, reask, Strip(text), u, sentId);
    }

    /** The stripped answer's emptiness check and store. */
    method StoreStepAnswer(t: Step, reask: State, value: string, u: User, sentId: int)
      returns (next: State, prompt: string)
      requires Valid()
      modifies this
      ensures Valid()
      ensures value == [] ==> Snap() == old(Snap()) && next == reask && prompt == "invalid_input"
      ensures value != [] && old(editingField) == Some(t.field) ==>
        && next == Preview
        && Snap() == Previewed(old(Snap()).(catData := old(catData)[t.field := Some(value)], editingField := None), u, sentId)
      ensures value != [] && old(editingField) != Some(t.field) ==>
        && next == t.next && prompt == t.question
        && Snap() == old(Snap()).(catData := old(catData)[t.field := Some(value)])
    {
      if value == [] {
        return reask, "invalid_input";
      }
      catData := catData[t.field := Some(value)];
      if editingField == Some(t.field) {
        editingField := None;
        next, prompt := ShowPreview(u, sentId);
        return;
      }
      next, prompt := t.next, t.question;
    }

    /** `_handle_skip_field`: the field named in the payload is set to `None`, and the
        handler moves on to the step's next state even while a field is being edited. */
    method HandleSkipField(t: Step, data: string) returns (next: State, prompt: string)
      requires SKIP_FIELD_CALLBACK_PREFIX <= data
      requires Valid()
      modifies this
      ensures Valid()
      ensures Snap() == old(Snap()).(catData := old(catData)[AfterPrefix(data, SKIP_FIELD_CALLBACK_PREFIX) := None])
      ensures next == t.next && prompt == t.question
    {
      var key := AfterPrefix(data, SKIP_FIELD_CALLBACK_PREFIX);
      catData := catData[key := None];
      next, prompt := t.next, t.question;
    }

    /** `ask_category`: fills in the common data and asks for the category. */
    method AskCategory(u: User) returns (next: State, prompt: string)
      requires Valid()
      modifies this
      ensures Valid() && Snap() == WithCommonData(old(Snap()), u)
      ensures next == CategorySelect && prompt == "choose_category"
    {
      GetCommonData(u);
      next, prompt := CategorySelect, "choose_category";
    }

    /** `start_command`: every draft is dropped (the identity, language and stored
        preference stay). A supported stored language becomes the session's language and
        the user is asked for a category; otherwise the user is asked for a language. */
    method StartCommand(u: User, store: DB.Store) returns (next: State, prompt: string)
      requires Valid()
      modifies this
      ensures Valid() && !InAdFlow(Snap())
      ensures var c := Cleared(WithCommonData(old(Snap()), u));
        var pref := store.PrefLang(u.id);
        if pref.Some? && pref.value in Config.SUPPORTED_LANGUAGES then
          Snap() == c.(lang := pref, dbPrefLang := pref) && next == CategorySelect && prompt == "choose_category"
        else
          Snap() == c && next == LangSelect && prompt == "welcome"
    {
      GetCommonData(u);
      if Truthy(category) || |catData| > 0 {
        ClearUserDataForNewPost();
      }
      ClearUserDataForNewPost();
      ghost var c := Snap();
      assert c == Cleared(WithCommonData(old(Snap()), u));
      var pref := store.PrefLang(u.id);
      if pref.Some? && pref.value != "" && pref.value in Config.SUPPORTED_LANGUAGES {
        lang, dbPrefLang := pref, pref;
        assert Snap() == c.(lang := pref, dbPrefLang := pref);
        next, prompt := AskCategory(u);
        return;
      }
      next, prompt := LangSelect, "welcome";
    }

    /** `handle_language_selection`: an unsupported code ends the conversation and changes
        nothing; a supported one becomes the session's language and the stored preference,
        and the user is asked for a category. */
    method HandleLanguageSelection(u: User, data: string, store: DB.Store) returns (next: State, prompt: string)
      requires LANG_CALLBACK_PREFIX <= data
      requires Valid() && store.Valid()
      modifies this, store
      ensures Valid() && store.Valid()
      ensures var code := AfterPrefix(data, LANG_CALLBACK_PREFIX);
        if code in Config.SUPPORTED_LANGUAGES then
          && Snap() == WithCommonData(old(Snap()).(lang := Some(code)), u)
          && store.PrefLang(u.id) == Some(code) && store.posts == old(store.posts)
          && store.users == old(store.users)[u.id := DB.UserRow(code, u.firstName, u.username)]
          && store.nextId == old(store.nextId)
          && next == CategorySelect && prompt == "choose_category"
        else
          Snap() == old(Snap()) && unchanged(store) && next == End && prompt == "general_error"
    {
      var code := AfterPrefix(data, LANG_CALLBACK_PREFIX);
      if code !in Config.SUPPORTED_LANGUAGES {
        return End, "general_error";
      }
      lang := Some(code);
      store.SetUserPrefLang(u.id, code, u.firstName, u.username);
      next, prompt := AskCategory(u);
    }

    /** `language_command`: marks the ad as interrupted when a category is chosen or some
        category field is written, and asks for the new language. */
    method LanguageCommand(u: User) returns (next: State, prompt: string)
      requires Valid()
      modifies this
      ensures Valid()
      ensures var d := WithCommonData(old(Snap()), u);
        Snap() == (if InAdFlow(d) then d.(interrupted := true) else d)
      ensures next == ChangeLangPrompt && prompt == "change_language_prompt"
    {
      GetCommonData(u);
      if Truthy(category) || |catData| > 0 {
        interrupted := true;
      }
      next, prompt := ChangeLangPrompt, "change_language_prompt";
    }

    /** `handle_language_change_selection`: an unsupported code ends the language
        conversation and changes nothing; a supported one is stored, and the ad is wiped
        exactly when it had been interrupted. */
    method HandleLanguageChangeSelection(u: User, data: string, store: DB.Store) returns (next: State, prompt: string)
      requires LANG_CHANGE_CALLBACK_PREFIX <= data
      requires Valid() && store.Valid()
      modifies this, store
      ensures Valid() && store.Valid() && next == End
      ensures AfterPrefix(data, LANG_CHANGE_CALLBACK_PREFIX) !in Config.SUPPORTED_LANGUAGES ==>
        Snap() == old(Snap()) && unchanged(store) && prompt == "general_error"
      ensures var code := AfterPrefix(data, LANG_CHANGE_CALLBACK_PREFIX);
        code in Config.SUPPORTED_LANGUAGES ==>
          && Snap() == LanguageChanged(old(Snap()), code)
          && store.PrefLang(u.id) == Some(code) && store.posts == old(store.posts)
          && store.users == old(store.users)[u.id := DB.UserRow(code, u.firstName, u.username)]
          && store.nextId == old(store.nextId)
          && prompt == (if old(interrupted) then "language_changed_success" else "lang_chosen")
    {
      var code := AfterPrefix(data, LANG_CHANGE_CALLBACK_PREFIX);
      if code !in Config.SUPPORTED_LANGUAGES {
        return End, "general_error";
      }
      store.SetUserPrefLang(u.id, code, u.firstName, u.username);
      var wasInterrupted := interrupted;
      lang, interrupted := Some(code), false;
      assert Snap() == old(Snap()).(lang := Some(code), interrupted := false);
      if wasInterrupted {
        prompt := "language_changed_success";
        DropAdKeys();
      } else {
        prompt := "lang_chosen";
      }
      next := End;
    }

    /** The ad keys a language change drops: category, common fields, flags and the
        preview id, with empty collections in place of the old ones. */
    method DropAdKeys()
      modifies this
      ensures Valid()
      ensures Snap() == old(Snap()).(category := None, price := None, location := None, description := None,
        editingField := None, lastPreviewId := None, mediaEditedFlag := false, catData := map[], media := [])
    {
      DropAnswers();
      editingField, lastPreviewId, mediaEditedFlag, media := None, None, false, [];
    }

    /** `cancel_conversation`: the draft is dropped and the conversation ends. */
    method CancelConversation(u: User) returns (next: State, prompt: string)
      requires Valid()
      modifies this
      ensures Valid() && Snap() == Cleared(WithCommonData(old(Snap()), u))
      ensures next == End && prompt == "post_cancelled"
    {
      GetCommonData(u);
      interrupted := false;
      ClearUserDataForNewPost();
      next, prompt := End, "post_cancelled";
    }

    /** `timeout_conversation`: the draft is dropped and the conversation ends. */
    method TimeoutConversation() returns (next: State, prompt: string)
      requires Valid()
      modifies this
      ensures Valid() && Snap() == Cleared(old(Snap()))
      ensures next == End && prompt == "timeout_message"
    {
      ClearUserDataForNewPost();
      next, prompt := End, "timeout_message";
    }

    /** `handle_category_selection`: an unknown key ends the conversation and changes
        nothing; a known key becomes the category, the category data is reset to empty, and
        the branch of that category starts at its first field. */
    method HandleCategorySelection(u: User, data: string) returns (next: State, prompt: string)
      requires CATEGORY_CALLBACK_PREFIX <= data
      requires Valid()
      modifies this
      ensures Valid()
      ensures var key := AfterPrefix(data, CATEGORY_CALLBACK_PREFIX);
        if key in Config.CATEGORY_KEYS then
          && Snap() == WithCommonData(old(Snap()), u).(category := Some(key), catData := map[])
          && next == BranchStart(key) && prompt == BranchQuestion(key)
        else
          Snap() == old(Snap()) && next == End && prompt == "general_error"
    {
      var key := AfterPrefix(data, CATEGORY_CALLBACK_PREFIX);
      if key !in Config.CATEGORY_KEYS {
        return End, "general_error";
      }
      GetCommonData(u);
      category := Some(key);
      catData := map[];
      if key == "cars" {
        next, prompt := CarMakeModel, "ask_car_make_model";
      } else if key == "houses" {
        next, prompt := HousePropertyType, "ask_house_property_type";
      } else if key == "animals" {
        next, prompt := AnimalType, "ask_animal_type";
      } else {
        next, prompt := OtherItemName, "ask_other_item_name";
      }
    }

    /** `handle_house_property_type`: stores the localized name of the chosen type and moves
        on to the rooms, whether or not the field was being edited. */
    method HandleHousePropertyType(data: string, table: L.Table) returns (next: State, prompt: string)
      requires PROPERTY_TYPE_CALLBACK_PREFIX <= data
      requires Valid()
      modifies this
      ensures Valid()
      ensures "house_property_type" in catData
      ensures var v := catData["house_property_type"];
        && Snap() == old(Snap()).(catData := old(catData)["house_property_type" := v])
        && v.Some?
        && v == L.GetText(table, "property_type_" + AfterPrefix(data, PROPERTY_TYPE_CALLBACK_PREFIX), L.GetUserLang(old(lang)), map[])
      ensures next == HouseRooms && prompt == "ask_house_rooms"
    {
      var choice := AfterPrefix(data, PROPERTY_TYPE_CALLBACK_PREFIX);
      var key := "property_type_" + choice;
      L.NotDefaultedByLeadingLetters(key);
      catData := catData["house_property_type" := Some(L.GetText(table, key, L.GetUserLang(lang), map[]).value)];
      next, prompt := HouseRooms, "ask_house_rooms";
    }

    /** `handle_animal_type`: empty input re-asks; otherwise the stripped text is stored and
        the breed is asked next, whether or not the field was being edited. */
    method HandleAnimalType(text: string) returns (next: State, prompt: string)
      requires Valid()
      modifies this
      ensures Valid()
      ensures Strip(text) == [] ==> Snap() == old(Snap()) && next == AnimalType && prompt == "invalid_input"
      ensures Strip(text) != [] ==>
        && Snap() == old(Snap()).(catData := old(catData)["animal_type" := Some(Strip(text))])
        && next == AnimalBreed && prompt == "ask_animal_breed"
    {
      var value := Strip(text);
      if value == [] {
        return AnimalType, "invalid_input";
      }
      catData := catData["animal_type" := Some(value)];
      next, prompt := AnimalBreed, "ask_animal_breed";
    }

    /** `handle_animal_age`: empty input re-asks; otherwise the stripped text is stored and
        the sex is asked next, whether or not the field was being edited. */
    method HandleAnimalAge(text: string) returns (next: State, prompt: string)
      requires Valid()
      modifies this
      ensures Valid()
      ensures Strip(text) == [] ==> Snap() == old(Snap()) && next == AnimalAge && prompt == "invalid_input"
      ensures Strip(text) != [] ==>
        && Snap() == old(Snap()).(catData := old(catData)["animal_age" := Some(Strip(text))])
        && next == AnimalSex && prompt == "ask_animal_sex"
    {
      var value := Strip(text);
      if value == [] {
        return AnimalAge, "invalid_input";
      }
      catData := catData["animal_age" := Some(value)];
      next, prompt := AnimalSex, "ask_animal_sex";
    }

    /** `handle_animal_sex`: stores the localized name of the chosen sex and moves on to the
        price, whether or not the field was being edited. */
    method HandleAnimalSex(data: string, table: L.Table) returns (next: State, prompt: string)
      requires ANIMAL_SEX_CALLBACK_PREFIX <= data
      requires Valid()
      modifies this
      ensures Valid()
      ensures "animal_sex" in catData
      ensures var v := catData["animal_sex"];
        && Snap() == old(Snap()).(catData := old(catData)["animal_sex" := v])
        && v.Some?
        && v == L.GetText(table, "animal_sex_" + AfterPrefix(data, ANIMAL_SEX_CALLBACK_PREFIX), L.GetUserLang(old(lang)), map[])
      ensures next == AskPrice && prompt == "ask_price"
    {
      var choice := AfterPrefix(data, ANIMAL_SEX_CALLBACK_PREFIX);
      var key := "animal_sex_" + choice;
      L.NotDefaultedByLeadingLetters(key);
      catData := catData["animal_sex" := Some(L.GetText(table, key, L.GetUserLang(lang), map[]).value)];
      next, prompt := AskPrice, "ask_price";
    }

    /** The part the price, location and description handlers share once the value is
        stored: the editing flag is removed whatever it named, and the handler shows the
        preview exactly when the flag named `field`, and asks `question` in `next` otherwise. */
    method FinishCommonField(field: string, next: State, question: string, u: User, sentId: int)
      returns (next': State, prompt: string)
      requires Valid()
      modifies this
      ensures Valid()
      ensures var d := old(Snap()).(editingField := None);
        if old(editingField) == Some(field) then next' == Preview && Snap() == Previewed(d, u, sentId)
        else next' == next && prompt == question && Snap() == d
    {
      var popped := editingField;
      editingField := None;
      if popped == Some(field) {
        next', prompt := ShowPreview(u, sentId);
        return;
      }
      next', prompt := next, question;
    }

    /** `handle_ask_price`: a price without a digit is rejected; an accepted one is stored,
        the editing flag is removed whatever it named, and the handler goes to the preview
        exactly when the flag named the price. */
    method HandleAskPrice(text: string, u: User, sentId: int) returns (next: State, prompt: string)
      requires Valid()
      modifies this
      ensures Valid()
      ensures !HasDigit(Strip(text)) ==> Snap() == old(Snap()) && next == AskPrice && prompt == "price_invalid"
      ensures HasDigit(Strip(text)) ==>
        var d := old(Snap()).(price := Some(Strip(text)), editingField := None);
        if old(editingField) == Some("price") then next == Preview && Snap() == Previewed(d, u, sentId)
        else next == AskLocation && prompt == "ask_location" && Snap() == d
    {
      next, prompt := StorePrice(Strip(text), u, sentId);
    }

    /** The stripped price's digit check and store. */
    method StorePrice(value: string, u: User, sentId: int) returns (next: State, prompt: string)
      requires Valid()
      modifies this
      ensures Valid()
      ensures !HasDigit(value) ==> Snap() == old(Snap()) && next == AskPrice && prompt == "price_invalid"
      ensures HasDigit(value) ==>
        var d := old(Snap()).(price := Some(value), editingField := None);
        if old(editingField) == Some("price") then next == Preview && Snap() == Previewed(d, u, sentId)
        else next == AskLocation && prompt == "ask_location" && Snap() == d
    {
      if !HasDigit(value) {
        return AskPrice, "price_invalid";
      }
      price := Some(value);
      next, prompt := FinishCommonField("price", AskLocation, "ask_location", u, sentId);
    }

    /** `handle_ask_location`: an empty location is rejected; an accepted one is stored, the
        editing flag is removed, and the handler goes to the preview exactly when the flag
        named the location. */
    method HandleAskLocation(text: string, u: User, sentId: int) returns (next: State, prompt: string)
      requires Valid()
      modifies this
      ensures Valid()
      ensures Strip(text) == [] ==> Snap() == old(Snap()) && next == AskLocation && prompt == "invalid_input"
      ensures Strip(text) != [] ==>
        var d := old(Snap()).(location := Some(Strip(text)), editingField := None);
        if old(editingField) == Some("location") then next == Preview && Snap() == Previewed(d, u, sentId)
        else next == AskDescription && prompt == "ask_description" && Snap() == d
    {
      next, prompt := StoreLocation(Strip(text), u, sentId);
    }

    /** The stripped location's emptiness check and store. */
    method StoreLocation(value: string, u: User, sentId: int) returns (next: State, prompt: string)
      requires Valid()
      modifies this
      ensures Valid()
      ensures value == [] ==> Snap() == old(Snap()) && next == AskLocation && prompt == "invalid_input"
      ensures value != [] ==>
        var d := old(Snap()).(location := Some(value), editingField := None);
        if old(editingField) == Some("location") then next == Preview && Snap() == Previewed(d, u, sentId)
        else next == AskDescription && prompt == "ask_description" && Snap() == d
    {
      if value == [] {
        return AskLocation, "invalid_input";
      }
      location := Some(value);
      next, prompt := FinishCommonField("location", AskDescription, "ask_description", u, sentId);
    }

    /** `handle_ask_description`: a description longer than the maximum is rejected; any
        other, the empty one included, is stored, the editing flag is removed, and the
        handler goes to the preview exactly when the flag named the description. */
    method HandleAskDescription(text: string, u: User, sentId: int) returns (next: State, prompt: string)
      requires Valid()
      modifies this
      ensures Valid()
      ensures |Strip(text)| > Config.MAX_DESCRIPTION_LENGTH ==>
        Snap() == old(Snap()) && next == AskDescription && prompt == "description_too_long"
      ensures |Strip(text)| <= Config.MAX_DESCRIPTION_LENGTH ==>
        var d := old(Snap()).(description := Some(Some(Strip(text))), editingField := None);
        if old(editingField) == Some("description") then next == Preview && Snap() == Previewed(d, u, sentId)
        else next == AskMedia && prompt == "ask_media" && Snap() == d
    {
      next, prompt := StoreDescription(Strip(text), u, sentId);
    }

    /** The stripped description's length check and store. */
    method StoreDescription(value: string, u: User, sentId: int) returns (next: State, prompt: string)
      requires Valid()
      modifies this
      ensures Valid()
      ensures |value| > Config.MAX_DESCRIPTION_LENGTH ==>
        Snap() == old(Snap()) && next == AskDescription && prompt == "description_too_long"
      ensures |value| <= Config.MAX_DESCRIPTION_LENGTH ==>
        var d := old(Snap()).(description := Some(Some(value)), editingField := None);
        if old(editingField) == Some("description") then next == Preview && Snap() == Previewed(d, u, sentId)
        else next == AskMedia && prompt == "ask_media" && Snap() == d
    {
      if |value| > Config.MAX_DESCRIPTION_LENGTH {
        return AskDescription, "description_too_long";
      }
      description := Some(Some(value));
      next, prompt := FinishCommonField("description", AskMedia, "ask_media", u, sentId);
    }

    /** `handle_skip_generic_description`: the description is set to `None`, the editing
        flag is removed, and the handler goes to the preview exactly when the flag named the
        description. */
    method HandleSkipGenericDescription(u: User, sentId: int) returns (next: State, prompt: string)
      requires Valid()
      modifies this
      ensures Valid()
      ensures var d := old(Snap()).(description := Some(None), editingField := None);
        if old(editingField) == Some("description") then next == Preview && Snap() == Previewed(d, u, sentId)
        else next == AskMedia && prompt == "ask_media" && Snap() == d
    {
      description := Some(None);
      next, prompt := FinishCommonField("description", AskMedia, "ask_media", u, sentId);
    }

    /** `handle_ask_media_files`: at the cap the list is left alone; below it the item is
        appended unless its file id is empty or already in the list. The handler always
        stays in the media step. */
    method HandleAskMediaFiles(u: User, item: MediaItem) returns (next: State, prompt: string)
      requires Valid()
      modifies this
      ensures Valid() && next == AskMedia
      ensures |old(media)| >= Config.MAX_MEDIA_ITEMS ==>
        Snap() == WithCommonData(old(Snap()), u) && prompt == "max_media_reached"
      ensures |old(media)| < Config.MAX_MEDIA_ITEMS ==>
        && Snap() == WithCommonData(old(Snap()), u).(media := media)
        && media == (if item.fileId != "" && !HasFileId(old(media), item.fileId) then old(media) + [item] else old(media))
        && prompt == (if |media| < Config.MAX_MEDIA_ITEMS then "media_received" else "max_media_reached")
    {
      GetCommonData(u);
      if |media| >= Config.MAX_MEDIA_ITEMS {
        return AskMedia, "max_media_reached";
      }
      if item.fileId != "" && !HasFileId(media, item.fileId) {
        media := media + [item];
      }
      prompt := if |media| < Config.MAX_MEDIA_ITEMS then "media_received" else "max_media_reached";
      next := AskMedia;
    }

    /** `handle_done_media_upload`: with no media the handler stays in the media step;
        otherwise it shows the preview. */
    method HandleDoneMediaUpload(u: User, sentId: int) returns (next: State, prompt: string)
      requires Valid()
      modifies this
      ensures Valid()
      ensures old(media) == [] ==>
        Snap() == WithCommonData(old(Snap()), u) && next == AskMedia && prompt == "no_media_uploaded_error"
      ensures old(media) != [] ==> Snap() == Previewed(old(Snap()), u, sentId) && next == Preview
    {
      GetCommonData(u);
      if media == [] {
        return AskMedia, "no_media_uploaded_error";
      }
      next, prompt := ShowPreview(u, sentId);
    }

    /** `handle_clear_all_media`: the list is emptied and the handler stays in the media step. */
    method HandleClearAllMedia(u: User) returns (next: State, prompt: string)
      requires Valid()
      modifies this
      ensures Valid()
      ensures Snap() == WithCommonData(old(Snap()), u).(media := [])
      ensures next == AskMedia && prompt == "ask_media"
    {
      GetCommonData(u);
      media := [];
      next, prompt := AskMedia, "ask_media";
    }

    /** `handle_back_to_preview`: shows the preview again; no field changes. */
    method HandleBackToPreview(u: User, sentId: int) returns (next: State, prompt: string)
      requires Valid()
      modifies this
      ensures Valid()
      ensures Snap() == Previewed(old(Snap()), u, sentId) && next == Preview
    {
      next, prompt := ShowPreview(u, sentId);
    }

    /** `ask_edit_choice`: one button per offered field, common fields first, labelled in
        the language the session had before the common data was filled in. With no field
        to offer, the preview is shown again. */
    method AskEditChoice(u: User, table: L.Table, sentId: int) returns (next: State, prompt: string, buttons: seq<EditButton>)
      requires Valid()
      modifies this
      ensures Valid()
      ensures var d := WithCommonData(old(Snap()), u);
        && buttons == MenuButtons(table, L.GetUserLang(old(lang)), d)
        && (if OfferedFields(d) == [] then Snap() == Previewed(d, u, sentId) && next == Preview && prompt == "preview_confirm_prompt"
            else Snap() == d && next == EditChoice && prompt == "edit_choice_prompt")
    {
      var labelLang := L.GetUserLang(lang);
      GetCommonData(u);
      var d := Snap();
      var commonButtons := CollectButtons(table, labelLang, d, COMMON_FIELD_ORDER, true);
      var categoryButtons := CollectButtons(table, labelLang, d, MenuCategoryFields(d), false);
      buttons := commonButtons + categoryButtons;
      MenuButtonsRoundTrip(table, labelLang, d);
      if buttons == [] {
        WithCommonDataIdempotent(old(Snap()), u, u);
        next, prompt := ShowPreview(u, sentId);
        return;
      }
      next, prompt := EditChoice, "edit_choice_prompt";
    }

    /** `handle_edit_field_selection`: the chosen field becomes the field being edited (the
        media list is also emptied and marked as edited), and its collecting state asks for
        it again; a key with no target stays in the menu with an error. */
    method HandleEditFieldSelection(data: string) returns (next: State, prompt: string)
      requires EDIT_FIELD_CALLBACK_PREFIX <= data
      requires Valid()
      modifies this
      ensures Valid()
      ensures var key := AfterPrefix(data, EDIT_FIELD_CALLBACK_PREFIX);
        && Snap() == (if key == "media" then old(Snap()).(editingField := Some(key), media := [], mediaEditedFlag := true)
                      else old(Snap()).(editingField := Some(key)))
        && next == EditTarget(old(Snap()), key).GetOr(EditChoice)
        && prompt == (if EditTarget(old(Snap()), key).Some? then "ask_" + key else "general_error")
    {
      var key := AfterPrefix(data, EDIT_FIELD_CALLBACK_PREFIX);
      var target := LookUpEditTarget(key);
      MarkEditing(key);
      if target.Some? {
        return target.value, "ask_" + key;
      }
      next, prompt := EditChoice, "general_error";
    }

    /** The common map first, then the map of the current category. */
    method LookUpEditTarget(key: string) returns (target: Option<State>)
      ensures target == EditTarget(Snap(), key)
    {
      if key in EDITABLE_FIELDS_COMMON {
        return Some(EDITABLE_FIELDS_COMMON[key]);
      }
      if Truthy(category) && category.value in EDITABLE_FIELDS_CATEGORY {
        var fieldsOfCategory := EDITABLE_FIELDS_CATEGORY[category.value];
        if key in fieldsOfCategory {
          return Some(fieldsOfCategory[key]);
        }
      }
      return None;
    }

    /** The key becomes the field being edited; editing the media starts an empty list. */
    method MarkEditing(key: string)
      requires Valid()
      modifies this
      ensures Valid()
      ensures Snap() == if key == "media" then old(Snap()).(editingField := Some(key), media := [], mediaEditedFlag := true)
                        else old(Snap()).(editingField := Some(key))
    {
      editingField := Some(key);
      if key == "media" {
        mediaEditedFlag, media := true, [];
      }
    }

    /** The post branch of `handle_preview_action`, once the common data is filled in. */
    method PostAd(store: DB.Store, table: L.Table, feed: FeedResult, notifyFails: bool, isChannel: bool)
      returns (next: State, prompt: string, effects: seq<Effect>)
      requires Valid() && store.Valid()
      modifies this, store
      ensures Valid() && store.Valid()
      ensures old(category).None? ==>
        Snap() == old(Snap()) && unchanged(store) && next == Preview && prompt == "" && effects == []
      ensures old(category).Some? && old(user).Some? ==>
        var d, id := old(Snap()), old(store.nextId);
        && Snap() == Cleared(d) && next == End
        && store.nextId == id + 1 && store.users == old(store.users)
        && id !in old(store.posts)
        && store.posts == old(store.posts)[id := DB.NewRecord(d).(
             status := FinalStatus(feed, notifyFails), channelMessageId := FinalMessageId(feed, None))]
        && effects == [Saved(id), Sent(MF.FormatFinalPost(table, d), d.media)] + StatusWrites(id, feed, notifyFails)
        && prompt == OutcomeMessage(feed, notifyFails, isChannel)
    {
      var saved;
      saved, prompt, effects := SaveAndPublish(store, Snap(), table, feed, notifyFails, isChannel);
      if !saved {
        return Preview, "", [];
      }
      ClearUserDataForNewPost();
      next := End;
    }

    /** `handle_preview_action`. Posting saves the record, hands the ad to the feed, records
        the outcome and resets the session; a session without a category makes the save
        raise, which leaves the session filled in, the store untouched and the conversation
        in the preview. Editing opens the edit menu; cancelling resets the session and ends. */
    method HandlePreviewAction(data: string, u: User, store: DB.Store, table: L.Table, feed: FeedResult,
                               notifyFails: bool, isChannel: bool, sentId: int)
      returns (next: State, prompt: string, buttons: seq<EditButton>, effects: seq<Effect>)
      requires ACTION_CALLBACK_PREFIX <= data
      requires Valid() && store.Valid()
      modifies this, store
      ensures Valid() && store.Valid()
      ensures var action, d := AfterPrefix(data, ACTION_CALLBACK_PREFIX), WithCommonData(old(Snap()), u);
        action == ACTION_POST && d.category.None? ==>
          Snap() == d && unchanged(store) && next == Preview && prompt == "" && buttons == [] && effects == []
      ensures var action, d := AfterPrefix(data, ACTION_CALLBACK_PREFIX), WithCommonData(old(Snap()), u);
        action == ACTION_POST && d.category.Some? ==>
          var id := old(store.nextId);
          && Snap() == Cleared(d) && next == End && buttons == []
          && store.nextId == id + 1 && store.users == old(store.users)
          && id !in old(store.posts)
          && store.posts == old(store.posts)[id := DB.NewRecord(d).(
               status := FinalStatus(feed, notifyFails), channelMessageId := FinalMessageId(feed, None))]
          && effects == [Saved(id), Sent(MF.FormatFinalPost(table, d), d.media)] + StatusWrites(id, feed, notifyFails)
          && prompt == OutcomeMessage(feed, notifyFails, isChannel)
      ensures var action, d := AfterPrefix(data, ACTION_CALLBACK_PREFIX), WithCommonData(old(Snap()), u);
        action == ACTION_EDIT ==>
          && unchanged(store) && effects == []
          && buttons == MenuButtons(table, L.GetUserLang(d.lang), d)
          && (if OfferedFields(d) == [] then Snap() == Previewed(d, u, sentId) && next == Preview
              else Snap() == d && next == EditChoice && prompt == "edit_choice_prompt")
      ensures var action, d := AfterPrefix(data, ACTION_CALLBACK_PREFIX), WithCommonData(old(Snap()), u);
        action == ACTION_CANCEL ==>
          Snap() == Cleared(d) && unchanged(store) && next == End && prompt == "post_cancelled" && buttons == [] && effects == []
      ensures var action, d := AfterPrefix(data, ACTION_CALLBACK_PREFIX), WithCommonData(old(Snap()), u);
        action != ACTION_POST && action != ACTION_EDIT && action != ACTION_CANCEL ==>
          Snap() == d && unchanged(store) && next == Preview && prompt == "" && buttons == [] && effects == []
    {
      var action := AfterPrefix(data, ACTION_CALLBACK_PREFIX);
      GetCommonData(u);
      buttons, effects := [], [];
      if action == ACTION_POST {
        next, prompt, effects := PostAd(store, table, feed, notifyFails, isChannel);
      } else if action == ACTION_EDIT {
        WithCommonDataIdempotent(old(Snap()), u, u);
        next, prompt, buttons := AskEditChoice(u, table, sentId);
      } else if action == ACTION_CANCEL {
        ClearUserDataForNewPost();
        next, prompt := End, "post_cancelled";
      } else {
        next, prompt := Preview, "";
      }
    }
}
}

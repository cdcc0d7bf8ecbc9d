/** Walk-throughs of the ad-posting conversation: each drives one session and one store
    through a sequence of handlers and states the conversation state, the draft and the
    stored posts it ends with. */
module Scenarios {
  import opened Wrappers
  import opened Strings
  import opened UserData
  import opened Constants
  import L = Localization
  import MF = MessageFormatter
  import DB = Database
  import opened ConversationFlow
  import opened Dispatch

  const SELLER: User := User(42, "Sam", None)

  /** A session whose user has chosen English and has no ad in progress. */
  const READY: UserData := EMPTY.(lang := Some("en"), user := Some(SELLER))

  /** A typed answer that `strip()` leaves as it is. */
  predicate Clean(s: string) {
    s != [] && !IsSpace(s[0]) && !IsSpace(s[|s| - 1])
  }

  /** The answers of a car ad: make and model, mileage, price, location and one photo;
      the year and the description are skipped. */
  datatype CarAnswers = CarAnswers(makeModel: string, mileage: string, price: string, location: string, photo: MediaItem)

  /** Answers every step accepts as given. */
  predicate Acceptable(a: CarAnswers) {
    Clean(a.makeModel) && Clean(a.mileage) && Clean(a.price) && HasDigit(a.price) && Clean(a.location)
    && a.photo.fileId != ""
  }

  /** The answers of the first walk-through. */
  const TOYOTA: CarAnswers := CarAnswers("Toyota Camry", "55000 km", "$15000", "Tashkent", MediaItem(Photo, "photo-1"))

  /** The car fields the answers fill in: the year is recorded as skipped. */
  function CarData(a: CarAnswers): map<string, Option<string>> {
    map["car_make_model" := Some(a.makeModel), "car_year" := None, "car_mileage" := Some(a.mileage)]
  }

  /** The draft the answers build, once the preview with id `previewId` shows it. */
  function CarDraft(a: CarAnswers, previewId: int): (d: UserData)
    requires Acceptable(a)
    ensures d.category == Some("cars") && MediaWellFormed(d.media)
  {
    READY.(category := Some("cars"), catData := CarData(a), price := Some(a.price),
           location := Some(a.location), description := Some(None), media := [a.photo],
           lastPreviewId := Some(previewId))
  }

  /** A session holding `d`. */
  method SessionWith(d: UserData) returns (session: Session)
    requires MediaWellFormed(d.media)
    ensures fresh(session) && session.Valid() && session.Snap() == d
  {
    session := new Session();
    session.Load(d);
  }

  /** `prefix + key` is a payload the handlers read back as `key`; `c` is a character of
      the prefix that the key lacks. */
  lemma PayloadReadsBack(prefix: string, key: string, c: char)
    requires c in prefix && c !in key
    ensures prefix <= prefix + key && AfterPrefix(prefix + key, prefix) == key
  {
    NoOccurrenceWithoutChar(key, prefix, c);
    AfterPrefixOfJoined(prefix, key);
  }

  // ---- Walk-through A: a car ad up to its preview ----

  /** The category `cars`, then a make and model. */
  method ChooseCarAndModel(session: Session, a: CarAnswers) returns (next: State)
    requires Acceptable(a)
    requires session.Valid() && session.Snap() == READY
    modifies session
    ensures session.Valid() && next == CarYear
    ensures session.Snap() == READY.(category := Some("cars"), catData := map["car_make_model" := Some(a.makeModel)])
  {
    var prompt;
    PayloadReadsBack(CATEGORY_CALLBACK_PREFIX, "cars", '_');
    next, prompt := session.HandleCategorySelection(SELLER, CATEGORY_CALLBACK_PREFIX + "cars");
    assert next == CarMakeModel;
    next, prompt := session.HandleTextInput(TextStepOf(CarMakeModel).value, CarMakeModel, a.makeModel, SELLER, 0);
  }

  /** The year skipped, then a mileage. */
  method SkipYearGiveMileage(session: Session, a: CarAnswers) returns (next: State)
    requires Acceptable(a)
    requires session.Valid()
    requires session.Snap() == READY.(category := Some("cars"), catData := map["car_make_model" := Some(a.makeModel)])
    modifies session
    ensures session.Valid() && next == AskPrice
    ensures session.Snap() == READY.(category := Some("cars"), catData := CarData(a))
  {
    SkipYear(session, a.makeModel);
    var prompt;
    next, prompt := session.HandleTextInput(TextStepOf(CarMileage).value, CarMileage, a.mileage, SELLER, 0);
  }

  /** The year skipped after the make and model `makeModel`. */
  method SkipYear(session: Session, makeModel: string)
    requires session.Valid()
    requires session.Snap() == READY.(category := Some("cars"), catData := map["car_make_model" := Some(makeModel)])
    modifies session
    ensures session.Valid()
    ensures session.Snap() == READY.(category := Some("cars"),
      catData := map["car_make_model" := Some(makeModel), "car_year" := None])
  {
    var next, prompt;
    PayloadReadsBack(SKIP_FIELD_CALLBACK_PREFIX, "car_year", 'f');
    next, prompt := session.HandleSkipField(SkipStepOf(CarYear).value, SKIP_FIELD_CALLBACK_PREFIX + "car_year");
  }

  /** A price, then a location. */
  method GivePriceAndLocation(session: Session, a: CarAnswers) returns (next: State)
    requires Acceptable(a)
    requires session.Valid() && session.Snap() == READY.(category := Some("cars"), catData := CarData(a))
    modifies session
    ensures session.Valid() && next == AskDescription
    ensures session.Snap() == READY.(category := Some("cars"), catData := CarData(a), price := Some(a.price),
      location := Some(a.location))
  {
    var prompt;
    next, prompt := session.HandleAskPrice(a.price, SELLER, 0);
    assert next == AskLocation;
    next, prompt := session.HandleAskLocation(a.location, SELLER, 0);
  }

  /** The description skipped, then one photo. */
  method SkipDescriptionUploadPhoto(session: Session, a: CarAnswers) returns (next: State)
    requires Acceptable(a)
    requires session.Valid()
    requires session.Snap() == READY.(category := Some("cars"), catData := CarData(a), price := Some(a.price),
      location := Some(a.location))
    modifies session
    ensures session.Valid() && next == AskMedia
    ensures session.Snap() == CarDraft(a, 0).(lastPreviewId := None)
  {
    var prompt;
    next, prompt := session.HandleSkipGenericDescription(SELLER, 0);
    assert next == AskMedia;
    next, prompt := session.HandleAskMediaFiles(SELLER, a.photo);
  }

  /** Walk-through A: a car ad reaches the preview with every answer in place and the
      year and the description recorded as skipped. */
  method CarAdToPreview(a: CarAnswers) returns (next: State, draft: UserData)
    requires Acceptable(a)
    ensures next == Preview && draft == CarDraft(a, 100)
  {
    var session := SessionWith(READY);
    var prompt;
    next := ChooseCarAndModel(session, a);
    next := SkipYearGiveMileage(session, a);
    next := GivePriceAndLocation(session, a);
    next := SkipDescriptionUploadPhoto(session, a);
    next, prompt := session.HandleDoneMediaUpload(SELLER, 100);
    draft := session.Snap();
  }

  /** The answers of the first walk-through are accepted as typed. */
  lemma ToyotaAcceptable()
    ensures Acceptable(TOYOTA)
  {
    assert TOYOTA.price[1] == '1';
  }

  /** The preview of a car draft, section by section: the `cars` title in English, lines
      for the make and model and the mileage and none for the skipped year, the price and
      location lines, the no-description line and a one-item media summary. */
  lemma CarPreviewLines(a: CarAnswers, previewId: int)
    requires Acceptable(a)
    ensures var d := CarDraft(a, previewId);
      && MF.LangOf(d) == "en" && MF.CategoryOf(d) == "cars"
      && MF.CategoryLines("cars", d.catData) == [
           MF.Line(MF.Field("car_make_model"), map["value" := a.makeModel]),
           MF.Line(MF.Field("car_mileage"), map["value" := a.mileage])]
      && MF.OptionalLine("price", d.price) == [MF.Line(MF.Field("price"), map["value" := a.price])]
      && MF.OptionalLine("location", d.location) == [MF.Line(MF.Field("location"), map["value" := a.location])]
      && MF.DescriptionLine(d) == MF.Line(MF.NoDescription, map[])
      && MF.MediaLines(d.media) ==
           [MF.Line(MF.MediaInfo(if a.photo.kind == Photo then "photo" else "video"), map["count" := DecimalString(1)])]
  {
    CarShownFields(a);
    CarPhotoLine(a.photo);
  }

  /** A single item is summarised as one photo or one video. */
  lemma CarPhotoLine(item: MediaItem)
    ensures MF.MediaLines([item]) ==
      [MF.Line(MF.MediaInfo(if item.kind == Photo then "photo" else "video"), map["count" := DecimalString(1)])]
  {
    assert [item][1..] == [];
  }

  /** Of the car fields, the make and model and the mileage get a line; the skipped year
      does not. */
  lemma CarShownFields(a: CarAnswers)
    requires Acceptable(a)
    ensures MF.ShownFields(CategoryFieldOrder("cars"), CarData(a)) == ["car_make_model", "car_mileage"]
  {
    var data := CarData(a);
    assert !FieldTruthy(data, "car_year");
    assert MF.ShownFields(["car_mileage"], data) == ["car_mileage"];
    assert MF.ShownFields(["car_year", "car_mileage"], data) == ["car_mileage"];
  }

  // ---- Walk-through B: editing the price from the preview ----

  /** Walk-through B: from the preview of walk-through A, "Edit", then "Price", then a new
      price. The conversation is back in the preview with the new price and every other
      field as it was. */
  method EditPriceFromPreview(table: L.Table, store: DB.Store, a: CarAnswers, newPrice: string)
    returns (next: State, draft: UserData)
    requires Acceptable(a) && Clean(newPrice) && HasDigit(newPrice)
    requires store.Valid()
    modifies store
    ensures next == Preview && draft == CarDraft(a, 101).(price := Some(newPrice))
    ensures store.posts == old(store.posts)
  {
    var session := SessionWith(CarDraft(a, 100));
    next := OpenEditMenu(session, table, store, a);
    next := ReplacePrice(session, a, newPrice);
    draft := session.Snap();
  }

  /** From the edit menu: the price button, then the new price. */
  method ReplacePrice(session: Session, a: CarAnswers, newPrice: string) returns (next: State)
    requires Acceptable(a) && Clean(newPrice) && HasDigit(newPrice)
    requires session.Valid() && session.Snap() == CarDraft(a, 100)
    modifies session
    ensures next == Preview && session.Snap() == CarDraft(a, 101).(price := Some(newPrice))
  {
    var prompt;
    PayloadReadsBack(EDIT_FIELD_CALLBACK_PREFIX, "price", 'f');
    next, prompt := session.HandleEditFieldSelection(EDIT_FIELD_CALLBACK_PREFIX + "price");
    assert next == AskPrice && session.Snap() == CarDraft(a, 100).(editingField := Some("price"));
    next, prompt := session.HandleAskPrice(newPrice, SELLER, 101);
  }

  /** "Edit" on the preview of a car draft opens the edit menu and changes nothing. */
  method OpenEditMenu(session: Session, table: L.Table, store: DB.Store, a: CarAnswers) returns (next: State)
    requires Acceptable(a)
    requires session.Valid() && session.Snap() == CarDraft(a, 100) && store.Valid()
    modifies session, store
    ensures session.Valid() && session.Snap() == CarDraft(a, 100)
    ensures next == EditChoice && store.posts == old(store.posts)
  {
    var prompt, buttons, effects;
    PayloadReadsBack(ACTION_CALLBACK_PREFIX, ACTION_EDIT, '_');
    var d := CarDraft(a, 100);
    KeptMembership(d, COMMON_FIELD_ORDER, true, "price");
    assert OfferedFields(d) != [];
    assert WithCommonData(d, SELLER) == d;
    next, prompt, buttons, effects :=
      session.HandlePreviewAction(ACTION_CALLBACK_PREFIX + ACTION_EDIT, SELLER, store, table, NothingSent, false, false, 100);
  }

  // ---- Walk-through C: the conversation times out ----

  /** Walk-through C: no answer while the price is asked, the last update being the typed
      mileage. The timeout reaches the ad conversation, which ends with the timeout message
      and a session that keeps only the user's language and identity. */
  method TimeoutWhileAskingPrice(table: L.Table, a: CarAnswers) returns (next: State, prompt: string, draft: UserData)
    ensures next == End && prompt == "timeout_message" && draft == READY
  {
    var session := SessionWith(READY.(category := Some("cars"), catData := CarData(a)));
    assert Cleared(session.Snap()) == READY;
    var store := new DB.Store();
    var nextPrompting;
    assert Route(AskPrice, false, MainTimeout(true)) == ToMain(Timeout);
    next, nextPrompting, prompt :=
      Deliver(session, store, table, Env(SELLER, 100, Delivered(1), false, true), AskPrice, false, MainTimeout(true));
    draft := session.Snap();
  }

  /** Walk-through C, second part: the preview was reached by pressing "Done" after the
      photos, so the last update was a button press. No timeout handler takes it: the
      conversation ends without a message and the draft stays in the session. */
  method TimeoutAfterButtonKeepsDraft(table: L.Table, a: CarAnswers)
    returns (next: State, prompt: string, draft: UserData)
    requires Acceptable(a)
    ensures next == End && prompt == "" && draft == CarDraft(a, 100)
  {
    var session := SessionWith(CarDraft(a, 100));
    var store := new DB.Store();
    var nextPrompting;
    next, nextPrompting, prompt :=
      Deliver(session, store, table, Env(SELLER, 100, Delivered(1), false, true), Preview, false, MainTimeout(false));
    draft := session.Snap();
  }

  // ---- Walk-through D: cancelling from the preview ----

  /** Walk-through D: "Cancel" on the preview ends the conversation at once: nothing is
      saved, nothing is sent, and the draft is gone. */
  method CancelFromPreview(table: L.Table, store: DB.Store, a: CarAnswers)
    returns (next: State, draft: UserData, effects: seq<Effect>)
    requires Acceptable(a) && store.Valid()
    modifies store
    ensures next == End && draft == READY && effects == []
    ensures store.posts == old(store.posts) && store.nextId == old(store.nextId)
  {
    var session := SessionWith(CarDraft(a, 100));
    var prompt, buttons;
    PayloadReadsBack(ACTION_CALLBACK_PREFIX, ACTION_CANCEL, '_');
    next, prompt, buttons, effects :=
      session.HandlePreviewAction(ACTION_CALLBACK_PREFIX + ACTION_CANCEL, SELLER, store, table, NothingSent, false, false, 100);
    draft := session.Snap();
  }

  // ---- Publishing and the interrupted language change ----

  /** Posting a car draft when the feed returns message `messageId` (not zero): the post is
      stored under the first id as published with that message id, the user is told it
      went to the channel, and the session is reset. */
  method PostCarAd(table: L.Table, a: CarAnswers, messageId: int)
    returns (next: State, prompt: string, draft: UserData, record: DB.PostRecord)
    requires Acceptable(a) && messageId != 0
    ensures next == End && prompt == "post_successful_channel" && draft == READY
    ensures record.status == DB.STATUS_PUBLISHED && record.channelMessageId == Some(messageId)
    ensures record.category == "cars" && record.catData == CarData(a) && record.media == [a.photo]
  {
    var session := SessionWith(CarDraft(a, 100));
    var store := new DB.Store();
    var buttons, effects;
    PayloadReadsBack(ACTION_CALLBACK_PREFIX, ACTION_POST, '_');
    next, prompt, buttons, effects :=
      session.HandlePreviewAction(ACTION_CALLBACK_PREFIX + ACTION_POST, SELLER, store, table, Delivered(messageId), false, true, 100);
    draft := session.Snap();
    record := store.posts[1];
  }

  /** `/language` in the middle of an ad marks it as interrupted, and choosing a language
      then drops the ad; the ad conversation is still in the preview, where "Post" now
      finds no category, so the save raises and nothing is stored. */
  method PostAfterLanguageChange(table: L.Table, a: CarAnswers)
    returns (next: State, draft: UserData, posts: map<int, DB.PostRecord>)
    requires Acceptable(a)
    ensures next == Preview && posts == map[]
    ensures draft.lang == Some("ru") && draft.category.None? && draft.catData == map[]
  {
    var session := SessionWith(CarDraft(a, 100));
    var store := new DB.Store();
    SwitchToRussian(session, store, a);
    var prompt, buttons, effects;
    PayloadReadsBack(ACTION_CALLBACK_PREFIX, ACTION_POST, '_');
    next, prompt, buttons, effects :=
      session.HandlePreviewAction(ACTION_CALLBACK_PREFIX + ACTION_POST, SELLER, store, table, Delivered(555), false, true, 100);
    draft := session.Snap();
    posts := store.posts;
  }

  /** `/language` on the preview of a car draft, then the Russian button. */
  method SwitchToRussian(session: Session, store: DB.Store, a: CarAnswers)
    requires Acceptable(a)
    requires session.Valid() && session.Snap() == CarDraft(a, 100) && store.Valid()
    modifies session, store
    ensures session.Valid() && store.Valid() && store.posts == old(store.posts)
    ensures session.lang == Some("ru") && session.category.None? && session.catData == map[]
    ensures session.user == Some(SELLER)
  {
    var languageState, prompt := session.LanguageCommand(SELLER);
    assert session.interrupted;
    PayloadReadsBack(LANG_CHANGE_CALLBACK_PREFIX, "ru", '_');
    languageState, prompt := session.HandleLanguageChangeSelection(SELLER, LANG_CHANGE_CALLBACK_PREFIX + "ru", store);
  }
}

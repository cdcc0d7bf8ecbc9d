/** How an update reaches a handler. Two conversations share one handler group: the
    ad-posting conversation is asked first, and the language-change conversation sees an
    update only when the first one did not take it. Within a running conversation the
    entry points are tried first (re-entry is allowed for `/start`), then the handlers of
    the current state, then the fallbacks. A handler that returns no state leaves the
    state as it was. */
module Dispatch {
  import opened Wrappers
  import opened UserData
  import opened Constants
  import opened Strings
  import Config
  import L = Localization
  import DB = Database
  import opened ConversationFlow

  /** What arrives from Telegram, plus the two conversation timeouts. `Text` is a text
      message that is not a command. The ad-posting conversation's timeout says whether the
      last update that conversation handled was a message (text, a command or an upload)
      rather than a button press: the framework offers that update to the timeout
      handlers, and the one handler there takes messages only. */
  datatype Event =
    | Text(text: string)
    | Command(name: string)
    | Callback(data: string)
    | Upload(item: MediaItem)
    | MainTimeout(afterMessage: bool)
    | LanguageTimeout

  /** The handlers of both conversations, each with the part of the update it reads.
      `SilentTimeout` is the ad-posting conversation ending on its timeout when no timeout
      handler takes the last update. */
  datatype Handler =
    | Start | Cancel | UnknownText | Timeout | SilentTimeout
    | LanguageSelection(data: string) | CategorySelection(data: string)
    | TextStep(step: Step, text: string) | SkipField(step: Step, data: string)
    | PropertyType(data: string) | AnimalTypeText(text: string) | AnimalAgeText(text: string)
    | AnimalSexChoice(data: string)
    | Price(text: string) | Location(text: string) | Description(text: string) | SkipDescription
    | MediaUpload(item: MediaItem) | DoneMedia | ClearMedia
    | PreviewAction(data: string) | EditField(data: string) | BackToPreview
    | LanguageCommand | LanguageChange(data: string) | LanguageCancel | LanguageTimeoutEnd

  /** The handlers that belong to the ad-posting conversation. */
  predicate MainHandler(h: Handler) {
    !(h.LanguageCommand? || h.LanguageChange? || h.LanguageCancel? || h.LanguageTimeoutEnd?)
  }

  /** A callback handler's payload carries the prefix its pattern requires. */
  predicate PayloadMatches(h: Handler) {
    match h
    case LanguageSelection(data) => LANG_CALLBACK_PREFIX <= data
    case CategorySelection(data) => CATEGORY_CALLBACK_PREFIX <= data
    case SkipField(_, data) => SKIP_FIELD_CALLBACK_PREFIX <= data
    case PropertyType(data) => PROPERTY_TYPE_CALLBACK_PREFIX <= data
    case AnimalSexChoice(data) => ANIMAL_SEX_CALLBACK_PREFIX <= data
    case PreviewAction(data) => ACTION_CALLBACK_PREFIX <= data
    case EditField(data) => EDIT_FIELD_CALLBACK_PREFIX <= data
    case LanguageChange(data) => LANG_CHANGE_CALLBACK_PREFIX <= data
    case _ => true
  }

  /** Where an update goes: to the ad-posting conversation, to the language-change
      conversation, or nowhere. */
  datatype Target = ToMain(h: Handler) | ToLanguage(h: Handler) | Dropped

  /** The payloads of the three preview buttons. */
  predicate IsPreviewPayload(data: string) {
    data == ACTION_CALLBACK_PREFIX + ACTION_POST
    || data == ACTION_CALLBACK_PREFIX + ACTION_EDIT
    || data == ACTION_CALLBACK_PREFIX + ACTION_CANCEL
  }

  /** The handler the current state of the ad-posting conversation has for an event, in the
      order the state lists its handlers. */
  function StateHandler(s: State, ev: Event): (h: Option<Handler>)
    ensures h.Some? ==> PayloadMatches(h.value)
    ensures h.Some? && h.value.LanguageSelection? ==> !(LANG_CHANGE_CALLBACK_PREFIX <= h.value.data)
    ensures h.Some? && h.value.TextStep? ==> TextStepOf(s) == Some(h.value.step)
    ensures h.Some? && h.value.SkipField? ==>
      SkipStepOf(s) == Some(h.value.step) && h.value.data == SKIP_FIELD_CALLBACK_PREFIX + h.value.step.field
    ensures h.Some? && h.value.PreviewAction? ==> IsPreviewPayload(h.value.data)
    ensures h.Some? && ev.Text? ==>
      h.value.TextStep? || h.value.AnimalTypeText? || h.value.AnimalAgeText? || h.value.Price? || h.value.Location? || h.value.Description?
  {
    match ev
    case Text(text) =>
      if TextStepOf(s).Some? then Some(TextStep(TextStepOf(s).value, text))
      else if s == AnimalType then Some(AnimalTypeText(text))
      else if s == AnimalAge then Some(AnimalAgeText(text))
      else if s == AskPrice then Some(Price(text))
      else if s == AskLocation then Some(Location(text))
      else if s == AskDescription then Some(Description(text))
      else None
    case Callback(data) =>
      if s == LangSelect && LANG_CALLBACK_PREFIX <= data && !(LANG_CHANGE_CALLBACK_PREFIX <= data) then Some(LanguageSelection(data))
      else if s == CategorySelect && CATEGORY_CALLBACK_PREFIX <= data then Some(CategorySelection(data))
      else if s == HousePropertyType && PROPERTY_TYPE_CALLBACK_PREFIX <= data then Some(PropertyType(data))
      else if s == AnimalSex && ANIMAL_SEX_CALLBACK_PREFIX <= data then Some(AnimalSexChoice(data))
      else if SkipStepOf(s).Some? && data == SKIP_FIELD_CALLBACK_PREFIX + SkipStepOf(s).value.field then Some(SkipField(SkipStepOf(s).value, data))
      else if s == AskDescription && data == ACTION_CALLBACK_PREFIX + ACTION_SKIP_DESCRIPTION then Some(SkipDescription)
      else if s == AskMedia && data == ACTION_CALLBACK_PREFIX + ACTION_DONE_MEDIA then Some(DoneMedia)
      else if s == AskMedia && data == ACTION_CALLBACK_PREFIX + ACTION_CLEAR_MEDIA then Some(ClearMedia)
      else if s == Preview && IsPreviewPayload(data) then Some(PreviewAction(data))
      else if s == EditChoice && EDIT_FIELD_CALLBACK_PREFIX <= data then Some(EditField(data))
      else if s == EditChoice && data == ACTION_CALLBACK_PREFIX + ACTION_BACK_TO_PREVIEW then Some(BackToPreview)
      else None
    case Upload(item) => if s == AskMedia then Some(MediaUpload(item)) else None
    case _ => None
  }

  /** The ad-posting conversation: `/start` from anywhere, else (while it runs) the state's
      handlers, then `/cancel`, then any stray text. */
  function MainRoute(s: State, ev: Event): Option<Handler> {
    if ev == Command("start") then Some(Start)
    else if s == End then None
    else if StateHandler(s, ev).Some? then StateHandler(s, ev)
    else if ev == Command("cancel") then Some(Cancel)
    else if ev.Text? then Some(UnknownText)
    else None
  }

  /** The language-change conversation: `/language` starts it; while it waits for a choice,
      a `lang_change_` payload or `/cancel`. */
  function LanguageRoute(prompting: bool, ev: Event): Option<Handler> {
    if !prompting then (if ev == Command("language") then Some(LanguageCommand) else None)
    else if ev.Callback? && LANG_CHANGE_CALLBACK_PREFIX <= ev.data then Some(LanguageChange(ev.data))
    else if ev == Command("cancel") then Some(LanguageCancel)
    else None
  }

  /** The handler an event reaches, given the state of the ad-posting conversation and
      whether the language-change conversation is waiting for a choice. */
  function Route(s: State, prompting: bool, ev: Event): Target {
    match ev
    case MainTimeout(afterMessage) =>
      if s == End then Dropped else if afterMessage then ToMain(Timeout) else ToMain(SilentTimeout)
    case LanguageTimeout => if prompting then ToLanguage(LanguageTimeoutEnd) else Dropped
    case _ =>
      if MainRoute(s, ev).Some? then ToMain(MainRoute(s, ev).value)
      else if LanguageRoute(prompting, ev).Some? then ToLanguage(LanguageRoute(prompting, ev).value)
      else Dropped
  }

  // ---- Routing properties ----

  /** `/start` always reaches the ad-posting conversation, whatever its state and whatever
      the other conversation is doing. */
  lemma StartAlwaysHandled(s: State, prompting: bool)
    ensures Route(s, prompting, Command("start")) == ToMain(Start)
  {
  }

  /** A payload starting with `s` carries none of the other prefixes and is none of the
      action payloads, so of a state's handlers only its skip handler can take it. */
  lemma SkipPayloadHandler(s: State, data: string)
    requires |data| > 0 && data[0] == 's'
    ensures StateHandler(s, Callback(data)) ==
      if SkipStepOf(s).Some? && data == SKIP_FIELD_CALLBACK_PREFIX + SkipStepOf(s).value.field
      then Some(SkipField(SkipStepOf(s).value, data)) else None
  {
    assert !(LANG_CALLBACK_PREFIX <= data) && !(CATEGORY_CALLBACK_PREFIX <= data);
    assert !(PROPERTY_TYPE_CALLBACK_PREFIX <= data) && !(ANIMAL_SEX_CALLBACK_PREFIX <= data);
    assert !(EDIT_FIELD_CALLBACK_PREFIX <= data);
    assert (ACTION_CALLBACK_PREFIX + ACTION_SKIP_DESCRIPTION)[0] == 'a';
    assert (ACTION_CALLBACK_PREFIX + ACTION_POST)[0] == 'a';
    assert (ACTION_CALLBACK_PREFIX + ACTION_EDIT)[0] == 'a';
    assert (ACTION_CALLBACK_PREFIX + ACTION_CANCEL)[0] == 'a';
    assert (ACTION_CALLBACK_PREFIX + ACTION_DONE_MEDIA)[0] == 'a';
    assert (ACTION_CALLBACK_PREFIX + ACTION_CLEAR_MEDIA)[0] == 'a';
    assert (ACTION_CALLBACK_PREFIX + ACTION_BACK_TO_PREVIEW)[0] == 'a';
  }

  /** A skip payload is taken exactly in the state that asked for that field, and only in
      the six states that offer a skip; anywhere else it reaches no handler. */
  lemma SkipOnlyWhereOffered(s: State, prompting: bool, f: string)
    ensures var r := Route(s, prompting, Callback(SKIP_FIELD_CALLBACK_PREFIX + f));
      r.ToMain? <==> SkipStepOf(s).Some? && f == SkipStepOf(s).value.field
    ensures var r := Route(s, prompting, Callback(SKIP_FIELD_CALLBACK_PREFIX + f));
      r.ToMain? ==> r == ToMain(SkipField(SkipStepOf(s).value, SKIP_FIELD_CALLBACK_PREFIX + f))
    ensures var r := Route(s, prompting, Callback(SKIP_FIELD_CALLBACK_PREFIX + f));
      !r.ToMain? ==> r == Dropped
  {
    var data := SKIP_FIELD_CALLBACK_PREFIX + f;
    var ev := Callback(data);
    assert data[0] == 's' && data[1] == 'k';
    SkipPayloadHandler(s, data);
    assert MainRoute(s, ev) == StateHandler(s, ev);
    assert !(LANG_CHANGE_CALLBACK_PREFIX <= data);
    assert LanguageRoute(prompting, ev).None?;
    if SkipStepOf(s).Some? {
      SkipFieldInjective(f, SkipStepOf(s).value.field);
    }
  }

  /** The skip payload names its field. */
  lemma SkipFieldInjective(f: string, g: string)
    ensures SKIP_FIELD_CALLBACK_PREFIX + f == SKIP_FIELD_CALLBACK_PREFIX + g <==> f == g
  {
    if SKIP_FIELD_CALLBACK_PREFIX + f == SKIP_FIELD_CALLBACK_PREFIX + g {
      assert f == (SKIP_FIELD_CALLBACK_PREFIX + f)[|SKIP_FIELD_CALLBACK_PREFIX|..];
    }
  }

  /** A payload of the language-change buttons is never taken by the ad-posting
      conversation, whatever its state: it reaches the language conversation when that
      one waits for a choice, and nothing otherwise. */
  lemma LanguageChangeBypassesMain(s: State, prompting: bool, data: string)
    requires LANG_CHANGE_CALLBACK_PREFIX <= data
    ensures MainRoute(s, Callback(data)).None?
    ensures Route(s, prompting, Callback(data)) == (if prompting then ToLanguage(LanguageChange(data)) else Dropped)
  {
    assert data[0] == 'l' && data[1] == 'a';
    assert !(CATEGORY_CALLBACK_PREFIX <= data) && !(PROPERTY_TYPE_CALLBACK_PREFIX <= data);
    assert !(ANIMAL_SEX_CALLBACK_PREFIX <= data) && !(EDIT_FIELD_CALLBACK_PREFIX <= data);
    assert forall f :: data != SKIP_FIELD_CALLBACK_PREFIX + f;
    assert data != ACTION_CALLBACK_PREFIX + ACTION_SKIP_DESCRIPTION && !IsPreviewPayload(data);
    assert data != ACTION_CALLBACK_PREFIX + ACTION_DONE_MEDIA && data != ACTION_CALLBACK_PREFIX + ACTION_CLEAR_MEDIA;
    assert data != ACTION_CALLBACK_PREFIX + ACTION_BACK_TO_PREVIEW;
  }

  /** The "skip description" button is taken only while the description is asked; in
      every other state no handler of either conversation takes it. */
  lemma SkipDescriptionOnlyInAskDescription(s: State, prompting: bool)
    ensures Route(s, prompting, Callback(ACTION_CALLBACK_PREFIX + ACTION_SKIP_DESCRIPTION)) ==
      if s == AskDescription then ToMain(SkipDescription) else Dropped
  {
    var data := ACTION_CALLBACK_PREFIX + ACTION_SKIP_DESCRIPTION;
    SkipDescriptionPayloadHandler(s);
    assert !(LANG_CHANGE_CALLBACK_PREFIX <= data) by { assert data[0] == 'a'; }
  }

  /** Of a state's handlers, only ASK_DESCRIPTION's skip button takes the skip-description
      payload: it carries none of the other prefixes and is none of the other payloads. */
  lemma SkipDescriptionPayloadHandler(s: State)
    ensures StateHandler(s, Callback(ACTION_CALLBACK_PREFIX + ACTION_SKIP_DESCRIPTION)) ==
      if s == AskDescription then Some(SkipDescription) else None
  {
    var data := ACTION_CALLBACK_PREFIX + ACTION_SKIP_DESCRIPTION;
    assert data[0] == 'a' && data[1] == 'c';
    assert !(LANG_CALLBACK_PREFIX <= data) && !(CATEGORY_CALLBACK_PREFIX <= data);
    assert !(PROPERTY_TYPE_CALLBACK_PREFIX <= data) && !(ANIMAL_SEX_CALLBACK_PREFIX <= data);
    assert !(EDIT_FIELD_CALLBACK_PREFIX <= data) && !(LANG_CHANGE_CALLBACK_PREFIX <= data);
    assert forall f :: data != SKIP_FIELD_CALLBACK_PREFIX + f;
    assert !IsPreviewPayload(data);
    assert data != ACTION_CALLBACK_PREFIX + ACTION_DONE_MEDIA && data != ACTION_CALLBACK_PREFIX + ACTION_CLEAR_MEDIA;
    assert data != ACTION_CALLBACK_PREFIX + ACTION_BACK_TO_PREVIEW;
  }

  /** In a state that waits for a button, text is answered by the fallback, which leaves the
      state as it is. */
  lemma TextInButtonStatesFallsBack(s: State, prompting: bool, text: string)
    requires s in {LangSelect, CategorySelect, HousePropertyType, AnimalSex, AskMedia, Preview, EditChoice}
    ensures Route(s, prompting, Text(text)) == ToMain(UnknownText)
    ensures forall t :: Route(s, prompting, Text(text)) != ToMain(TextStep(t, text))
  {
  }

  // ---- Delivery ----

  /** What the outside world contributes to one update: who sent it, the id of the message
      a handler sends with its buttons, and the outcome of publishing (the feed's result,
      whether reporting it to the user raised, and whether the target is a channel). */
  datatype Env = Env(user: User, sentId: int, feed: FeedResult, notifyFails: bool, isChannel: bool)

  /** Runs a handler of the ad-posting conversation and returns the state it leaves the
      conversation in. */
  method DeliverMain(session: Session, store: DB.Store, table: L.Table, env: Env, s: State, h: Handler)
    returns (next: State, prompt: string)
    requires MainHandler(h) && PayloadMatches(h) && s != ChangeLangPrompt
    requires h.TextStep? ==> TextStepOf(s) == Some(h.step)
    requires h.SkipField? ==> SkipStepOf(s) == Some(h.step)
    requires session.Valid() && store.Valid()
    modifies session, store
    ensures session.Valid() && store.Valid()
    ensures next != ChangeLangPrompt
    ensures h.UnknownText? ==> next == s && unchanged(session, store) && prompt == "invalid_input"
    ensures h.Start? ==> !InAdFlow(session.Snap()) && (next == CategorySelect || next == LangSelect)
    ensures h.Cancel? || h.Timeout? ==> next == End && !InAdFlow(session.Snap())
    ensures h.Timeout? ==>
      session.Snap() == Cleared(old(session.Snap())) && unchanged(store) && prompt == "timeout_message"
    ensures h.SilentTimeout? ==> next == End && unchanged(session, store) && prompt == ""
    ensures !h.PreviewAction? ==> store.posts == old(store.posts)
  {
    if h.SilentTimeout? {
      next, prompt := End, "";
    } else if h.Start? || h.Cancel? || h.Timeout? || h.UnknownText? || h.LanguageSelection? || h.CategorySelection? {
      next, prompt := DeliverControl(session, store, env, s, h);
    } else if h.TextStep? || h.SkipField? || h.PropertyType? || h.AnimalTypeText? || h.AnimalAgeText? || h.AnimalSexChoice? {
      next, prompt := DeliverBranch(session, table, env, s, h);
    } else if h.PreviewAction? || h.EditField? || h.BackToPreview? {
      next, prompt := DeliverReview(session, store, table, env, h);
    } else {
      next, prompt := DeliverCommon(session, env, h);
    }
  }

  /** The entry point, the fallbacks, the timeout and the two selection steps. */
  method DeliverControl(session: Session, store: DB.Store, env: Env, s: State, h: Handler)
    returns (next: State, prompt: string)
    requires h.Start? || h.Cancel? || h.Timeout? || h.UnknownText? || h.LanguageSelection? || h.CategorySelection?
    requires PayloadMatches(h) && s != ChangeLangPrompt
    requires session.Valid() && store.Valid()
    modifies session, store
    ensures session.Valid() && store.Valid()
    ensures next != ChangeLangPrompt
    ensures h.UnknownText? ==> next == s && unchanged(session, store) && prompt == "invalid_input"
    ensures h.Start? ==> !InAdFlow(session.Snap()) && (next == CategorySelect || next == LangSelect)
    ensures h.Cancel? || h.Timeout? ==> next == End && !InAdFlow(session.Snap())
    ensures h.Timeout? ==>
      session.Snap() == Cleared(old(session.Snap())) && unchanged(store) && prompt == "timeout_message"
    ensures store.posts == old(store.posts)
  {
    var u := env.user;
    if h.Start? {
      next, prompt := session.StartCommand(u, store);
    } else if h.Cancel? {
      next, prompt := session.CancelConversation(u);
    } else if h.Timeout? {
      next, prompt := session.TimeoutConversation();
    } else if h.UnknownText? {
      next, prompt := s, "invalid_input";
    } else {
      next, prompt := DeliverSelection(session, store, env, h);
    }
  }

  /** The language and category buttons of the first two steps. */
  method DeliverSelection(session: Session, store: DB.Store, env: Env, h: Handler)
    returns (next: State, prompt: string)
    requires h.LanguageSelection? || h.CategorySelection?
    requires PayloadMatches(h)
    requires session.Valid() && store.Valid()
    modifies session, store
    ensures session.Valid() && store.Valid()
    ensures next != ChangeLangPrompt
    ensures store.posts == old(store.posts)
  {
    if h.LanguageSelection? {
      next, prompt := session.HandleLanguageSelection(env.user, h.data, store);
    } else {
      next, prompt := session.HandleCategorySelection(env.user, h.data);
    }
  }

  /** The steps of the category branches. */
  method DeliverBranch(session: Session, table: L.Table, env: Env, s: State, h: Handler)
    returns (next: State, prompt: string)
    requires h.TextStep? || h.SkipField? || h.PropertyType? || h.AnimalTypeText? || h.AnimalAgeText? || h.AnimalSexChoice?
    requires PayloadMatches(h) && s != ChangeLangPrompt
    requires h.TextStep? ==> TextStepOf(s) == Some(h.step)
    requires h.SkipField? ==> SkipStepOf(s) == Some(h.step)
    requires session.Valid()
    modifies session
    ensures session.Valid()
    ensures next != ChangeLangPrompt
  {
    if h.TextStep? || h.SkipField? {
      next, prompt := DeliverStep(session, env, s, h);
    } else {
      next, prompt := DeliverChoice(session, table, h);
    }
  }

  /** The steps that go through the shared text and skip handlers. */
  method DeliverStep(session: Session, env: Env, s: State, h: Handler)
    returns (next: State, prompt: string)
    requires h.TextStep? || h.SkipField?
    requires PayloadMatches(h) && s != ChangeLangPrompt
    requires h.TextStep? ==> TextStepOf(s) == Some(h.step)
    requires h.SkipField? ==> SkipStepOf(s) == Some(h.step)
    requires session.Valid()
    modifies session
    ensures session.Valid()
    ensures next != ChangeLangPrompt
  {
    StepsStayInAdFlow(s);
    match h
    case TextStep(t, text) =>
      next, prompt := session.HandleTextInput(t, s, text, env.user, env.sentId);
    case SkipField(t, data) =>
      next, prompt := session.HandleSkipField(t, data);
  }

  /** A category step leads to another step of the ad, never to the language prompt. */
  lemma StepsStayInAdFlow(s: State)
    ensures TextStepOf(s).Some? ==> TextStepOf(s).value.next != ChangeLangPrompt
    ensures SkipStepOf(s).Some? ==> SkipStepOf(s).value.next != ChangeLangPrompt
  {
  }

  /** The house and animal steps with handlers of their own. */
  method DeliverChoice(session: Session, table: L.Table, h: Handler)
    returns (next: State, prompt: string)
    requires h.PropertyType? || h.AnimalTypeText? || h.AnimalAgeText? || h.AnimalSexChoice?
    requires PayloadMatches(h)
    requires session.Valid()
    modifies session
    ensures session.Valid()
    ensures next != ChangeLangPrompt
  {
    match h
    case PropertyType(data) =>
      next, prompt := session.HandleHousePropertyType(data, table);
    case AnimalTypeText(text) =>
      next, prompt := session.HandleAnimalType(text);
    case AnimalAgeText(text) =>
      next, prompt := session.HandleAnimalAge(text);
    case AnimalSexChoice(data) =>
      next, prompt := session.HandleAnimalSex(data, table);
  }

  /** The common steps: price, location, description and media. */
  method DeliverCommon(session: Session, env: Env, h: Handler)
    returns (next: State, prompt: string)
    requires h.Price? || h.Location? || h.Description? || h.SkipDescription? || h.MediaUpload? || h.DoneMedia? || h.ClearMedia?
    requires session.Valid()
    modifies session
    ensures session.Valid()
    ensures next != ChangeLangPrompt
  {
    var u := env.user;
    match h
    case Price(text) =>
      next, prompt := session.HandleAskPrice(text, u, env.sentId);
    case Location(text) =>
      next, prompt := session.HandleAskLocation(text, u, env.sentId);
    case Description(text) =>
      next, prompt := session.HandleAskDescription(text, u, env.sentId);
    case SkipDescription =>
      next, prompt := session.HandleSkipGenericDescription(u, env.sentId);
    case MediaUpload(item) =>
      next, prompt := session.HandleAskMediaFiles(u, item);
    case DoneMedia =>
      next, prompt := session.HandleDoneMediaUpload(u, env.sentId);
    case ClearMedia =>
      next, prompt := session.HandleClearAllMedia(u);
  }

  /** The preview buttons and the edit menu. */
  method DeliverReview(session: Session, store: DB.Store, table: L.Table, env: Env, h: Handler)
    returns (next: State, prompt: string)
    requires h.PreviewAction? || h.EditField? || h.BackToPreview?
    requires PayloadMatches(h)
    requires session.Valid() && store.Valid()
    modifies session, store
    ensures session.Valid() && store.Valid()
    ensures next != ChangeLangPrompt
    ensures !h.PreviewAction? ==> unchanged(store)
  {
    if h.PreviewAction? {
      var buttons, effects;
      next, prompt, buttons, effects :=
        session.HandlePreviewAction(h.data, env.user, store, table, env.feed, env.notifyFails, env.isChannel, env.sentId);
    } else {
      next, prompt := DeliverEdit(session, env, h);
    }
  }

  /** The edit menu: a field to edit, or back to the preview. */
  method DeliverEdit(session: Session, env: Env, h: Handler)
    returns (next: State, prompt: string)
    requires h.EditField? || h.BackToPreview?
    requires PayloadMatches(h)
    requires session.Valid()
    modifies session
    ensures session.Valid()
    ensures next != ChangeLangPrompt
  {
    match h
    case EditField(data) =>
      CategoryFieldsStayInBlock();
      next, prompt := session.HandleEditFieldSelection(data);
    case BackToPreview =>
      next, prompt := session.HandleBackToPreview(env.user, env.sentId);
  }

  /** Runs a handler of the language-change conversation and says whether that conversation
      still waits for a choice afterwards. */
  method DeliverLanguage(session: Session, store: DB.Store, env: Env, h: Handler)
    returns (prompting: bool, prompt: string)
    requires !MainHandler(h) && PayloadMatches(h)
    requires session.Valid() && store.Valid()
    modifies session, store
    ensures session.Valid() && store.Valid()
    ensures prompting <==> h.LanguageCommand?
    ensures store.posts == old(store.posts)
    ensures h.LanguageTimeoutEnd? ==> unchanged(session, store) && prompt == ""
    ensures h.LanguageCommand? || h.LanguageCancel? ==> unchanged(store)
    ensures h.LanguageCancel? ==> session.Snap() == Cleared(WithCommonData(old(session.Snap()), env.user))
    ensures h.LanguageCommand? ==>
      var d := WithCommonData(old(session.Snap()), env.user);
      session.Snap() == (if InAdFlow(d) then d.(interrupted := true) else d)
    ensures h.LanguageChange? ==>
      var code := AfterPrefix(h.data, LANG_CHANGE_CALLBACK_PREFIX);
      if code in Config.SUPPORTED_LANGUAGES then
        && session.Snap() == LanguageChanged(old(session.Snap()), code) && store.PrefLang(env.user.id) == Some(code)
        && store.users == old(store.users)[env.user.id := DB.UserRow(code, env.user.firstName, env.user.username)]
        && store.nextId == old(store.nextId)
      else
        session.Snap() == old(session.Snap()) && unchanged(store)
  {
    var next: State;
    match h
    case LanguageCommand =>
      next, prompt := session.LanguageCommand(env.user);
      prompting := true;
    case LanguageChange(data) =>
      next, prompt := session.HandleLanguageChangeSelection(env.user, data, store);
      prompting := false;
    case LanguageCancel =>
      next, prompt := session.CancelConversation(env.user);
      prompting := false;
    case LanguageTimeoutEnd =>
      prompting, prompt := false, "";
  }

  /** Delivers one update to the two conversations: the state of the ad-posting
      conversation and whether the language conversation waits for a choice go in, their
      new values come out. An update no handler takes changes nothing; each conversation
      moves only when its own handler runs; and only a preview action writes a post. */
  method Deliver(session: Session, store: DB.Store, table: L.Table, env: Env, s: State, prompting: bool, ev: Event)
    returns (next: State, nextPrompting: bool, prompt: string)
    requires s != ChangeLangPrompt
    requires session.Valid() && store.Valid()
    modifies session, store
    ensures session.Valid() && store.Valid()
    ensures next != ChangeLangPrompt
    ensures Route(s, prompting, ev).Dropped? ==>
      next == s && nextPrompting == prompting && unchanged(session, store) && prompt == ""
    ensures Route(s, prompting, ev).ToMain? ==> nextPrompting == prompting
    ensures Route(s, prompting, ev).ToLanguage? ==> next == s && store.posts == old(store.posts)
    ensures Route(s, prompting, ev) == ToMain(UnknownText) ==> next == s && unchanged(session, store)
    ensures !(Route(s, prompting, ev).ToMain? && Route(s, prompting, ev).h.PreviewAction?) ==>
      store.posts == old(store.posts)
    ensures Route(s, prompting, ev) == ToMain(Start) ==>
      !InAdFlow(session.Snap()) && (next == CategorySelect || next == LangSelect)
    ensures Route(s, prompting, ev) == ToMain(Cancel) || Route(s, prompting, ev) == ToMain(Timeout) ==>
      next == End && !InAdFlow(session.Snap())
    ensures Route(s, prompting, ev) == ToMain(Timeout) ==>
      session.Snap() == Cleared(old(session.Snap())) && unchanged(store) && prompt == "timeout_message"
    ensures Route(s, prompting, ev) == ToMain(SilentTimeout) ==>
      next == End && unchanged(session, store) && prompt == ""
    ensures Route(s, prompting, ev) == ToLanguage(LanguageCancel) ==>
      session.Snap() == Cleared(WithCommonData(old(session.Snap()), env.user))
  {
    var r := Route(s, prompting, ev);
    RouteWellFormed(s, prompting, ev);
    match r
    case Dropped =>
      next, nextPrompting, prompt := s, prompting, "";
    case ToMain(h) =>
      next, prompt := DeliverMain(session, store, table, env, s, h);
      nextPrompting := prompting;
    case ToLanguage(h) =>
      nextPrompting, prompt := DeliverLanguage(session, store, env, h);
      next := s;
  }

  /** Each conversation receives only its own handlers, with payloads that match them. */
  lemma RouteWellFormed(s: State, prompting: bool, ev: Event)
    ensures var r := Route(s, prompting, ev);
      r.ToMain? ==>
        && MainHandler(r.h) && PayloadMatches(r.h)
        && (r.h.TextStep? ==> TextStepOf(s) == Some(r.h.step))
        && (r.h.SkipField? ==> SkipStepOf(s) == Some(r.h.step))
    ensures var r := Route(s, prompting, ev);
      r.ToLanguage? ==> !MainHandler(r.h) && PayloadMatches(r.h)
  {
    match ev
    case MainTimeout(_) =>
    case LanguageTimeout =>
    case _ =>
      MainRouteWellFormed(s, ev);
  }

  /** What the ad-posting conversation takes is one of its own handlers. */
  lemma MainRouteWellFormed(s: State, ev: Event)
    ensures var h := MainRoute(s, ev);
      h.Some? ==>
        && MainHandler(h.value) && PayloadMatches(h.value)
        && (h.value.TextStep? ==> TextStepOf(s) == Some(h.value.step))
        && (h.value.SkipField? ==> SkipStepOf(s) == Some(h.value.step))
  {
    if ev != Command("start") && s != End {
      StateHandlerIsMain(s, ev);
    }
  }

  /** No state lists a handler of the language-change conversation. */
  lemma StateHandlerIsMain(s: State, ev: Event)
    ensures StateHandler(s, ev).Some? ==> MainHandler(StateHandler(s, ev).value)
  {
    match ev
    case Text(_) =>
    case Callback(data) => CallbackHandlerIsMain(s, data);
    case _ =>
  }

  lemma CallbackHandlerIsMain(s: State, data: string)
    ensures StateHandler(s, Callback(data)).Some? ==> MainHandler(StateHandler(s, Callback(data)).value)
  {
  }
}

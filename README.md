# Ad-posting wizard: a verified model of its conversation

The bot walks a Telegram user through posting a classified ad. The user picks a language and
then a category (cars, houses, animals or other), answers that category's questions, gives a
price, a location, an optional description and up to ten photos or videos, and reviews a
preview. From the preview the user can post the ad, edit one field and come back, or cancel.
`/start` restarts the conversation at any point, and `/cancel` and the inactivity timeout end
it. `/language` opens a second, small conversation that changes the language. If that happens
in the middle of an ad, the ad is wiped.

This project models that conversation in Dafny and proves properties of the model.

- `config.dfy` holds the configuration constants: default and supported languages, the media
  and description limits, and the category keys.
- `constants.dfy` holds the 21 conversation states plus `End`, the callback prefixes and
  action values, and the two editable-field tables the edit detour jumps through.
- `strings.dfy` holds the Python string operations the handlers rely on:
  - `strip()`, as trimming of space, `\t`, `\n`, `\v`, `\f` and `\r`;
  - the `\d` search;
  - `split(prefix)[1]`;
  - the substring test;
  - `str(int)`;
  - `title()`;
  - joining and splitting on newlines.
- `localization.dfy` holds `get_text` over an abstract string table:
  - the fallback for an unsupported language;
  - the `_key_` placeholder for an unknown key;
  - the default `max_desc_len` / `max_media` arguments;
  - the unformatted template when an argument is missing.

  It also holds `get_user_lang` and `get_category_display_name`.
- `user_data.dfy` holds the per-user session dictionary as a value, together with
  `get_common_data` and the reset `clear_user_data_for_new_post`.
- `message_formatter.dfy` builds the preview as a sequence of lines before lookup. Each line is
  a text key plus its arguments. The file then renders the lines and joins them with newlines.
  `format_final_post` is the same text.
- `database.dfy` holds the posts and users tables as a `Store` object with maps and an id
  counter.
- `conversation_flow.dfy` holds the session as a `Session` object with one method per handler.
  - Each method updates the fields in place.
  - Each returns the next state and the key of the main text it sends.
  - Each method's contract gives the whole new session, as a function of the old one.
- `dispatch.dfy` holds the routing table of both conversations and `Deliver`, which routes one
  update and runs the handler it reaches.
- `scenarios.dfy` holds whole walk-throughs:
  - a car ad from category to preview;
  - editing the price from the preview;
  - a timeout while the price is being asked;
  - cancelling from the preview;
  - posting;
  - changing the language in the middle of an ad.

## Model

| member | source | states |
|---|---|---|
| Constants.Code | constants.py:5-38 | `End` is -1 and every other state has a number in 0..20 |
| Constants.StateNumbering | constants.py:5-38 | the states, in declaration order, are numbered 0..20: `STATES[n]` has number `n`, and every state is found again at its own number |
| Constants.CodeInjective | constants.py:5-38 | two states with the same number are the same state, so the 21 constants are distinct |
| Constants.PrefixesUnambiguous | constants.py:42-48 | no callback prefix is a prefix of another, so splitting a payload on its prefix is unambiguous |
| Constants.CommonFieldsTargetCommonSteps | constants.py:62-67 | each common editable field maps to one of ASK_PRICE/ASK_LOCATION/ASK_DESCRIPTION/ASK_MEDIA, and the declared order lists exactly the keys |
| Constants.CategoryKeysAreSelectable | constants.py:70-91 | the keys of the category field table are exactly the selectable category keys |
| Constants.CategoryFieldsStayInBlock | constants.py:70-91 | every category field maps to a state in that category's own block, and a category's fields are exactly those in its declared order |
| Constants.CategoryTargetsCollectTheirField | constants.py:70-91 | the state each category field maps to is the state that collects that very field |
| Constants.CategoryFieldFacts | constants.py:70-91 | one entry of the category table: its state lies in the category's block and collects the field, and the field is listed in the category's order |
| Constants.OrderedFieldsAreKeys | constants.py:70-91 | every field in a category's declared order is a key of that category's table |
| Constants.FieldNamesDisjoint | constants.py:70-91 | the field names of different categories are disjoint, and none of them is a common field name |
| Strings.LeadingSpaces | handlers/conversation_flow.py:110 | the length of the whitespace run the input starts with: every character before it is whitespace and the one at it is not |
| Strings.TrailingSpaces | handlers/conversation_flow.py:110 | the length of the whitespace run the input ends with: every character after it is whitespace and the one before it is not |
| Strings.Strip | handlers/conversation_flow.py:110 | the result is the infix of the input that starts right after its leading whitespace, and only whitespace follows it; it neither starts nor ends with whitespace; it is empty iff the input is all whitespace; an already trimmed input is returned unchanged |
| Strings.HasDigit | handlers/conversation_flow.py:486 | `re.search(r'\d', s)`: some character of the input is an ASCII digit; its use is stated by `ConversationFlow.Session.HandleAskPrice` |
| Strings.StripIdempotent | handlers/conversation_flow.py:484 | stripping twice is stripping once |
| Strings.BeforeFirst | handlers/conversation_flow.py:90 | the result is the prefix of the input before the first occurrence of the separator, or the whole input when the separator does not occur |
| Strings.AfterPrefix | handlers/conversation_flow.py:90 | `data.split(prefix)[1]` for a payload that starts with the prefix: the text after the prefix, up to the next occurrence of it |
| Strings.AfterPrefixOfJoined | handlers/conversation_flow.py:780 | splitting `prefix + key` on the prefix gives back `key` when the key does not contain the prefix |
| Strings.DecimalString | localization.py:365 | `str(n)`: a non-empty string of decimal digits |
| Strings.DecimalRoundTrip | localization.py:365 | reading the decimal string of `n` gives back `n` |
| Strings.ReplaceChar | handlers/conversation_flow.py:755 | `replace("_", " ")`: same length, every `_` becomes a space and nothing else changes |
| Strings.Title | handlers/conversation_flow.py:755 | `title()`: a letter that starts a word is upper-cased, a letter inside a word is lower-cased, and everything else is kept |
| Strings.JoinLines | services/message_formatter.py:91 | `"\n".join`: empty for no parts, the single part for one, and the first part always leads |
| Strings.SplitLines | services/message_formatter.py:91 | splitting on newlines gives at least one piece and no piece holds a newline |
| Strings.SplitJoinLines | services/message_formatter.py:91 | splitting the joined lines on newlines gives the lines back when none holds a newline |
| Localization.Format | localization.py:377 | `str.format` over named `{name}` fields: each field is replaced by its argument and other characters are kept; its properties are stated by `FormatFailsIffMissing` and `FormatWithoutBraces` |
| Localization.Template | localization.py:360 | the language's template for the key, or the placeholder `_key_` when the table has none; stated by `UnknownKeyPlaceholder` |
| Localization.EffectiveArgs | localization.py:362-370 | the caller's arguments over the defaults of the description and media keys; stated by `DefaultArguments` |
| Localization.FormatFailsIffMissing | localization.py:377-378 | filling `{name}` fields fails exactly when some field of the template has no argument |
| Localization.FormatWithoutBraces | localization.py:377 | a template without `{` formats to itself |
| Localization.NormalizeLang | localization.py:349-350 | a supported language code is kept; any other code becomes the default language |
| Localization.GetText | localization.py:347-381 | a lookup of a key without default arguments always returns a text (it never raises) |
| Localization.LanguageFallback | localization.py:349-350 | a lookup in an unsupported language equals the same lookup in the default language |
| Localization.UnknownKeyPlaceholder | localization.py:360 | a key missing from the language's table yields the placeholder `_key_` |
| Localization.MissingArgumentsFallBack | localization.py:376-381 | outside the defaulted keys, the text is the formatted template when every field has an argument and the raw template otherwise |
| Localization.DefaultArguments | localization.py:362-370 | the description keys get `max_desc_len` = 1000 and the media keys get `max_media` = 10 unless the caller passes them; the caller's arguments are always kept; other keys get exactly the caller's arguments |
| Localization.DefaultedKeyFailsIffMissing | localization.py:362-370 | a defaulted key raises exactly when its template has a field that neither the defaults nor the caller supply |
| Localization.GetUserLang | localization.py:384-386 | the session's language, or the default language when it has none |
| Localization.GetCategoryDisplayName | localization.py:388-391 | the display name is the lookup of `category_` + key in the given language |
| UserData.WithCommonData | handlers/conversation_flow.py:26-35 | the identity is filled in only when absent; a missing language becomes the stored preference when it is supported, the default otherwise; nothing else changes |
| UserData.WithCommonDataIdempotent | handlers/conversation_flow.py:26-35 | filling in the common data a second time, even for another user, changes nothing |
| UserData.InAdFlow | handlers/conversation_flow.py:136 | an ad is in progress when the session has a truthy category or any category data; stated by `ClearKeepsOnlyIdentity` and `LanguageChangeWipesInterruptedAd` |
| UserData.Cleared | handlers/conversation_flow.py:38-56 | the reset keeps the language, identity and stored preference, and empties everything else (no category, empty category data, empty media list, no flags) |
| UserData.ClearKeepsOnlyIdentity | handlers/conversation_flow.py:38-56 | two sessions with the same preserved keys reset to the same session; the reset is idempotent; and a reset session is in no ad flow |
| MessageFormatter.KeyText | services/message_formatter.py:19-86 | no preview text key takes default arguments, so its lookup never raises |
| MessageFormatter.TitleLine | services/message_formatter.py:15-23 | the title line uses the category's own title or the `other` title, with the category's display name as argument |
| MessageFormatter.TitleFallsBackWhenMissing | services/message_formatter.py:22-23 | a category whose title is missing from the table (so the lookup returns `_key_`) gets the `other` title |
| MessageFormatter.TitleKeptWhenPresent | services/message_formatter.py:21-22 | a category whose title template exists and does not contain the placeholder keeps its own title |
| MessageFormatter.ShownFields | services/message_formatter.py:28-58 | a field is shown exactly when it is one of the category's fields and its value is truthy, in declaration order |
| MessageFormatter.OptionalLine | services/message_formatter.py:62-65 | the price or location line appears exactly when the value is truthy, and then carries the value |
| MessageFormatter.DescriptionLine | services/message_formatter.py:67-74 | the description line carries the description when it is truthy; otherwise it is the no-description line |
| MessageFormatter.CountKind | services/message_formatter.py:79-80 | a count of one media kind never exceeds the list length |
| MessageFormatter.CountKindsPartition | services/message_formatter.py:79-80 | photos and videos together count every item once |
| MessageFormatter.MediaLines | services/message_formatter.py:77-86 | no media gives no line; photos only give the photo line; videos only give the video line; both give the mixed line; the count is the list length |
| MessageFormatter.PreviewLines | services/message_formatter.py:7-91 | the preview has at least the title and the description line, and the title comes first |
| MessageFormatter.CategoryLines | services/message_formatter.py:28-58 | one field line per shown field, in order, carrying the field's value; stated by `ShownFields` and `CategoryLinesAreFields` |
| MessageFormatter.CategoryLinesAreFields | services/message_formatter.py:28-58 | category lines are never description lines |
| MessageFormatter.ExactlyOneDescriptionLine | services/message_formatter.py:67-74 | every preview holds exactly one description line |
| MessageFormatter.Render | services/message_formatter.py:19-86 | each line's text is the lookup of its key with its arguments, one text per line |
| MessageFormatter.FormatPreviewMessage | services/message_formatter.py:91 | the preview text starts with the rendered title |
| MessageFormatter.PreviewSplitsIntoLines | services/message_formatter.py:91 | splitting the preview text on newlines gives back the rendered lines in order, when none holds a newline |
| MessageFormatter.FormatFinalPost | services/message_formatter.py:93-97 | the published text is exactly the preview text |
| Database.NewRecord | services/database_service.py:57-92 | the inserted row carries the session's user, language (default when absent) and category, with status `pending` and no channel message |
| Database.Store.constructor | services/database_service.py:11 | the tables start empty and the first id is 1 |
| Database.Store.SavePost | services/database_service.py:57-92 | a session with a category and a user gets a fresh id and a pending row, and nothing else changes; without them nothing is written |
| Database.Store.UpdatePostStatus | services/database_service.py:94-102 | the post's status is replaced, and its channel message id only when a non-zero id is given; an unknown id changes nothing |
| Database.Store.PrefLang | services/database_service.py:104-109 | the stored language of a user exactly when the user has a row |
| Database.Store.SetUserPrefLang | services/database_service.py:111-124 | afterwards the user's stored language is the given one and no other user's changes |
| ConversationFlow.TextStepOf | handlers/conversation_flow.py:361-480 | a text step writes the field its state collects and moves within the category block or on to ASK_PRICE; the four hand-written handlers are not text steps |
| ConversationFlow.SkipStepOf | handlers/conversation_flow.py:371-474 | exactly CAR_YEAR, HOUSE_ROOMS, HOUSE_AREA, HOUSE_YEAR_BUILT, ANIMAL_BREED and ANIMAL_SEX have a skip; a skip goes where the typed answer would, and ANIMAL_SEX's skip goes to ASK_PRICE |
| ConversationFlow.Previewed | handlers/conversation_flow.py:602-659 | showing the preview records the new preview message id, consumes the media-edited flag and fills in the identity, and changes nothing else |
| ConversationFlow.LanguageChanged | handlers/conversation_flow.py:237-252 | the session after a language choice; stated by `LanguageChangeWipesInterruptedAd` |
| ConversationFlow.LanguageChangeWipesInterruptedAd | handlers/conversation_flow.py:226-255 | a change made while an ad was interrupted resets the ad exactly as a reset does, with the new language; without the flag only the language changes |
| ConversationFlow.BranchStart | handlers/conversation_flow.py:314-358 | the first state of a category lies in that category's block and collects the category's first field |
| ConversationFlow.KeptMembership | handlers/conversation_flow.py:739-759 | a field is kept for the menu exactly when it is listed and passes its test |
| ConversationFlow.EditMenuOffers | handlers/conversation_flow.py:739-759 | the edit menu offers a common field iff its key is in the session, and a category field iff it belongs to the current category and its value is not `None` |
| ConversationFlow.MediaNeverOffered | handlers/conversation_flow.py:741 | `media` is never offered, because the list is stored under another key |
| ConversationFlow.EditLabel | handlers/conversation_flow.py:748-755 | a menu button's label: the button text of the field, or for a category field without one its own name title-cased; stated by `EditLabelFallsBack` |
| ConversationFlow.EditLabelFallsBack | handlers/conversation_flow.py:752-755 | a category field with no button text is labelled with its own name, title-cased with spaces |
| ConversationFlow.EditTarget | handlers/conversation_flow.py:785-811 | the state an edit key jumps to: the common table's, then the current category's, else none; stated by `EditTargetCollectsField` and `Session.LookUpEditTarget` |
| ConversationFlow.EditTargetCollectsField | handlers/conversation_flow.py:777-855 | every offered field has a target state, and that state collects exactly that field |
| ConversationFlow.CollectButtons | handlers/conversation_flow.py:739-759 | the loop builds exactly one button per kept field, in order |
| ConversationFlow.MenuButtonsRoundTrip | handlers/conversation_flow.py:744-780 | the menu has one button per offered field, and reading back each button's payload after the edit prefix gives that field |
| ConversationFlow.FinalStatus | handlers/conversation_flow.py:700-711 | `published` iff a message came back and reporting it did not raise; `no_message_sent` iff none came back and reporting did not raise; `exception` otherwise |
| ConversationFlow.StatusWrites | handlers/conversation_flow.py:700-711 | one or two status writes, the last being the final status; two exactly when reporting raised after a write |
| ConversationFlow.OutcomeMessage | handlers/conversation_flow.py:702-712 | the user gets a success text exactly when the post ends published, and the general error otherwise |
| ConversationFlow.Publish | handlers/conversation_flow.py:676-712 | the feed send comes first, then the status writes; the row ends with the final status and the channel message id; nothing else in the store changes |
| ConversationFlow.SaveAndPublish | handlers/conversation_flow.py:668-712 | the row is saved before anything is sent, under a fresh id, and ends with the final status; a session without category or user writes and sends nothing |
| ConversationFlow.Session.constructor | handlers/conversation_flow.py:26-35 | a new session is empty |
| ConversationFlow.Session.GetCommonData | handlers/conversation_flow.py:26-35 | the session becomes `WithCommonData` of itself |
| ConversationFlow.Session.ClearUserDataForNewPost | handlers/conversation_flow.py:38-56 | the session becomes `Cleared` of itself |
| ConversationFlow.Session.ShowPreview | handlers/conversation_flow.py:602-659 | goes to PREVIEW with the confirm prompt; the session becomes `Previewed` of itself |
| ConversationFlow.Session.HandleTextInput | handlers/conversation_flow.py:108-124 | blank input changes nothing and re-asks; otherwise the trimmed text is stored, and the next state is PREVIEW (consuming the flag) iff the flag names this field, else the declared next state with the flag untouched |
| ConversationFlow.Session.HandleSkipField | handlers/conversation_flow.py:87-105 | the field named in the payload is set to `None` and the declared next state follows, even while editing |
| ConversationFlow.Session.AskCategory | handlers/conversation_flow.py:298-312 | fills in the common data and goes to CATEGORY_SELECT |
| ConversationFlow.Session.StartCommand | handlers/conversation_flow.py:130-189 | the session is reset; a supported stored language skips the language question and goes to CATEGORY_SELECT, otherwise LANG_SELECT |
| ConversationFlow.Session.HandleLanguageSelection | handlers/conversation_flow.py:192-209 | a supported code is stored in the session and leads to CATEGORY_SELECT; the users table gains exactly that user's row (code, first name, username), other rows, the posts and the next id are kept; any other code changes nothing and ends |
| ConversationFlow.Session.LanguageCommand | handlers/conversation_flow.py:211-224 | fills in the common data, marks the ad as interrupted when one is in progress, and waits for a choice |
| ConversationFlow.Session.HandleLanguageChangeSelection | handlers/conversation_flow.py:226-255 | a supported code is stored and the session becomes `LanguageChanged` (wiping an interrupted ad); the users table gains exactly that user's row, other rows, the posts and the next id are kept; any other code changes nothing; both end |
| ConversationFlow.Session.DropAdKeys | handlers/conversation_flow.py:247-252 | removes every ad key and keeps language, identity and the interrupted flag |
| ConversationFlow.Session.CancelConversation | handlers/conversation_flow.py:262-280 | the session is reset and the conversation ends |
| ConversationFlow.Session.TimeoutConversation | handlers/conversation_flow.py:282-295 | the session is reset and the conversation ends |
| ConversationFlow.Session.HandleCategorySelection | handlers/conversation_flow.py:314-358 | a known category is set with empty category data and leads to that category's first state; an unknown one changes nothing and ends |
| ConversationFlow.Session.HandleHousePropertyType | handlers/conversation_flow.py:382-392 | stores the localized property type and goes to HOUSE_ROOMS, without consulting the edit flag |
| ConversationFlow.Session.HandleAnimalType | handlers/conversation_flow.py:423-434 | blank input re-asks; otherwise stores the trimmed type and goes to ANIMAL_BREED, without consulting the edit flag |
| ConversationFlow.Session.HandleAnimalAge | handlers/conversation_flow.py:444-460 | blank input re-asks; otherwise stores the trimmed age and goes to ANIMAL_SEX, without consulting the edit flag |
| ConversationFlow.Session.HandleAnimalSex | handlers/conversation_flow.py:462-470 | stores the localized sex and goes to ASK_PRICE, without consulting the edit flag |
| ConversationFlow.Session.FinishCommonField | handlers/conversation_flow.py:491-492 | the edit flag is always removed; PREVIEW follows iff it named this field, else the given next step |
| ConversationFlow.Session.HandleAskPrice | handlers/conversation_flow.py:483-492 | a price without a digit changes nothing and re-asks; otherwise the trimmed price is stored, the flag is removed, and the next state is PREVIEW iff the flag was `price`, else ASK_LOCATION |
| ConversationFlow.Session.HandleAskLocation | handlers/conversation_flow.py:494-503 | an empty location changes nothing and re-asks; otherwise it is stored, the flag is removed, and the next state is PREVIEW iff the flag was `location`, else ASK_DESCRIPTION |
| ConversationFlow.Session.HandleAskDescription | handlers/conversation_flow.py:505-519 | a description over 1000 characters changes nothing and re-asks; any other, even empty, is stored; the flag is removed; the next state is PREVIEW iff the flag was `description`, else ASK_MEDIA |
| ConversationFlow.Session.HandleSkipGenericDescription | handlers/conversation_flow.py:521-536 | the description is stored as skipped, the flag is removed, and the next state is PREVIEW iff the flag was `description`, else ASK_MEDIA |
| ConversationFlow.Session.HandleAskMediaFiles | handlers/conversation_flow.py:538-567 | always stays in ASK_MEDIA; at the cap nothing is added; otherwise a new file id is appended and a repeated one is not |
| ConversationFlow.Session.HandleDoneMediaUpload | handlers/conversation_flow.py:569-579 | with no media it stays in ASK_MEDIA; otherwise it shows the preview |
| ConversationFlow.Session.HandleClearAllMedia | handlers/conversation_flow.py:581-599 | the media list becomes empty and the state stays ASK_MEDIA |
| ConversationFlow.Session.HandleBackToPreview | handlers/conversation_flow.py:857-859 | only the preview bookkeeping changes; no answer changes |
| ConversationFlow.Session.AskEditChoice | handlers/conversation_flow.py:730-773 | the buttons are exactly the menu of offered fields; with none it shows the preview again, otherwise it goes to EDIT_CHOICE with no data changed |
| ConversationFlow.Session.HandleEditFieldSelection | handlers/conversation_flow.py:777-855 | the flag names the chosen key and its value is kept (`media` also empties the list and sets the media flag); the next state is the key's target, or EDIT_CHOICE for an unknown key |
| ConversationFlow.Session.LookUpEditTarget | handlers/conversation_flow.py:792-811 | the target is the common table's state, then the current category's, or none |
| ConversationFlow.Session.MarkEditing | handlers/conversation_flow.py:785-801 | sets the edit flag; for `media` also empties the list and sets the media flag |
| ConversationFlow.Session.PostAd | handlers/conversation_flow.py:668-715 | saves before sending, publishes, resets the session and ends; a session without a category raises before the save, so nothing changes and the state stays PREVIEW |
| ConversationFlow.Session.HandlePreviewAction | handlers/conversation_flow.py:661-727 | post: as `PostAd`; edit: the edit menu; cancel: reset and end; any other action changes nothing and stays in PREVIEW |
| Dispatch.StateHandler | handlers/conversation_flow.py:872-906 | a handler a state accepts has a payload with its pattern's prefix; a text step or skip belongs to that state; text reaches only text handlers; the first-language handler refuses `lang_change_` payloads |
| Dispatch.MainRoute | handlers/conversation_flow.py:907-920 | the ad-posting conversation's choice: `/start` first, then the state's handlers, then the fallbacks; stated by `StartAlwaysHandled`, `TextInButtonStatesFallsBack` and `MainRouteWellFormed` |
| Dispatch.LanguageRoute | handlers/conversation_flow.py:922-935 | the language conversation's choice: `/language` when idle, a `lang_change_` payload or `/cancel` while it waits; stated by `LanguageChangeBypassesMain` |
| Dispatch.Route | handlers/conversation_flow.py:868-935 | the ad-posting conversation first, the language conversation only for what it leaves; the main timeout runs `timeout_conversation` only when the last update was a message, since its one handler is a message handler, and otherwise ends the conversation with no handler; stated by `RouteWellFormed` and `Deliver` |
| Dispatch.StartAlwaysHandled | handlers/conversation_flow.py:907-919 | `/start` reaches the ad-posting conversation from every state |
| Dispatch.SkipPayloadHandler | handlers/conversation_flow.py:877-894 | a payload starting with `s` is taken only as that state's own skip payload |
| Dispatch.SkipOnlyWhereOffered | handlers/conversation_flow.py:877-894 | a skip payload is handled iff the current state offers a skip for exactly that field; otherwise it is dropped |
| Dispatch.SkipFieldInjective | handlers/conversation_flow.py:68 | different fields give different skip payloads |
| Dispatch.LanguageChangeBypassesMain | handlers/conversation_flow.py:873-935 | a `lang_change_` payload is never taken by the ad-posting conversation; it reaches the language conversation iff that one is waiting |
| Dispatch.SkipDescriptionOnlyInAskDescription | handlers/conversation_flow.py:894 | the skip-description button is taken only while the description is asked; in every other state no handler of either conversation takes it |
| Dispatch.TextInButtonStatesFallsBack | handlers/conversation_flow.py:910-913 | text in a state that expects a button goes to the unknown-input fallback and never to a text step |
| Dispatch.DeliverMain | handlers/conversation_flow.py:868-920 | unknown text changes nothing; `/start` leaves no ad in progress; cancel and timeout end with no ad; only the preview action touches the posts table |
| Dispatch.DeliverLanguage | handlers/conversation_flow.py:922-935 | the language conversation waits iff `/language` was handled; `/language` fills in the common data and marks an ad in progress as interrupted; a supported choice gives the language-changed session and writes exactly that user's row of the users table, keeping the rest of the store; an unsupported one changes nothing; its timeout changes nothing; `/language` and its `/cancel` leave the store untouched, and its `/cancel` resets the session; it never touches posts |
| Dispatch.Deliver | handlers/conversation_flow.py:868-935 | a dropped update changes nothing; unknown text keeps the state and the session; `/start` leaves no ad in progress and asks for a category or a language; `/cancel` and a timeout after a message end with no ad, the timeout with the reset session, the timeout message and the store untouched; a timeout after a button press ends the conversation and leaves the session, the store and the prompt untouched; the language conversation's `/cancel` resets the session; the language conversation never moves the main state; only the preview action touches the posts table |
| Dispatch.RouteWellFormed | handlers/conversation_flow.py:868-935 | every routed update reaches a handler of the right conversation whose payload matches its pattern and whose step belongs to the current state |
| Dispatch.StepsStayInAdFlow | handlers/conversation_flow.py:361-480 | no category step leads to CHANGE_LANG_PROMPT |
| Scenarios.CarAdToPreview | handlers/conversation_flow.py:314-659 | a car ad with skipped year and description and one photo reaches PREVIEW holding exactly the given answers |
| Scenarios.CarPreviewLines | services/message_formatter.py:7-91 | that ad's preview shows make and model, mileage, price, location, the no-description line and a one-photo line |
| Scenarios.CarShownFields | services/message_formatter.py:28-34 | the skipped year is not shown |
| Scenarios.EditPriceFromPreview | handlers/conversation_flow.py:730-855 | editing the price from the preview returns to PREVIEW with only the price replaced, and nothing is saved |
| Scenarios.TimeoutWhileAskingPrice | handlers/conversation_flow.py:282-295 | a timeout while the price is asked, after a typed answer, is delivered to the ad conversation and ends the conversation with the timeout message and a session that keeps only the language and the identity |
| Scenarios.TimeoutAfterButtonKeepsDraft | handlers/conversation_flow.py:904-906 | a timeout at the preview reached by a button press ends the conversation with no message and the full draft still in the session |
| Scenarios.CancelFromPreview | handlers/conversation_flow.py:721-725 | cancelling from the preview ends with a reset session and nothing saved |
| Scenarios.PostCarAd | handlers/conversation_flow.py:668-715 | posting stores a published record with the answers and the message id, resets the session and ends |
| Scenarios.PostAfterLanguageChange | handlers/conversation_flow.py:226-255 | after `/language` and a choice at the preview, the ad is wiped but the state is still PREVIEW, and posting then saves nothing |

## Left out

- Telegram I/O is not modelled: messages, keyboards, `edit_message_text`, `send_media_group`,
  `delete_message`, `query.answer` and the `BadRequest` fallbacks.
  - Each handler returns only the key of its main text.
  - Auxiliary notices, such as "conversation restarted", "category chosen" and "media
    cleared", are not modelled.
  - The id of a message the bot sends is a parameter.
- Which message a handler edits is not modelled: the `message_to_edit` argument of
  `show_preview` and the deletion of the previous preview message have no effect on the
  session.
- `help_command` (handlers/conversation_flow.py:257-260) is not modelled. It only sends text
  and changes no state.
- The timeout's message to the chat is left out; the timeout handler is modelled only by its
  effect on the session.
- The framework's per-user and per-chat keying is left out. The model is one user's session,
  and concurrency between users is not modelled.
- The conversation timeout durations are left out. Timeouts are modelled only as events. Whether
  the last update before the main timeout was a message is a parameter of that event.
- The contents of the three string tables are left out; the table is a parameter.
- Python's `str.format` is modelled only for named `{name}` fields. Positional fields, escapes
  and format specs are not modelled. A lone `{` or `}` is kept as it is, and `}}` stays two
  characters. Python raises `ValueError` on the first and turns the second into `}`.
- `strip()` trims only space, `\t`, `\n`, `\v`, `\f` and `\r`. Python also strips the separators
  `\x1c`-`\x1f`, `\x85` and the Unicode spaces; those are not modelled.
- ConversationFlow.Session.HandleAskPrice: its digit test accepts only the ASCII digits 0-9.
  Python's `\d` also matches the other Unicode decimal digits.
- Logging is left out.
- SQLite, JSON serialization and the schema are left out.
  - The `title` column is always NULL in the source, so it is left out.
  - The users table's `last_seen` time is left out.
- main.py (bootstrap, polling, command registration) is not part of this model.
- Where the bot publishes is a parameter:
  - The publish outcome is a `FeedResult`: a message came back, none did, or the send raised.
  - Whether reporting the outcome to the user raised is a flag.
  - Whether the target is a channel is a flag.
- Extracting a file id from `message.photo[-1]` is left out; an upload is a (kind, file id)
  pair. An upload with an empty file id adds nothing, as in the source.
- ConversationFlow.Session.PostAd: when the save raises (no category, which can happen only
  after the language quirk below), the model returns the empty prompt with nothing changed.
  The framework then keeps the state at PREVIEW and the user gets no answer.
- ConversationFlow.Publish: the model assumes that reporting a failed publish succeeds. In the
  source the status write and the user message in the `except` branch
  (handlers/conversation_flow.py:709-712) are not guarded; if either raises, the reset and END
  are skipped and the draft stays at PREVIEW. ConversationFlow.Session.PostAd and
  ConversationFlow.Session.HandlePreviewAction inherit this.
- Dispatch.Deliver: its contract states the routing facts and the resets. The exact new session
  after each state handler is given by that handler's own contract.
- Dispatch.DeliverMain: its contract states the cross-handler facts only. Each handler's own
  contract gives the new session exactly.
- Dispatch.RouteWellFormed: it states well-formedness only. The exact handler for each state
  and event is the definition `StateHandler`, and the lemmas beside it state its properties.

Behaviour of the code that differs from what the flow appears meant to do:

- A language change made while an ad is in progress wipes the ad keys, but the ad-posting
  conversation keeps its state. For example it stays at PREVIEW, and posting from there then
  raises in `save_post` and saves nothing (`Scenarios.PostAfterLanguageChange`). Because the
  handler raises, python-telegram-bot schedules no new timeout for that update, so in the
  program the conversation then waits at PREVIEW with no timeout until `/start`. The model
  still accepts a main timeout event there.
- `/cancel` while the language conversation waits for a choice goes to the same
  `cancel_conversation`, which resets the ad too.
- The main timeout shows the timeout message and resets the session only when the last update
  was a message. After a button press (the preview reached by "Done", a category or language
  button, a skip or an edit choice) the conversation ends silently and the draft stays in the
  session (`Scenarios.TimeoutAfterButtonKeepsDraft`).
- A skip payload for a field the current state does not collect reaches no handler. Since it
  is not text, the fallback does not take it either, so it is dropped.

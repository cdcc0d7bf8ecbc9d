/** Localized text lookup. The three string tables are data, not logic, so they are a
    parameter here: a map from (language, key) to a template. A template's `{name}`
    placeholders are filled from keyword arguments, as Python's `str.format` does for
    named fields. */
module Localization {
  import opened Wrappers
  import opened Strings
  import Config

  /** The string tables: the template for a (language code, key) pair. */
  type Table = map<(string, string), string>

  /** Keyword arguments of a lookup, each already rendered as text. */
  type Args = map<string, string>

  /** `str.format(**args)` restricted to named `{name}` fields: each field is replaced by
      its argument, and a field whose name has no argument fails (Python's KeyError). */
  function Format(t: string, args: Args): Option<string>
    decreases |t|
  {
    if t == [] then Some([])
    else if t[0] == '{' && '}' in t then
      var k := IndexOf(t, '}');
      var name := t[1..k];
      if name in args then
        match Format(t[k + 1..], args)
        case Some(rest) => Some(args[name] + rest)
        case None => None
      else None
    else
      match Format(t[1..], args)
      case Some(rest) => Some([t[0]] + rest)
      case None => None
  }

  /** The names of the `{name}` fields of a template. */
  function Placeholders(t: string): set<string>
    decreases |t|
  {
    if t == [] then {}
    else if t[0] == '{' && '}' in t then
      var k := IndexOf(t, '}');
      {t[1..k]} + Placeholders(t[k + 1..])
    else Placeholders(t[1..])
  }

  /** Formatting fails exactly when some field of the template has no argument. */
  lemma {:induction false} FormatFailsIffMissing(t: string, args: Args)
    ensures Format(t, args).None? <==> !(Placeholders(t) <= args.Keys)
    decreases |t|
  {
    if t == [] {
    } else if t[0] == '{' && '}' in t {
      var k := IndexOf(t, '}');
      FormatFailsIffMissing(t[k + 1..], args);
    } else {
      FormatFailsIffMissing(t[1..], args);
    }
  }

  /** A template without an opening brace formats to itself, whatever the arguments. */
  lemma {:induction false} FormatWithoutBraces(t: string, args: Args)
    requires '{' !in t
    ensures Format(t, args) == Some(t)
    decreases |t|
  {
    if t != [] {
      assert t[0] != '{' && '{' !in t[1..];
      FormatWithoutBraces(t[1..], args);
      assert [t[0]] + t[1..] == t;
    }
  }

  /** The language a lookup really uses: an unsupported code becomes the default language. */
  function NormalizeLang(lang: string): (l: string)
    ensures l in Config.SUPPORTED_LANGUAGES
    ensures lang in Config.SUPPORTED_LANGUAGES ==> l == lang
    ensures lang !in Config.SUPPORTED_LANGUAGES ==> l == Config.DEFAULT_LANGUAGE
  {
    if lang in Config.SUPPORTED_LANGUAGES then lang else Config.DEFAULT_LANGUAGE
  }

  /** The placeholder an unknown key yields: the key between underscores. */
  function MissingKeyText(key: string): string {
    "_" + key + "_"
  }

  /** The template stored for a (supported) language and key, or the missing-key placeholder. */
  function Template(table: Table, lang: string, key: string): string {
    if (lang, key) in table then table[(lang, key)] else MissingKeyText(key)
  }

  /** Keys whose `{max_desc_len}` field defaults to the description limit. */
  predicate IsDescLengthKey(key: string) {
    key == "ask_description" || key == "description_too_long"
  }

  /** Keys whose `{max_media}` field defaults to the media limit. */
  predicate IsMediaCountKey(key: string) {
    key == "ask_media" || key == "media_received" || key == "max_media_reached"
  }

  /** Keys formatted without the missing-argument fallback. */
  predicate IsDefaultedKey(key: string) {
    IsDescLengthKey(key) || IsMediaCountKey(key)
  }

  /** The arguments a lookup of `key` formats with: the caller's, over the key's default. */
  function EffectiveArgs(key: string, kwargs: Args): Args {
    if IsDescLengthKey(key) then map["max_desc_len" := DecimalString(Config.MAX_DESCRIPTION_LENGTH)] + kwargs
    else if IsMediaCountKey(key) then map["max_media" := DecimalString(Config.MAX_MEDIA_ITEMS)] + kwargs
    else kwargs
  }

  /** `get_text(key, lang, **kwargs)`. `None` stands for the KeyError a defaulted key
      raises when its template has a field no argument fills; any other key never
      fails and falls back to its unformatted template instead. */
  function GetText(table: Table, key: string, lang: string, kwargs: Args): (r: Option<string>)
    ensures !IsDefaultedKey(key) ==> r.Some?
  {
    var template := Template(table, NormalizeLang(lang), key);
    if IsDefaultedKey(key) then Format(template, EffectiveArgs(key, kwargs))
    else
      match Format(template, kwargs)
      case Some(text) => Some(text)
      case None => Some(template)
  }

  /** An unsupported language code reads the default language's table. */
  lemma LanguageFallback(table: Table, key: string, lang: string, kwargs: Args)
    requires lang !in Config.SUPPORTED_LANGUAGES
    ensures GetText(table, key, lang, kwargs) == GetText(table, key, Config.DEFAULT_LANGUAGE, kwargs)
  {
  }

  /** A key missing from the table yields the `_key_` placeholder instead of failing. */
  lemma UnknownKeyPlaceholder(table: Table, key: string, lang: string, kwargs: Args)
    requires (NormalizeLang(lang), key) !in table
    requires '{' !in key
    ensures GetText(table, key, lang, kwargs) == Some(MissingKeyText(key))
  {
    FormatWithoutBraces(MissingKeyText(key), EffectiveArgs(key, kwargs));
  }

  /** Outside the defaulted keys, the text is the formatted template when every field has an
      argument, and the unformatted template otherwise. */
  lemma MissingArgumentsFallBack(table: Table, key: string, lang: string, kwargs: Args)
    requires !IsDefaultedKey(key)
    ensures var t := Template(table, NormalizeLang(lang), key);
      GetText(table, key, lang, kwargs) == if Placeholders(t) <= kwargs.Keys then Format(t, kwargs) else Some(t)
  {
    FormatFailsIffMissing(Template(table, NormalizeLang(lang), key), kwargs);
  }

  /** The description keys get `max_desc_len = MAX_DESCRIPTION_LENGTH` unless the caller passes
      its own value, and the media keys get `max_media = MAX_MEDIA_ITEMS` likewise; every other
      argument is the caller's. */
  lemma DefaultArguments(key: string, kwargs: Args)
    ensures forall n :: n in kwargs ==> n in EffectiveArgs(key, kwargs) && EffectiveArgs(key, kwargs)[n] == kwargs[n]
    ensures IsDescLengthKey(key) ==> (EffectiveArgs(key, kwargs) ==
      if "max_desc_len" in kwargs then kwargs else kwargs["max_desc_len" := DecimalString(Config.MAX_DESCRIPTION_LENGTH)])
    ensures IsMediaCountKey(key) ==> (EffectiveArgs(key, kwargs) ==
      if "max_media" in kwargs then kwargs else kwargs["max_media" := DecimalString(Config.MAX_MEDIA_ITEMS)])
    ensures !IsDefaultedKey(key) ==> EffectiveArgs(key, kwargs) == kwargs
  {
  }

  /** A defaulted key fails (raises) exactly when a field of its template is neither the
      defaulted one nor among the caller's arguments. */
  lemma DefaultedKeyFailsIffMissing(table: Table, key: string, lang: string, kwargs: Args)
    requires IsDefaultedKey(key)
    ensures GetText(table, key, lang, kwargs).None? <==>
      !(Placeholders(Template(table, NormalizeLang(lang), key)) <= EffectiveArgs(key, kwargs).Keys)
  {
    FormatFailsIffMissing(Template(table, NormalizeLang(lang), key), EffectiveArgs(key, kwargs));
  }

  /** Keys starting like `category_…`, `preview_…`, `btn_edit_…` or `animal_sex_…` are never
      defaulted (their first two letters differ from every defaulted key's), so looking them
      up never fails. */
  lemma NotDefaultedByLeadingLetters(key: string)
    requires |key| >= 2
    requires [key[0], key[1]] in {"ca", "pr", "bt", "an"}
    ensures !IsDefaultedKey(key)
  {
  }

  /** `get_user_lang`: the session's language, or the default language when it has none. */
  function GetUserLang(lang: Option<string>): (l: string)
    ensures lang.Some? ==> l == lang.value
    ensures lang.None? ==> l == Config.DEFAULT_LANGUAGE
  {
    lang.GetOr(Config.DEFAULT_LANGUAGE)
  }

  /** `get_category_display_name`: the text of the key `category_<key>`. */
  function GetCategoryDisplayName(table: Table, category: string, lang: string): (r: string)
    ensures Some(r) == GetText(table, "category_" + category, lang, map[])
  {
    NotDefaultedByLeadingLetters("category_" + category);
    GetText(table, "category_" + category, lang, map[]).value
  }
}

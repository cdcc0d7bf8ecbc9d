/** The ad preview: session data to an ordered list of line tokens (a text key and its
    arguments), each rendered through the text lookup and joined with newlines. */
module MessageFormatter {
  import opened Wrappers
  import opened Strings
  import opened UserData
  import Config
  import Constants
  import L = Localization

  /** The text keys a preview line can use. */
  datatype PreviewKey =
    | Title(category: string)           // preview_title_<category>
    | Field(field: string)              // preview_field_<field>
    | NoDescription                     // preview_field_no_description
    | MediaInfo(kind: string)           // preview_media_info_<photo|video|mixed>

  /** The text key a preview key stands for. */
  function KeyText(k: PreviewKey): (key: string)
    ensures !L.IsDefaultedKey(key)
  {
    var key := match k
      case Title(c) => "preview_title_" + c
      case Field(f) => "preview_field_" + f
      case NoDescription => "preview_field_no_description"
      case MediaInfo(kind) => "preview_media_info_" + kind;
    L.NotDefaultedByLeadingLetters(key);
    key
  }

  /** One line of the preview before lookup: its text key and keyword arguments. */
  datatype Line = Line(key: PreviewKey, args: map<string, string>)

  /** The category the preview is for; an unset category reads as `other`. */
  function CategoryOf(d: UserData): string {
    d.category.GetOr("other")
  }

  /** The language the preview is written in. */
  function LangOf(d: UserData): string {
    d.lang.GetOr(Config.DEFAULT_LANGUAGE)
  }

  /** The title line: the category's own title, or the `other` title when the category's
      lookup came back as the `_key_` placeholder. */
  function TitleLine(table: L.Table, lang: string, category: string): (l: Line)
    ensures l.key == Title(category) || l.key == Title("other")
    ensures l.args == map["category_display_name" := L.GetCategoryDisplayName(table, category, lang)]
  {
    var args := map["category_display_name" := L.GetCategoryDisplayName(table, category, lang)];
    var key := KeyText(Title(category));
    var text := L.GetText(table, key, lang, args).value;
    if Contains(text, L.MissingKeyText(key)) then Line(Title("other"), args)
    else Line(Title(category), args)
  }

  /** A category without its own title entry is titled with the `other` title. */
  lemma TitleFallsBackWhenMissing(table: L.Table, lang: string, category: string)
    requires (L.NormalizeLang(lang), KeyText(Title(category))) !in table
    requires '{' !in category
    ensures TitleLine(table, lang, category).key == Title("other")
  {
    var key := KeyText(Title(category));
    var args := map["category_display_name" := L.GetCategoryDisplayName(table, category, lang)];
    L.UnknownKeyPlaceholder(table, key, lang, args);
    var text := L.MissingKeyText(key);
    assert OccursAt(text, text, 0);
  }

  /** A category whose title template is plain text, without the placeholder in it, keeps
      its own title. */
  lemma TitleKeptWhenPresent(table: L.Table, lang: string, category: string)
    requires (L.NormalizeLang(lang), KeyText(Title(category))) in table
    requires '{' !in table[(L.NormalizeLang(lang), KeyText(Title(category)))]
    requires !Contains(table[(L.NormalizeLang(lang), KeyText(Title(category)))], L.MissingKeyText(KeyText(Title(category))))
    ensures TitleLine(table, lang, category).key == Title(category)
  {
    var key := KeyText(Title(category));
    var args := map["category_display_name" := L.GetCategoryDisplayName(table, category, lang)];
    var template := table[(L.NormalizeLang(lang), key)];
    L.FormatWithoutBraces(template, args);
    assert L.Template(table, L.NormalizeLang(lang), key) == template;
    assert L.GetText(table, key, lang, args) == Some(template);
  }

  /** `b` keeps the elements of `a` in order, possibly with others between them. */
  predicate Subsequence(a: seq<string>, b: seq<string>) {
    a == [] || (b != [] && ((a[0] == b[0] && Subsequence(a[1..], b[1..])) || Subsequence(a, b[1..])))
  }

  /** The fields of `fields` that get a preview line: those holding a truthy value, in the
      given order. */
  function ShownFields(fields: seq<string>, catData: map<string, Option<string>>): (shown: seq<string>)
    ensures forall f :: f in shown <==> f in fields && FieldTruthy(catData, f)
    ensures Subsequence(shown, fields)
  {
    if fields == [] then []
    else if FieldTruthy(catData, fields[0]) then [fields[0]] + ShownFields(fields[1..], catData)
    else ShownFields(fields[1..], catData)
  }

  /** One line per shown field of the category, in declaration order. */
  function CategoryLines(category: string, catData: map<string, Option<string>>): seq<Line> {
    var shown := ShownFields(Constants.CategoryFieldOrder(category), catData);
    seq(|shown|, i requires 0 <= i < |shown| =>
      assert shown[i] in shown; Line(Field(shown[i]), map["value" := catData[shown[i]].value]))
  }

  /** The price or location line: present exactly when the value is truthy. */
  function OptionalLine(field: string, value: Option<string>): (ls: seq<Line>)
    ensures |ls| <= 1
    ensures ls != [] <==> Truthy(value)
    ensures ls != [] ==> ls[0] == Line(Field(field), map["value" := value.value])
  {
    if Truthy(value) then [Line(Field(field), map["value" := value.value])] else []
  }

  /** The one description line: the description when it is truthy, else the no-description line. */
  function DescriptionLine(d: UserData): (l: Line)
    ensures l.key == Field("description") <==> DescriptionTruthy(d)
    ensures DescriptionTruthy(d) ==> l.args == map["value" := d.description.value.value]
    ensures !DescriptionTruthy(d) ==> l == Line(NoDescription, map[])
  {
    if DescriptionTruthy(d) then Line(Field("description"), map["value" := d.description.value.value])
    else Line(NoDescription, map[])
  }

  /** How many items of the list are of the given kind. */
  function CountKind(media: seq<MediaItem>, kind: MediaKind): (n: nat)
    ensures n <= |media|
  {
    if media == [] then 0
    else (if media[0].kind == kind then 1 else 0) + CountKind(media[1..], kind)
  }

  /** Every item is a photo or a video, so the two counts add up to the list's length. */
  lemma {:induction false} CountKindsPartition(media: seq<MediaItem>)
    ensures CountKind(media, Photo) + CountKind(media, Video) == |media|
  {
    if media != [] {
      CountKindsPartition(media[1..]);
    }
  }

  /** The media summary: the photo count for photos only, the video count for videos only,
      the total for a mix, and nothing for an empty list. Some line appears exactly when the
      list is not empty. */
  function MediaLines(media: seq<MediaItem>): (ls: seq<Line>)
    ensures |ls| <= 1
    ensures ls != [] <==> media != []
    ensures CountKind(media, Photo) > 0 && CountKind(media, Video) == 0 ==>
      ls == [Line(MediaInfo("photo"), map["count" := DecimalString(|media|)])]
    ensures CountKind(media, Video) > 0 && CountKind(media, Photo) == 0 ==>
      ls == [Line(MediaInfo("video"), map["count" := DecimalString(|media|)])]
    ensures CountKind(media, Photo) > 0 && CountKind(media, Video) > 0 ==>
      ls == [Line(MediaInfo("mixed"), map["count" := DecimalString(|media|)])]
  {
    CountKindsPartition(media);
    var photos, videos := CountKind(media, Photo), CountKind(media, Video);
    if media == [] then []
    else if photos > 0 && videos == 0 then [Line(MediaInfo("photo"), map["count" := DecimalString(photos)])]
    else if videos > 0 && photos == 0 then [Line(MediaInfo("video"), map["count" := DecimalString(videos)])]
    else if photos > 0 && videos > 0 then [Line(MediaInfo("mixed"), map["count" := DecimalString(|media|)])]
    else []
  }

  /** `format_preview_message` before lookup: title, category fields, price, location,
      description, media, in that order. */
  function PreviewLines(table: L.Table, d: UserData): (ls: seq<Line>)
    ensures |ls| >= 2
    ensures ls[0] == TitleLine(table, LangOf(d), CategoryOf(d))
  {
    [TitleLine(table, LangOf(d), CategoryOf(d))]
      + CategoryLines(CategoryOf(d), d.catData)
      + OptionalLine("price", d.price)
      + OptionalLine("location", d.location)
      + [DescriptionLine(d)]
      + MediaLines(d.media)
  }

  predicate IsDescriptionLine(l: Line) {
    l.key == Field("description") || l.key == NoDescription
  }

  /** No category line is about the description: every category line is the line of a
      category field, and no category has a field named `description`. */
  lemma CategoryLinesAreFields(category: string, catData: map<string, Option<string>>)
    ensures forall l :: l in CategoryLines(category, catData) ==> !IsDescriptionLine(l)
  {
    var cat := CategoryLines(category, catData);
    var fields := Constants.CategoryFieldOrder(category);
    var shown := ShownFields(fields, catData);
    assert "description" !in fields;
    forall l | l in cat ensures !IsDescriptionLine(l) {
      var k :| 0 <= k < |cat| && cat[k] == l;
      assert shown[k] in shown;
    }
  }

  /** A sequence with exactly one description line, placed between two without any. */
  lemma UniqueBetween(head: seq<Line>, x: Line, tail: seq<Line>)
    requires forall l :: l in head ==> !IsDescriptionLine(l)
    requires forall l :: l in tail ==> !IsDescriptionLine(l)
    requires IsDescriptionLine(x)
    ensures var ls := head + [x] + tail;
      exists i :: 0 <= i < |ls| && IsDescriptionLine(ls[i]) &&
        forall j :: 0 <= j < |ls| && j != i ==> !IsDescriptionLine(ls[j])
  {
    var ls := head + [x] + tail;
    var i := |head|;
    assert ls[i] == x;
    forall j | 0 <= j < |ls| && j != i ensures !IsDescriptionLine(ls[j]) {
      if j < i {
        assert ls[j] in head;
      } else {
        assert ls[j] == tail[j - i - 1];
        assert ls[j] in tail;
      }
    }
  }

  /** Exactly one line of the preview is about the description. */
  lemma ExactlyOneDescriptionLine(table: L.Table, d: UserData)
    ensures var ls := PreviewLines(table, d);
      exists i :: 0 <= i < |ls| && IsDescriptionLine(ls[i]) &&
        forall j :: 0 <= j < |ls| && j != i ==> !IsDescriptionLine(ls[j])
  {
    var title := TitleLine(table, LangOf(d), CategoryOf(d));
    var cat := CategoryLines(CategoryOf(d), d.catData);
    var head := [title] + cat + OptionalLine("price", d.price) + OptionalLine("location", d.location);
    CategoryLinesAreFields(CategoryOf(d), d.catData);
    UniqueBetween(head, DescriptionLine(d), MediaLines(d.media));
    assert PreviewLines(table, d) == head + [DescriptionLine(d)] + MediaLines(d.media);
  }

  /** The text of each line, looked up in the session's language. */
  function Render(table: L.Table, lang: string, lines: seq<Line>): (texts: seq<string>)
    ensures |texts| == |lines|
    ensures forall i :: 0 <= i < |lines| ==>
      Some(texts[i]) == L.GetText(table, KeyText(lines[i].key), lang, lines[i].args)
  {
    if lines == [] then []
    else [L.GetText(table, KeyText(lines[0].key), lang, lines[0].args).value] + Render(table, lang, lines[1..])
  }

  /** `format_preview_message`: the rendered lines joined with newlines, title first. */
  function FormatPreviewMessage(table: L.Table, d: UserData): (text: string)
    ensures Render(table, LangOf(d), PreviewLines(table, d))[0] <= text
  {
    JoinLines(Render(table, LangOf(d), PreviewLines(table, d)))
  }

  /** When no rendered line holds a newline, splitting the preview message on newlines gives
      back exactly the rendered lines, in order. */
  lemma PreviewSplitsIntoLines(table: L.Table, d: UserData)
    requires NoNewlines(Render(table, LangOf(d), PreviewLines(table, d)))
    ensures SplitLines(FormatPreviewMessage(table, d)) == Render(table, LangOf(d), PreviewLines(table, d))
  {
    var texts := Render(table, LangOf(d), PreviewLines(table, d));
    assert |texts| >= 2;
    SplitJoinLines(texts);
  }

  /** `format_final_post`: the published text is exactly the preview text. */
  function FormatFinalPost(table: L.Table, d: UserData): (text: string)
    ensures text == FormatPreviewMessage(table, d)
  {
    FormatPreviewMessage(table, d)
  }
}

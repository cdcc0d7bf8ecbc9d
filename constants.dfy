/** The flow tables: the conversation states, the callback-data prefixes and action
    values that buttons carry, and the two maps from an editable field to the state
    that collects it. */
module Constants {
  import opened Wrappers
  import Config

  /** The 21 conversation states, in the order the source numbers them, and `End`,
      the framework's marker for "no conversation running". */
  datatype State =
    | LangSelect | CategorySelect | Preview | EditChoice | ChangeLangPrompt
    | AskPrice | AskLocation | AskDescription | AskMedia
    | CarMakeModel | CarYear | CarMileage
    | HousePropertyType | HouseRooms | HouseArea | HouseYearBuilt
    | AnimalType | AnimalBreed | AnimalAge | AnimalSex
    | OtherItemName
    | End

  const STATE_COUNT: nat := 21

  /** The states in numbering order: `STATES[n]` is the state numbered `n`. */
  const STATES: seq<State> := [
    LangSelect, CategorySelect, Preview, EditChoice, ChangeLangPrompt,
    AskPrice, AskLocation, AskDescription, AskMedia,
    CarMakeModel, CarYear, CarMileage,
    HousePropertyType, HouseRooms, HouseArea, HouseYearBuilt,
    AnimalType, AnimalBreed, AnimalAge, AnimalSex,
    OtherItemName]

  /** The integer the source uses for a state; `End` is the framework's -1. */
  function Code(s: State): (c: int)
    ensures s == End <==> c == -1
    ensures s != End ==> 0 <= c < STATE_COUNT
  {
    match s
    case LangSelect => 0
    case CategorySelect => 1
    case Preview => 2
    case EditChoice => 3
    case ChangeLangPrompt => 4
    case AskPrice => 5
    case AskLocation => 6
    case AskDescription => 7
    case AskMedia => 8
    case CarMakeModel => 9
    case CarYear => 10
    case CarMileage => 11
    case HousePropertyType => 12
    case HouseRooms => 13
    case HouseArea => 14
    case HouseYearBuilt => 15
    case AnimalType => 16
    case AnimalBreed => 17
    case AnimalAge => 18
    case AnimalSex => 19
    case OtherItemName => 20
    case End => -1
  }

  /** The numbering is a bijection between the 21 states and 0..20: `STATES`
      lists every state but `End` exactly once, at the index of its number. */
  lemma {:induction false} StateNumbering()
    ensures |STATES| == STATE_COUNT
    ensures forall n :: 0 <= n < STATE_COUNT ==> Code(STATES[n]) == n
    ensures forall s :: s != End ==> STATES[Code(s)] == s
  {
    forall s | s != End ensures STATES[Code(s)] == s {
      match s
      case LangSelect =>
      case CategorySelect =>
      case Preview =>
      case EditChoice =>
      case ChangeLangPrompt =>
      case AskPrice =>
      case AskLocation =>
      case AskDescription =>
      case AskMedia =>
      case CarMakeModel =>
      case CarYear =>
      case CarMileage =>
      case HousePropertyType =>
      case HouseRooms =>
      case HouseArea =>
      case HouseYearBuilt =>
      case AnimalType =>
      case AnimalBreed =>
      case AnimalAge =>
      case AnimalSex =>
      case OtherItemName =>
    }
  }

  /** Distinct states have distinct numbers. */
  lemma CodeInjective(a: State, b: State)
    requires Code(a) == Code(b)
    ensures a == b
  {
    StateNumbering();
  }

  /** The category whose linear block a state belongs to, if any. */
  function BlockOf(s: State): Option<string> {
    match s
    case CarMakeModel | CarYear | CarMileage => Some("cars")
    case HousePropertyType | HouseRooms | HouseArea | HouseYearBuilt => Some("houses")
    case AnimalType | AnimalBreed | AnimalAge | AnimalSex => Some("animals")
    case OtherItemName => Some("other")
    case _ => None
  }

  /** The common steps every category merges into. */
  predicate IsCommonInput(s: State) {
    s == AskPrice || s == AskLocation || s == AskDescription || s == AskMedia
  }

  // Callback-data prefixes.
  const LANG_CALLBACK_PREFIX: string := "lang_"
  const CATEGORY_CALLBACK_PREFIX: string := "cat_"
  const ACTION_CALLBACK_PREFIX: string := "action_"
  const EDIT_FIELD_CALLBACK_PREFIX: string := "edit_field_"
  const SKIP_FIELD_CALLBACK_PREFIX: string := "skip_field_"
  const PROPERTY_TYPE_CALLBACK_PREFIX: string := "prop_type_"
  const ANIMAL_SEX_CALLBACK_PREFIX: string := "animal_sex_"

  const CALLBACK_PREFIXES: seq<string> := [
    LANG_CALLBACK_PREFIX, CATEGORY_CALLBACK_PREFIX, ACTION_CALLBACK_PREFIX,
    EDIT_FIELD_CALLBACK_PREFIX, SKIP_FIELD_CALLBACK_PREFIX,
    PROPERTY_TYPE_CALLBACK_PREFIX, ANIMAL_SEX_CALLBACK_PREFIX]

  // Action values carried after ACTION_CALLBACK_PREFIX.
  const ACTION_POST: string := "post"
  const ACTION_EDIT: string := "edit"
  const ACTION_CANCEL: string := "cancel"
  const ACTION_DONE_MEDIA: string := "done_media"
  const ACTION_CLEAR_MEDIA: string := "clear_media"
  const ACTION_SKIP_DESCRIPTION: string := "skip_description"
  const ACTION_BACK_TO_PREVIEW: string := "back_to_preview"

  /** No callback prefix is a prefix of another, so the prefix a payload starts
      with tells which family of buttons it came from. */
  lemma PrefixesUnambiguous()
    ensures forall i, j :: 0 <= i < |CALLBACK_PREFIXES| && 0 <= j < |CALLBACK_PREFIXES| && i != j ==>
      !(CALLBACK_PREFIXES[i] <= CALLBACK_PREFIXES[j])
  {
    forall i, j | 0 <= i < |CALLBACK_PREFIXES| && 0 <= j < |CALLBACK_PREFIXES| && i != j
      ensures !(CALLBACK_PREFIXES[i] <= CALLBACK_PREFIXES[j])
    {
      var p, q := CALLBACK_PREFIXES[i], CALLBACK_PREFIXES[j];
      assert p[0] != q[0] || p[1] != q[1] || p[2] != q[2];
    }
  }

  /** Common fields the edit menu may offer, and the state that collects each. */
  const EDITABLE_FIELDS_COMMON: map<string, State> := map[
    "price" := AskPrice,
    "location" := AskLocation,
    "description" := AskDescription,
    "media" := AskMedia]

  /** The order in which the common fields are declared, and so offered. */
  const COMMON_FIELD_ORDER: seq<string> := ["price", "location", "description", "media"]

  /** Per category, its fields and the state that collects each. */
  const EDITABLE_FIELDS_CATEGORY: map<string, map<string, State>> := map[
    "cars" := map[
      "car_make_model" := CarMakeModel,
      "car_year" := CarYear,
      "car_mileage" := CarMileage],
    "houses" := map[
      "house_property_type" := HousePropertyType,
      "house_rooms" := HouseRooms,
      "house_area" := HouseArea,
      "house_year_built" := HouseYearBuilt],
    "animals" := map[
      "animal_type" := AnimalType,
      "animal_breed" := AnimalBreed,
      "animal_age" := AnimalAge,
      "animal_sex" := AnimalSex],
    "other" := map[
      "other_item_name" := OtherItemName]]

  /** A category's fields in declaration order (the order of the edit menu and the preview). */
  function CategoryFieldOrder(category: string): seq<string> {
    if category == "cars" then ["car_make_model", "car_year", "car_mileage"]
    else if category == "houses" then ["house_property_type", "house_rooms", "house_area", "house_year_built"]
    else if category == "animals" then ["animal_type", "animal_breed", "animal_age", "animal_sex"]
    else if category == "other" then ["other_item_name"]
    else []
  }

  /** The category field a state collects. */
  function FieldOfState(s: State): Option<string> {
    match s
    case CarMakeModel => Some("car_make_model")
    case CarYear => Some("car_year")
    case CarMileage => Some("car_mileage")
    case HousePropertyType => Some("house_property_type")
    case HouseRooms => Some("house_rooms")
    case HouseArea => Some("house_area")
    case HouseYearBuilt => Some("house_year_built")
    case AnimalType => Some("animal_type")
    case AnimalBreed => Some("animal_breed")
    case AnimalAge => Some("animal_age")
    case AnimalSex => Some("animal_sex")
    case OtherItemName => Some("other_item_name")
    case _ => None
  }

  /** The common map sends each field to a common step, and its declared order lists exactly its keys. */
  lemma CommonFieldsTargetCommonSteps()
    ensures forall f :: f in EDITABLE_FIELDS_COMMON ==> IsCommonInput(EDITABLE_FIELDS_COMMON[f])
    ensures forall f :: f in EDITABLE_FIELDS_COMMON <==> f in COMMON_FIELD_ORDER
  {
  }

  /** The categories with editable fields are exactly the selectable categories. */
  lemma CategoryKeysAreSelectable()
    ensures EDITABLE_FIELDS_CATEGORY.Keys == Config.CATEGORY_KEYS
  {
  }

  /** Every category field is collected by a state in that category's own block,
      and the declared order lists exactly the map's keys. */
  lemma CategoryFieldsStayInBlock()
    ensures forall c, f :: c in EDITABLE_FIELDS_CATEGORY && f in EDITABLE_FIELDS_CATEGORY[c] ==>
      BlockOf(EDITABLE_FIELDS_CATEGORY[c][f]) == Some(c)
    ensures forall c, f :: c in EDITABLE_FIELDS_CATEGORY ==>
      (f in EDITABLE_FIELDS_CATEGORY[c] <==> f in CategoryFieldOrder(c))
  {
    forall c, f | c in EDITABLE_FIELDS_CATEGORY && f in EDITABLE_FIELDS_CATEGORY[c]
      ensures BlockOf(EDITABLE_FIELDS_CATEGORY[c][f]) == Some(c) && f in CategoryFieldOrder(c)
    {
      CategoryFieldFacts(c, f);
    }
    forall c, f | c in EDITABLE_FIELDS_CATEGORY && f in CategoryFieldOrder(c)
      ensures f in EDITABLE_FIELDS_CATEGORY[c]
    {
      OrderedFieldsAreKeys(c, f);
    }
  }

  /** The state the category map names for a field is the state that collects that field. */
  lemma CategoryTargetsCollectTheirField()
    ensures forall c, f :: c in EDITABLE_FIELDS_CATEGORY && f in EDITABLE_FIELDS_CATEGORY[c] ==>
      FieldOfState(EDITABLE_FIELDS_CATEGORY[c][f]) == Some(f)
  {
    forall c, f | c in EDITABLE_FIELDS_CATEGORY && f in EDITABLE_FIELDS_CATEGORY[c]
      ensures FieldOfState(EDITABLE_FIELDS_CATEGORY[c][f]) == Some(f)
    {
      CategoryFieldFacts(c, f);
    }
  }

  /** One entry of the category map: where its state lies, what it collects, and the
      field's place in the declared order. Every field begins with its category's initial. */
  lemma CategoryFieldFacts(c: string, f: string)
    requires c in EDITABLE_FIELDS_CATEGORY && f in EDITABLE_FIELDS_CATEGORY[c]
    ensures BlockOf(EDITABLE_FIELDS_CATEGORY[c][f]) == Some(c)
    ensures FieldOfState(EDITABLE_FIELDS_CATEGORY[c][f]) == Some(f)
    ensures f in CategoryFieldOrder(c)
    ensures c != [] && f != [] && f[0] == c[0]
  {
    if c == "cars" {
      CarEntry(f);
    } else if c == "houses" {
      HouseEntry(f);
    } else if c == "animals" {
      AnimalEntry(f);
    } else {
      assert c == "other" && f == "other_item_name";
    }
  }

  lemma CarEntry(f: string)
    requires f in EDITABLE_FIELDS_CATEGORY["cars"]
    ensures var s := EDITABLE_FIELDS_CATEGORY["cars"][f];
      BlockOf(s) == Some("cars") && FieldOfState(s) == Some(f) && f in CategoryFieldOrder("cars") && f[..1] == "c"
  {
    assert f == "car_make_model" || f == "car_year" || f == "car_mileage";
  }

  lemma HouseEntry(f: string)
    requires f in EDITABLE_FIELDS_CATEGORY["houses"]
    ensures var s := EDITABLE_FIELDS_CATEGORY["houses"][f];
      BlockOf(s) == Some("houses") && FieldOfState(s) == Some(f) && f in CategoryFieldOrder("houses") && f[..1] == "h"
  {
    assert f == "house_property_type" || f == "house_rooms" || f == "house_area" || f == "house_year_built";
  }

  lemma AnimalEntry(f: string)
    requires f in EDITABLE_FIELDS_CATEGORY["animals"]
    ensures var s := EDITABLE_FIELDS_CATEGORY["animals"][f];
      BlockOf(s) == Some("animals") && FieldOfState(s) == Some(f) && f in CategoryFieldOrder("animals") && f[..1] == "a"
  {
    assert f == "animal_type" || f == "animal_breed" || f == "animal_age" || f == "animal_sex";
  }

  /** A field in a category's declared order is a key of that category's map. */
  lemma OrderedFieldsAreKeys(c: string, f: string)
    requires c in EDITABLE_FIELDS_CATEGORY && f in CategoryFieldOrder(c)
    ensures f in EDITABLE_FIELDS_CATEGORY[c]
  {
    if c == "cars" {
      assert f == "car_make_model" || f == "car_year" || f == "car_mileage";
    } else if c == "houses" {
      assert f == "house_property_type" || f == "house_rooms" || f == "house_area" || f == "house_year_built";
    } else if c == "animals" {
      assert f == "animal_type" || f == "animal_breed" || f == "animal_age" || f == "animal_sex";
    } else {
      assert c == "other" && f == "other_item_name";
    }
  }

  /** Different categories share no field name, and no category field is a common field. */
  lemma FieldNamesDisjoint()
    ensures forall c, d :: c in EDITABLE_FIELDS_CATEGORY && d in EDITABLE_FIELDS_CATEGORY && c != d ==>
      EDITABLE_FIELDS_CATEGORY[c].Keys !! EDITABLE_FIELDS_CATEGORY[d].Keys
    ensures forall c :: c in EDITABLE_FIELDS_CATEGORY ==>
      EDITABLE_FIELDS_CATEGORY[c].Keys !! EDITABLE_FIELDS_COMMON.Keys
  {
    forall c, d, f | c in EDITABLE_FIELDS_CATEGORY && d in EDITABLE_FIELDS_CATEGORY && c != d
      && f in EDITABLE_FIELDS_CATEGORY[c] && f in EDITABLE_FIELDS_CATEGORY[d]
      ensures false
    {
      CategoryFieldFacts(c, f);
      CategoryFieldFacts(d, f);
    }
    forall c, f | c in EDITABLE_FIELDS_CATEGORY && f in EDITABLE_FIELDS_CATEGORY[c] && f in EDITABLE_FIELDS_COMMON
      ensures false
    {
      CategoryFieldFacts(c, f);
    }
  }
}

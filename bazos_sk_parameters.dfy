/** `BazosSkParameters`: the search parameters of a bazos.sk watcher. The
    field order differs from the Czech model, the prices default to 0, and
    the location validator accepts nothing but five digits. */
module BazosSkParameters {

  import opened Common
  import Strings
  import BazosFeed
  import ModelFields

  /** `CategoryEnum`. */
  datatype Category =
    | NONE | ZVIERATA | DETI | REALITY | PRACA | AUTO | MOTOCYKLE | STROJE
    | DOM_A_ZAHRADA | PC | MOBILY | FOTO | ELEKTRO | SPORT | HUDBA
    | VSTUPENKY | KNIHY | NABYTOK | OBLECENIE | SLUZBY | OSTATNE

  /** `CategoryEnum.__str__`: the member's raw value. */
  function Value(c: Category): string
  {
    match c
    case NONE => ""
    case ZVIERATA => "zvierata"
    case DETI => "deti"
    case REALITY => "reality"
    case PRACA => "praca"
    case AUTO => "auto"
    case MOTOCYKLE => "motocykle"
    case STROJE => "stroje"
    case DOM_A_ZAHRADA => "dom_a_zahrada"
    case PC => "pc"
    case MOBILY => "mobily"
    case FOTO => "foto"
    case ELEKTRO => "elektro"
    case SPORT => "sport"
    case HUDBA => "hudba"
    case VSTUPENKY => "vstupenky"
    case KNIHY => "knihy"
    case NABYTOK => "nabytok"
    case OBLECENIE => "oblecenie"
    case SLUZBY => "sluzby"
    case OSTATNE => "ostatne"
  }

  /** Enum validation of a given text: the member with that value, if any. */
  function FromValue(s: string): (r: Option<Category>)
    ensures r.Some? ==> Value(r.value) == s
  {
    match s
    case "" => Some(NONE)
    case "zvierata" => Some(ZVIERATA)
    case "deti" => Some(DETI)
    case "reality" => Some(REALITY)
    case "praca" => Some(PRACA)
    case "auto" => Some(AUTO)
    case "motocykle" => Some(MOTOCYKLE)
    case "stroje" => Some(STROJE)
    case "dom_a_zahrada" => Some(DOM_A_ZAHRADA)
    case "pc" => Some(PC)
    case "mobily" => Some(MOBILY)
    case "foto" => Some(FOTO)
    case "elektro" => Some(ELEKTRO)
    case "sport" => Some(SPORT)
    case "hudba" => Some(HUDBA)
    case "vstupenky" => Some(VSTUPENKY)
    case "knihy" => Some(KNIHY)
    case "nabytok" => Some(NABYTOK)
    case "oblecenie" => Some(OBLECENIE)
    case "sluzby" => Some(SLUZBY)
    case "ostatne" => Some(OSTATNE)
    case _ => None
  }

  /** Every member is accepted back from its string form, so the 21 values
      are pairwise distinct. */
  lemma CategoryRoundTrip(c: Category)
    ensures FromValue(Value(c)) == Some(c)
  {
  }

  /** The validated model. */
  datatype Params = Params(
    category: Option<Category>,
    location: Option<string>,
    search: Option<string>,
    minPrice: Option<int>,
    maxPrice: Option<int>,
    radius: Option<int>)

  /** `validate_location`: the value must be five digits, and is then
      returned unchanged; an empty text and `None` (which has no `isdigit`)
      both fail. */
  function ValidateLocation(value: Option<string>): (r: Result<Option<string>>)
    ensures r.Ok? ==> r.value == value
    ensures r.Ok? <==> value.Some? && Strings.AllDigits(value.value) && |value.value| == 5
    ensures r.Err? ==> r.error == ValidationFailed("location")
  {
    if value.None? || !Strings.AllDigits(value.value) || |value.value| != 5 then Err(ValidationFailed("location"))
    else Ok(value)
  }

  /** The `category` field: default `NONE`, `None` allowed, else one of the
      enum values. */
  function CategoryField(raw: map<string, Scalar>): (r: Result<Option<Category>>)
    ensures "category" !in raw ==> r == Ok(Some(NONE))
    ensures "category" in raw && raw["category"].Null? ==> r == Ok(None)
    ensures "category" in raw && raw["category"].Str? ==>
      (r.Ok? <==> FromValue(raw["category"].s).Some?) && (r.Ok? ==> r.value == FromValue(raw["category"].s))
    ensures "category" in raw && raw["category"].Int? ==> r.Err?
    ensures r.Err? ==> r.error == ValidationFailed("category")
  {
    if "category" !in raw then Ok(Some(NONE))
    else match raw["category"]
      case Null => Ok(None)
      case Str(s) => if FromValue(s).Some? then Ok(Some(FromValue(s).value)) else Err(ValidationFailed("category"))
      case Int(_) => Err(ValidationFailed("category"))
  }

  /** The `location` field: default `""`, which is not validated; a given
      value goes through `validate_location`. */
  function LocationField(raw: map<string, Scalar>): (r: Result<Option<string>>)
    ensures "location" !in raw ==> r == Ok(Some(""))
    ensures "location" in raw && raw["location"].Str? ==> r == ValidateLocation(Some(raw["location"].s))
    ensures "location" in raw && raw["location"].Null? ==> r == ValidateLocation(None)
    ensures "location" in raw && raw["location"].Int? ==> r.Err?
    ensures r.Err? ==> r.error == ValidationFailed("location")
  {
    if "location" !in raw then Ok(Some(""))
    else
      var text := ModelFields.TextField(raw, "location", "");
      if text.Err? then text else ValidateLocation(text.value)
  }

  /** The integer fields, all declared with `ge=0`, are absent or non-negative. */
  predicate Bounded(p: Params)
  {
    && (p.minPrice.Some? ==> p.minPrice.value >= 0)
    && (p.maxPrice.Some? ==> p.maxPrice.value >= 0)
    && (p.radius.Some? ==> p.radius.value >= 0)
  }

  /** `BazosSkParameters(**raw)`: the fields in declaration order; the first
      field that fails reports the failure. */
  function Parse(raw: map<string, Scalar>): (r: Result<Params>)
    ensures r.Ok? ==> Bounded(r.value)
    ensures r.Ok? && "location" in raw ==> ValidateLocation(r.value.location) == Ok(r.value.location)
    ensures r.Ok? && "location" !in raw ==> r.value.location == Some("")
    ensures r.Ok? <==>
      && CategoryField(raw).Ok? && ModelFields.TextField(raw, "search", "").Ok? && LocationField(raw).Ok?
      && ModelFields.NonNegativeField(raw, "radius", Some(25)).Ok?
      && ModelFields.NonNegativeField(raw, "min_price", Some(0)).Ok?
      && ModelFields.NonNegativeField(raw, "max_price", Some(0)).Ok?
    ensures r.Ok? && "radius" in raw && raw["radius"].Int? ==> r.value.radius == Some(raw["radius"].n)
    ensures r.Ok? && "min_price" in raw && raw["min_price"].Int? ==> r.value.minPrice == Some(raw["min_price"].n)
    ensures r.Ok? && "max_price" in raw && raw["max_price"].Int? ==> r.value.maxPrice == Some(raw["max_price"].n)
    ensures "radius" in raw && raw["radius"].Int? && raw["radius"].n < 0 ==> r.Err?
    ensures "min_price" in raw && raw["min_price"].Int? && raw["min_price"].n < 0 ==> r.Err?
    ensures "max_price" in raw && raw["max_price"].Int? && raw["max_price"].n < 0 ==> r.Err?
    ensures r.Ok? ==> Ok(r.value.category) == CategoryField(raw)
    ensures r.Ok? ==> Ok(r.value.search) == ModelFields.TextField(raw, "search", "")
    ensures r.Ok? ==> Ok(r.value.location) == LocationField(raw)
    ensures r.Ok? ==> Ok(r.value.radius) == ModelFields.NonNegativeField(raw, "radius", Some(25))
    ensures r.Ok? ==> Ok(r.value.minPrice) == ModelFields.NonNegativeField(raw, "min_price", Some(0))
    ensures r.Ok? ==> Ok(r.value.maxPrice) == ModelFields.NonNegativeField(raw, "max_price", Some(0))
  {
    var category := CategoryField(raw);
    var location := LocationField(raw);
    var search := ModelFields.TextField(raw, "search", "");
    var minPrice := ModelFields.NonNegativeField(raw, "min_price", Some(0));
    var maxPrice := ModelFields.NonNegativeField(raw, "max_price", Some(0));
    var radius := ModelFields.NonNegativeField(raw, "radius", Some(25));
    if category.Err? then Err(category.error)
    else if location.Err? then Err(location.error)
    else if search.Err? then Err(search.error)
    else if minPrice.Err? then Err(minPrice.error)
    else if maxPrice.Err? then Err(maxPrice.error)
    else if radius.Err? then Err(radius.error)
    else Ok(Params(category.value, location.value, search.value, minPrice.value, maxPrice.value, radius.value))
  }

  /** An empty dictionary yields the defaults: category `NONE`, empty location
      and search, prices 0, radius 25. */
  lemma Defaults()
    ensures Parse(map[]) == Ok(Params(Some(NONE), Some(""), Some(""), Some(0), Some(0), Some(25)))
  {
  }

  /** A lone category text is accepted exactly when it is one of the enum
      values, and the model then holds that member. */
  lemma CategoryChosen(t: string)
    ensures Parse(map["category" := Str(t)]).Ok? <==> FromValue(t).Some?
    ensures Parse(map["category" := Str(t)]).Ok? ==> Parse(map["category" := Str(t)]).value.category == FromValue(t)
  {
  }

  /** An explicit `None` is kept as `None` in every field that accepts it,
      instead of turning into the field's default. */
  lemma NullGivesNone(raw: map<string, Scalar>)
    requires Parse(raw).Ok?
    ensures "category" in raw && raw["category"].Null? ==> Parse(raw).value.category == None
    ensures "search" in raw && raw["search"].Null? ==> Parse(raw).value.search == None
    ensures "radius" in raw && raw["radius"].Null? ==> Parse(raw).value.radius == None
    ensures "min_price" in raw && raw["min_price"].Null? ==> Parse(raw).value.minPrice == None
    ensures "max_price" in raw && raw["max_price"].Null? ==> Parse(raw).value.maxPrice == None
  {
  }

  /** A given location alone is accepted exactly when it is five digits, so
      an explicit empty text is refused although the default is empty. */
  lemma LocationRule(s: string)
    ensures Parse(map["location" := Str(s)]).Ok? <==> Strings.AllDigits(s) && |s| == 5
    ensures Parse(map["location" := Str(s)]).Ok? ==> Parse(map["location" := Str(s)]).value.location == Some(s)
    ensures Parse(map["location" := Str("")]).Err?
  {
  }

  /** An explicit `None` location is refused. */
  lemma NullLocationRefused()
    ensures Parse(map["location" := Null]) == Err(ValidationFailed("location"))
  {
  }

  /** The fields in declaration order with their URI names: `rub`,
      `hlokalita`, `hledat`, `cenaod`, `cenado`, `humkreis`. */
  function Fields(p: Params): seq<BazosFeed.Field>
  {
    [ BazosFeed.Field("rub", if p.category.Some? then Str(Value(p.category.value)) else Null),
      BazosFeed.Field("hlokalita", ModelFields.TextScalar(p.location)),
      BazosFeed.Field("hledat", ModelFields.TextScalar(p.search)),
      BazosFeed.Field("cenaod", ModelFields.IntScalar(p.minPrice)),
      BazosFeed.Field("cenado", ModelFields.IntScalar(p.maxPrice)),
      BazosFeed.Field("humkreis", ModelFields.IntScalar(p.radius)) ]
  }
}

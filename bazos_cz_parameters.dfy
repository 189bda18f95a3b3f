/** `BazosCzParameters`: the search parameters of a bazos.cz watcher, as
    pydantic validates them from the stored parameter dictionary, and the
    order and URI names in which the query string lists them. */
module BazosCzParameters {

  import opened Common
  import Strings
  import BazosFeed
  import ModelFields

  /** `CategoryEnum`. */
  datatype Category =
    | NONE | ZVIRATA | DETI | REALITY | PRACE | AUTO | MOTORKY | STROJE
    | DUM_A_ZAHRADA | PC | MOBILY | FOTO | ELEKTRO | SPORT | HUDBA
    | VSTUPENKY | KNIHY | NABYTEK | OBLECENI | SLUZBY | OSTATNI

  /** `CategoryEnum.__str__`: the member's raw value. */
  function Value(c: Category): string
  {
    match c
    case NONE => ""
    case ZVIRATA => "zvirata"
    case DETI => "deti"
    case REALITY => "reality"
    case PRACE => "prace"
    case AUTO => "auto"
    case MOTORKY => "motorky"
    case STROJE => "stroje"
    case DUM_A_ZAHRADA => "dum_a_zahrada"
    case PC => "pc"
    case MOBILY => "mobily"
    case FOTO => "foto"
    case ELEKTRO => "elektro"
    case SPORT => "sport"
    case HUDBA => "hudba"
    case VSTUPENKY => "vstupenky"
    case KNIHY => "knihy"
    case NABYTEK => "nabytek"
    case OBLECENI => "obleceni"
    case SLUZBY => "sluzby"
    case OSTATNI => "ostatni"
  }

  /** Enum validation of a given text: the member with that value, if any. */
  function FromValue(s: string): (r: Option<Category>)
    ensures r.Some? ==> Value(r.value) == s
  {
    match s
    case "" => Some(NONE)
    case "zvirata" => Some(ZVIRATA)
    case "deti" => Some(DETI)
    case "reality" => Some(REALITY)
    case "prace" => Some(PRACE)
    case "auto" => Some(AUTO)
    case "motorky" => Some(MOTORKY)
    case "stroje" => Some(STROJE)
    case "dum_a_zahrada" => Some(DUM_A_ZAHRADA)
    case "pc" => Some(PC)
    case "mobily" => Some(MOBILY)
    case "foto" => Some(FOTO)
    case "elektro" => Some(ELEKTRO)
    case "sport" => Some(SPORT)
    case "hudba" => Some(HUDBA)
    case "vstupenky" => Some(VSTUPENKY)
    case "knihy" => Some(KNIHY)
    case "nabytek" => Some(NABYTEK)
    case "obleceni" => Some(OBLECENI)
    case "sluzby" => Some(SLUZBY)
    case "ostatni" => Some(OSTATNI)
    case _ => None
  }

  /** Every member is accepted back from its string form, so the 21 values
      are pairwise distinct. */
  lemma CategoryRoundTrip(c: Category)
    ensures FromValue(Value(c)) == Some(c)
  {
  }

  /** The validated model. */
  datatype Params = Params(
    category: Option<Category>,
    search: Option<string>,
    location: Option<string>,
    radius: Option<int>,
    minPrice: Option<int>,
    maxPrice: Option<int>)

  /** `validate_location`: a falsy value passes as it is; any other value
      must be exactly five digits, and is then returned unchanged. */
  function ValidateLocation(value: Option<string>): (r: Result<Option<string>>)
    ensures r.Ok? ==> r.value == value
    ensures r.Ok? <==> value.None? || value == Some("") || (Strings.AllDigits(value.value) && |value.value| == 5)
    ensures r.Err? ==> r.error == ValidationFailed("location")
  {
    if value.None? || value.value == "" then Ok(value)
    else if !Strings.AllDigits(value.value) || |value.value| != 5 then Err(ValidationFailed("location"))
    else Ok(value)
  }

  /** The `category` field: default `NONE`, `None` allowed, else one of the
      enum values. */
  function CategoryField(raw: map<string, Scalar>): (r: Result<Option<Category>>)
    ensures "category" !in raw ==> r == Ok(Some(NONE))
    ensures "category" in raw && raw["category"].Null? ==> r == Ok(None)
    ensures "category" in raw && raw["category"].Str? ==>
      (r.Ok? <==> FromValue(raw["category"].s).Some?) && (r.Ok? ==> r.value == FromValue(raw["category"].s))
    ensures "category" in raw && raw["category"].Int? ==> r.Err?
    ensures r.Err? ==> r.error == ValidationFailed("category")
  {
    if "category" !in raw then Ok(Some(NONE))
    else match raw["category"]
      case Null => Ok(None)
      case Str(s) => if FromValue(s).Some? then Ok(Some(FromValue(s).value)) else Err(ValidationFailed("category"))
      case Int(_) => Err(ValidationFailed("category"))
  }

  /** The `location` field: default `""` (not validated), else the text
      checked by `validate_location`. */
  function LocationField(raw: map<string, Scalar>): (r: Result<Option<string>>)
    ensures "location" !in raw ==> r == Ok(Some(""))
    ensures "location" in raw && raw["location"].Str? ==> r == ValidateLocation(Some(raw["location"].s))
    ensures "location" in raw && raw["location"].Null? ==> r == ValidateLocation(None)
    ensures "location" in raw && raw["location"].Int? ==> r.Err?
    ensures r.Err? ==> r.error == ValidationFailed("location")
  {
    if "location" !in raw then Ok(Some(""))
    else
      var text := ModelFields.TextField(raw, "location", "");
      if text.Err? then text else ValidateLocation(text.value)
  }

  /** The integer fields that carry `ge=0` are absent or non-negative. */
  predicate Bounded(p: Params)
  {
    && (p.radius.Some? ==> p.radius.value >= 0)
    && (p.minPrice.Some? ==> p.minPrice.value >= 0)
    && (p.maxPrice.Some? ==> p.maxPrice.value >= 0)
  }

  /** `BazosCzParameters(**raw)`: the fields in declaration order; the first
      field that fails reports the failure. */
  function Parse(raw: map<string, Scalar>): (r: Result<Params>)
    ensures r.Ok? ==> Bounded(r.value)
    ensures r.Ok? ==> ValidateLocation(r.value.location) == Ok(r.value.location)
    ensures r.Ok? <==>
      && CategoryField(raw).Ok? && ModelFields.TextField(raw, "search", "").Ok? && LocationField(raw).Ok?
      && ModelFields.NonNegativeField(raw, "radius", Some(25)).Ok?
      && ModelFields.NonNegativeField(raw, "min_price", None).Ok?
      && ModelFields.NonNegativeField(raw, "max_price", None).Ok?
    ensures r.Ok? && "radius" in raw && raw["radius"].Int? ==> r.value.radius == Some(raw["radius"].n)
    ensures r.Ok? && "min_price" in raw && raw["min_price"].Int? ==> r.value.minPrice == Some(raw["min_price"].n)
    ensures r.Ok? && "max_price" in raw && raw["max_price"].Int? ==> r.value.maxPrice == Some(raw["max_price"].n)
    ensures "radius" in raw && raw["radius"].Int? && raw["radius"].n < 0 ==> r.Err?
    ensures "min_price" in raw && raw["min_price"].Int? && raw["min_price"].n < 0 ==> r.Err?
    ensures "max_price" in raw && raw["max_price"].Int? && raw["max_price"].n < 0 ==> r.Err?
    ensures r.Ok? ==> Ok(r.value.category) == CategoryField(raw)
    ensures r.Ok? ==> Ok(r.value.search) == ModelFields.TextField(raw, "search", "")
    ensures r.Ok? ==> Ok(r.value.location) == LocationField(raw)
    ensures r.Ok? ==> Ok(r.value.radius) == ModelFields.NonNegativeField(raw, "radius", Some(25))
    ensures r.Ok? ==> Ok(r.value.minPrice) == ModelFields.NonNegativeField(raw, "min_price", None)
    ensures r.Ok? ==> Ok(r.value.maxPrice) == ModelFields.NonNegativeField(raw, "max_price", None)
  {
    var category := CategoryField(raw);
    var search := ModelFields.TextField(raw, "search", "");
    var location := LocationField(raw);
    var radius := ModelFields.NonNegativeField(raw, "radius", Some(25));
    var minPrice := ModelFields.NonNegativeField(raw, "min_price", None);
    var maxPrice := ModelFields.NonNegativeField(raw, "max_price", None);
    if category.Err? then Err(category.error)
    else if search.Err? then Err(search.error)
    else if location.Err? then Err(location.error)
    else if radius.Err? then Err(radius.error)
    else if minPrice.Err? then Err(minPrice.error)
    else if maxPrice.Err? then Err(maxPrice.error)
    else Ok(Params(category.value, search.value, location.value, radius.value, minPrice.value, maxPrice.value))
  }

  /** An empty dictionary yields the defaults: category `NONE`, empty search
      and location, radius 25, no prices. */
  lemma Defaults()
    ensures Parse(map[]) == Ok(Params(Some(NONE), Some(""), Some(""), Some(25), None, None))
  {
  }

  /** A lone category text is accepted exactly when it is one of the enum
      values, and the model then holds that member. */
  lemma CategoryChosen(t: string)
    ensures Parse(map["category" := Str(t)]).Ok? <==> FromValue(t).Some?
    ensures Parse(map["category" := Str(t)]).Ok? ==> Parse(map["category" := Str(t)]).value.category == FromValue(t)
  {
  }

  /** An explicit `None` is kept as `None` in every field that accepts it,
      instead of turning into the field's default. */
  lemma NullGivesNone(raw: map<string, Scalar>)
    requires Parse(raw).Ok?
    ensures "category" in raw && raw["category"].Null? ==> Parse(raw).value.category == None
    ensures "search" in raw && raw["search"].Null? ==> Parse(raw).value.search == None
    ensures "radius" in raw && raw["radius"].Null? ==> Parse(raw).value.radius == None
    ensures "min_price" in raw && raw["min_price"].Null? ==> Parse(raw).value.minPrice == None
    ensures "max_price" in raw && raw["max_price"].Null? ==> Parse(raw).value.maxPrice == None
    ensures "location" in raw && raw["location"].Null? ==> Parse(raw).value.location == None
  {
  }

  /** A given location alone is accepted exactly when it is empty or five
      digits, and is then kept unchanged. */
  lemma LocationRule(s: string)
    ensures Parse(map["location" := Str(s)]).Ok? <==> s == "" || (Strings.AllDigits(s) && |s| == 5)
    ensures Parse(map["location" := Str(s)]).Ok? ==> Parse(map["location" := Str(s)]).value.location == Some(s)
  {
  }

  /** Any accepted dictionary keeps the given search text and location. */
  lemma GivenTextKept(raw: map<string, Scalar>)
    requires Parse(raw).Ok?
    ensures "search" in raw && raw["search"].Str? ==> Parse(raw).value.search == Some(raw["search"].s)
    ensures "location" in raw && raw["location"].Str? ==> Parse(raw).value.location == Some(raw["location"].s)
  {
  }

  /** The fields in declaration order with their URI names, as `model_dump`
      lists them: `rub`, `hledat`, `hlokalita`, `humkreis`, `cenaod`, `cenado`. */
  function Fields(p: Params): seq<BazosFeed.Field>
  {
    [ BazosFeed.Field("rub", if p.category.Some? then Str(Value(p.category.value)) else Null),
      BazosFeed.Field("hledat", ModelFields.TextScalar(p.search)),
      BazosFeed.Field("hlokalita", ModelFields.TextScalar(p.location)),
      BazosFeed.Field("humkreis", ModelFields.IntScalar(p.radius)),
      BazosFeed.Field("cenaod", ModelFields.IntScalar(p.minPrice)),
      BazosFeed.Field("cenado", ModelFields.IntScalar(p.maxPrice)) ]
  }
}

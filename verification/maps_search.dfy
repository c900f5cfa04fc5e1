/**
 * `GoogleMapsSearchTool`: finding businesses through the Places API when a key is
 * configured, or by driving a browser over the Maps search page otherwise, and turning
 * each hit into the same twelve-field business record.
 *
 * The API client and the browser are not modelled: what their calls return is an input
 * (`PlacesApi`, `MapsWeb`), and a call that raises returns a Failure.
 */
module GoogleMapsSearch {
  import opened Wrappers
  import opened Text
  import opened Values
  import Config

  /** The twelve fields of every business record, on both search paths. */
  const BusinessKeys: set<string> :=
    {"nome", "endereco", "telefone", "website", "categoria", "avaliacao", "numero_avaliacoes",
     "horario_funcionamento", "latitude", "longitude", "place_id", "fotos"}

  /** The records a search returns: the collected list, or none when the search raised. */
  function OrEmpty(r: Result<seq<Dict>>): seq<Dict> {
    if r.Success? then r.value else []
  }

  // ---- opening hours ----

  /**
   * `_format_opening_hours`: "" for a falsy value or a dict without `weekday_text`, else
   * the `weekday_text` entries joined by "; ". A list or string that holds "weekday_text"
   * passes the membership test and then cannot be indexed by a string.
   */
  function FormatOpeningHours(hours: Value): (r: Result<string>)
    ensures !Truthy(hours) ==> r == Success("")
    ensures hours.Obj? && "weekday_text" !in hours.fields ==> r == Success("")
    ensures hours.Obj? && "weekday_text" in hours.fields ==> r == JoinValue(hours.fields["weekday_text"], "; ")
  {
    if !Truthy(hours) then Success("")
    else
      match hours
      case Obj(m) => if "weekday_text" !in m then Success("") else JoinValue(m["weekday_text"], "; ")
      case List(xs) => if Str("weekday_text") in xs then Failure("TypeError: list indices must be integers") else Success("")
      case Str(s) => if OccursIn(s, "weekday_text") then Failure("TypeError: string indices must be integers") else Success("")
      case _ => Failure("TypeError: argument is not iterable")
  }

  /** The day lines can be read back from the formatted hours when none of them holds a ';'. */
  lemma OpeningHoursLines(lines: seq<string>)
    requires lines != [] && FreeOf(lines, ';')
    ensures FormatOpeningHours(Obj(map["weekday_text" := Strs(lines)])).Success?
    ensures Split(FormatOpeningHours(Obj(map["weekday_text" := Strs(lines)])).value, "; ") == lines
  {
    var v := Strs(lines);
    var hours := Obj(map["weekday_text" := v]);
    assert "weekday_text" in hours.fields;
    assert Truthy(hours);
    assert StrsOf(v.items) == lines;
    assert JoinValue(v, "; ") == Success(Join(lines, "; "));
    assert FormatOpeningHours(hours) == Success(Join(lines, "; "));
    SplitJoin(lines, "; ");
  }

  // ---- photos ----

  const PhotoUrlPrefix: string := "https://maps.googleapis.com/maps/api/place/photo?maxwidth=400&photoreference="

  /** The Place Photo URL for one reference, with the configured key. */
  function PhotoUrl(reference: string, key: string): string {
    PhotoUrlPrefix + reference + "&key=" + key
  }

  /** The reference a photo URL carries, when it has the shape `PhotoUrl` builds. */
  function ReferenceOf(url: string, key: string): Option<string> {
    var tail := "&key=" + key;
    if |PhotoUrlPrefix| + |tail| <= |url| && StartsWith(url, PhotoUrlPrefix) && url[|url| - |tail|..] == tail
    then Some(url[|PhotoUrlPrefix|..|url| - |tail|])
    else None
  }

  /** Every URL carries its photo's reference, which can be read back from it. */
  lemma PhotoUrlReference(reference: string, key: string)
    ensures ReferenceOf(PhotoUrl(reference, key), key) == Some(reference)
  {
    var url := PhotoUrl(reference, key);
    var tail := "&key=" + key;
    assert url == PhotoUrlPrefix + reference + tail;
    assert url[..|PhotoUrlPrefix|] == PhotoUrlPrefix;
    assert url[|url| - |tail|..] == tail;
    assert url[|PhotoUrlPrefix|..|url| - |tail|] == reference;
  }

  /** One photo: its URL when it has a `photo_reference`, None when it has not. */
  function PhotoUrlOf(photo: Value, key: string): Result<Option<string>> {
    var has :- Contains(photo, "photo_reference");
    if !has then Success(None)
    else
      var reference :- Subscript(photo, "photo_reference");
      Success(Some(PhotoUrl(Display(reference), key)))
  }

  /** The outcome of looking at each photo, in order. */
  function PhotoOutcomes(photos: seq<Value>, key: string): seq<Result<Option<string>>> {
    seq(|photos|, i requires 0 <= i < |photos| => PhotoUrlOf(photos[i], key))
  }

  /** The URLs of the photos that have a reference, in order; raises if looking at one photo does. */
  function PhotoUrlsOf(photos: seq<Value>, key: string): (r: Result<seq<string>>)
    ensures r.Success? ==> |r.value| <= |photos|
  {
    var found :- Collected(PhotoOutcomes(photos, key));
    Success(Present(found))
  }

  /** `_get_photo_urls`: only the first three photos are looked at. */
  function PhotoUrls(photos: Value, key: string): (r: Result<seq<string>>)
    ensures r.Success? ==> |r.value| <= 3
  {
    match photos
    case List(xs) => PhotoUrlsOf(Take(xs, 3), key)
    case Str(s) => PhotoUrlsOf(Take(Chars(s), 3), key)
    case _ => Failure("TypeError: object is not sliceable")
  }

  /** The photo loop succeeds exactly when every photo it visits can be looked at. */
  lemma PhotoUrlsOfSucceeds(photos: seq<Value>, key: string)
    ensures PhotoUrlsOf(photos, key).Success? <==> forall i :: 0 <= i < |photos| ==> PhotoUrlOf(photos[i], key).Success?
  {
    var outcomes := PhotoOutcomes(photos, key);
    CollectedAligned(outcomes);
    assert forall i :: 0 <= i < |photos| ==> outcomes[i] == PhotoUrlOf(photos[i], key);
  }

  /** When every photo is a dict with a string reference, each gives its URL, in order. */
  lemma PhotoUrlsOfReferenced(photos: seq<Value>, key: string)
    requires forall i :: 0 <= i < |photos| ==>
      photos[i].Obj? && "photo_reference" in photos[i].fields && photos[i].fields["photo_reference"].Str?
    ensures PhotoUrlsOf(photos, key).Success?
    ensures |PhotoUrlsOf(photos, key).value| == |photos|
    ensures forall i :: 0 <= i < |photos| ==>
      PhotoUrlsOf(photos, key).value[i] == PhotoUrl(photos[i].fields["photo_reference"].s, key)
  {
    var outcomes := PhotoOutcomes(photos, key);
    assert forall i :: 0 <= i < |photos| ==>
      outcomes[i] == Success(Some(PhotoUrl(photos[i].fields["photo_reference"].s, key)));
    CollectedAligned(outcomes);
    PresentAll(Collected(outcomes).value);
  }

  /** Every URL comes from a photo of the list that has a reference. */
  lemma PhotoUrlsOfSources(photos: seq<Value>, key: string)
    requires PhotoUrlsOf(photos, key).Success?
    ensures forall u :: u in PhotoUrlsOf(photos, key).value ==>
      exists i :: 0 <= i < |photos| && PhotoUrlOf(photos[i], key) == Success(Some(u))
  {
    var outcomes := PhotoOutcomes(photos, key);
    CollectedPresentSources(outcomes);
    assert forall i :: 0 <= i < |photos| ==> outcomes[i] == PhotoUrlOf(photos[i], key);
  }

  // ---- the API path ----

  /**
   * What the googlemaps client answers: geocoding a location, a nearby search around a point
   * (with the radius and keyword passed), and the details of a place id. A Failure is an
   * exception raised by the client.
   */
  datatype PlacesApi = PlacesApi(
    geocode: string -> Result<Value>,
    nearby: (Value, int, string) -> Result<Value>,
    place: Value -> Result<Value>)

  /**
   * The nearby-search stubs `_search_with_api` visits: geocode the location (an empty answer
   * raises ValueError), search around its first hit and keep `results[:max_results]`.
   */
  function NearbyStubs(api: PlacesApi, term: string, location: string, radius: int, maxResults: int): (r: Result<seq<Value>>)
    ensures r.Success? && 0 <= maxResults ==> |r.value| <= maxResults
    ensures api.geocode(location) == Success(List([])) ==> r.Failure?
  {
    var geo :- api.geocode(location);
    if !Truthy(geo) then Failure("ValueError: Localização não encontrada: " + location)
    else if !geo.List? then Failure("TypeError: geocode result is not a list")
    else
      var geometry :- Subscript(geo.items[0], "geometry");
      var latLng :- Subscript(geometry, "location");
      var places :- api.nearby(latLng, radius, term);
      var results :- DotGet(places, "results", List([]));
      match results
      case List(xs) => Success(Take(xs, maxResults))
      case Str(s) => Success(Take(Chars(s), maxResults))
      case _ => Failure("TypeError: object is not sliceable")
  }

  /** `details.get('result', {})` for a stub's place id. */
  function PlaceDetails(place: Value, api: PlacesApi): Result<Dict> {
    var placeId :- Subscript(place, "place_id");
    var details :- api.place(placeId);
    var result :- DotGet(details, "result", Obj(map[]));
    if result.Obj? then Success(result.fields) else Failure("AttributeError: object has no attribute 'get'")
  }

  /** The business record `_search_with_api` builds for one stub: its place id and its details. */
  function ApiRecord(place: Value, api: PlacesApi, key: string): (r: Result<Dict>)
    ensures r.Success? ==> r.value.Keys == BusinessKeys
    ensures r.Success? ==>
      && place.Obj? && "place_id" in place.fields && r.value["place_id"] == place.fields["place_id"]
      && PlaceDetails(place, api).Success?
      && r == DetailsRecord(PlaceDetails(place, api).value, place.fields["place_id"], key)
  {
    var placeId :- Subscript(place, "place_id");
    var d :- PlaceDetails(place, api);
    DetailsRecord(d, placeId, key)
  }

  /** `geometry.location.lat` and `.lng` of the details, 0 where missing. */
  function Coordinates(d: Dict): Result<(Value, Value)> {
    var location :- DotGet(GetDefault(d, "geometry", Obj(map[])), "location", Obj(map[]));
    if location.Obj? then Success((GetDefault(location.fields, "lat", Int(0)), GetDefault(location.fields, "lng", Int(0))))
    else Failure("AttributeError: object has no attribute 'get'")
  }

  /** The fields of a record that are computed from the details rather than copied. */
  datatype Derived = Derived(categoria: string, horario: string, latitude: Value, longitude: Value, fotos: seq<string>)

  /** The categories, opening hours, coordinates and photo URLs of a place's details. */
  function DerivedFields(d: Dict, key: string): (r: Result<Derived>)
    ensures r.Success? ==> |r.value.fotos| <= 3
  {
    var categoria :- JoinValue(GetDefault(d, "types", List([])), ", ");
    var horario :- FormatOpeningHours(GetDefault(d, "opening_hours", Obj(map[])));
    var coordinates :- Coordinates(d);
    var fotos :- PhotoUrls(GetDefault(d, "photos", List([])), key);
    Success(Derived(categoria, horario, coordinates.0, coordinates.1, fotos))
  }

  /** The twelve fields of an API record. */
  function DetailsBusiness(d: Dict, placeId: Value, x: Derived): (b: Dict)
    ensures b.Keys == BusinessKeys && b["place_id"] == placeId
  {
    map[
      "nome" := GetDefault(d, "name", Str("")),
      "endereco" := GetDefault(d, "formatted_address", Str("")),
      "telefone" := GetDefault(d, "formatted_phone_number", Str("")),
      "website" := GetDefault(d, "website", Str("")),
      "categoria" := Str(x.categoria),
      "avaliacao" := GetDefault(d, "rating", Int(0)),
      "numero_avaliacoes" := GetDefault(d, "user_ratings_total", Int(0)),
      "horario_funcionamento" := Str(x.horario),
      "latitude" := x.latitude,
      "longitude" := x.longitude,
      "place_id" := placeId,
      "fotos" := Strs(x.fotos)]
  }

  /** The record built from a place's details. */
  function DetailsRecord(d: Dict, placeId: Value, key: string): (r: Result<Dict>)
    ensures r.Success? ==> r.value.Keys == BusinessKeys && r.value["place_id"] == placeId
  {
    var x :- DerivedFields(d, key);
    Success(DetailsBusiness(d, placeId, x))
  }

  /**
   * The copied fields of an API record: each detail as the API gave it, "" for a missing
   * name, address, phone or website and 0 for a missing rating or rating count.
   */
  lemma DetailsRecordCopies(d: Dict, placeId: Value, x: Derived)
    ensures var b := DetailsBusiness(d, placeId, x);
      && b["nome"] == (if "name" in d then d["name"] else Str(""))
      && b["endereco"] == (if "formatted_address" in d then d["formatted_address"] else Str(""))
      && b["telefone"] == (if "formatted_phone_number" in d then d["formatted_phone_number"] else Str(""))
      && b["website"] == (if "website" in d then d["website"] else Str(""))
      && b["avaliacao"] == (if "rating" in d then d["rating"] else Int(0))
      && b["numero_avaliacoes"] == (if "user_ratings_total" in d then d["user_ratings_total"] else Int(0))
  {
  }

  /**
   * The derived fields of an API record: coordinates 0 without a geometry, no categories
   * without types and the types joined by ", " otherwise, "" without opening hours, and at
   * most three photo URLs.
   */
  lemma DerivedFieldsDefaults(d: Dict, key: string)
    requires DerivedFields(d, key).Success?
    ensures var x := DerivedFields(d, key).value;
      && ("geometry" !in d ==> x.latitude == Int(0) && x.longitude == Int(0))
      && ("types" !in d ==> x.categoria == "")
      && ("types" in d && d["types"].List? && (forall i :: 0 <= i < |d["types"].items| ==> d["types"].items[i].Str?) ==>
            x.categoria == Join(StrsOf(d["types"].items), ", "))
      && ("opening_hours" !in d ==> x.horario == "")
  {
    assert StrsOf([]) == [];
  }

  /** What `time.sleep` raises for a negative delay. */
  const SleepError := "ValueError: sleep length must be non-negative"

  /** One pass of the API loop: the stub's record, then `time.sleep(delay)`, which raises for a negative delay. */
  function PacedRecord(place: Value, api: PlacesApi, key: string, delay: int): Result<Dict> {
    var b :- ApiRecord(place, api, key);
    if delay < 0 then Failure(SleepError) else Success(b)
  }

  /** The outcome of each pass of the loop, in order. */
  function StubRecords(stubs: seq<Value>, api: PlacesApi, key: string, delay: int): seq<Result<Dict>> {
    seq(|stubs|, i requires 0 <= i < |stubs| => PacedRecord(stubs[i], api, key, delay))
  }

  /** The records of the stubs, in order; the first pass that raises discards them all. */
  function ApiRecords(stubs: seq<Value>, api: PlacesApi, key: string, delay: int): (r: Result<seq<Dict>>)
    ensures r.Success? ==> |r.value| == |stubs|
  {
    Collected(StubRecords(stubs, api, key, delay))
  }

  /**
   * A list comes back iff every stub gives a record and the delay can be slept (or there is
   * nothing to sleep after), and then record i is stub i's.
   */
  lemma ApiRecordsAligned(stubs: seq<Value>, api: PlacesApi, key: string, delay: int)
    ensures ApiRecords(stubs, api, key, delay).Success? <==>
      (stubs == [] || 0 <= delay) && forall i :: 0 <= i < |stubs| ==> ApiRecord(stubs[i], api, key).Success?
    ensures ApiRecords(stubs, api, key, delay).Success? ==>
      forall i :: 0 <= i < |stubs| ==> ApiRecord(stubs[i], api, key) == Success(ApiRecords(stubs, api, key, delay).value[i])
  {
    var rs := StubRecords(stubs, api, key, delay);
    CollectedAligned(rs);
    assert forall i :: 0 <= i < |stubs| ==> rs[i] == PacedRecord(stubs[i], api, key, delay);
    if stubs != [] && delay < 0 {
      assert rs[0].Failure?;
    }
  }

  /** What `_search_with_api` computes before its `except` turns a raise into []. */
  function ApiSearch(api: PlacesApi, term: string, location: string, radius: int, maxResults: int, key: string, delay: int): (r: Result<seq<Dict>>)
    ensures r.Success? && 0 <= maxResults ==> |r.value| <= maxResults
  {
    var stubs :- NearbyStubs(api, term, location, radius, maxResults);
    ApiRecords(stubs, api, key, delay)
  }

  /** Each API record is the record of the stub at the same position, so it keeps that stub's place id. */
  lemma ApiSearchOrder(api: PlacesApi, term: string, location: string, radius: int, maxResults: int, key: string, delay: int)
    requires ApiSearch(api, term, location, radius, maxResults, key, delay).Success?
    ensures var stubs := NearbyStubs(api, term, location, radius, maxResults).value;
            var records := ApiSearch(api, term, location, radius, maxResults, key, delay).value;
      && |records| == |stubs|
      && forall i :: 0 <= i < |stubs| ==>
           && ApiRecord(stubs[i], api, key) == Success(records[i])
           && stubs[i].Obj? && "place_id" in stubs[i].fields && records[i]["place_id"] == stubs[i].fields["place_id"]
  {
    var stubs := NearbyStubs(api, term, location, radius, maxResults).value;
    ApiRecordsAligned(stubs, api, key, delay);
  }

  /**
   * A location the geocoder does not know yields no records, and so does any stub that raises,
   * and so does a negative delay.
   */
  lemma ApiSearchAllOrNothing(api: PlacesApi, term: string, location: string, radius: int, maxResults: int, key: string, delay: int)
    ensures api.geocode(location) == Success(List([])) ==> OrEmpty(ApiSearch(api, term, location, radius, maxResults, key, delay)) == []
    ensures NearbyStubs(api, term, location, radius, maxResults).Success? &&
            (exists i :: 0 <= i < |NearbyStubs(api, term, location, radius, maxResults).value| &&
                         ApiRecord(NearbyStubs(api, term, location, radius, maxResults).value[i], api, key).Failure?)
            ==> OrEmpty(ApiSearch(api, term, location, radius, maxResults, key, delay)) == []
    ensures delay < 0 ==> OrEmpty(ApiSearch(api, term, location, radius, maxResults, key, delay)) == []
  {
    var stubs := NearbyStubs(api, term, location, radius, maxResults);
    if stubs.Success? {
      ApiRecordsAligned(stubs.value, api, key, delay);
    }
  }

  // ---- the scraping path ----

  /** What looking an element up in the detail pane gives: it, NoSuchElementException, or another driver error. */
  datatype Lookup<T> = Found(value: T) | NotFound | Broken

  /**
   * The detail pane shown after clicking a result: the `h1` text, the address, phone and
   * category texts, the website element's `href` attribute (None when it has none) and the
   * rating text.
   */
  datatype Pane = Pane(
    title: Lookup<string>,
    address: Lookup<string>,
    phone: Lookup<string>,
    website: Lookup<Option<string>>,
    rating: Lookup<string>,
    category: Lookup<string>)

  /** A result element: clicking it raises, or shows its detail pane. */
  datatype Hit = ClickFails | Shows(pane: Pane)

  /** Python's `float(word)` for plain decimals: an optional sign, digits with an optional point. */
  function ParseDecimal(word: string): Option<real> {
    var negative := word != [] && word[0] == '-';
    var body := if word != [] && (word[0] == '-' || word[0] == '+') then word[1..] else word;
    var parts := Split(body, ".");
    if |parts| == 1 && WellFormedDigits(parts[0]) then
      Some(Signed(negative, DigitsValue(parts[0]) as real))
    else if |parts| == 2 && DigitPart(parts[0]) && DigitPart(parts[1]) && parts[0] + parts[1] != [] then
      Some(Signed(negative, DigitsValue(parts[0]) as real + DigitsValue(parts[1]) as real / Pow10(DigitCount(parts[1])) as real))
    else None
  }

  predicate DigitPart(s: string) {
    s == [] || WellFormedDigits(s)
  }

  function Signed(negative: bool, x: real): real {
    if negative then -x else x
  }

  function Pow10(n: nat): (r: nat)
    ensures r > 0
  {
    if n == 0 then 1 else 10 * Pow10(n - 1)
  }

  function DigitCount(s: string): nat {
    if s == [] then 0 else DigitCount(s[..|s| - 1]) + (if IsDigit(s[|s| - 1]) then 1 else 0)
  }

  /** A whole number written in decimal reads back as itself. */
  lemma ParseDecimalOfNat(n: nat)
    ensures ParseDecimal(NatToString(n)) == Some(n as real)
  {
    var s := NatToString(n);
    NatToStringDigits(n);
    IndexOfAbsent(s, ".", 0);
    assert Split(s, ".") == [s];
    DigitsWellFormed(s);
    NatToStringValue(n);
  }

  /** The rating field: the first word of the rating text as a float, or 0 when it is not one. */
  function RatingValue(word: string): Value {
    match ParseDecimal(word)
    case Some(x) => Real(x)
    case None => Int(0)
  }

  /** A lookup's text, or "" when the element is missing. */
  function TextOr(l: Lookup<string>): Value {
    if l.Found? then Str(l.value) else Str("")
  }

  /**
   * `_extract_business_info`: None when the title is missing, when any lookup fails with
   * another driver error, or when the rating text is blank (`split()[0]` raises IndexError,
   * which the rating's own `except` does not catch).
   */
  function PaneRecord(pane: Pane): (r: Option<Dict>)
    ensures r.Some? ==> r.value.Keys == BusinessKeys
  {
    if !pane.title.Found? || pane.address.Broken? || pane.phone.Broken? || pane.website.Broken?
       || pane.rating.Broken? || pane.category.Broken? then None
    else if pane.rating.Found? && FirstWord(pane.rating.value).None? then None
    else
      Some(ScrapedBusiness(
        Str(pane.title.value), TextOr(pane.address), TextOr(pane.phone), WebsiteValue(pane.website),
        if pane.rating.Found? then RatingValue(FirstWord(pane.rating.value).value) else Int(0),
        TextOr(pane.category)))
  }

  /** A scraped record, filled in the order `_extract_business_info` fills it, with the defaults the page cannot give. */
  function ScrapedBusiness(nome: Value, endereco: Value, telefone: Value, website: Value, avaliacao: Value, categoria: Value): (b: Dict)
    ensures b.Keys == BusinessKeys
  {
    map["nome" := nome]
      ["endereco" := endereco]
      ["telefone" := telefone]
      ["website" := website]
      ["avaliacao" := avaliacao]
      ["categoria" := categoria]
      ["numero_avaliacoes" := Int(0)]
      ["horario_funcionamento" := Str("")]
      ["latitude" := Int(0)]
      ["longitude" := Int(0)]
      ["place_id" := Str("")]
      ["fotos" := List([])]
  }

  /** Each scraped field holds what the page gave, and the other six hold their fixed defaults. */
  lemma ScrapedBusinessFields(nome: Value, endereco: Value, telefone: Value, website: Value, avaliacao: Value, categoria: Value)
    ensures var b := ScrapedBusiness(nome, endereco, telefone, website, avaliacao, categoria);
      && b["nome"] == nome && b["endereco"] == endereco && b["telefone"] == telefone
      && b["website"] == website && b["avaliacao"] == avaliacao && b["categoria"] == categoria
      && b["numero_avaliacoes"] == Int(0) && b["horario_funcionamento"] == Str("")
      && b["latitude"] == Int(0) && b["longitude"] == Int(0)
      && b["place_id"] == Str("") && b["fotos"] == List([])
  {
  }

  /** The website field: the element's `href` attribute, None when it has none, "" when it is missing. */
  function WebsiteValue(l: Lookup<Option<string>>): Value {
    match l
    case Found(href) => if href.Some? then Str(href.value) else Null
    case _ => Str("")
  }

  /**
   * A scraped record carries the fixed defaults the page cannot give, and 0 as its rating
   * when the rating is missing or its first word is not a number; a pane without a title
   * gives no record.
   */
  lemma PaneRecordFields(pane: Pane)
    ensures !pane.title.Found? ==> PaneRecord(pane).None?
    ensures PaneRecord(pane).Some? ==>
      var b := PaneRecord(pane).value;
      && b["nome"] == Str(pane.title.value)
      && b["numero_avaliacoes"] == Int(0) && b["horario_funcionamento"] == Str("")
      && b["latitude"] == Int(0) && b["longitude"] == Int(0)
      && b["place_id"] == Str("") && b["fotos"] == List([])
      && (pane.rating.NotFound? ==> b["avaliacao"] == Int(0))
      && (pane.rating.Found? ==> b["avaliacao"] == RatingValue(FirstWord(pane.rating.value).value))
      && (pane.address.NotFound? ==> b["endereco"] == Str(""))
      && (pane.website.NotFound? ==> b["website"] == Str(""))
  {
    if PaneRecord(pane).Some? {
      ScrapedBusinessFields(
        Str(pane.title.value), TextOr(pane.address), TextOr(pane.phone), WebsiteValue(pane.website),
        if pane.rating.Found? then RatingValue(FirstWord(pane.rating.value).value) else Int(0),
        TextOr(pane.category));
    }
  }

  /** What one hit contributes: its pane's record when the click worked. */
  function HitRecord(hit: Hit): Option<Dict> {
    if hit.Shows? then PaneRecord(hit.pane) else None
  }

  function HitRecords(hits: seq<Hit>): seq<Option<Dict>> {
    seq(|hits|, i requires 0 <= i < |hits| => HitRecord(hits[i]))
  }

  /** One more hit adds its record, if it gives one, after those of the hits before it. */
  lemma HitRecordsStep(hits: seq<Hit>, i: nat)
    requires i < |hits|
    ensures Present(HitRecords(hits[..i + 1])) ==
      Present(HitRecords(hits[..i])) + (if HitRecord(hits[i]).Some? then [HitRecord(hits[i]).value] else [])
  {
    assert HitRecords(hits[..i + 1]) == HitRecords(hits[..i]) + [HitRecord(hits[i])];
    PresentSnoc(HitRecords(hits[..i]), HitRecord(hits[i]));
  }

  /** The records of the hits whose click worked and whose pane gave a record, in order. */
  function ScrapeRecords(hits: seq<Hit>): (r: seq<Dict>)
    ensures |r| <= |hits|
  {
    Present(HitRecords(hits))
  }

  /** A record is scraped iff some hit shows a pane that gives it: failed clicks and empty panes are skipped. */
  lemma ScrapeRecordsSources(hits: seq<Hit>)
    ensures forall b :: b in ScrapeRecords(hits) <==>
      exists i :: 0 <= i < |hits| && hits[i].Shows? && PaneRecord(hits[i].pane) == Some(b)
  {
    var xs := HitRecords(hits);
    PresentSources(xs);
    assert forall i :: 0 <= i < |hits| ==> xs[i] == HitRecord(hits[i]);
  }

  /** A browser session, open until it is quit. */
  datatype Browser = Browser(session: nat, open: bool)

  /** `setup_driver`: Chrome fails to start, starts but the stealth script raises, or starts. */
  datatype Launch = LaunchFails | ScriptFails(session: nat) | Launches(session: nat)

  /**
   * What the browser does in one scraping run: how it launches, the result elements a search
   * URL shows once it has loaded (None when loading or waiting raises), and whether `quit` returns
   * normally.
   */
  datatype MapsWeb = MapsWeb(launch: Launch, results: string -> Option<seq<Hit>>, quitOk: bool)

  /** The Maps search URL for a term and a location. */
  function SearchUrl(term: string, location: string): string {
    "https://www.google.com/maps/search/" + term + " " + location
  }

  /** `self.driver` after `setup_driver`: the new session, or the old value when Chrome did not start. */
  function LaunchedDriver(previous: Option<Browser>, launch: Launch): Option<Browser> {
    match launch
    case LaunchFails => previous
    case ScriptFails(session) => Some(Browser(session, true))
    case Launches(session) => Some(Browser(session, true))
  }

  /** `driver.quit()` applied when there is a driver. */
  function Quit(driver: Option<Browser>): Option<Browser> {
    if driver.Some? then Some(Browser(driver.value.session, false)) else None
  }

  /**
   * The loop over the hits: each hit's record, then `time.sleep(delay)` outside the inner `try`,
   * so a negative delay raises out of the loop after the first hit.
   */
  function PacedScrape(hits: seq<Hit>, delay: int): Result<seq<Dict>> {
    if delay < 0 && exists i :: 0 <= i < |hits| && hits[i].Shows? then Failure(SleepError)
    else Success(ScrapeRecords(hits))
  }

  /**
   * What the `try` of `_search_with_scraping` gives: the loop over the first `max_results` hits;
   * no records when Chrome or its stealth script fails or the results do not load.
   */
  function ScrapedRecords(web: MapsWeb, term: string, location: string, maxResults: int, delay: int): Result<seq<Dict>> {
    if web.launch.Launches? && web.results(SearchUrl(term, location)).Some? then
      PacedScrape(Take(web.results(SearchUrl(term, location)).value, maxResults), delay)
    else Success([])
  }

  /**
   * `_search_with_scraping` before the caller's `except`: the records, or a failure when
   * something raised. The method's own `except` turns a raise in its `try` (such as the
   * delay's sleep) into [], and a raise of `quit` in `finally` escapes it; both end as [] in
   * `search_businesses`, so the model does not tell them apart.
   */
  function ScrapeOutcome(previous: Option<Browser>, web: MapsWeb, term: string, location: string, maxResults: int, delay: int): (r: Result<seq<Dict>>)
    ensures r.Success? && 0 <= maxResults ==> |r.value| <= maxResults
  {
    if LaunchedDriver(previous, web.launch).Some? && !web.quitOk then Failure("WebDriverException: quit failed")
    else ScrapedRecords(web, term, location, maxResults, delay)
  }

  /**
   * A negative delay raises after the first hit whose click works, so scraping never returns
   * records then; when every click fails the loop completes with no records either.
   */
  lemma ScrapeNegativeDelay(previous: Option<Browser>, web: MapsWeb, term: string, location: string, maxResults: int, delay: int)
    requires delay < 0
    ensures OrEmpty(ScrapeOutcome(previous, web, term, location, maxResults, delay)) == []
  {
    if web.launch.Launches? && web.results(SearchUrl(term, location)).Some? {
      var hits := Take(web.results(SearchUrl(term, location)).value, maxResults);
      if forall i :: 0 <= i < |hits| ==> !hits[i].Shows? {
        PresentNone(HitRecords(hits));
      }
    }
  }

  /** After scraping, any driver the tool holds has been quit; a session started by this run is the one held. */
  lemma ScrapingQuitsDriver(previous: Option<Browser>, launch: Launch)
    ensures var d := Quit(LaunchedDriver(previous, launch));
      && (d.Some? ==> !d.value.open)
      && (d.None? <==> previous.None? && launch.LaunchFails?)
      && (!launch.LaunchFails? ==> d == Some(Browser(launch.session, false)))
  {
  }

  /** Neither path returns more than `max_results` records, for a non-negative limit. */
  lemma SearchCap(api: PlacesApi, web: MapsWeb, previous: Option<Browser>, term: string, location: string, radius: int, maxResults: int, key: string, delay: int)
    requires 0 <= maxResults
    ensures |OrEmpty(ApiSearch(api, term, location, radius, maxResults, key, delay))| <= maxResults
    ensures |OrEmpty(ScrapeOutcome(previous, web, term, location, maxResults, delay))| <= maxResults
  {
  }

  /** Both paths build records with the same twelve fields. */
  lemma SearchRecordsShape(api: PlacesApi, web: MapsWeb, previous: Option<Browser>, term: string, location: string, radius: int, maxResults: int, key: string, delay: int)
    ensures forall b :: b in OrEmpty(ApiSearch(api, term, location, radius, maxResults, key, delay)) ==> b.Keys == BusinessKeys
    ensures forall b :: b in OrEmpty(ScrapeOutcome(previous, web, term, location, maxResults, delay)) ==> b.Keys == BusinessKeys
  {
    var api_ := ApiSearch(api, term, location, radius, maxResults, key, delay);
    if api_.Success? {
      ApiSearchOrder(api, term, location, radius, maxResults, key, delay);
      var stubs := NearbyStubs(api, term, location, radius, maxResults).value;
      forall b | b in api_.value ensures b.Keys == BusinessKeys {
        var i :| 0 <= i < |api_.value| && api_.value[i] == b;
        assert ApiRecord(stubs[i], api, key) == Success(b);
      }
    }
    if web.launch.Launches? && web.results(SearchUrl(term, location)).Some? {
      ScrapeRecordsSources(Take(web.results(SearchUrl(term, location)).value, maxResults));
    }
  }

  // ---- the tool ----

  class GoogleMapsSearchTool {
    /** `Config.GOOGLE_MAPS_API_KEY`, used by the client and in photo URLs. */
    const apiKey: string
    /** Whether `self.gmaps` was built: only when a key is configured. */
    const hasClient: bool
    /** `Config.SEARCH_DELAY`, slept after each result. */
    const searchDelay: int
    /** `self.driver`: None until the first scraping run; it is never reset after `quit`. */
    var driver: Option<Browser>

    constructor(settings: Config.Settings)
      ensures apiKey == settings.googleMapsApiKey
      ensures hasClient <==> settings.googleMapsApiKey != ""
      ensures searchDelay == settings.searchDelay
      ensures driver == None
    {
      apiKey := settings.googleMapsApiKey;
      hasClient := settings.googleMapsApiKey != "";
      searchDelay := settings.searchDelay;
      driver := None;
    }

    /** `search_businesses`: the API when a client exists, the browser otherwise; a raise gives []. */
    method SearchBusinesses(term: string, location: string, radius: int, maxResults: int, api: PlacesApi, web: MapsWeb)
      returns (businesses: seq<Dict>)
      modifies this
      ensures hasClient ==> businesses == OrEmpty(ApiSearch(api, term, location, radius, maxResults, apiKey, searchDelay)) && driver == old(driver)
      ensures !hasClient ==>
        && businesses == OrEmpty(ScrapeOutcome(old(driver), web, term, location, maxResults, searchDelay))
        && driver == Quit(LaunchedDriver(old(driver), web.launch))
    {
      if hasClient {
        businesses := SearchWithApi(term, location, radius, maxResults, api);
      } else {
        var scraped := SearchWithScraping(term, location, maxResults, web);
        businesses := if scraped.Success? then scraped.value else [];
      }
    }

    /** `_search_with_api`: one record per stub, in order; any raise gives []. */
    method SearchWithApi(term: string, location: string, radius: int, maxResults: int, api: PlacesApi)
      returns (businesses: seq<Dict>)
      ensures businesses == OrEmpty(ApiSearch(api, term, location, radius, maxResults, apiKey, searchDelay))
    {
      var stubs := NearbyStubs(api, term, location, radius, maxResults);
      if stubs.Failure? {
        return [];
      }
      var records := CollectRecords(stubs.value, api);
      businesses := OrEmpty(records);
    }

    /** The loop of `_search_with_api`: fetch each stub's details and build its record, in order. */
    method CollectRecords(places: seq<Value>, api: PlacesApi) returns (records: Result<seq<Dict>>)
      ensures records == ApiRecords(places, api, apiKey, searchDelay)
    {
      ghost var outcomes := StubRecords(places, api, apiKey, searchDelay);
      var businesses: seq<Dict> := [];
      for i := 0 to |places|
        invariant Collected(outcomes[..i]) == Success(businesses)
      {
        var record := ApiRecord(places[i], api, apiKey);
        CollectedStep(outcomes, i);
        if record.Failure? {
          assert outcomes[i] == Failure(record.error);
          CollectedStops(outcomes, i + 1);
          return Failure(record.error);
        }
        businesses := businesses + [record.value];
        if searchDelay < 0 {
          assert outcomes[i] == Failure(SleepError);
          CollectedStops(outcomes, i + 1);
          return Failure(SleepError);
        }
        assert outcomes[i] == Success(record.value);
      }
      assert outcomes[..|places|] == outcomes;
      return Success(businesses);
    }

    /** `setup_driver`: the new session is stored before the stealth script runs. */
    method SetupDriver(launch: Launch) returns (ready: bool)
      modifies this
      ensures driver == LaunchedDriver(old(driver), launch)
      ensures ready <==> launch.Launches?
    {
      match launch {
        case LaunchFails =>
          ready := false;
        case ScriptFails(session) =>
          driver := Some(Browser(session, true));
          ready := false;
        case Launches(session) =>
          driver := Some(Browser(session, true));
          ready := true;
      }
    }

    /** `_search_with_scraping`: click through the first `max_results` hits, then quit the driver. */
    method SearchWithScraping(term: string, location: string, maxResults: int, web: MapsWeb)
      returns (r: Result<seq<Dict>>)
      modifies this
      ensures r == ScrapeOutcome(old(driver), web, term, location, maxResults, searchDelay)
      ensures driver == Quit(LaunchedDriver(old(driver), web.launch))
    {
      var ready := SetupDriver(web.launch);
      var records: Result<seq<Dict>> := Success([]);
      if ready {
        var shown := web.results(SearchUrl(term, location));
        if shown.Some? {
          records := ScrapeHits(Take(shown.value, maxResults));
        }
      }
      if driver.Some? {
        driver := Some(Browser(driver.value.session, false));
        if !web.quitOk {
          return Failure("WebDriverException: quit failed");
        }
      }
      return records;
    }

    /**
     * The loop of `_search_with_scraping`: click each hit and keep the records its pane gives,
     * sleeping `Config.SEARCH_DELAY` after each hit whose click worked (a failed click
     * `continue`s past the sleep); a negative delay then raises out of the loop.
     */
    method ScrapeHits(hits: seq<Hit>) returns (r: Result<seq<Dict>>)
      ensures r.Success? <==> 0 <= searchDelay || forall i :: 0 <= i < |hits| ==> hits[i].ClickFails?
      ensures r.Success? ==> r.value == ScrapeRecords(hits)
      ensures r.Failure? ==> r.error == SleepError
    {
      var records := [];
      for i := 0 to |hits|
        invariant records == Present(HitRecords(hits[..i]))
        invariant searchDelay < 0 ==> forall j :: 0 <= j < i ==> hits[j].ClickFails?
      {
        HitRecordsStep(hits, i);
        match hits[i] {
          case ClickFails =>
          case Shows(pane) =>
            var business := ExtractBusinessInfo(pane);
            if business.Some? {
              records := records + [business.value];
            }
            if searchDelay < 0 {
              return Failure(SleepError);
            }
        }
      }
      assert hits[..|hits|] == hits;
      r := Success(records);
    }

    /** `_extract_business_info`, field by field. */
    method ExtractBusinessInfo(pane: Pane) returns (business: Option<Dict>)
      ensures business == PaneRecord(pane)
    {
      if !pane.title.Found? {
        return None;
      }
      var b: Dict := map["nome" := Str(pane.title.value)];
      if pane.address.Broken? {
        return None;
      }
      b := b["endereco" := TextOr(pane.address)];
      if pane.phone.Broken? {
        return None;
      }
      b := b["telefone" := TextOr(pane.phone)];
      if pane.website.Broken? {
        return None;
      }
      b := b["website" := WebsiteValue(pane.website)];
      match pane.rating {
        case Broken => return None;
        case NotFound => b := b["avaliacao" := Int(0)];
        case Found(text) =>
          var word := FirstWord(text);
          if word.None? {
            return None;
          }
          b := b["avaliacao" := RatingValue(word.value)];
      }
      if pane.category.Broken? {
        return None;
      }
      b := b["categoria" := TextOr(pane.category)];
      b := b["numero_avaliacoes" := Int(0)];
      b := b["horario_funcionamento" := Str("")];
      b := b["latitude" := Int(0)];
      b := b["longitude" := Int(0)];
      b := b["place_id" := Str("")];
      b := b["fotos" := List([])];
      return Some(b);
    }

    /** `_get_photo_urls`: append the URL of each of the first three photos that has a reference. */
    method GetPhotoUrls(photos: Value) returns (urls: Result<seq<string>>)
      ensures urls == PhotoUrls(photos, apiKey)
    {
      var first: seq<Value>;
      match photos {
        case List(xs) => first := Take(xs, 3);
        case Str(s) => first := Take(Chars(s), 3);
        case _ => return Failure("TypeError: object is not sliceable");
      }
      urls := LookAtPhotos(first);
    }

    /** The loop of `_get_photo_urls` over the photos it keeps. */
    method LookAtPhotos(first: seq<Value>) returns (urls: Result<seq<string>>)
      ensures urls == PhotoUrlsOf(first, apiKey)
    {
      ghost var outcomes := PhotoOutcomes(first, apiKey);
      ghost var looked: seq<Option<string>> := [];
      var found: seq<string> := [];
      for i := 0 to |first|
        invariant Collected(outcomes[..i]) == Success(looked) && found == Present(looked)
      {
        CollectedStep(outcomes, i);
        var has := Contains(first[i], "photo_reference");
        if has.Failure? {
          CollectedStops(outcomes, i + 1);
          return Failure(has.error);
        }
        if has.value {
          var reference := Subscript(first[i], "photo_reference");
          if reference.Failure? {
            CollectedStops(outcomes, i + 1);
            return Failure(reference.error);
          }
          var url := PhotoUrl(Display(reference.value), apiKey);
          PresentSnoc(looked, Some(url));
          found := found + [url];
          looked := looked + [Some(url)];
        } else {
          PresentSnoc(looked, None);
          looked := looked + [None];
        }
      }
      assert outcomes[..|first|] == outcomes;
      return Success(found);
    }
  }
}

/**
 * The documents the server stores (Weather, Crowd, Hotel and POI
 * collections) as the application reads them, and the by-city lookups
 * that several pages and the plan endpoint share.
 *
 * Conventions: a string field is a plain `string` with "" standing for
 * a missing value. Most reads go through `|| ""` or optional chaining;
 * the marketplace query filter reads `name` bare, so a missing name
 * there would throw, which is not modelled. A number or flag whose
 * absence changes behaviour is an `Option`. Timestamps are the milliseconds `new Date(...).getTime()`
 * yields, passed in as integers. Temperatures, crowd percents and prices
 * are integers too: a fractional value such as 23.5 is not represented.
 */
module Records {
  import opened Wrappers
  import opened Text
  import opened Seqs

  /** A forecast entry; `temp` is `None` when the entry has none. */
  datatype ForecastDay = ForecastDay(day: string, temp: Option<int>)

  datatype WeatherRecord = WeatherRecord(
    city: Option<string>,
    temperature: Option<int>,
    condition: Option<string>,
    forecast: seq<ForecastDay>,
    lastUpdated: int)

  /**
   * `docText` is the text `String(doc)` gives for the whole document,
   * which the plan endpoint prints when `crowd_level` is empty.
   */
  datatype CrowdRecord = CrowdRecord(
    place: Option<string>,
    crowdLevel: Option<string>,
    percent: Option<int>,
    docText: string)

  datatype Coords = Coords(lat: Option<real>, lng: Option<real>)

  datatype HotelRecord = HotelRecord(
    id: string,
    name: string,
    location: string,
    price: Option<int>,
    rating: Option<real>,
    available: Option<bool>,
    image: string,
    images: seq<string>,
    amenities: Option<seq<string>>,
    coords: Option<Coords>)

  datatype PoiRecord = PoiRecord(name: string, city: string, category: Option<string>)

  /** `w.city?.toLowerCase() === city.toLowerCase()`. */
  predicate WeatherIn(w: WeatherRecord, city: string) {
    w.city.Some? && EqualsIgnoreCase(w.city.value, city)
  }

  /** `c.place?.toLowerCase() === city.toLowerCase()`. */
  predicate CrowdAt(c: CrowdRecord, city: string) {
    c.place.Some? && EqualsIgnoreCase(c.place.value, city)
  }

  /** `list.find(w => w.city?.toLowerCase() === city.toLowerCase())`. */
  function FirstWeatherIn(list: seq<WeatherRecord>, city: string): (r: Option<WeatherRecord>)
    ensures r.None? <==> forall i :: 0 <= i < |list| ==> !WeatherIn(list[i], city)
    ensures r.Some? ==> exists i :: 0 <= i < |list| && list[i] == r.value && WeatherIn(list[i], city)
                          && forall j :: 0 <= j < i ==> !WeatherIn(list[j], city)
  {
    var i := FindFirst(list, w => WeatherIn(w, city));
    if i.Some? then Some(list[i.value]) else None
  }

  /** `list.find(c => c.place?.toLowerCase() === city.toLowerCase())`. */
  function FirstCrowdAt(list: seq<CrowdRecord>, city: string): (r: Option<CrowdRecord>)
    ensures r.None? <==> forall i :: 0 <= i < |list| ==> !CrowdAt(list[i], city)
    ensures r.Some? ==> exists i :: 0 <= i < |list| && list[i] == r.value && CrowdAt(list[i], city)
                          && forall j :: 0 <= j < i ==> !CrowdAt(list[j], city)
  {
    var i := FindFirst(list, c => CrowdAt(c, city));
    if i.Some? then Some(list[i.value]) else None
  }

  /** How a possibly missing string prints in a template literal. */
  function TemplateText(s: Option<string>): string {
    if s.Some? then s.value else "undefined"
  }

  /** How a possibly missing number prints in a template literal. */
  function TemplateNumber(n: Option<int>): string {
    if n.Some? then IntToString(n.value) else "undefined"
  }
}

/**
 * The hotel page's derived values: where to centre the map (the hotel's
 * own coordinates, else a known city centre named in its location), the
 * "Getting there" suggestions, and which images the gallery shows.
 */
module HotelDetails {
  import opened Wrappers
  import opened Text
  import opened Seqs
  import opened Records

  datatype LatLng = LatLng(lat: real, lng: real)

  /** `CITY_CENTERS`, in declaration order (the order `Object.keys` yields). */
  const CityCenters: seq<(string, LatLng)> := [
    ("Agra", LatLng(27.1767, 78.0081)),
    ("Varanasi", LatLng(25.3176, 82.9739)),
    ("Manali", LatLng(32.2396, 77.1887)),
    ("Jaipur", LatLng(26.9124, 75.7873)),
    ("Goa", LatLng(15.2993, 74.124)),
    ("Delhi", LatLng(28.6139, 77.209)),
    ("New Delhi", LatLng(28.6139, 77.209)),
    ("Mumbai", LatLng(19.076, 72.8777))
  ]

  /** Both `coords.lat` and `coords.lng` are numbers. */
  predicate HasNumericCoords(hotel: Option<HotelRecord>) {
    hotel.Some? && hotel.value.coords.Some? && hotel.value.coords.value.lat.Some? && hotel.value.coords.value.lng.Some?
  }

  /** `hotel?.location || ""`. */
  function LocationOf(hotel: Option<HotelRecord>): string {
    if hotel.Some? then hotel.value.location else ""
  }

  /** `location.toLowerCase().includes(city.toLowerCase())`. */
  predicate Mentions(location: string, city: string) {
    ContainsIgnoreCase(location, city)
  }

  predicate MentionedIn(location: string, entry: (string, LatLng)) {
    Mentions(location, entry.0)
  }

  /** The centre of the first declared city the location mentions. */
  function FirstMentioned(location: string): Option<LatLng> {
    var i := FindFirst(CityCenters, e => MentionedIn(location, e));
    if i.Some? then Some(CityCenters[i.value].1) else None
  }

  /** `CITY_CENTERS[key]` for the declared keys: an exact, case-sensitive lookup. */
  function CenterOf(key: string): (c: Option<LatLng>)
    ensures c.Some? <==> exists i :: 0 <= i < |CityCenters| && CityCenters[i].0 == key
  {
    var i := FindFirst(CityCenters, (e: (string, LatLng)) => e.0 == key);
    if i.Some? then Some(CityCenters[i.value].1) else None
  }

  /** `location.split(",").map(s => s.trim()).filter(Boolean)`. */
  function Segments(location: string): seq<string> {
    var raw := Split(location, ',');
    Filter(seq(|raw|, i requires 0 <= i < |raw| => Trim(raw[i])), NonEmpty)
  }

  predicate NonEmpty(s: string) { s != "" }

  /** The lookup of the last non-empty segment. */
  function LastSegmentCenter(location: string): Option<LatLng> {
    var parts := Segments(location);
    if |parts| > 0 then CenterOf(parts[|parts| - 1]) else None
  }

  /** What `deriveLatLng` returns. */
  function Derived(hotel: Option<HotelRecord>): Option<LatLng> {
    if HasNumericCoords(hotel) then Some(LatLng(hotel.value.coords.value.lat.value, hotel.value.coords.value.lng.value))
    else if FirstMentioned(LocationOf(hotel)).Some? then FirstMentioned(LocationOf(hotel))
    else LastSegmentCenter(LocationOf(hotel))
  }

  /**
   * `deriveLatLng`: the hotel's own numeric coordinates; else the first
   * declared city the location mentions, found by the scan; else the
   * centre of the location's last segment.
   */
  method DeriveLatLng(hotel: Option<HotelRecord>) returns (r: Option<LatLng>)
    ensures r == Derived(hotel)
  {
    if HasNumericCoords(hotel) {
      return Some(LatLng(hotel.value.coords.value.lat.value, hotel.value.coords.value.lng.value));
    }
    var location := LocationOf(hotel);
    var i := 0;
    while i < |CityCenters|
      invariant 0 <= i <= |CityCenters|
      invariant forall j :: 0 <= j < i ==> !MentionedIn(location, CityCenters[j])
    {
      if ContainsIgnoreCase(location, CityCenters[i].0) {
        ScanFindsFirst(location, i);
        return Some(CityCenters[i].1);
      }
      i := i + 1;
    }
    ScanFindsNone(location);
    var parts := Segments(location);
    if |parts| > 0 {
      var last := parts[|parts| - 1];
      var c := CenterOf(last);
      if last != "" && c.Some? {
        return c;
      }
    }
    return None;
  }

  lemma ScanFindsFirst(location: string, i: nat)
    requires i < |CityCenters| && MentionedIn(location, CityCenters[i])
    requires forall j :: 0 <= j < i ==> !MentionedIn(location, CityCenters[j])
    ensures FirstMentioned(location) == Some(CityCenters[i].1)
  {
    var k := FindFirst(CityCenters, e => MentionedIn(location, e));
    assert k.Some?;
    assert k.value == i;
  }

  lemma ScanFindsNone(location: string)
    requires forall j :: 0 <= j < |CityCenters| ==> !MentionedIn(location, CityCenters[j])
    ensures FirstMentioned(location) == None
  {
  }

  /**
   * The last-segment lookup adds nothing: a segment that is exactly a
   * declared key is a substring of the location, so the scan has already
   * found that key (or an earlier one).
   */
  lemma FallbackAddsNothing(location: string)
    ensures LastSegmentCenter(location).Some? ==> FirstMentioned(location).Some?
  {
    var parts := Segments(location);
    if |parts| > 0 && CenterOf(parts[|parts| - 1]).Some? {
      var last := parts[|parts| - 1];
      var i :| 0 <= i < |CityCenters| && CityCenters[i].0 == last;
      SegmentInLocation(location, last);
      ContainsLower(location, last);
      assert MentionedIn(location, CityCenters[i]);
      var k := FindFirst(CityCenters, e => MentionedIn(location, e));
      assert k.Some?;
    }
  }

  /** Every trimmed segment is a substring of the location. */
  lemma SegmentInLocation(location: string, part: string)
    requires part in Segments(location)
    ensures Contains(location, part)
  {
    var raw := Split(location, ',');
    var trimmed := seq(|raw|, i requires 0 <= i < |raw| => Trim(raw[i]));
    assert part in trimmed;
    var k :| 0 <= k < |raw| && trimmed[k] == part;
    SplitPartsAreSubstrings(location, ',', k);
    ContainsTransitive(location, raw[k], part);
  }

  /**
   * The map centre: the hotel's numeric coordinates whenever it has them;
   * otherwise the centre of the first declared city, in declaration order,
   * that the location mentions case-insensitively, and no centre at all
   * when it mentions none.
   */
  lemma DerivedIsFirstMention(hotel: Option<HotelRecord>)
    ensures HasNumericCoords(hotel) ==>
              Derived(hotel) == Some(LatLng(hotel.value.coords.value.lat.value, hotel.value.coords.value.lng.value))
    ensures !HasNumericCoords(hotel) ==>
              (Derived(hotel).None? <==> forall j :: 0 <= j < |CityCenters| ==> !Mentions(LocationOf(hotel), CityCenters[j].0))
    ensures !HasNumericCoords(hotel) && Derived(hotel).Some? ==>
              exists i :: 0 <= i < |CityCenters| && Mentions(LocationOf(hotel), CityCenters[i].0)
                && Derived(hotel) == Some(CityCenters[i].1)
                && forall j :: 0 <= j < i ==> !Mentions(LocationOf(hotel), CityCenters[j].0)
  {
    var location := LocationOf(hotel);
    FallbackAddsNothing(location);
    var k := FindFirst(CityCenters, e => MentionedIn(location, e));
    if k.Some? {
      assert MentionedIn(location, CityCenters[k.value]);
    }
  }

  /** A location naming a declared city only in another case still finds it: "goa" centres on Goa. */
  lemma ScanIgnoresCase()
    ensures FirstMentioned("goa") == Some(LatLng(15.2993, 74.124))
  {
    var location := "goa";
    assert Lower(location) == location;
    assert Lower("Goa") == "goa";
    assert OccursAt(Lower(location), Lower("Goa"), 0);
    forall j | 0 <= j < 4 ensures !MentionedIn(location, CityCenters[j]) {
      NotMentioned(location, CityCenters[j].0);
    }
    ScanFindsFirst(location, 4);
  }

  /** A key longer than the location cannot occur in it. */
  lemma NotMentioned(location: string, key: string)
    requires |key| > |location|
    ensures !Mentions(location, key)
  {
  }

  // ---------------------------------------------------------------------
  // Getting there
  // ---------------------------------------------------------------------

  datatype Suggestion = Suggestion(title: string, desc: string)

  const BaseSuggestions := [
    Suggestion("Cab / Taxi", "Direct ride from airport or station."),
    Suggestion("Bus", "Local or intercity buses are frequent."),
    Suggestion("Metro / Rail", "Use nearest metro/rail stop then a short cab."),
    Suggestion("Walkability", "Short walks for nearby attractions.")
  ]

  /** `cityAdds[city] || []`: the exact, case-sensitive city names with an extra way to get around. */
  function CityAdds(city: string): seq<Suggestion> {
    if city == "Jaipur" then [Suggestion("Auto rickshaw", "Best for old city lanes.")]
    else if city == "Goa" then [Suggestion("Scooter rental", "Popular for beach hopping.")]
    else if city == "Agra" then [Suggestion("Auto rickshaw", "Easy access to Taj and Fort.")]
    else if city == "Varanasi" then [Suggestion("Boat", "Use ghats for boat rides at sunrise.")]
    else if city == "Manali" then [Suggestion("Shared cab", "For valley transfers and sightseeing.")]
    else []
  }

  const CitiesWithExtras := ["Jaipur", "Goa", "Agra", "Varanasi", "Manali"]

  /**
   * The suggestions: always the four base entries first, then one extra
   * exactly when the city is one of five names written exactly so.
   */
  function Suggestions(city: string): (s: seq<Suggestion>)
    ensures |s| == (if city in CitiesWithExtras then 5 else 4)
    ensures s[..4] == BaseSuggestions
  {
    BaseSuggestions + CityAdds(city)
  }

  /**
   * The page passes the hotel's whole location, so a location such as
   * "Jaipur, Rajasthan" gets only the base entries.
   */
  lemma FullLocationGetsBaseOnly()
    ensures Suggestions("Jaipur, Rajasthan") == BaseSuggestions
  {
    assert "Jaipur, Rajasthan" !in CitiesWithExtras;
  }

  // ---------------------------------------------------------------------
  // Gallery
  // ---------------------------------------------------------------------

  const StockImages := [
    "https://images.unsplash.com/photo-1542314831-068cd1dbfeeb?q=80&w=1200&auto=format&fit=crop",
    "https://images.unsplash.com/photo-1501117716987-c8e9226e6b67?q=80&w=1200&auto=format&fit=crop",
    "https://images.unsplash.com/photo-1496412705862-e0088f16f791?q=80&w=1200&auto=format&fit=crop"
  ]

  /** `imgs`: the hotel's images when there are any, else its image and the stock photos, falsy ones removed. */
  function GalleryImages(hotel: Option<HotelRecord>): seq<string> {
    if hotel.Some? && |hotel.value.images| > 0 then hotel.value.images
    else Filter([if hotel.Some? then hotel.value.image else ""] + StockImages, NonEmpty)
  }

  /** The large image and the thumbnails beside it. */
  datatype Gallery = Gallery(main: Option<string>, thumbs: seq<string>)

  /** `const [first, ...rest] = imgs`, showing `first` and `rest.slice(0, 3)`. */
  function GalleryOf(hotel: Option<HotelRecord>): (g: Gallery)
    ensures var imgs := GalleryImages(hotel);
            && (g.main.Some? <==> imgs != [])
            && |g.thumbs| == (if |imgs| > 4 then 3 else if imgs == [] then 0 else |imgs| - 1)
            && (g.main.Some? ==> [g.main.value] + g.thumbs == imgs[..1 + |g.thumbs|])
  {
    var imgs := GalleryImages(hotel);
    if imgs == [] then Gallery(None, []) else Gallery(Some(imgs[0]), Take(imgs[1..], 3))
  }

  /**
   * Without its own images a hotel still shows a main image: its `image`
   * when that is set, else the first stock photo, with the stock photos
   * (those not shown as the main one) as thumbnails.
   */
  lemma GalleryFallsBackToStock(hotel: Option<HotelRecord>)
    requires hotel.None? || hotel.value.images == []
    ensures var image := if hotel.Some? then hotel.value.image else "";
            var g := GalleryOf(hotel);
            && g.main == Some(if image != "" then image else StockImages[0])
            && g.thumbs == if image != "" then StockImages else StockImages[1..]
  {
    var image := if hotel.Some? then hotel.value.image else "";
    OwnImageThenStock(hotel);
    var imgs := GalleryImages(hotel);
    if image != "" {
      assert imgs[1..] == StockImages;
    } else {
      assert imgs[1..] == StockImages[1..];
    }
  }

  /** Without images of its own, the gallery is the hotel's `image` (when set) followed by the stock photos. */
  lemma OwnImageThenStock(hotel: Option<HotelRecord>)
    requires hotel.None? || hotel.value.images == []
    ensures var image := if hotel.Some? then hotel.value.image else "";
            GalleryImages(hotel) == (if image != "" then [image] else []) + StockImages
  {
    var image := if hotel.Some? then hotel.value.image else "";
    StockImagesPresent();
    FilterKeepsAll(StockImages, NonEmpty);
    FilterAppend([image], StockImages, NonEmpty);
  }

  lemma StockImagesPresent()
    ensures forall i :: 0 <= i < |StockImages| ==> NonEmpty(StockImages[i])
  {
    assert |StockImages| == 3;
    assert |StockImages[0]| > 0 && |StockImages[1]| > 0 && |StockImages[2]| > 0;
  }
}

/**
 * The marketplace listing: hotels and points of interest normalised into
 * one item shape, merged (hotels first) and filtered by type, city and a
 * case-insensitive name query.
 */
module Marketplace {
  import opened Text
  import opened Seqs
  import opened Records

  /** A listing; `kind` is "Hotel", "Shop" or "Experience". */
  datatype Item = Item(kind: string, name: string, city: string, price: int, rating: real)

  /** `(h.location || "").split(",")[0] || h.location || ""`. */
  function HotelCity(location: string): string {
    var first := Split(location, ',')[0];
    if first != "" then first else location
  }

  /** The city is the text before the first comma, or the whole location when that text is empty or there is no comma. */
  lemma HotelCityIsFirstSegment(location: string)
    ensures ',' !in location ==> HotelCity(location) == location
    ensures forall k :: 0 <= k < |location| && location[k] == ',' && ',' !in location[..k] ==>
              HotelCity(location) == if k > 0 then location[..k] else location
  {
    if ',' !in location {
      SplitNoSeparator(location, ',');
    }
    forall k | 0 <= k < |location| && location[k] == ',' && ',' !in location[..k]
      ensures HotelCity(location) == if k > 0 then location[..k] else location
    {
      assert location == location[..k] + [','] + location[k + 1..];
      SplitAfterFirst(location[..k], ',', location[k + 1..]);
    }
  }

  function HotelItem(h: HotelRecord): Item {
    Item("Hotel", h.name, HotelCity(h.location), h.price.GetOr(0), h.rating.GetOr(0.0))
  }

  /** `p.category?.toLowerCase().includes("shop")`. */
  predicate ShopCategory(p: PoiRecord) {
    p.category.Some? && ContainsIgnoreCase(p.category.value, "shop")
  }

  function PoiItem(p: PoiRecord): Item {
    Item(if ShopCategory(p) then "Shop" else "Experience", p.name, p.city, 0, 4.5)
  }

  function HotelItems(hotels: seq<HotelRecord>): (items: seq<Item>)
    ensures |items| == |hotels| && forall i :: 0 <= i < |hotels| ==> items[i] == HotelItem(hotels[i])
  {
    seq(|hotels|, i requires 0 <= i < |hotels| => HotelItem(hotels[i]))
  }

  function PoiItems(pois: seq<PoiRecord>): (items: seq<Item>)
    ensures |items| == |pois| && forall i :: 0 <= i < |pois| ==> items[i] == PoiItem(pois[i])
  {
    seq(|pois|, i requires 0 <= i < |pois| => PoiItem(pois[i]))
  }

  /** The three filter conditions; the city comparison is exact. */
  predicate Kept(d: Item, kind: string, city: string, q: string) {
    && (kind == "All" || d.kind == kind)
    && (city == "All" || d.city == city)
    && (q == "" || ContainsIgnoreCase(d.name, q))
  }

  function Merged(hotels: seq<HotelRecord>, pois: seq<PoiRecord>): seq<Item> {
    HotelItems(hotels) + PoiItems(pois)
  }

  /** The `items` memo. */
  function Items(hotels: seq<HotelRecord>, pois: seq<PoiRecord>, q: string, kind: string, city: string): seq<Item> {
    Filter(Merged(hotels, pois), d => Kept(d, kind, city, q))
  }

  /**
   * The listing keeps the merged order (hotel items first, then POI items)
   * and holds exactly the merged items that pass all three conditions.
   */
  lemma ItemsAreFilteredMerge(hotels: seq<HotelRecord>, pois: seq<PoiRecord>, q: string, kind: string, city: string)
    ensures Subseq(Items(hotels, pois, q, kind, city), Merged(hotels, pois))
    ensures forall d :: d in Items(hotels, pois, q, kind, city) <==> d in Merged(hotels, pois) && Kept(d, kind, city, q)
    ensures Items(hotels, pois, q, kind, city)
         == Filter(HotelItems(hotels), d => Kept(d, kind, city, q)) + Filter(PoiItems(pois), d => Kept(d, kind, city, q))
  {
    FilterIsSubseq(Merged(hotels, pois), d => Kept(d, kind, city, q));
    FilterAppend(HotelItems(hotels), PoiItems(pois), d => Kept(d, kind, city, q));
  }

  /** With no type, no city and no query selected, every merged item is listed. */
  lemma NoFilterKeepsAll(hotels: seq<HotelRecord>, pois: seq<PoiRecord>)
    ensures Items(hotels, pois, "", "All", "All") == Merged(hotels, pois)
  {
    FilterKeepsAll(Merged(hotels, pois), d => Kept(d, "All", "All", ""));
  }

  /** Where a merged item comes from. */
  predicate FromRecords(d: Item, hotels: seq<HotelRecord>, pois: seq<PoiRecord>) {
    if d.kind == "Hotel" then exists i :: 0 <= i < |hotels| && d == HotelItem(hotels[i])
    else exists i :: 0 <= i < |pois| && d == PoiItem(pois[i]) && (d.kind == "Shop" <==> ShopCategory(pois[i]))
  }

  lemma MergedItemOrigin(hotels: seq<HotelRecord>, pois: seq<PoiRecord>, k: nat)
    requires k < |Merged(hotels, pois)|
    ensures FromRecords(Merged(hotels, pois)[k], hotels, pois)
  {
    if k < |hotels| {
      assert Merged(hotels, pois)[k] == HotelItem(hotels[k]);
    } else {
      var p := pois[k - |hotels|];
      assert Merged(hotels, pois)[k] == PoiItem(p);
      assert PoiItem(p).kind != "Hotel";
    }
  }

  /**
   * Every listed item comes from a loaded record: a "Hotel" item from a
   * hotel (its price that hotel's, or 0); any other item from a POI,
   * typed "Shop" exactly when its category mentions shops, priced 0 and
   * rated 4.5.
   */
  lemma ItemsComeFromRecords(hotels: seq<HotelRecord>, pois: seq<PoiRecord>, q: string, kind: string, city: string)
    ensures forall d :: d in Items(hotels, pois, q, kind, city) ==> FromRecords(d, hotels, pois)
    ensures forall d :: d in Items(hotels, pois, q, kind, city) && d.kind != "Hotel" ==> d.price == 0 && d.rating == 4.5
  {
    var m := Merged(hotels, pois);
    forall d | d in Items(hotels, pois, q, kind, city)
      ensures FromRecords(d, hotels, pois)
    {
      var k :| 0 <= k < |m| && m[k] == d;
      MergedItemOrigin(hotels, pois, k);
    }
  }
}

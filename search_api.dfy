/**
 * The hotel search facade in mock mode: the bundled hotel list filtered by
 * a case-insensitive match of the query against name or location, and the
 * `meta` record echoing the request. The backend branch is not modelled.
 */
module SearchApi {
  import opened Wrappers
  import opened Text
  import opened Seqs
  import opened Records

  /** The argument object; `None` is an undefined field. */
  datatype SearchParams = SearchParams(
    q: Option<string>, checkIn: Option<string>, checkOut: Option<string>, rooms: Option<int>, guests: Option<int>)

  datatype Meta = Meta(
    total: nat, q: Option<string>, checkIn: Option<string>, checkOut: Option<string>, rooms: int, guests: int)

  datatype SearchResult = SearchResult(items: seq<HotelRecord>, meta: Meta)

  /** `(q || "")`. */
  function QueryText(q: Option<string>): string {
    if q.Some? then q.value else ""
  }

  /** The naive name-or-location filter. */
  predicate Matches(h: HotelRecord, q: string) {
    ContainsIgnoreCase(h.name, q) || ContainsIgnoreCase(h.location, q)
  }

  /** `searchHotels` when no backend is configured; the list stands for the bundled hotels. */
  function MockSearch(hotels: seq<HotelRecord>, params: SearchParams): (r: SearchResult)
    ensures r.meta.total == |r.items|
    ensures Subseq(r.items, hotels)
    ensures forall h :: h in r.items <==> h in hotels && Matches(h, QueryText(params.q))
    ensures forall h :: Matches(h, QueryText(params.q)) ==> multiset(r.items)[h] == multiset(hotels)[h]
    ensures r.meta.rooms == params.rooms.GetOr(1) && r.meta.guests == params.guests.GetOr(1)
    ensures r.meta.q == params.q && r.meta.checkIn == params.checkIn && r.meta.checkOut == params.checkOut
  {
    var q := QueryText(params.q);
    var filtered := Filter(hotels, h => Matches(h, q));
    FilterIsSubseq(hotels, h => Matches(h, q));
    FilterCounts(hotels, h => Matches(h, q));
    SearchResult(filtered, Meta(|filtered|, params.q, params.checkIn, params.checkOut,
                                params.rooms.GetOr(1), params.guests.GetOr(1)))
  }

  /** A missing or empty query keeps every hotel, in the bundled order. */
  lemma EmptyQueryKeepsAll(hotels: seq<HotelRecord>, params: SearchParams)
    requires params.q.None? || params.q.value == ""
    ensures MockSearch(hotels, params).items == hotels
  {
    assert QueryText(params.q) == "";
    forall i | 0 <= i < |hotels| ensures Matches(hotels[i], "") {
      ContainsEmpty(Lower(hotels[i].name));
    }
    FilterKeepsAll(hotels, h => Matches(h, ""));
  }
}

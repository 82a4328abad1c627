/**
 * The hotel listing page: filter state read from and written back to the
 * URL query, the filter-and-sort pipeline over the hotel list, six-item
 * pagination, and the effects that keep the page number in range.
 *
 * React state updates and the effects they trigger are modelled as one
 * method per handler that runs the handler and then the effects whose
 * dependencies it changed, in declaration order.
 */
module Hotels {
  import opened Wrappers
  import opened Text
  import opened Seqs
  import opened StableSort
  import opened Records

  const PageSize := 6
  const DefaultPriceMax := 4000
  const DefaultSort := "popularity"

  // ---------------------------------------------------------------------
  // The filter-and-sort pipeline
  // ---------------------------------------------------------------------

  /** `h.price <= priceMax`; a missing price compares as NaN and fails. */
  predicate PriceOk(h: HotelRecord, priceMax: int) {
    h.price.Some? && h.price.value <= priceMax
  }

  /** Some selected tag occurs in the location, ignoring case. */
  predicate PopularOk(h: HotelRecord, popular: seq<string>) {
    exists i :: 0 <= i < |popular| && ContainsIgnoreCase(h.location, popular[i])
  }

  /** The rule for one selected collection, tried in the order Family, Group, Airport. */
  predicate CollectionRule(h: HotelRecord, c: string) {
    if Contains(c, "Family") then h.amenities.Some? && "Reception" in h.amenities.value
    else if Contains(c, "Group") then |h.amenities.GetOr([])| >= 3
    else if Contains(c, "Airport") then ContainsIgnoreCase(h.location, "airport")
    else true
  }

  predicate CollectionsOk(h: HotelRecord, collections: seq<string>) {
    forall i :: 0 <= i < |collections| ==> CollectionRule(h, collections[i])
  }

  /** The hotels that pass every selected filter, in base order. */
  function Matching(base: seq<HotelRecord>, popular: seq<string>, collections: seq<string>, priceMax: int): seq<HotelRecord> {
    var list := Filter(base, h => PriceOk(h, priceMax));
    var list := if |popular| > 0 then Filter(list, h => PopularOk(h, popular)) else list;
    if |collections| > 0 then Filter(list, h => CollectionsOk(h, collections)) else list
  }

  function PriceKey(h: HotelRecord): real { h.price.GetOr(0) as real }

  /** `(b.rating || 0) - (a.rating || 0)` sorts ascending on the negated rating. */
  function RatingKey(h: HotelRecord): real { -h.rating.GetOr(0.0) }

  /** The `hotels` memo. */
  function HotelList(base: seq<HotelRecord>, popular: seq<string>, collections: seq<string>, priceMax: int, sortBy: string): seq<HotelRecord> {
    var list := Matching(base, popular, collections, priceMax);
    if sortBy == "priceAsc" then Sort(list, PriceKey)
    else if sortBy == "rating" then Sort(list, RatingKey)
    else list
  }

  /** The matching hotels are exactly the base hotels that pass every filter, in base order. */
  lemma MatchingFacts(base: seq<HotelRecord>, popular: seq<string>, collections: seq<string>, priceMax: int)
    ensures var m := Matching(base, popular, collections, priceMax);
            && Subseq(m, base)
            && forall h :: h in m <==>
                 h in base && PriceOk(h, priceMax) && (|popular| == 0 || PopularOk(h, popular)) && CollectionsOk(h, collections)
  {
    var l1 := Filter(base, h => PriceOk(h, priceMax));
    var l2 := if |popular| > 0 then Filter(l1, h => PopularOk(h, popular)) else l1;
    var l3 := if |collections| > 0 then Filter(l2, h => CollectionsOk(h, collections)) else l2;
    FilterIsSubseq(base, h => PriceOk(h, priceMax));
    if |popular| > 0 {
      FilterIsSubseq(l1, h => PopularOk(h, popular));
      SubseqTrans(l2, l1, base);
    }
    if |collections| > 0 {
      FilterIsSubseq(l2, h => CollectionsOk(h, collections));
      SubseqTrans(l3, l2, base);
    }
  }

  lemma {:induction false} SubseqTrans<T>(a: seq<T>, b: seq<T>, c: seq<T>)
    requires Subseq(a, b) && Subseq(b, c)
    ensures Subseq(a, c)
    decreases |c|
  {
    if a != [] && c != [] {
      if b[0] == c[0] && Subseq(b[1..], c[1..]) {
        if a[0] == b[0] && Subseq(a[1..], b[1..]) {
          SubseqTrans(a[1..], b[1..], c[1..]);
        } else {
          SubseqTrans(a, b[1..], c[1..]);
        }
      } else {
        SubseqTrans(a, b, c[1..]);
      }
    }
  }

  /**
   * The listing holds exactly the matching hotels, each as often as in
   * the base list. "priceAsc" orders by price, "rating" by descending
   * rating (missing as 0), each keeping base order among equal keys; any
   * other sort keeps base order.
   */
  lemma HotelListFacts(base: seq<HotelRecord>, popular: seq<string>, collections: seq<string>, priceMax: int, sortBy: string)
    ensures var m := Matching(base, popular, collections, priceMax);
            var list := HotelList(base, popular, collections, priceMax, sortBy);
            && multiset(list) == multiset(m)
            && (sortBy == "priceAsc" ==> forall i, j :: 0 <= i < j < |list| ==> PriceKey(list[i]) <= PriceKey(list[j]))
            && (sortBy == "rating" ==> forall i, j :: 0 <= i < j < |list| ==> list[i].rating.GetOr(0.0) >= list[j].rating.GetOr(0.0))
            && (sortBy == "priceAsc" ==> forall k :: Filter(list, KeyIs(PriceKey, k)) == Filter(m, KeyIs(PriceKey, k)))
            && (sortBy == "rating" ==> forall k :: Filter(list, KeyIs(RatingKey, k)) == Filter(m, KeyIs(RatingKey, k)))
            && (sortBy != "priceAsc" && sortBy != "rating" ==> list == m)
  {
    var m := Matching(base, popular, collections, priceMax);
    if sortBy == "priceAsc" {
      SortIsOrderedPermutation(m, PriceKey);
      forall k { SortIsStable(m, PriceKey, k); }
    } else if sortBy == "rating" {
      SortIsOrderedPermutation(m, RatingKey);
      forall k { SortIsStable(m, RatingKey, k); }
    }
  }

  /** Sorting never changes how many hotels are listed. */
  lemma ListSizeIgnoresSort(base: seq<HotelRecord>, popular: seq<string>, collections: seq<string>, priceMax: int, s1: string, s2: string)
    ensures |HotelList(base, popular, collections, priceMax, s1)| == |HotelList(base, popular, collections, priceMax, s2)|
  {
    HotelListFacts(base, popular, collections, priceMax, s1);
    HotelListFacts(base, popular, collections, priceMax, s2);
    assert |multiset(HotelList(base, popular, collections, priceMax, s1))| == |HotelList(base, popular, collections, priceMax, s1)|;
    assert |multiset(HotelList(base, popular, collections, priceMax, s2))| == |HotelList(base, popular, collections, priceMax, s2)|;
  }

  // ---------------------------------------------------------------------
  // Pagination
  // ---------------------------------------------------------------------

  /** `Math.max(1, Math.ceil(total / pageSize))`. */
  function PageCount(total: nat): (n: int)
    ensures n >= 1 && PageSize * (n - 1) <= total && (total > 0 ==> total <= PageSize * n)
    ensures total > 0 ==> PageSize * (n - 1) < total
  {
    if total == 0 then 1
    else
      var n := (total + PageSize - 1) / PageSize;
      assert PageSize * n + (total + PageSize - 1) % PageSize == total + PageSize - 1;
      n
  }

  /** `hotels.slice(start, end)` with `start = (page - 1) * 6` and `end = min(start + 6, total)`. */
  function PageItems<T>(list: seq<T>, page: int): (items: seq<T>)
    requires page >= 1
    ensures |items| <= PageSize
  {
    var start := (page - 1) * PageSize;
    if start >= |list| then [] else list[start..if start + PageSize < |list| then start + PageSize else |list|]
  }

  /** Pages 1 through k, one after the other. */
  function PagesUpTo<T>(list: seq<T>, k: nat): seq<T> {
    if k == 0 then [] else PagesUpTo(list, k - 1) + PageItems(list, k)
  }

  lemma {:induction false} PagesUpToPrefix<T>(list: seq<T>, k: nat)
    ensures PagesUpTo(list, k) == list[..if PageSize * k < |list| then PageSize * k else |list|]
  {
    if k > 0 {
      PagesUpToPrefix(list, k - 1);
    }
  }

  /** The pages, read in order, are the whole list: every hotel lands on exactly one page. */
  lemma PagesPartition<T>(list: seq<T>)
    ensures PagesUpTo(list, PageCount(|list|)) == list
  {
    PagesUpToPrefix(list, PageCount(|list|));
  }

  // ---------------------------------------------------------------------
  // The URL query
  // ---------------------------------------------------------------------

  /** Query parameters in order; `get` returns the first value for a key. */
  type Query = seq<(string, string)>

  function Get(q: Query, key: string): Option<string> {
    if q == [] then None else if q[0].0 == key then Some(q[0].1) else Get(q[1..], key)
  }

  predicate NonEmpty(s: string) { s != "" }

  /** `(get(key) || "").split(",").filter(Boolean)`. */
  function TagList(v: Option<string>): seq<string> {
    Filter(Split(if v.Some? then v.value else "", ','), NonEmpty)
  }

  /** `Number(get(key) || dflt)`, kept when finite and positive, else `dflt`; only decimal integers are read. */
  function PositiveNumber(v: Option<string>, dflt: int): int {
    var n := if v.Some? && v.value != "" then ParseInteger(v.value) else Some(dflt);
    if n.Some? && n.value > 0 then n.value else dflt
  }

  datatype UrlState = UrlState(popular: seq<string>, collections: seq<string>, priceMax: int, sortBy: string, page: int)

  /** The initial state read from the query. */
  function ParseQuery(q: Query): (s: UrlState)
    ensures s.priceMax > 0 && s.page >= 1 && s.sortBy != ""
    ensures forall t :: t in s.popular ==> t != "" && ',' !in t
    ensures forall t :: t in s.collections ==> t != "" && ',' !in t
  {
    var sort := Get(q, "sortBy");
    UrlState(TagList(Get(q, "popular")), TagList(Get(q, "collections")),
             PositiveNumber(Get(q, "priceMax"), DefaultPriceMax),
             if sort.Some? && sort.value != "" then sort.value else DefaultSort,
             PositiveNumber(Get(q, "page"), 1))
  }

  /** One `params.set(key, value)` when `present`, nothing otherwise. */
  function Entry(key: string, present: bool, value: string): Query {
    if present then [(key, value)] else []
  }

  lemma GetEntry(k: string, present: bool, v: string, rest: Query, key: string)
    ensures Get(Entry(k, present, v) + rest, key) == if present && k == key then Some(v) else Get(rest, key)
  {
    if present {
      assert (Entry(k, present, v) + rest)[1..] == rest;
    } else {
      assert Entry(k, present, v) + rest == rest;
    }
  }

  /** The query the URL effect writes: only values that differ from the defaults. */
  function WriteQuery(s: UrlState): Query {
    Entry("popular", |s.popular| > 0, Join(s.popular, ","))
    + (Entry("collections", |s.collections| > 0, Join(s.collections, ","))
    + (Entry("priceMax", s.priceMax != DefaultPriceMax, IntToString(s.priceMax))
    + (Entry("sortBy", s.sortBy != DefaultSort, s.sortBy)
    + Entry("page", s.page != 1, IntToString(s.page)))))
  }

  lemma GetWritten(s: UrlState, key: string)
    ensures Get(WriteQuery(s), key)
         == if key == "popular" && |s.popular| > 0 then Some(Join(s.popular, ","))
            else if key == "collections" && |s.collections| > 0 then Some(Join(s.collections, ","))
            else if key == "priceMax" && s.priceMax != DefaultPriceMax then Some(IntToString(s.priceMax))
            else if key == "sortBy" && s.sortBy != DefaultSort then Some(s.sortBy)
            else if key == "page" && s.page != 1 then Some(IntToString(s.page))
            else None
  {
    var e5 := Entry("page", s.page != 1, IntToString(s.page));
    var e4 := Entry("sortBy", s.sortBy != DefaultSort, s.sortBy) + e5;
    var e3 := Entry("priceMax", s.priceMax != DefaultPriceMax, IntToString(s.priceMax)) + e4;
    var e2 := Entry("collections", |s.collections| > 0, Join(s.collections, ",")) + e3;
    GetEntry("popular", |s.popular| > 0, Join(s.popular, ","), e2, key);
    GetEntry("collections", |s.collections| > 0, Join(s.collections, ","), e3, key);
    GetEntry("priceMax", s.priceMax != DefaultPriceMax, IntToString(s.priceMax), e4, key);
    GetEntry("sortBy", s.sortBy != DefaultSort, s.sortBy, e5, key);
    GetEntry("page", s.page != 1, IntToString(s.page), [], key);
  }

  /** Each parameter is written exactly when its value differs from the default. */
  lemma WriteQueryValues(s: UrlState)
    ensures var q := WriteQuery(s);
            && Get(q, "popular") == (if |s.popular| > 0 then Some(Join(s.popular, ",")) else None)
            && Get(q, "collections") == (if |s.collections| > 0 then Some(Join(s.collections, ",")) else None)
            && Get(q, "priceMax") == (if s.priceMax != DefaultPriceMax then Some(IntToString(s.priceMax)) else None)
            && Get(q, "sortBy") == (if s.sortBy != DefaultSort then Some(s.sortBy) else None)
            && Get(q, "page") == (if s.page != 1 then Some(IntToString(s.page)) else None)
  {
    GetWritten(s, "popular");
    GetWritten(s, "collections");
    GetWritten(s, "priceMax");
    GetWritten(s, "sortBy");
    GetWritten(s, "page");
  }

  predicate WellFormedTags(tags: seq<string>) {
    forall i :: 0 <= i < |tags| ==> tags[i] != "" && ',' !in tags[i]
  }

  lemma TagListJoin(tags: seq<string>)
    requires WellFormedTags(tags)
    ensures TagList(if |tags| > 0 then Some(Join(tags, ",")) else None) == tags
  {
    if |tags| > 0 {
      SplitJoin(tags, ',');
      FilterKeepsAll(tags, NonEmpty);
    } else {
      assert Split("", ',') == [""];
    }
  }

  /**
   * Reading back the query written for a state gives the state again,
   * for states with non-empty, comma-free tags, a positive price cap, a
   * page of at least 1 and a non-empty sort key.
   */
  lemma QueryRoundTrip(s: UrlState)
    requires WellFormedTags(s.popular) && WellFormedTags(s.collections)
    requires s.priceMax > 0 && s.page >= 1 && s.sortBy != ""
    ensures ParseQuery(WriteQuery(s)) == s
  {
    var q := WriteQuery(s);
    TagListJoin(s.popular);
    TagListJoin(s.collections);
    ParseIntToString(s.priceMax);
    ParseIntToString(s.page);
    WriteQueryValues(s);
  }

  // ---------------------------------------------------------------------
  // The page component
  // ---------------------------------------------------------------------

  /** The seed list followed by a copy of it whose ids carry "x" and the index. */
  function ExpandSeed(seed: seq<HotelRecord>): (base: seq<HotelRecord>)
    ensures |base| == 2 * |seed| && base[..|seed|] == seed
    ensures forall i :: 0 <= i < |seed| ==> base[|seed| + i] == seed[i].(id := seed[i].id + "x" + IntToString(i))
  {
    seed + seq(|seed|, i requires 0 <= i < |seed| => seed[i].(id := seed[i].id + "x" + IntToString(i)))
  }

  class HotelsPage {
    const base: seq<HotelRecord>
    var popular: seq<string>
    var collections: seq<string>
    var priceMax: int
    var sortBy: string
    var page: int

    /** The `hotels` memo for the current state. */
    function Results(): seq<HotelRecord>
      reads this
    {
      HotelList(base, popular, collections, priceMax, sortBy)
    }

    function TotalPages(): int
      reads this
    {
      PageCount(|Results()|)
    }

    /** The page number is within [1, totalPages]. */
    predicate Valid()
      reads this
    {
      1 <= page <= TotalPages()
    }

    function PageItemsNow(): (items: seq<HotelRecord>)
      reads this
      requires Valid()
      ensures |items| <= PageSize
    {
      PageItems(Results(), page)
    }

    function State(): UrlState
      reads this
    {
      UrlState(popular, collections, priceMax, sortBy, page)
    }

    /** The query the URL effect writes for the current state. */
    function Url(): Query
      reads this
    {
      WriteQuery(State())
    }

    /**
     * Mounting: the state is read from the query, then the clamp effect and
     * the reset effect run, so the page always starts at 1.
     */
    constructor Mount(seed: seq<HotelRecord>, q: Query)
      ensures base == ExpandSeed(seed)
      ensures popular == ParseQuery(q).popular && collections == ParseQuery(q).collections
      ensures priceMax == ParseQuery(q).priceMax && sortBy == ParseQuery(q).sortBy
      ensures page == 1 && Valid()
    {
      var s := ParseQuery(q);
      base := ExpandSeed(seed);
      popular, collections, priceMax, sortBy := s.popular, s.collections, s.priceMax, s.sortBy;
      page := s.page;
      new;
      ClampPage();
      page := 1;
    }

    /** The clamp effect: a page beyond the last is pulled back to the last. */
    method ClampPage()
      modifies this
      requires page >= 1
      ensures page == if old(page) > TotalPages() then TotalPages() else old(page)
      ensures Valid()
      ensures popular == old(popular) && collections == old(collections)
      ensures priceMax == old(priceMax) && sortBy == old(sortBy)
    {
      var total := TotalPages();
      if page > total {
        page := total;
      }
    }

    method TogglePopular(p: string)
      modifies this
      ensures popular == Toggle(old(popular), p)
      ensures collections == old(collections) && priceMax == old(priceMax) && sortBy == old(sortBy)
      ensures page == 1 && Valid()
    {
      popular := Toggle(popular, p);
      page := 1;
    }

    method ToggleCollection(c: string)
      modifies this
      ensures collections == Toggle(old(collections), c)
      ensures popular == old(popular) && priceMax == old(priceMax) && sortBy == old(sortBy)
      ensures page == 1 && Valid()
    {
      collections := Toggle(collections, c);
      page := 1;
    }

    /** The price slider: a new cap resets the page; the same cap changes nothing. */
    method SetPriceMax(v: int)
      modifies this
      requires Valid()
      ensures priceMax == v
      ensures popular == old(popular) && collections == old(collections) && sortBy == old(sortBy)
      ensures page == if v == old(priceMax) then old(page) else 1
      ensures Valid()
    {
      if v != priceMax {
        priceMax := v;
        page := 1;
      }
    }

    /** A new sort order keeps the page: the number of results does not change. */
    method SetSortBy(s: string)
      modifies this
      requires Valid()
      ensures sortBy == s && page == old(page)
      ensures popular == old(popular) && collections == old(collections) && priceMax == old(priceMax)
      ensures Valid()
    {
      ListSizeIgnoresSort(base, popular, collections, priceMax, sortBy, s);
      sortBy := s;
    }

    method ClearFilters()
      modifies this
      ensures popular == [] && collections == [] && priceMax == DefaultPriceMax && sortBy == DefaultSort && page == 1
      ensures Url() == []
      ensures Valid()
    {
      popular, collections, priceMax, sortBy, page := [], [], DefaultPriceMax, DefaultSort, 1;
    }

    method Prev()
      modifies this
      requires Valid()
      ensures page == if old(page) > 1 then old(page) - 1 else 1
      ensures popular == old(popular) && collections == old(collections) && priceMax == old(priceMax) && sortBy == old(sortBy)
      ensures Valid()
    {
      page := if page - 1 > 1 then page - 1 else 1;
    }

    method Next()
      modifies this
      requires Valid()
      ensures page == if old(page) < TotalPages() then old(page) + 1 else TotalPages()
      ensures popular == old(popular) && collections == old(collections) && priceMax == old(priceMax) && sortBy == old(sortBy)
      ensures Valid()
    {
      var total := TotalPages();
      page := if total < page + 1 then total else page + 1;
    }
  }
}

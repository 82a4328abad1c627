/**
 * The dashboard's derived data: the latest weather record for the chosen
 * city, the in-city crowd entries, the weekday "best time to visit"
 * heat-map and the insight cards (best day, most and least crowded place,
 * average and cheapest price, budget picks).
 *
 * Each `useMemo` body is a function of the loaded lists and the city.
 */
module Dashboard {
  import opened Wrappers
  import opened Text
  import opened Seqs
  import opened StableSort
  import opened Records

  // ---------------------------------------------------------------------
  // Reductions with their tie rules
  // ---------------------------------------------------------------------

  /**
   * `s.reduce((acc, x) => key(x) > key(acc) ? x : acc, s[0])`: only a
   * strictly greater key replaces the kept element, so the first maximum wins.
   */
  function FirstMaxIndex<T>(s: seq<T>, key: T -> int): (r: nat)
    requires |s| > 0
    ensures r < |s|
    ensures forall j :: 0 <= j < |s| ==> key(s[j]) <= key(s[r])
    ensures forall j :: 0 <= j < r ==> key(s[j]) < key(s[r])
  {
    if |s| == 1 then 0
    else
      var i := FirstMaxIndex(s[..|s| - 1], key);
      if key(s[|s| - 1]) > key(s[i]) then |s| - 1 else i
  }

  /**
   * `s.reduce((a, b) => key(a) > key(b) ? a : b)`: the kept element stays
   * only while strictly greater, so the last maximum wins.
   */
  function LastMaxIndex<T>(s: seq<T>, key: T -> int): (r: nat)
    requires |s| > 0
    ensures r < |s|
    ensures forall j :: 0 <= j < |s| ==> key(s[j]) <= key(s[r])
    ensures forall j :: r < j < |s| ==> key(s[j]) < key(s[r])
  {
    if |s| == 1 then 0
    else
      var i := LastMaxIndex(s[..|s| - 1], key);
      if key(s[i]) > key(s[|s| - 1]) then i else |s| - 1
  }

  /** A number that may be `Infinity`. */
  datatype Extended = Fin(n: int) | Infinity {
    predicate Less(other: Extended) {
      Fin? && (other.Infinity? || n < other.n)
    }
  }

  /**
   * `s.reduce((a, b) => key(a) < key(b) ? a : b)`: the kept element stays
   * only while strictly smaller, so the last minimum wins.
   */
  function LastMinIndex<T>(s: seq<T>, key: T -> Extended): (r: nat)
    requires |s| > 0
    ensures r < |s|
    ensures forall j :: 0 <= j < |s| ==> !key(s[j]).Less(key(s[r]))
    ensures forall j :: r < j < |s| ==> key(s[r]).Less(key(s[j]))
  {
    if |s| == 1 then 0
    else
      var i := LastMinIndex(s[..|s| - 1], key);
      if key(s[i]).Less(key(s[|s| - 1])) then i else |s| - 1
  }

  // ---------------------------------------------------------------------
  // cityWeather
  // ---------------------------------------------------------------------

  function Updated(w: WeatherRecord): int { w.lastUpdated }

  /** `weather.filter(w => w.city?.toLowerCase() === city.toLowerCase())`. */
  function WeatherInCity(weather: seq<WeatherRecord>, city: string): seq<WeatherRecord> {
    Filter(weather, w => WeatherIn(w, city))
  }

  /** The `cityWeather` memo. */
  function CityWeather(weather: seq<WeatherRecord>, city: string): Option<WeatherRecord> {
    var inCity := WeatherInCity(weather, city);
    if |inCity| == 0 then None else Some(inCity[FirstMaxIndex(inCity, Updated)])
  }

  /**
   * No record is chosen exactly when none is for the city; otherwise the
   * chosen record is for the city, no record for the city is newer, and
   * every record for the city listed before it is strictly older.
   */
  lemma CityWeatherIsLatest(weather: seq<WeatherRecord>, city: string)
    ensures var r := CityWeather(weather, city);
            && (r.None? <==> forall w :: w in weather ==> !WeatherIn(w, city))
            && (r.Some? ==> r.value in weather && WeatherIn(r.value, city)
                            && (forall w :: w in weather && WeatherIn(w, city) ==> w.lastUpdated <= r.value.lastUpdated)
                            && var inCity := WeatherInCity(weather, city);
                               exists i :: 0 <= i < |inCity| && inCity[i] == r.value
                                           && forall j :: 0 <= j < i ==> inCity[j].lastUpdated < r.value.lastUpdated)
  {
    var inCity := WeatherInCity(weather, city);
    if |inCity| > 0 {
      var i := FirstMaxIndex(inCity, Updated);
      assert inCity[i] in inCity;
      forall w | w in weather && WeatherIn(w, city)
        ensures w.lastUpdated <= inCity[i].lastUpdated
      {
        assert w in inCity;
        var j :| 0 <= j < |inCity| && inCity[j] == w;
        assert Updated(inCity[j]) <= Updated(inCity[i]);
      }
    }
  }

  // ---------------------------------------------------------------------
  // The in-city crowd entries
  // ---------------------------------------------------------------------

  /** `String(c.place || "")`. */
  function PlaceText(c: CrowdRecord): string { c.place.GetOr("") }

  /** The place equals some POI name, ignoring case. */
  predicate NamedByPoi(pois: seq<PoiRecord>, c: CrowdRecord) {
    exists i :: 0 <= i < |pois| && Lower(pois[i].name) == Lower(PlaceText(c))
  }

  /** `c.place?.toLowerCase().includes(city.toLowerCase())`. */
  predicate PlaceMentions(c: CrowdRecord, city: string) {
    c.place.Some? && ContainsIgnoreCase(c.place.value, city)
  }

  /**
   * The crowd selection shared by `crowdTrend` and `insights`: entries
   * named by a POI when the POI set is non-empty, else entries whose
   * place mentions the city.
   */
  function InCityCrowd(crowd: seq<CrowdRecord>, pois: seq<PoiRecord>, city: string): seq<CrowdRecord> {
    if |pois| > 0 then Filter(crowd, c => NamedByPoi(pois, c))
    else Filter(crowd, c => PlaceMentions(c, city))
  }

  lemma InCityCrowdFacts(crowd: seq<CrowdRecord>, pois: seq<PoiRecord>, city: string)
    ensures Subseq(InCityCrowd(crowd, pois, city), crowd)
    ensures forall c :: c in InCityCrowd(crowd, pois, city) <==>
              c in crowd && (if |pois| > 0 then NamedByPoi(pois, c) else PlaceMentions(c, city))
  {
    if |pois| > 0 {
      FilterIsSubseq(crowd, c => NamedByPoi(pois, c));
    } else {
      FilterIsSubseq(crowd, c => PlaceMentions(c, city));
    }
  }

  /** `Number(c.percent) || 0`. */
  function Percent(c: CrowdRecord): int { c.percent.GetOr(0) }

  // ---------------------------------------------------------------------
  // The heat-map
  // ---------------------------------------------------------------------

  const Weekdays: seq<string> := ["Sunday", "Monday", "Tuesday", "Wednesday", "Thursday", "Friday", "Saturday"]

  /** The `wByDay` map filled by `forEach`: a later entry for a day overwrites an earlier one. */
  function ForecastMap(forecast: seq<ForecastDay>): map<string, Option<int>> {
    if forecast == [] then map[]
    else ForecastMap(forecast[..|forecast| - 1])[forecast[|forecast| - 1].day := forecast[|forecast| - 1].temp]
  }

  /** A day has a temperature iff the forecast lists it, and the temperature is its last entry's. */
  lemma {:induction false} ForecastMapLastWins(forecast: seq<ForecastDay>, d: string)
    ensures d in ForecastMap(forecast) <==> exists i :: 0 <= i < |forecast| && forecast[i].day == d
    ensures d in ForecastMap(forecast) ==>
              exists i :: 0 <= i < |forecast| && forecast[i].day == d && ForecastMap(forecast)[d] == forecast[i].temp
                          && forall j :: i < j < |forecast| ==> forecast[j].day != d
  {
    ForecastMapDomain(forecast, d);
    if d in ForecastMap(forecast) {
      ForecastMapLast(forecast, d);
    }
  }

  lemma {:induction false} ForecastMapDomain(forecast: seq<ForecastDay>, d: string)
    ensures d in ForecastMap(forecast) <==> exists i :: 0 <= i < |forecast| && forecast[i].day == d
  {
    if forecast != [] {
      var init := forecast[..|forecast| - 1];
      ForecastMapDomain(init, d);
      if exists i :: 0 <= i < |forecast| && forecast[i].day == d {
        var i :| 0 <= i < |forecast| && forecast[i].day == d;
        if i < |init| {
          assert init[i] == forecast[i];
        }
      }
      if d in ForecastMap(init) {
        var i :| 0 <= i < |init| && init[i].day == d;
        assert forecast[i] == init[i];
      }
    }
  }

  lemma {:induction false} ForecastMapLast(forecast: seq<ForecastDay>, d: string)
    requires d in ForecastMap(forecast)
    ensures exists i :: 0 <= i < |forecast| && forecast[i].day == d && ForecastMap(forecast)[d] == forecast[i].temp
                        && forall j :: i < j < |forecast| ==> forecast[j].day != d
  {
    var init := forecast[..|forecast| - 1];
    var last := |forecast| - 1;
    if forecast[last].day != d {
      assert d in ForecastMap(init);
      ForecastMapLast(init, d);
      var i :| 0 <= i < |init| && init[i].day == d && ForecastMap(init)[d] == init[i].temp
               && forall j :: i < j < |init| ==> init[j].day != d;
      assert forecast[i] == init[i];
      assert ForecastMap(forecast)[d] == ForecastMap(init)[d];
      forall j | i < j < |forecast| ensures forecast[j].day != d {
        if j < |init| {
          assert forecast[j] == init[j];
        }
      }
    } else {
      assert ForecastMap(forecast)[d] == forecast[last].temp;
    }
  }

  function Sum(s: seq<int>): int {
    if s == [] then 0 else Sum(s[..|s| - 1]) + s[|s| - 1]
  }

  function Percents(s: seq<CrowdRecord>): (ps: seq<int>)
    ensures |ps| == |s| && forall i :: 0 <= i < |s| ==> ps[i] == Percent(s[i])
  {
    seq(|s|, i requires 0 <= i < |s| => Percent(s[i]))
  }

  /** `avgCrowd`: the mean percent of the entries whose place mentions the city, or 50. */
  function AvgCrowd(crowd: seq<CrowdRecord>, city: string): real {
    var near := Filter(crowd, c => PlaceMentions(c, city));
    if |near| == 0 then 50.0 else (Sum(Percents(near)) as real) / (|near| as real)
  }

  /** `Math.max(0, 30 - Math.abs(23 - temp))`, or 0 without a temperature. */
  function TempScore(temp: Option<int>): int {
    if temp.None? then 0
    else
      var dist := if temp.value <= 23 then 23 - temp.value else temp.value - 23;
      if 30 - dist > 0 then 30 - dist else 0
  }

  /** `Math.round(x)`: the nearest integer, halves rounded up. */
  function Round(x: real): int { (x + 0.5).Floor }

  /** `Math.max(0, Math.round((tempScore * 2 + (100 - avgCrowd)) / 3))`. */
  function DayScore(tempScore: int, avgCrowd: real): int {
    var r := Round(((2 * tempScore) as real + (100.0 - avgCrowd)) / 3.0);
    if r > 0 then r else 0
  }

  /** The `heatmap` memo's data: one score per weekday, Sunday first. */
  function Heatmap(cityWeather: Option<WeatherRecord>, crowd: seq<CrowdRecord>, city: string): (data: seq<int>)
    ensures |data| == |Weekdays| == 7
  {
    var byDay := if cityWeather.Some? then ForecastMap(cityWeather.value.forecast) else map[];
    var avg := AvgCrowd(crowd, city);
    seq(7, i requires 0 <= i < 7 =>
      DayScore(TempScore(if Weekdays[i] in byDay then byDay[Weekdays[i]] else None), avg))
  }

  lemma {:induction false} SumBounds(s: seq<int>, lo: int, hi: int)
    requires forall i :: 0 <= i < |s| ==> lo <= s[i] <= hi
    ensures lo * |s| <= Sum(s) <= hi * |s|
  {
    if s != [] {
      SumBounds(s[..|s| - 1], lo, hi);
    }
  }

  lemma MeanBounds(sum: int, n: int, lo: int, hi: int)
    requires n > 0 && lo * n <= sum <= hi * n
    ensures lo as real <= (sum as real) / (n as real) <= hi as real
  {
    var nr := n as real;
    var m := (sum as real) / nr;
    assert m * nr == sum as real;
    assert (lo as real) * nr == (lo * n) as real;
    assert (hi as real) * nr == (hi * n) as real;
    assert (m - lo as real) * nr == sum as real - (lo * n) as real;
    assert (hi as real - m) * nr == (hi * n) as real - sum as real;
    ScaleCancels(nr, m - lo as real);
    ScaleCancels(nr, hi as real - m);
  }

  /** With every percent in [0, 100] the average crowd is in [0, 100] too. */
  lemma AvgCrowdBounds(crowd: seq<CrowdRecord>, city: string)
    requires forall c :: c in crowd ==> 0 <= Percent(c) <= 100
    ensures 0.0 <= AvgCrowd(crowd, city) <= 100.0
  {
    var near := Filter(crowd, c => PlaceMentions(c, city));
    if |near| > 0 {
      var ps := Percents(near);
      forall i | 0 <= i < |ps| ensures 0 <= ps[i] <= 100 {
        assert near[i] in near;
      }
      SumBounds(ps, 0, 100);
      MeanBounds(Sum(ps), |near|, 0, 100);
    }
  }

  /** The last entry for a day is the one the map keeps. */
  lemma {:induction false} ForecastMapAtLast(forecast: seq<ForecastDay>, d: string, k: nat)
    requires k < |forecast| && forecast[k].day == d
    requires forall j :: k < j < |forecast| ==> forecast[j].day != d
    ensures d in ForecastMap(forecast) && ForecastMap(forecast)[d] == forecast[k].temp
  {
    var last := |forecast| - 1;
    if k < last {
      var init := forecast[..last];
      assert init[k] == forecast[k];
      ForecastMapAtLast(init, d, k);
      assert forecast[last].day != d;
    }
  }

  /**
   * A weekday's score is computed from the temperature of the last
   * forecast entry for that day; an entry without a temperature scores
   * as a temperature score of 0.
   */
  lemma HeatmapUsesLastEntry(w: WeatherRecord, crowd: seq<CrowdRecord>, city: string, i: nat, k: nat)
    requires i < 7 && k < |w.forecast| && w.forecast[k].day == Weekdays[i]
    requires forall j :: k < j < |w.forecast| ==> w.forecast[j].day != Weekdays[i]
    ensures Heatmap(Some(w), crowd, city)[i] == DayScore(TempScore(w.forecast[k].temp), AvgCrowd(crowd, city))
    ensures w.forecast[k].temp.None? ==> Heatmap(Some(w), crowd, city)[i] == DayScore(0, AvgCrowd(crowd, city))
  {
    ForecastMapAtLast(w.forecast, Weekdays[i], k);
  }

  /** A weekday the forecast does not list, or a missing city record, gives a temperature score of 0. */
  lemma HeatmapUnforecastDay(cityWeather: Option<WeatherRecord>, crowd: seq<CrowdRecord>, city: string, i: nat)
    requires i < 7
    requires cityWeather.Some? ==>
               forall j :: 0 <= j < |cityWeather.value.forecast| ==> cityWeather.value.forecast[j].day != Weekdays[i]
    ensures Heatmap(cityWeather, crowd, city)[i] == DayScore(0, AvgCrowd(crowd, city))
  {
    if cityWeather.Some? {
      ForecastMapDomain(cityWeather.value.forecast, Weekdays[i]);
    }
  }

  /** Every score is at least 0, and at most 53 when the crowd percents are in [0, 100]. */
  lemma HeatmapBounds(cityWeather: Option<WeatherRecord>, crowd: seq<CrowdRecord>, city: string)
    ensures forall i :: 0 <= i < 7 ==> Heatmap(cityWeather, crowd, city)[i] >= 0
    ensures (forall c :: c in crowd ==> 0 <= Percent(c) <= 100) ==>
              forall i :: 0 <= i < 7 ==> Heatmap(cityWeather, crowd, city)[i] <= 53
  {
    if forall c :: c in crowd ==> 0 <= Percent(c) <= 100 {
      AvgCrowdBounds(crowd, city);
    }
  }

  /** A less crowded city never scores lower on any day. */
  lemma DayScoreMonotone(t: int, a1: real, a2: real)
    requires a1 <= a2
    ensures DayScore(t, a2) <= DayScore(t, a1)
  {
  }

  // ---------------------------------------------------------------------
  // Insights
  // ---------------------------------------------------------------------

  /** `Math.max(...s)`. */
  function MaxOf(s: seq<int>): (m: int)
    requires |s| > 0
    ensures m in s && forall x :: x in s ==> x <= m
  {
    if |s| == 1 then s[0]
    else
      var m := MaxOf(s[..|s| - 1]);
      assert forall x :: x in s ==> x in s[..|s| - 1] || x == s[|s| - 1];
      if s[|s| - 1] > m then s[|s| - 1] else m
  }

  predicate EqualTo(m: int, x: int) { x == m }

  /** `labels[data.indexOf(Math.max(...data))]`. */
  function BestDay(data: seq<int>): Option<string>
    requires |data| == |Weekdays|
  {
    var m := MaxOf(data);
    var idx := FindFirst(data, x => EqualTo(m, x));
    if idx.Some? then Some(Weekdays[idx.value]) else None
  }

  /** The best day is the first weekday whose score is the highest. */
  lemma BestDayIsFirstMax(data: seq<int>)
    requires |data| == |Weekdays|
    ensures exists i :: 0 <= i < |data| && BestDay(data) == Some(Weekdays[i])
                        && (forall j :: 0 <= j < |data| ==> data[j] <= data[i])
                        && (forall j :: 0 <= j < i ==> data[j] < data[i])
  {
    var m := MaxOf(data);
    var idx := FindFirst(data, x => EqualTo(m, x));
    var k :| 0 <= k < |data| && data[k] == m;
    assert idx.Some?;
    var i := idx.value;
    forall j | 0 <= j < |data| ensures data[j] <= data[i] {
      assert data[j] in data;
    }
    forall j | 0 <= j < i ensures data[j] < data[i] {
      assert data[j] in data;
    }
  }

  function PriceOrZero(h: HotelRecord): int { h.price.GetOr(0) }

  /** `Number(h.price) || Infinity`. */
  function PriceOrInfinity(h: HotelRecord): Extended {
    if PriceOrZero(h) == 0 then Infinity else Fin(PriceOrZero(h))
  }

  function FinPercent(c: CrowdRecord): Extended { Fin(Percent(c)) }

  function PriceKey(h: HotelRecord): real { PriceOrZero(h) as real }

  predicate PositivePrice(n: int) { n > 0 }

  /** `priceList`: the positive prices in hotel order. */
  function PriceList(hotels: seq<HotelRecord>): seq<int> {
    Filter(seq(|hotels|, i requires 0 <= i < |hotels| => PriceOrZero(hotels[i])), PositivePrice)
  }

  /** `avgPrice`: the rounded mean of the positive prices, or none. */
  function AvgPrice(hotels: seq<HotelRecord>): Option<int> {
    var ps := PriceList(hotels);
    if |ps| == 0 then None else Some(RoundDiv(Sum(ps), |ps|))
  }

  /** `budgetPicks`: the first three of a stable sort of a copy by price (missing as 0). */
  function BudgetPicks(hotels: seq<HotelRecord>): seq<HotelRecord> {
    Take(Sort(hotels, PriceKey), 3)
  }

  datatype Insights = Insights(
    bestDay: Option<string>,
    mostCrowded: Option<CrowdRecord>,
    leastCrowded: Option<CrowdRecord>,
    avgPrice: Option<int>,
    cheapest: Option<HotelRecord>,
    budgetPicks: seq<HotelRecord>,
    weatherCond: Option<string>,
    tempNow: Option<int>)

  /** The `insights` memo. */
  function InsightsOf(weather: seq<WeatherRecord>, crowd: seq<CrowdRecord>, hotels: seq<HotelRecord>,
                      pois: seq<PoiRecord>, city: string): Insights
  {
    var cw := CityWeather(weather, city);
    var inCity := InCityCrowd(crowd, pois, city);
    Insights(
      BestDay(Heatmap(cw, crowd, city)),
      if |inCity| > 0 then Some(inCity[LastMaxIndex(inCity, Percent)]) else None,
      if |inCity| > 0 then Some(inCity[LastMinIndex(inCity, FinPercent)]) else None,
      AvgPrice(hotels),
      if |hotels| > 0 then Some(hotels[LastMinIndex(hotels, PriceOrInfinity)]) else None,
      BudgetPicks(hotels),
      if cw.Some? && cw.value.condition.Some? && cw.value.condition.value != "" then cw.value.condition else None,
      if cw.Some? then cw.value.temperature else None)
  }

  /**
   * The crowd cards: both are empty exactly when no entry is in the city;
   * otherwise the most crowded entry has the highest percent and no later
   * entry ties it, and the least crowded has the lowest and no later entry
   * ties it.
   */
  lemma CrowdCards(weather: seq<WeatherRecord>, crowd: seq<CrowdRecord>, hotels: seq<HotelRecord>, pois: seq<PoiRecord>, city: string)
    ensures var ins := InsightsOf(weather, crowd, hotels, pois, city);
            var inCity := InCityCrowd(crowd, pois, city);
            && (ins.mostCrowded.None? <==> |inCity| == 0)
            && (ins.leastCrowded.None? <==> |inCity| == 0)
            && (ins.mostCrowded.Some? ==>
                  exists i :: 0 <= i < |inCity| && inCity[i] == ins.mostCrowded.value
                              && (forall j :: 0 <= j < |inCity| ==> Percent(inCity[j]) <= Percent(inCity[i]))
                              && (forall j :: i < j < |inCity| ==> Percent(inCity[j]) < Percent(inCity[i])))
            && (ins.leastCrowded.Some? ==>
                  exists i :: 0 <= i < |inCity| && inCity[i] == ins.leastCrowded.value
                              && (forall j :: 0 <= j < |inCity| ==> Percent(inCity[i]) <= Percent(inCity[j]))
                              && (forall j :: i < j < |inCity| ==> Percent(inCity[i]) < Percent(inCity[j])))
  {
    var inCity := InCityCrowd(crowd, pois, city);
    var ins := InsightsOf(weather, crowd, hotels, pois, city);
    if |inCity| > 0 {
      var i := LastMaxIndex(inCity, Percent);
      var k := LastMinIndex(inCity, FinPercent);
      assert ins.mostCrowded == Some(inCity[i]) && ins.leastCrowded == Some(inCity[k]);
      assert forall j :: 0 <= j < |inCity| ==> !FinPercent(inCity[j]).Less(FinPercent(inCity[k]));
      assert forall j :: k < j < |inCity| ==> FinPercent(inCity[k]).Less(FinPercent(inCity[j]));
    } else {
      assert ins.mostCrowded == None && ins.leastCrowded == None;
    }
  }

  /**
   * The cheapest card: empty exactly when there are no hotels; otherwise no
   * hotel is cheaper (a zero or missing price counting as infinite) and no
   * later hotel ties it.
   */
  lemma CheapestCard(weather: seq<WeatherRecord>, crowd: seq<CrowdRecord>, hotels: seq<HotelRecord>, pois: seq<PoiRecord>, city: string)
    ensures var ins := InsightsOf(weather, crowd, hotels, pois, city);
            && (ins.cheapest.None? <==> |hotels| == 0)
            && (ins.cheapest.Some? ==>
                  exists i :: 0 <= i < |hotels| && hotels[i] == ins.cheapest.value
                              && (forall j :: 0 <= j < |hotels| ==> !PriceOrInfinity(hotels[j]).Less(PriceOrInfinity(hotels[i])))
                              && (forall j :: i < j < |hotels| ==> PriceOrInfinity(hotels[i]).Less(PriceOrInfinity(hotels[j]))))
  {
  }

  /** The average price lies between any bounds that hold for every positive price. */
  lemma AvgPriceBounds(hotels: seq<HotelRecord>, lo: int, hi: int)
    requires forall h :: h in hotels && PriceOrZero(h) > 0 ==> lo <= PriceOrZero(h) <= hi
    ensures AvgPrice(hotels).None? <==> forall h :: h in hotels ==> PriceOrZero(h) <= 0
    ensures AvgPrice(hotels).Some? ==> lo <= AvgPrice(hotels).value <= hi
  {
    var all := seq(|hotels|, i requires 0 <= i < |hotels| => PriceOrZero(hotels[i]));
    var ps := PriceList(hotels);
    forall h | h in hotels && PriceOrZero(h) > 0 ensures |ps| > 0 {
      var i :| 0 <= i < |hotels| && hotels[i] == h;
      assert all[i] in all;
    }
    forall x | x in ps ensures lo <= x <= hi {
      var i :| 0 <= i < |all| && all[i] == x;
      assert hotels[i] in hotels;
    }
    if |ps| > 0 {
      assert ps[0] in ps;
      var i :| 0 <= i < |all| && all[i] == ps[0];
      assert hotels[i] in hotels;
      forall k | 0 <= k < |ps| ensures lo <= ps[k] <= hi {
        assert ps[k] in ps;
      }
      SumBounds(ps, lo, hi);
      MeanBounds(Sum(ps), |ps|, lo, hi);
    }
  }

  /**
   * The budget picks are the three cheapest hotels (missing price as 0)
   * in ascending order: at most three, each a loaded hotel, and no hotel
   * left out is cheaper than a pick.
   */
  lemma BudgetPicksCheapest(hotels: seq<HotelRecord>)
    ensures var picks := BudgetPicks(hotels);
            && |picks| == (if |hotels| < 3 then |hotels| else 3)
            && (forall i, j :: 0 <= i < j < |picks| ==> PriceOrZero(picks[i]) <= PriceOrZero(picks[j]))
            && (forall p :: p in picks ==> p in hotels)
            && (forall p, h :: p in picks && h in hotels && h !in picks ==> PriceOrZero(p) <= PriceOrZero(h))
  {
    var sorted := Sort(hotels, PriceKey);
    SortIsOrderedPermutation(hotels, PriceKey);
    assert |multiset(sorted)| == |sorted|;
    PicksFromList(hotels, sorted, 3);
    PicksBeatRest(hotels, sorted, 3);
  }

  /** A prefix of a permutation of the list holds only members of the list. */
  lemma PicksFromList(hotels: seq<HotelRecord>, sorted: seq<HotelRecord>, n: nat)
    requires multiset(sorted) == multiset(hotels)
    ensures forall p :: p in Take(sorted, n) ==> p in hotels
  {
    forall p | p in Take(sorted, n) ensures p in hotels {
      assert p in multiset(sorted);
    }
  }

  /** In an ascending permutation, no element outside a prefix is cheaper than one inside it. */
  lemma PicksBeatRest(hotels: seq<HotelRecord>, sorted: seq<HotelRecord>, n: nat)
    requires multiset(sorted) == multiset(hotels) && SortedBy(sorted, PriceKey)
    ensures forall p, h :: p in Take(sorted, n) && h in hotels && h !in Take(sorted, n) ==> PriceOrZero(p) <= PriceOrZero(h)
  {
    var picks := Take(sorted, n);
    forall p, h | p in picks && h in hotels && h !in picks
      ensures PriceOrZero(p) <= PriceOrZero(h)
    {
      assert h in multiset(sorted);
      var k :| 0 <= k < |sorted| && sorted[k] == h;
      var i :| 0 <= i < |picks| && picks[i] == p;
      assert picks == sorted[..|picks|];
      assert k >= |picks|;
      assert PriceKey(sorted[i]) <= PriceKey(sorted[k]);
    }
  }
}

/**
 * The trip planner page: the live-data labels, the local rule-based plan,
 * the interest toggle, the rendering of a server plan as text, and the
 * list update when a trip is saved.
 */
module Planner {
  import opened Wrappers
  import opened Text
  import opened Seqs
  import opened Records

  // ---------------------------------------------------------------------
  // Live-data labels
  // ---------------------------------------------------------------------

  /** The `weather` memo. */
  function WeatherLabel(weatherData: seq<WeatherRecord>, city: string): (shown: string)
    ensures weatherData == [] ==> shown == "Loading..."
    ensures weatherData != [] && FirstWeatherIn(weatherData, city).None? ==> shown == "No live data for this city"
    ensures weatherData != [] && FirstWeatherIn(weatherData, city).Some? ==>
              var w := FirstWeatherIn(weatherData, city).value;
              shown == TemplateText(w.condition) + " (" + TemplateNumber(w.temperature) + "°C)"
  {
    if |weatherData| == 0 then "Loading..."
    else
      var w := FirstWeatherIn(weatherData, city);
      if w.Some? then TemplateText(w.value.condition) + " (" + TemplateNumber(w.value.temperature) + "°C)"
      else "No live data for this city"
  }

  /** The `crowd` memo; `None` is a matching record without `crowd_level`, which renders as nothing. */
  function CrowdLabel(crowdData: seq<CrowdRecord>, city: string): (shown: Option<string>)
    ensures crowdData == [] ==> shown == Some("Loading...")
    ensures crowdData != [] && FirstCrowdAt(crowdData, city).None? ==> shown == Some("No live data for this city")
    ensures crowdData != [] && FirstCrowdAt(crowdData, city).Some? ==> shown == FirstCrowdAt(crowdData, city).value.crowdLevel
  {
    if |crowdData| == 0 then Some("Loading...")
    else
      var c := FirstCrowdAt(crowdData, city);
      if c.Some? then c.value.crowdLevel else Some("No live data for this city")
  }

  // ---------------------------------------------------------------------
  // The local plan
  // ---------------------------------------------------------------------

  /** A JavaScript number as `Math.round(budget / days)` can produce it. */
  datatype JsNumber = Finite(n: int) | PosInfinity | NegInfinity | NaN

  /** `Math.round(budget / days)`, with no guard against zero days. */
  function LocalDailyBudget(budget: int, days: int): (r: JsNumber)
    ensures days != 0 ==> r.Finite? && (r.n as real) <= (budget as real) / (days as real) + 0.5 < (r.n as real) + 1.0
    ensures days == 0 ==> !r.Finite?
  {
    if days > 0 then Finite(RoundDiv(budget, days))
    else if days < 0 then
      assert (-budget as real) / (-days as real) == (budget as real) / (days as real);
      Finite(RoundDiv(-budget, -days))
    else if budget > 0 then PosInfinity
    else if budget < 0 then NegInfinity
    else NaN
  }

  /** `dailyBudget < 2500`; comparisons with NaN are false. */
  predicate BelowTipThreshold(d: JsNumber) {
    (d.Finite? && d.n < 2500) || d.NegInfinity?
  }

  datatype LocalDay = LocalDay(day: int, morning: string, afternoon: string, evening: string, budgetTip: string)
  datatype LocalPlan = LocalPlan(dailyBudget: JsNumber, items: seq<LocalDay>)

  /** `pois[i % pois.length]?.name || fallback`; with no POIs the index is NaN and the lookup undefined. */
  function PoiAt(pois: seq<PoiRecord>, i: nat, fallback: string): string {
    if |pois| == 0 || pois[i % |pois|].name == "" then fallback else pois[i % |pois|].name
  }

  function LocalDayItem(pois: seq<PoiRecord>, interests: seq<string>, d: JsNumber, idx: nat): LocalDay {
    LocalDay(idx + 1,
             PoiAt(pois, idx, "Local exploration"),
             if "Food & cafes" in interests then "Food walk" else PoiAt(pois, idx + 1, "Museum/Cultural spot"),
             if "Shopping" in interests then "Bazaar & handicrafts" else "Sunset point / Promenade",
             if BelowTipThreshold(d) then "Try local eateries & metros" else "Mix taxis with metros; pre-book tickets")
  }

  /** The `plan` memo. */
  function LocalPlanOf(budget: int, days: int, interests: seq<string>, pois: seq<PoiRecord>): (p: LocalPlan)
    ensures |p.items| == if days > 0 then days else 0
    ensures forall i :: 0 <= i < |p.items| ==> p.items[i].day == i + 1
  {
    var d := LocalDailyBudget(budget, days);
    var n := if days > 0 then days else 0;
    LocalPlan(d, seq(n, i requires 0 <= i < n => LocalDayItem(pois, interests, d, i)))
  }

  /**
   * The choices of one day: the POI rotation with its fallbacks, the
   * interest-driven afternoon and evening, and a budget tip that is the
   * same every day and depends only on the daily budget.
   */
  lemma LocalDayChoices(budget: int, days: int, interests: seq<string>, pois: seq<PoiRecord>, i: nat, j: nat)
    requires i < |LocalPlanOf(budget, days, interests, pois).items| && j < |LocalPlanOf(budget, days, interests, pois).items|
    ensures var p := LocalPlanOf(budget, days, interests, pois); var d := p.items[i]; var n := |pois|;
            && (n == 0 ==> d.morning == "Local exploration")
            && (n > 0 ==> d.morning == (if pois[i % n].name == "" then "Local exploration" else pois[i % n].name))
            && ("Food & cafes" in interests ==> d.afternoon == "Food walk")
            && ("Food & cafes" !in interests && n > 0 && pois[(i + 1) % n].name != "" ==> d.afternoon == pois[(i + 1) % n].name)
            && ("Food & cafes" !in interests && (n == 0 || pois[(i + 1) % n].name == "") ==> d.afternoon == "Museum/Cultural spot")
            && (d.evening == "Bazaar & handicrafts" <==> "Shopping" in interests)
            && (d.evening != "Bazaar & handicrafts" ==> d.evening == "Sunset point / Promenade")
            && (d.budgetTip == "Try local eateries & metros" <==> BelowTipThreshold(p.dailyBudget))
            && d.budgetTip == p.items[j].budgetTip
  {
    var p := LocalPlanOf(budget, days, interests, pois);
    assert p.items[i] == LocalDayItem(pois, interests, p.dailyBudget, i);
    assert p.items[j] == LocalDayItem(pois, interests, p.dailyBudget, j);
  }

  /** A zero-day plan has no items and a daily budget that is not a finite number. */
  lemma ZeroDays(budget: int, interests: seq<string>, pois: seq<PoiRecord>)
    ensures var p := LocalPlanOf(budget, 0, interests, pois);
            p.items == [] && !p.dailyBudget.Finite?
  {
  }

  // ---------------------------------------------------------------------
  // formatPlan
  // ---------------------------------------------------------------------

  /** A hotel of the server's reply, each field as its template prints it. */
  datatype HotelView = HotelView(name: string, price: string, location: string)

  /**
   * A day of the server's reply. `transport` is `None` when falsy; `tips`
   * is `None` when not an array.
   */
  datatype DayView = DayView(day: string, morning: string, afternoon: string, evening: string,
                             transport: Option<string>, tips: Option<seq<string>>)

  /** The server's reply; a list field is `None` when it is not an array. */
  datatype PlanView = PlanView(summary: Option<string>, hotels: Option<seq<HotelView>>,
                               days: Option<seq<DayView>>, warnings: Option<seq<string>>)

  predicate Present(s: Option<string>) { s.Some? && s.value != "" }

  predicate NonEmptyList<T>(s: Option<seq<T>>) { s.Some? && |s.value| > 0 }

  function HotelLine(h: HotelView): string {
    "- " + h.name + " — ₹" + h.price + "/night, " + h.location
  }

  function HotelLines(hs: seq<HotelView>): (lines: seq<string>)
    ensures |lines| == |hs|
  {
    seq(|hs|, i requires 0 <= i < |hs| => HotelLine(hs[i]))
  }

  function DayLines(d: DayView): (lines: seq<string>)
    ensures 4 <= |lines| <= 6
  {
    ["\nDay " + d.day + ":", "  Morning: " + d.morning, "  Afternoon: " + d.afternoon, "  Evening: " + d.evening]
    + (if Present(d.transport) then ["  Transport: " + d.transport.value] else [])
    + (if NonEmptyList(d.tips) then ["  Tips: " + Join(d.tips.value, "; ")] else [])
  }

  function DaysLines(ds: seq<DayView>): seq<string> {
    if ds == [] then [] else DaysLines(ds[..|ds| - 1]) + DayLines(ds[|ds| - 1])
  }

  function WarningLines(ws: seq<string>): (lines: seq<string>)
    ensures |lines| == |ws|
  {
    seq(|ws|, i requires 0 <= i < |ws| => "- " + ws[i])
  }

  function SummaryBlock(summary: Option<string>): (lines: seq<string>)
    ensures |lines| <= 1 && (lines != [] <==> Present(summary))
  {
    if Present(summary) then ["Summary: " + summary.value] else []
  }

  /** The hotel block: only for a non-empty array, a heading then one line per hotel in order. */
  function HotelBlock(hotels: Option<seq<HotelView>>): (lines: seq<string>)
    ensures lines != [] <==> NonEmptyList(hotels)
    ensures NonEmptyList(hotels) ==>
              && |lines| == |hotels.value| + 1 && lines[0] == "\nSuggested Hotels:"
              && forall k :: 0 <= k < |hotels.value| ==> lines[k + 1] == HotelLine(hotels.value[k])
  {
    if NonEmptyList(hotels) then ["\nSuggested Hotels:"] + HotelLines(hotels.value) else []
  }

  /** The warnings block: only for a non-empty array, a heading then one line per warning in order. */
  function WarningBlock(warnings: Option<seq<string>>): (lines: seq<string>)
    ensures lines != [] <==> NonEmptyList(warnings)
    ensures NonEmptyList(warnings) ==>
              && |lines| == |warnings.value| + 1 && lines[0] == "\nWarnings:"
              && forall k :: 0 <= k < |warnings.value| ==> lines[k + 1] == "- " + warnings.value[k]
  {
    if NonEmptyList(warnings) then ["\nWarnings:"] + WarningLines(warnings.value) else []
  }

  function DaysBlock(days: Option<seq<DayView>>): seq<string> {
    if days.Some? then DaysLines(days.value) else []
  }

  /** The lines `formatPlan` pushes: summary, hotels, days, warnings. */
  function PlanLines(p: PlanView): seq<string> {
    SummaryBlock(p.summary) + HotelBlock(p.hotels) + DaysBlock(p.days) + WarningBlock(p.warnings)
  }

  /** Every day contributes four to six lines. */
  lemma {:induction false} DaysLinesSize(ds: seq<DayView>)
    ensures 4 * |ds| <= |DaysLines(ds)| <= 6 * |ds|
  {
    if ds != [] {
      DaysLinesSize(ds[..|ds| - 1]);
    }
  }

  lemma {:induction false} DaysLinesAppend(ds: seq<DayView>, es: seq<DayView>)
    ensures DaysLines(ds + es) == DaysLines(ds) + DaysLines(es)
    decreases |es|
  {
    if es == [] {
      assert ds + es == ds;
    } else {
      var init := es[..|es| - 1];
      assert (ds + es)[..|ds + es| - 1] == ds + init;
      DaysLinesAppend(ds, init);
    }
  }

  /**
   * Day k's block, headed by its "Day" line, sits in the day lines right
   * after the blocks of the days before it.
   */
  lemma DayBlockPosition(ds: seq<DayView>, k: nat)
    requires k < |ds|
    ensures var a := |DaysLines(ds[..k])|;
            && a + |DayLines(ds[k])| <= |DaysLines(ds)|
            && DaysLines(ds)[a..a + |DayLines(ds[k])|] == DayLines(ds[k])
            && DaysLines(ds)[a] == "\nDay " + ds[k].day + ":"
  {
    DaysLinesAppend(ds[..k + 1], ds[k + 1..]);
    assert ds[..k + 1] + ds[k + 1..] == ds;
    assert ds[..k + 1][..k] == ds[..k];
  }

  /** `plan.hotels.forEach(h => lines.push(...))`. */
  method PushHotels(lines: seq<string>, hs: seq<HotelView>) returns (out: seq<string>)
    ensures out == lines + HotelLines(hs)
  {
    out := lines;
    var i := 0;
    while i < |hs|
      invariant 0 <= i <= |hs|
      invariant out == lines + HotelLines(hs[..i])
    {
      out := out + [HotelLine(hs[i])];
      i := i + 1;
    }
    assert hs[..i] == hs;
  }

  /** `plan.days.forEach(d => { lines.push(...); ... })`. */
  method PushDays(lines: seq<string>, ds: seq<DayView>) returns (out: seq<string>)
    ensures out == lines + DaysLines(ds)
  {
    out := lines;
    var i := 0;
    while i < |ds|
      invariant 0 <= i <= |ds|
      invariant out == lines + DaysLines(ds[..i])
    {
      assert ds[..i + 1][..i] == ds[..i];
      out := out + DayLines(ds[i]);
      i := i + 1;
    }
    assert ds[..i] == ds;
  }

  /** `plan.warnings.forEach(w => lines.push(...))`. */
  method PushWarnings(lines: seq<string>, ws: seq<string>) returns (out: seq<string>)
    ensures out == lines + WarningLines(ws)
  {
    out := lines;
    var i := 0;
    while i < |ws|
      invariant 0 <= i <= |ws|
      invariant out == lines + WarningLines(ws[..i])
    {
      out := out + ["- " + ws[i]];
      i := i + 1;
    }
    assert ws[..i] == ws;
  }

  /** `formatPlan`: "" for a null plan, else the pushed lines joined with LF. */
  method FormatPlan(plan: Option<PlanView>) returns (text: string)
    ensures plan.None? ==> text == ""
    ensures plan.Some? ==> text == Join(PlanLines(plan.value), "\n")
  {
    if plan.None? {
      return "";
    }
    var p := plan.value;
    var summaryLines: seq<string> := [];
    if Present(p.summary) {
      summaryLines := ["Summary: " + p.summary.value];
    }
    var hotelLines: seq<string> := [];
    if NonEmptyList(p.hotels) {
      hotelLines := PushHotels(["\nSuggested Hotels:"], p.hotels.value);
    }
    var dayLines: seq<string> := [];
    if p.days.Some? {
      dayLines := PushDays([], p.days.value);
    }
    var warningLines: seq<string> := [];
    if NonEmptyList(p.warnings) {
      warningLines := PushWarnings(["\nWarnings:"], p.warnings.value);
    }
    assert summaryLines == SummaryBlock(p.summary);
    assert hotelLines == HotelBlock(p.hotels);
    assert dayLines == DaysBlock(p.days);
    assert warningLines == WarningBlock(p.warnings);
    var lines := summaryLines + hotelLines + dayLines + warningLines;
    text := Join(lines, "\n");
  }

  // ---------------------------------------------------------------------
  // saveTrip
  // ---------------------------------------------------------------------

  datatype TripRecord = TripRecord(
    id: string, city: string, budget: int, days: int, season: string, interests: seq<string>,
    weather: string, crowd: Option<string>, savedAt: string)

  /** What `localStorage` holds under the trips key, as `JSON.parse` reads it. */
  datatype Stored<T> = Nothing | List(items: seq<T>) | NotAList | Unreadable

  /**
   * The list written back by `saveTrip`: the new record first and the old
   * list after it; a stored value that is not an array is replaced. An
   * unreadable value makes the save fail (`None`).
   */
  function SavedTrips<T>(stored: Stored<T>, record: T): (next: Option<seq<T>>)
    ensures stored.Unreadable? <==> next.None?
    ensures next.Some? ==> |next.value| >= 1 && next.value[0] == record
    ensures stored.List? ==> next.value[1..] == stored.items
    ensures stored.Nothing? || stored.NotAList? ==> next.value == [record]
  {
    match stored
    case Nothing => Some([record])
    case List(items) => Some([record] + items)
    case NotAList => Some([record])
    case Unreadable => None
  }
}

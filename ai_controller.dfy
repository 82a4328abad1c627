/**
 * The trip-plan endpoint: the rule-based fallback planner, the prompt
 * handed to the language model, and the handler that chooses between the
 * model's reply and the fallback.
 *
 * The database reads are a parameter (`Lookup`); the POI list is taken
 * as already restricted to the city. `JSON.parse` of the reply and
 * `JSON.stringify` of the prompt context are abstract function
 * parameters; the reply's JSON value type is a type parameter.
 */
module AiController {
  import opened Wrappers
  import opened Text
  import opened Seqs
  import opened Records
  import opened AiProvider

  const SystemPrompt := "You are Raahi, an India-first travel assistant. Reply ONLY in JSON that matches the provided schema. Keep suggestions specific, safe, and budget-conscious."

  const SummerTip := "Carry water and start early."
  const MonsoonTip := "Keep rain protection handy."

  function Max(a: int, b: int): int { if a < b then b else a }

  datatype DayPlan = DayPlan(
    day: int,
    morning: string,
    afternoon: string,
    evening: string,
    tips: seq<string>,
    transport: string)

  /** The projection `{ name, price, location }` of a suggested hotel. */
  datatype HotelPick = HotelPick(name: string, price: Option<int>, location: string)

  datatype Plan = Plan(summary: string, hotels: seq<HotelPick>, days: seq<DayPlan>, warnings: seq<string>)

  /** The inputs of `deterministicPlan`, after the handler's defaults. */
  datatype TripParams = TripParams(
    city: string,
    days: int,
    budget: Option<int>,
    interests: seq<string>,
    season: Option<string>,
    hotels: seq<HotelRecord>,
    pois: seq<PoiRecord>,
    weather: Option<WeatherRecord>,
    crowd: Option<CrowdRecord>)

  // ---------------------------------------------------------------------
  // deterministicPlan
  // ---------------------------------------------------------------------

  /** `Math.max(1, Math.round((budget || 0) / Math.max(1, days)))`. */
  function DailyBudget(budget: Option<int>, days: int): (d: int)
    ensures d >= 1
    ensures var q := (budget.GetOr(0) as real) / (Max(1, days) as real);
            q < (d as real) + 0.5 && (d > 1 ==> (d as real) <= q + 0.5)
  {
    Max(1, RoundDiv(budget.GetOr(0), Max(1, days)))
  }

  function PoiNames(pois: seq<PoiRecord>): (names: seq<string>)
    ensures |names| == |pois|
  {
    seq(|pois|, i requires 0 <= i < |pois| => pois[i].name)
  }

  /** `names[i % Math.max(1, names.length)] || fallback`. */
  function Rotate(names: seq<string>, i: nat, fallback: string): string {
    if |names| == 0 || names[i % |names|] == "" then fallback else names[i % |names|]
  }

  function Morning(names: seq<string>, idx: nat): string {
    Rotate(names, idx, "City walk")
  }

  function Afternoon(names: seq<string>, interests: seq<string>, idx: nat): string {
    if "Food & cafes" in interests then "Local food tour" else Rotate(names, idx + 1, "Museum/Cultural spot")
  }

  function Evening(interests: seq<string>): string {
    if "Shopping" in interests then "Bazaar & handicrafts" else "Sunset point"
  }

  /** `crowd.crowd_level || crowd.level || crowd` as the template prints it. */
  function CrowdText(c: CrowdRecord): string {
    if c.crowdLevel.Some? && c.crowdLevel.value != "" then c.crowdLevel.value else c.docText
  }

  function Tips(season: Option<string>, crowd: Option<CrowdRecord>): seq<string> {
    (if season == Some("Summer") then [SummerTip] else [])
    + (if season == Some("Monsoon") then [MonsoonTip] else [])
    + (if crowd.Some? then ["Crowd: " + CrowdText(crowd.value)] else [])
  }

  function Transport(city: string): string {
    if city == "Delhi" then "Metro + cabs"
    else if city == "Goa" then "Scooter + cabs"
    else "Cabs + walking"
  }

  function DayItem(t: TripParams, idx: nat): DayPlan {
    var names := PoiNames(t.pois);
    DayPlan(idx + 1, Morning(names, idx), Afternoon(names, t.interests, idx), Evening(t.interests),
            Tips(t.season, t.crowd), Transport(t.city))
  }

  /**
   * The hotel filter: location contains the city case-insensitively,
   * `available` is not explicitly false, and `(price || 0) <= 0.4 * dailyBudget`,
   * written exactly as 5 * price <= 2 * dailyBudget.
   */
  predicate Affordable(h: HotelRecord, city: string, dailyBudget: int) {
    && ContainsIgnoreCase(h.location, city)
    && h.available != Some(false)
    && 5 * h.price.GetOr(0) <= 2 * dailyBudget
  }

  function Pick(h: HotelRecord): HotelPick {
    HotelPick(h.name, h.price, h.location)
  }

  /** The hotels the plan suggests, before projection. */
  /** `hotels.filter(...)`: the affordable hotels in the city, in input order. */
  function AffordableHotels(t: TripParams): seq<HotelRecord> {
    var d := DailyBudget(t.budget, t.days);
    Filter(t.hotels, h => Affordable(h, t.city, d))
  }

  function ChosenHotels(t: TripParams): seq<HotelRecord> {
    Take(AffordableHotels(t), 5)
  }

  function Summary(t: TripParams): string {
    "A " + IntToString(t.days) + "-day plan for " + t.city + " with daily budget ~₹"
    + IntToString(DailyBudget(t.budget, t.days)) + ". Weather: "
    + (if t.weather.Some?
       then TemplateText(t.weather.value.condition) + ", " + TemplateNumber(t.weather.value.temperature) + "°C"
       else "N/A")
    + "."
  }

  /** `deterministicPlan`: one day entry per day, up to five affordable hotels, no warnings. */
  function DeterministicPlan(t: TripParams): (p: Plan)
    ensures |p.days| == Max(0, t.days)
    ensures forall i :: 0 <= i < |p.days| ==> p.days[i].day == i + 1
    ensures |p.hotels| <= 5
    ensures p.warnings == []
  {
    var chosen := ChosenHotels(t);
    Plan(Summary(t),
         seq(|chosen|, i requires 0 <= i < |chosen| => Pick(chosen[i])),
         seq(Max(0, t.days), i requires 0 <= i < Max(0, t.days) => DayItem(t, i)),
         [])
  }

  lemma DayAt(t: TripParams, i: nat)
    requires i < |DeterministicPlan(t).days|
    ensures DeterministicPlan(t).days[i] == DayItem(t, i)
  {
  }

  lemma {:induction false} MulAtLeast(k: int, n: int)
    requires k >= 1 && n > 0
    ensures k * n >= n
  {
    if k > 1 {
      MulAtLeast(k - 1, n);
      assert k * n == (k - 1) * n + n;
    }
  }

  /** The remainder is determined by any decomposition a = q*n + r with 0 <= r < n. */
  lemma ModUnique(a: int, n: int, q: int, r: int)
    requires n > 0 && 0 <= r < n && a == q * n + r
    ensures a % n == r
  {
    var q0, r0 := a / n, a % n;
    assert a == q0 * n + r0;
    if q > q0 {
      assert (q - q0) * n == q * n - q0 * n;
      MulAtLeast(q - q0, n);
    } else if q < q0 {
      assert (q0 - q) * n == q0 * n - q * n;
      MulAtLeast(q0 - q, n);
    }
  }

  lemma ModShift(i: nat, n: nat)
    requires n > 0
    ensures (i + n) % n == i % n
  {
    var q, r := i / n, i % n;
    assert i + n == (q + 1) * n + r;
    ModUnique(i + n, n, q + 1, r);
  }

  /**
   * Day i's morning is POI i mod n, or "City walk" when there is none or
   * its name is empty; the afternoon is the food tour when "Food & cafes"
   * is chosen, else POI i+1 mod n, or "Museum/Cultural spot".
   */
  lemma MorningAfternoonChoice(t: TripParams, i: nat)
    requires i < |DeterministicPlan(t).days|
    ensures var d := DeterministicPlan(t).days[i]; var n := |t.pois|;
            && (n == 0 ==> d.morning == "City walk")
            && (n > 0 ==> d.morning == (if t.pois[i % n].name == "" then "City walk" else t.pois[i % n].name))
            && ("Food & cafes" in t.interests ==> d.afternoon == "Local food tour")
            && ("Food & cafes" !in t.interests && n == 0 ==> d.afternoon == "Museum/Cultural spot")
            && ("Food & cafes" !in t.interests && n > 0 ==>
                  d.afternoon == (if t.pois[(i + 1) % n].name == "" then "Museum/Cultural spot" else t.pois[(i + 1) % n].name))
  {
    DayAt(t, i);
  }

  /**
   * The POIs rotate: the schedule repeats every n days, and without the
   * food interest a day's afternoon spot is the next day's morning spot.
   */
  lemma {:induction false} PoiRotation(t: TripParams, i: nat)
    requires i < |DeterministicPlan(t).days|
    ensures var p := DeterministicPlan(t); var n := |t.pois|;
            && (n > 0 && i + n < |p.days| ==> p.days[i + n].morning == p.days[i].morning)
            && (n > 0 && "Food & cafes" !in t.interests && i + 1 < |p.days| && t.pois[(i + 1) % n].name != ""
                ==> p.days[i].afternoon == p.days[i + 1].morning)
  {
    var n := |t.pois|;
    if n > 0 && i + n < |DeterministicPlan(t).days| {
      MorningsRepeatInPlan(t, i);
    }
    if n > 0 && "Food & cafes" !in t.interests && i + 1 < |DeterministicPlan(t).days| && t.pois[(i + 1) % n].name != "" {
      AfternoonLeadsInPlan(t, i);
    }
  }

  lemma MorningsRepeatInPlan(t: TripParams, i: nat)
    requires |t.pois| > 0 && i + |t.pois| < |DeterministicPlan(t).days|
    ensures DeterministicPlan(t).days[i + |t.pois|].morning == DeterministicPlan(t).days[i].morning
  {
    DayAt(t, i);
    DayAt(t, i + |t.pois|);
    MorningRepeats(t, i);
  }

  lemma AfternoonLeadsInPlan(t: TripParams, i: nat)
    requires |t.pois| > 0 && "Food & cafes" !in t.interests && t.pois[(i + 1) % |t.pois|].name != ""
    requires i + 1 < |DeterministicPlan(t).days|
    ensures DeterministicPlan(t).days[i].afternoon == DeterministicPlan(t).days[i + 1].morning
  {
    DayAt(t, i);
    DayAt(t, i + 1);
    AfternoonIsNextMorning(t, i);
  }

  lemma MorningRepeats(t: TripParams, i: nat)
    requires |t.pois| > 0
    ensures DayItem(t, i + |t.pois|).morning == DayItem(t, i).morning
  {
    ModShift(i, |t.pois|);
  }

  lemma AfternoonIsNextMorning(t: TripParams, i: nat)
    requires |t.pois| > 0 && "Food & cafes" !in t.interests && t.pois[(i + 1) % |t.pois|].name != ""
    ensures DayItem(t, i).afternoon == DayItem(t, i + 1).morning
  {
  }

  /** The tips: the season note, then the crowd note; never both season notes. */
  lemma TipsContents(season: Option<string>, crowd: Option<CrowdRecord>)
    ensures var tips := Tips(season, crowd);
            && (SummerTip in tips <==> season == Some("Summer"))
            && (MonsoonTip in tips <==> season == Some("Monsoon"))
            && |tips| == (if season == Some("Summer") || season == Some("Monsoon") then 1 else 0)
                         + (if crowd.Some? then 1 else 0)
            && (crowd.Some? ==> tips[|tips| - 1] == "Crowd: " + CrowdText(crowd.value))
            && |tips| <= 2
  {
    assert SummerTip[0] != MonsoonTip[0];
    if crowd.Some? {
      var note := "Crowd: " + CrowdText(crowd.value);
      assert note[1] == 'r';
      assert note != SummerTip && note != MonsoonTip;
    }
  }

  /**
   * Evening depends only on the "Shopping" interest, transport only on the
   * city and is the same every day, and every day carries the same tips.
   */
  lemma {:induction false} EveningTipsTransport(t: TripParams, i: nat, j: nat)
    requires i < |DeterministicPlan(t).days| && j < |DeterministicPlan(t).days|
    ensures var d := DeterministicPlan(t).days[i];
            && (d.evening == "Bazaar & handicrafts" <==> "Shopping" in t.interests)
            && (d.evening != "Bazaar & handicrafts" ==> d.evening == "Sunset point")
            && d.tips == Tips(t.season, t.crowd)
            && d.transport == DeterministicPlan(t).days[j].transport
            && (d.transport == "Metro + cabs" <==> t.city == "Delhi")
            && (d.transport == "Scooter + cabs" <==> t.city == "Goa")
  {
    DayAt(t, i);
    DayAt(t, j);
  }

  /**
   * Suggested hotels: at most five, taken in input order from the
   * affordable ones (the first five of them), each projected to
   * name/price/location.
   */
  lemma HotelPicks(t: TripParams)
    ensures var p := DeterministicPlan(t); var chosen := ChosenHotels(t); var d := DailyBudget(t.budget, t.days);
            && |p.hotels| == |chosen| <= 5
            && Subseq(chosen, t.hotels)
            && (forall i :: 0 <= i < |chosen| ==>
                  && p.hotels[i] == HotelPick(chosen[i].name, chosen[i].price, chosen[i].location)
                  && ContainsIgnoreCase(chosen[i].location, t.city)
                  && chosen[i].available != Some(false)
                  && 5 * chosen[i].price.GetOr(0) <= 2 * d)
            && (|chosen| < 5 ==> forall h :: h in t.hotels && Affordable(h, t.city, d) ==> h in chosen)
            && (var affordable := AffordableHotels(t);
                && |chosen| == (if |affordable| < 5 then |affordable| else 5)
                && forall i :: 0 <= i < |chosen| ==> chosen[i] == affordable[i])
  {
    var d := DailyBudget(t.budget, t.days);
    var chosen := ChosenHotels(t);
    var affordable := AffordableHotels(t);
    TakeFilterIsSubseq(t.hotels, h => Affordable(h, t.city, d), 5);
    forall i | 0 <= i < |chosen|
      ensures Affordable(chosen[i], t.city, d)
    {
      assert chosen[i] in affordable;
    }
  }

  // ---------------------------------------------------------------------
  // buildUserPrompt
  // ---------------------------------------------------------------------

  /** The trip fields of the request body, after the handler's defaults. */
  datatype Payload = Payload(
    city: string,
    startDate: Option<string>,
    days: int,
    travelers: Option<int>,
    interests: seq<string>,
    budget: int,
    constraints: seq<string>,
    season: Option<string>)

  datatype PromptContext = PromptContext(
    payload: Payload,
    weather: Option<WeatherRecord>,
    crowd: Option<CrowdRecord>,
    hotels: seq<HotelRecord>,
    pois: seq<PoiRecord>)

  const SchemaJson := "{\"summary\":\"string\",\"hotels\":[{\"name\":\"string\",\"price\":\"number\",\"location\":\"string\"}],\"days\":[{\"day\":\"number\",\"morning\":\"string\",\"afternoon\":\"string\",\"evening\":\"string\",\"tips\":[\"string\"],\"transport\":\"string\"}],\"warnings\":[\"string\"]}"

  const Guidance := "Return ONLY valid JSON (no markdown). Fields must match this schema exactly: " + SchemaJson + "."

  function Context(payload: Payload, weather: Option<WeatherRecord>, crowd: Option<CrowdRecord>,
                   hotels: seq<HotelRecord>, pois: seq<PoiRecord>): (c: PromptContext)
    ensures |c.hotels| <= 20 && |c.pois| <= 30
  {
    PromptContext(payload, weather, crowd, Take(hotels, 20), Take(pois, 30))
  }

  /** `buildUserPrompt`: the schema guidance, then the JSON context. */
  function BuildUserPrompt(payload: Payload, weather: Option<WeatherRecord>, crowd: Option<CrowdRecord>,
                           hotels: seq<HotelRecord>, pois: seq<PoiRecord>,
                           stringify: PromptContext -> string): (prompt: string)
    ensures StartsWith(prompt, Guidance + "\nUse this context to plan:\n")
  {
    Guidance + "\nUse this context to plan:\n" + stringify(Context(payload, weather, crowd, hotels, pois))
  }

  /**
   * The context carries the first 20 hotels and the first 30 POIs, so the
   * prompt depends on nothing beyond those prefixes.
   */
  lemma PromptSeesOnlyPrefixes(payload: Payload, weather: Option<WeatherRecord>, crowd: Option<CrowdRecord>,
                               hotels: seq<HotelRecord>, pois: seq<PoiRecord>,
                               hotels': seq<HotelRecord>, pois': seq<PoiRecord>,
                               stringify: PromptContext -> string)
    requires Take(hotels, 20) == Take(hotels', 20) && Take(pois, 30) == Take(pois', 30)
    ensures var c := Context(payload, weather, crowd, hotels, pois);
            c.hotels == hotels[..|c.hotels|] && c.pois == pois[..|c.pois|]
            && |c.hotels| == (if |hotels| < 20 then |hotels| else 20)
            && |c.pois| == (if |pois| < 30 then |pois| else 30)
    ensures BuildUserPrompt(payload, weather, crowd, hotels, pois, stringify)
         == BuildUserPrompt(payload, weather, crowd, hotels', pois', stringify)
  {
  }

  // ---------------------------------------------------------------------
  // planTrip
  // ---------------------------------------------------------------------

  /** The request body; `None` is a field the client did not send. */
  datatype PlanRequest = PlanRequest(
    city: Option<string>,
    startDate: Option<string>,
    days: Option<int>,
    travelers: Option<int>,
    interests: Option<seq<string>>,
    budget: Option<int>,
    constraints: Option<seq<string>>,
    season: Option<string>)

  /** `LLM_PROVIDER`, `LLM_API_KEY`, `OPENAI_API_KEY`, `LLM_MODEL`. */
  datatype Env = Env(provider: Option<string>, llmApiKey: Option<string>, openAiApiKey: Option<string>, model: Option<string>)

  /** The four collection reads, or the error one of them threw. */
  datatype Lookup =
    | Loaded(weatherList: seq<WeatherRecord>, crowdList: seq<CrowdRecord>, hotels: seq<HotelRecord>, pois: seq<PoiRecord>)
    | LookupFailed(error: string)

  datatype Reply<J> =
    | BadRequest(message: string)
    | ServerError(message: string, error: string)
    | ModelPlan(json: J)
    | FallbackPlan(plan: Plan)

  predicate HasCityAndDays(body: PlanRequest) {
    Truthy(body.city) && body.days.Some? && body.days.value != 0
  }

  function ProviderSetting(env: Env): string {
    if Truthy(env.provider) then env.provider.value else "off"
  }

  function ApiKey(env: Env): Option<string> {
    if Truthy(env.llmApiKey) then env.llmApiKey else env.openAiApiKey
  }

  function ModelSetting(env: Env): string {
    if Truthy(env.model) then env.model.value else DefaultModel
  }

  /** `provider && provider !== "off" && apiKey`. */
  predicate ConsultsModel(env: Env) {
    ProviderSetting(env) != "off" && Truthy(ApiKey(env))
  }

  function ToPayload(body: PlanRequest): Payload
    requires HasCityAndDays(body)
  {
    Payload(body.city.value, body.startDate, body.days.value, body.travelers,
            body.interests.GetOr([]), body.budget.GetOr(15000), body.constraints.GetOr([]), body.season)
  }

  /** What `deterministicPlan` is given by the handler. */
  function FallbackParams(body: PlanRequest, lists: Lookup): TripParams
    requires HasCityAndDays(body) && lists.Loaded?
  {
    var city := body.city.value;
    TripParams(city, body.days.value, Some(body.budget.GetOr(15000)), body.interests.GetOr([]), body.season,
               lists.hotels, lists.pois, FirstWeatherIn(lists.weatherList, city), FirstCrowdAt(lists.crowdList, city))
  }

  function Prompt(body: PlanRequest, lists: Lookup, stringify: PromptContext -> string): string
    requires HasCityAndDays(body) && lists.Loaded?
  {
    var city := body.city.value;
    BuildUserPrompt(ToPayload(body), FirstWeatherIn(lists.weatherList, city), FirstCrowdAt(lists.crowdList, city),
                    lists.hotels, lists.pois, stringify)
  }

  /**
   * `planTrip`. `call` is the provider call made, if any; `exchange` is
   * what the network answers to it and `parse` is `JSON.parse`.
   */
  method PlanTrip<J>(body: PlanRequest, env: Env, lists: Lookup, exchange: Exchange,
                     parse: string -> Option<J>, stringify: PromptContext -> string)
    returns (reply: Reply<J>, call: Option<Call>)
    ensures !HasCityAndDays(body) ==> reply == BadRequest("city and days are required") && call.None?
    ensures HasCityAndDays(body) && lists.LookupFailed? ==>
              reply == ServerError("Failed to generate plan", lists.error) && call.None?
    ensures call.Some? <==> HasCityAndDays(body) && lists.Loaded? && ConsultsModel(env)
    ensures call.Some? ==> call.value == CallLlm(Some(ProviderSetting(env)), ApiKey(env), Some(ModelSetting(env)),
                                                 Prompt(body, lists, stringify), Some(SystemPrompt), exchange)
    ensures reply.ModelPlan? <==>
              call.Some? && call.value.result.Succeeded? && Truthy(call.value.result.content)
              && parse(call.value.result.content.value).Some?
    ensures reply.ModelPlan? ==> reply.json == parse(call.value.result.content.value).value
    ensures HasCityAndDays(body) && lists.Loaded? && !reply.ModelPlan? ==>
              reply == FallbackPlan(DeterministicPlan(FallbackParams(body, lists)))
  {
    call := None;
    if !HasCityAndDays(body) {
      return BadRequest("city and days are required"), None;
    }
    if lists.LookupFailed? {
      return ServerError("Failed to generate plan", lists.error), None;
    }
    var city := body.city.value;
    var weather := FirstWeatherIn(lists.weatherList, city);
    var crowd := FirstCrowdAt(lists.crowdList, city);
    var provider := ProviderSetting(env);
    var apiKey := ApiKey(env);
    var model := ModelSetting(env);
    var userPrompt := BuildUserPrompt(ToPayload(body), weather, crowd, lists.hotels, lists.pois, stringify);

    var content: Option<string> := None;
    if provider != "off" && Truthy(apiKey) {
      var resp := CallLlm(Some(provider), apiKey, Some(model), userPrompt, Some(SystemPrompt), exchange);
      call := Some(resp);
      if resp.result.Succeeded? && Truthy(resp.result.content) {
        content := resp.result.content;
      }
    }

    var fallback := DeterministicPlan(FallbackParams(body, lists));
    if Truthy(content) {
      var parsed := parse(content.value);
      if parsed.Some? {
        reply := ModelPlan(parsed.value);
      } else {
        reply := FallbackPlan(fallback);
      }
    } else {
      reply := FallbackPlan(fallback);
    }
  }
}

# Raahi travel app — a verified model of its deterministic core

Raahi is a travel web app. It has an Express server, which plans trips with an LLM and
falls back to a deterministic plan, validates sign-ups and log-ins, authenticates requests
and filters CORS origins. It also has a React client, which filters, sorts and pages hotels,
computes dashboard insights and safety advisories, and renders itineraries. This project
models the logic under that UI and I/O in Dafny and proves what the code promises about it.

One Dafny module stands for each source file:

| module | models |
|---|---|
| `AiProvider` | the provider gateway `callLLMWithPlanPrompt`: provider name, key and HTTP outcome classified into a result record |
| `AiController` | `deterministicPlan`, the prompt context truncation of `buildUserPrompt`, and `planTrip`'s required-field check, LLM gate and parse-or-fallback choice |
| `ExportCsv` | `toCSV` and its cell `escape` |
| `Validation` | `validateSignup` and `validateLogin` |
| `AuthMiddleware` | `requireAuth`: where the token comes from and the 401 rules |
| `Cors` | the `allowedOrigins` list and the CORS origin decision |
| `Planner` | the local plan, the weather/crowd labels, `toggleInterest`, `formatPlan` and the saved-trips list |
| `Hotels` | URL state parsing and writing, the filter/sort pipeline, pagination and the page's handlers |
| `Dashboard` | the latest city weather, the in-city crowd set, the heat map and the insight cards |
| `Safety` | the advisory lookups, score, messages and severity |
| `Marketplace` | normalising hotels and POIs into listings, merging and filtering them |
| `Toasts` | the bounded toast list: show, remove and the global event handler |
| `SearchBar` | the guests-field parser and the search query |
| `AuthPage` | `validate`, the request payload and the submit handler's state |
| `HotelDetails` | the map-centre derivation, the getting-there suggestions and the gallery |
| `Explore` | the active tab and the tab-switch URL |
| `SearchApi` | the mock-mode hotel search and its `meta` record |

Shared pieces:
- `Wrappers`: `Option`.
- `Text`:
  - ASCII lower-casing, substring search, JavaScript `trim`, `split` and `join`;
  - decimal formatting and parsing;
  - `Math.round` of a quotient.
- `Seqs`: filter, find, prefix, subsequence and toggle.
- `StableSort`: the contract of `Array.prototype.sort`, which is stable and orders by a key.
- `Records`: the weather, crowd, hotel and POI records, with the first-match city lookups.

Imperative code stays imperative:
- The toast list, the hotels page, the safety advisory, the auth page and the auth request are classes. Their methods update the fields.
- `formatPlan`, the CSV header collection, the centre-lookup loop, the advisory accumulation and `planTrip` are methods with loops or branches. Each is proved against a specification function.

## Model

| member | source | states |
|---|---|---|
| AiProvider.Messages | server/src/services/aiProvider.js:29-32 | a system message comes first exactly when `system` is non-empty; the user prompt is always the last message |
| AiProvider.CallLlm | server/src/services/aiProvider.js:11-61 | a request is sent exactly for provider "openai" (any case) with a key, to the OpenAI URL with a Bearer key, the built messages and the default model when none is given; with no request the result is a failure without details |
| AiProvider.ProviderOff | server/src/services/aiProvider.js:12-15 | an empty or "off" provider, in any letter case, gives `provider_off` and sends nothing |
| AiProvider.NonOpenAiReasons | server/src/services/aiProvider.js:20-52 | openai without a key gives `no_api_key`; anthropic/mistral/google/azure-openai give `provider_not_implemented`; every other name gives `unknown_provider` |
| AiProvider.SuccessOnlyAfter2xx | server/src/services/aiProvider.js:37-43 | success iff openai with a key got a 2xx reply with a parseable body; the content is then the first choice's content (possibly absent) |
| AiProvider.HttpFailure | server/src/services/aiProvider.js:37-40 | a non-2xx reply fails with reason "http_" + status |
| AiProvider.ExceptionsAreCaught | server/src/services/aiProvider.js:54-60 | a network error or an unparseable 2xx body is caught and reported as reason "exception" |
| AiController.DailyBudget | server/src/controllers/aiController.js:21-24 | the daily budget is at least 1 and is the budget per day (a missing budget is 0) rounded half up |
| AiController.PoiNames | server/src/controllers/aiController.js:25 | one name per POI |
| AiController.DeterministicPlan | server/src/controllers/aiController.js:10-64 | exactly max(0, days) day entries numbered 1.. in order, at most 5 hotels, no warnings |
| AiController.MorningAfternoonChoice | server/src/controllers/aiController.js:28-32 | the morning is the POI at i mod n or "City walk"; the afternoon is "Local food tour" with the food interest, else the POI at (i+1) mod n, else "Museum/Cultural spot" |
| AiController.PoiRotation | server/src/controllers/aiController.js:28-32 | the mornings repeat every n days, and without the food interest a day's afternoon spot is the next day's morning spot |
| AiController.TipsContents | server/src/controllers/aiController.js:36-40 | the Summer note iff season is Summer, the Monsoon note iff Monsoon, the crowd note last iff crowd data exists; at most two tips |
| AiController.EveningTipsTransport | server/src/controllers/aiController.js:33-46 | evening is "Bazaar & handicrafts" iff the Shopping interest is selected, else "Sunset point"; every day has the same tips and the same transport, which is the Delhi or Goa choice exactly for those cities |
| AiController.HotelPicks | server/src/controllers/aiController.js:49-57 | at most 5 hotels, an order-preserving subsequence of the input, each in the city, not marked unavailable and priced at most 0.4 × the daily budget, projected to name/price/location; with fewer than 5, every affordable hotel is picked; the picks are exactly the first min(5, n) of the n affordable hotels |
| AiController.Context | server/src/controllers/aiController.js:114-117 | the prompt context holds at most 20 hotels and 30 POIs |
| AiController.BuildUserPrompt | server/src/controllers/aiController.js:66-120 | the prompt starts with the guidance text and the context heading |
| AiController.PromptSeesOnlyPrefixes | server/src/controllers/aiController.js:115-116 | the context takes prefixes (the first 20 hotels and first 30 POIs), so lists that agree on those prefixes give the same prompt |
| AiController.PlanTrip | server/src/controllers/aiController.js:122-214 | a missing city or days gives 400 before any lookup; a failed lookup gives 500; the provider is called iff it is configured and the inputs loaded; a parseable successful reply is returned verbatim, and anything else returns the deterministic plan of the same inputs |
| ExportCsv.Keys | server/src/scripts/exportToCSV.js:22 | one key per field of the row |
| ExportCsv.AddKeysFacts | server/src/scripts/exportToCSV.js:20-25 | adding a row's keys keeps the earlier headers as a prefix, adds exactly the new keys, and keeps the headers duplicate-free |
| ExportCsv.HeadersFacts | server/src/scripts/exportToCSV.js:20-25 | the headers are duplicate-free and are exactly the keys of some row |
| ExportCsv.HeadersFirstAppearance | server/src/scripts/exportToCSV.js:20-25 | the headers of a prefix of the rows are a prefix of all headers (first-appearance order) |
| ExportCsv.CollectHeaders | server/src/scripts/exportToCSV.js:20-25 | the loop over rows computes the header union |
| ExportCsv.Escape | server/src/scripts/exportToCSV.js:26-36 | a missing value is ""; a string needing no quotes is unchanged; one containing a quote, comma or newline is wrapped in quotes |
| ExportCsv.EscapeRoundTrip | server/src/scripts/exportToCSV.js:34-35 | stripping the outer quotes and collapsing doubled quotes recovers the string; a cell is quoted exactly when it needs quoting |
| ExportCsv.CollapseDoubled | server/src/scripts/exportToCSV.js:35 | collapsing `""` undoes doubling every quote |
| ExportCsv.Cells | server/src/scripts/exportToCSV.js:38 | one cell per header |
| ExportCsv.Lines | server/src/scripts/exportToCSV.js:38 | one line per row |
| ExportCsv.ToCsv | server/src/scripts/exportToCSV.js:18-40 | the writer computes the CSV text, which is empty exactly when there are no rows |
| ExportCsv.CsvLines | server/src/scripts/exportToCSV.js:37-39 | without newlines in headers and cells, the output's lines are the header line followed by one line per row in order |
| ExportCsv.OneFieldPerHeader | server/src/scripts/exportToCSV.js:38 | a row line without commas inside cells splits back into one field per header |
| ExportCsv.ObjectCellSplitsRow | server/src/scripts/exportToCSV.js:33 | an object cell is not quoted, so its JSON commas split one cell into several fields |
| Validation.EmailOkIsPattern | server/src/middlewares/validationMiddleware.js:6 | the email check accepts exactly: one '@', no white space, a non-empty local part, a '.' in the domain with a character on each side |
| Validation.ValidateSignup | server/src/middlewares/validationMiddleware.js:1-13 | next iff name (name or fullName, trimmed length ≥ 2), email and password (length ≥ 6) pass; otherwise the first failing check's message, in order name, email, password |
| Validation.ValidateLogin | server/src/middlewares/validationMiddleware.js:15-22 | next iff the email passes and the password is truthy; otherwise the email message first, then the password message |
| Validation.SignupAcceptedLoginAccepted | server/src/middlewares/validationMiddleware.js:4-21 | a body the signup validator accepts is accepted by the login validator |
| AuthMiddleware.BearerSplit | server/src/middlewares/authMiddleware.js:8-10 | for a "Bearer " header the second space-separated field is the first field after the prefix |
| AuthMiddleware.BearerToken | server/src/middlewares/authMiddleware.js:7-10 | a header token exists iff the header is non-empty and starts with "Bearer "; it is the second space-separated field: it has no space, starts the rest of the header and runs up to the next space or the end |
| AuthMiddleware.HeaderWins | server/src/middlewares/authMiddleware.js:6-11 | a truthy header token always wins; otherwise a token exists iff the cookie is truthy; the token is always the header's or the cookie's |
| AuthMiddleware.AuthRequest.constructor | server/src/middlewares/authMiddleware.js:4-5 | a request with its header and cookie values and no user |
| AuthMiddleware.AuthRequest.RequireAuth | server/src/middlewares/authMiddleware.js:4-22 | next iff a token exists, verifies and names an existing user, which is then set; otherwise 401 "Unauthorized" and the user is untouched |
| Cors.TrimEach | server/src/index.js:18 | each entry trimmed, none dropped |
| Cors.AllowedOrigins | server/src/index.js:15-18 | the default localhost origin when the variable is unset or empty; else one entry per comma-separated part, each entry being its part trimmed, none holding a comma |
| Cors.OriginDecision | server/src/index.js:22-27 | no origin is allowed; a present origin is allowed iff it equals an entry exactly; otherwise the error "Not allowed by CORS" |
| Cors.EmptyEntriesAdmitNothing | server/src/index.js:18-25 | empty entries (a trailing comma) change no decision |
| Cors.OriginListedIff | server/src/index.js:15-18 | an origin is on the list from a set variable iff some comma-separated part of the variable, trimmed, equals it |
| Cors.AllowedOriginsTrimsParts | server/src/index.js:15-18 | comma-free entries joined by commas, with spaces around them, are read back as the entries trimmed |
| Cors.AllowedOriginsRoundTrip | server/src/index.js:15-18 | a comma-joined list of trimmed, comma-free origins parses back to itself |
| Planner.WeatherLabel | client/src/pages/Planner.jsx:70-78 | "Loading..." without data, "No live data for this city" without a match, else the first matching record's "cond (temp°C)" |
| Planner.CrowdLabel | client/src/pages/Planner.jsx:80-86 | the same rule on `place`, showing the crowd level |
| Planner.LocalDailyBudget | client/src/pages/Planner.jsx:91 | budget per day rounded half up, and not a finite number when days is 0 |
| Planner.LocalPlanOf | client/src/pages/Planner.jsx:88-108 | exactly `days` items numbered 1.. in order |
| Planner.LocalDayChoices | client/src/pages/Planner.jsx:92-106 | morning/afternoon/evening choices from the POIs at d mod n and (d+1) mod n and the interests; the budget tip depends only on the daily budget being under 2500, so it is the same every day |
| Planner.ZeroDays | client/src/pages/Planner.jsx:91-92 | zero days give no items and a daily budget that is not finite |
| Seqs.Toggle | client/src/pages/Planner.jsx:110-113 | the toggled value's membership flips, all others keep theirs, and a new value is appended at the end; a removal keeps the rest in order with every copy of each other value |
| Seqs.ToggleTwice | client/src/pages/Planner.jsx:110-113 | toggling twice restores membership |
| Planner.HotelLines | client/src/pages/Planner.jsx:121-126 | one line per hotel |
| Planner.DayLines | client/src/pages/Planner.jsx:127-137 | a day block has 4 to 6 lines |
| Planner.WarningLines | client/src/pages/Planner.jsx:138-141 | one line per warning |
| Planner.SummaryBlock | client/src/pages/Planner.jsx:120 | a summary line iff a summary is present |
| Planner.HotelBlock | client/src/pages/Planner.jsx:121-126 | a heading plus one line per hotel in order, and nothing for a missing or empty list |
| Planner.WarningBlock | client/src/pages/Planner.jsx:138-141 | a heading plus "- w" per warning in order, and nothing for a missing or empty list |
| Planner.DaysLinesSize | client/src/pages/Planner.jsx:127-137 | the day section has between 4 and 6 lines per day |
| Planner.DaysLinesAppend | client/src/pages/Planner.jsx:127-137 | the day section of concatenated days is the concatenation of their sections |
| Planner.DayBlockPosition | client/src/pages/Planner.jsx:127-137 | day k's block sits after the blocks of days 0..k-1, intact, starting with its "Day k:" line |
| Planner.PushHotels | client/src/pages/Planner.jsx:121-126 | the push loop appends exactly the hotel lines |
| Planner.PushDays | client/src/pages/Planner.jsx:127-137 | the push loop appends exactly the day blocks |
| Planner.PushWarnings | client/src/pages/Planner.jsx:138-141 | the push loop appends exactly the warning lines |
| Planner.FormatPlan | client/src/pages/Planner.jsx:117-143 | "" for no plan; else the summary, hotel, day and warning blocks in that order, joined by newlines |
| Planner.SavedTrips | client/src/pages/Planner.jsx:184-187 | the new record first and the stored list after it unchanged; a missing or non-array value becomes just the record |
| Hotels.MatchingFacts | client/src/pages/Hotels.jsx:57-79 | the filtered list is an order-preserving subsequence of the base list holding exactly the hotels within the price cap, matching a popular tag when tags are chosen, and passing every chosen collection |
| Hotels.HotelListFacts | client/src/pages/Hotels.jsx:57-84 | the sorted list is a permutation of the filtered one; "priceAsc" is non-decreasing in price, "rating" non-increasing in rating, both stable; any other sort keeps the filtered order |
| Hotels.ListSizeIgnoresSort | client/src/pages/Hotels.jsx:80-82 | sorting never changes the number of results |
| Hotels.PageCount | client/src/pages/Hotels.jsx:86 | at least one page, and the pages of 6 just cover the results |
| Hotels.PageItems | client/src/pages/Hotels.jsx:87-90 | a page holds at most 6 items |
| Hotels.PagesUpToPrefix | client/src/pages/Hotels.jsx:87-90 | the first k pages together are the list's prefix of length min(6k, total) |
| Hotels.PagesPartition | client/src/pages/Hotels.jsx:86-90 | all pages together are exactly the list |
| Hotels.ParseQuery | client/src/pages/Hotels.jsx:20-36 | the parsed state has a positive price cap, a page of at least 1, a sort key and non-empty comma-free tags |
| Hotels.GetWritten | client/src/pages/Hotels.jsx:103-120 | each key is written only when it differs from its default, with its value |
| Hotels.WriteQueryValues | client/src/pages/Hotels.jsx:103-120 | the written URL holds exactly the non-default values |
| Hotels.TagListJoin | client/src/pages/Hotels.jsx:20-25 | well-formed tags joined by commas parse back to themselves |
| Hotels.QueryRoundTrip | client/src/pages/Hotels.jsx:20-36 | parsing the written URL gives back any well-formed state |
| Hotels.ExpandSeed | client/src/pages/Hotels.jsx:11-14 | the base list is the seed followed by a copy whose ids get an "x" plus the index |
| Hotels.HotelsPage.PageItemsNow | client/src/pages/Hotels.jsx:87-90 | the current page shows at most 6 hotels |
| Hotels.HotelsPage.Mount | client/src/pages/Hotels.jsx:11-36 | the page starts from the URL's filters, and the mount-time reset puts it on page 1 |
| Hotels.HotelsPage.ClampPage | client/src/pages/Hotels.jsx:93-95 | a page beyond the last one is pulled back to the last page; nothing else changes |
| Hotels.HotelsPage.TogglePopular | client/src/pages/Hotels.jsx:39-43 | the tag is toggled, the other filters are kept, page 1 |
| Hotels.HotelsPage.ToggleCollection | client/src/pages/Hotels.jsx:44-48 | the collection is toggled, the other filters are kept, page 1 |
| Hotels.HotelsPage.SetPriceMax | client/src/pages/Hotels.jsx:193 | the cap is set; the page resets to 1 only when the cap changed |
| Hotels.HotelsPage.SetSortBy | client/src/pages/Hotels.jsx:156 | the sort is set; the page and the filters are kept |
| Hotels.HotelsPage.ClearFilters | client/src/pages/Hotels.jsx:49-55 | every default is restored and the URL is left empty |
| Hotels.HotelsPage.Prev | client/src/pages/Hotels.jsx:221 | one page back, never below 1 |
| Hotels.HotelsPage.Next | client/src/pages/Hotels.jsx:231 | one page on, never past the last page |
| StableSort.SortIsOrderedPermutation | client/src/pages/Hotels.jsx:80-82 | the sort is a permutation ordered by the key |
| StableSort.SortIsStable | client/src/pages/Hotels.jsx:80-82 | hotels with equal keys keep their order |
| Records.FirstWeatherIn | client/src/pages/Safety.jsx:60-62 | the first record whose city equals the selection case-insensitively, or none iff no record matches |
| Records.FirstCrowdAt | client/src/pages/Safety.jsx:64-66 | the first record whose place equals the selection case-insensitively, or none iff no record matches |
| Dashboard.FirstMaxIndex | client/src/pages/Dashboard.jsx:181-184 | an index of the maximum with every earlier value strictly smaller (first maximum) |
| Dashboard.LastMaxIndex | client/src/pages/Dashboard.jsx:200-204 | an index of the maximum with every later value strictly smaller (ties go to the later element) |
| Dashboard.LastMinIndex | client/src/pages/Dashboard.jsx:205-209 | an index of the minimum with every later value strictly larger (ties go to the later element) |
| Dashboard.CityWeatherIsLatest | client/src/pages/Dashboard.jsx:64-78 | none iff no record is in the city; else a record in the city with the greatest timestamp |
| Dashboard.InCityCrowdFacts | client/src/pages/Dashboard.jsx:186-199 | order-preserving; exactly the entries named by a POI when POIs exist, else those whose place mentions the city |
| Dashboard.ForecastMapLastWins | client/src/pages/Dashboard.jsx:156-157 | a day is in the map iff it is forecast, and its value is the last forecast for that day |
| Dashboard.Percents | client/src/pages/Dashboard.jsx:158-165 | each entry's percent, a missing one as 0 |
| Dashboard.Heatmap | client/src/pages/Dashboard.jsx:146-175 | exactly seven scores, Sunday to Saturday |
| Dashboard.HeatmapUsesLastEntry | client/src/pages/Dashboard.jsx:156-173 | a weekday's score comes from the temperature of the last forecast entry for that day; an entry without a temperature gives a temperature score of 0 |
| Dashboard.HeatmapUnforecastDay | client/src/pages/Dashboard.jsx:166-173 | a weekday the forecast does not list, or no city record at all, gives a temperature score of 0 |
| Dashboard.AvgCrowdBounds | client/src/pages/Dashboard.jsx:158-165 | with percents in [0,100] the average crowd is in [0,100] |
| Dashboard.HeatmapBounds | client/src/pages/Dashboard.jsx:166-173 | every score is ≥ 0, and ≤ 53 when every percent is in [0,100] |
| Dashboard.DayScoreMonotone | client/src/pages/Dashboard.jsx:166-173 | a larger crowd never raises a day's score |
| Dashboard.MaxOf | client/src/pages/Dashboard.jsx:181-182 | the maximum is an element and bounds every element |
| Dashboard.BestDayIsFirstMax | client/src/pages/Dashboard.jsx:180-184 | the best day is always one of the weekday labels |
| Dashboard.CrowdCards | client/src/pages/Dashboard.jsx:200-209 | most and least crowded are empty iff the in-city set is; else a maximal and a minimal percent, ties going to the later entry |
| Dashboard.CheapestCard | client/src/pages/Dashboard.jsx:218-222 | empty iff there are no hotels; else no hotel is cheaper (0 or missing counts as infinite), and ties go to the later hotel |
| Dashboard.AvgPriceBounds | client/src/pages/Dashboard.jsx:212-217 | none iff no price is positive; else within the bounds of the positive prices |
| Dashboard.BudgetPicksCheapest | client/src/pages/Dashboard.jsx:223-225 | min(3, n) hotels, in ascending price, taken from the list, none dearer than a hotel left out |
| Safety.ScoreCountsMessages | client/src/pages/Safety.jsx:70-102 | the score is in [0,4] and equals the message count plus 1 when the rain message fired |
| Safety.LanguageOnlyChangesText | client/src/pages/Safety.jsx:76-100 | the language changes neither the number of messages nor whether there is an alert |
| Safety.AlertIffSeverity | client/src/pages/Safety.jsx:103-112 | no alert iff the severity is "none" |
| Safety.VeryHighIsRedundant | client/src/pages/Safety.jsx:94 | the crowd pattern is just "high" or "peak", case-insensitive |
| Safety.Advisory.constructor | client/src/pages/Safety.jsx:25-30 | no alert, severity "none" |
| Safety.Advisory.Advise | client/src/pages/Safety.jsx:68-113 | with neither record the alert clears and the severity is kept; else the alert is the joined messages and the severity follows the score |
| Safety.WeatherChecks | client/src/pages/Safety.jsx:72-91 | the weather messages, and 2 for rain plus 1 for an extreme temperature |
| Safety.CrowdCheck | client/src/pages/Safety.jsx:92-102 | appends the crowd message and adds 1 exactly when the crowd level fires |
| Marketplace.HotelCityIsFirstSegment | client/src/pages/Marketplace.jsx:48 | a hotel's city is the text before the first comma (the whole location when that is empty or there is no comma) |
| Marketplace.HotelItems | client/src/pages/Marketplace.jsx:44-51 | one listing per hotel, in order |
| Marketplace.PoiItems | client/src/pages/Marketplace.jsx:52-59 | one listing per POI, in order |
| Marketplace.ItemsAreFilteredMerge | client/src/pages/Marketplace.jsx:60-66 | the listings are the kept hotel items followed by the kept POI items, a subsequence of the merge holding exactly the kept items |
| Marketplace.NoFilterKeepsAll | client/src/pages/Marketplace.jsx:61-66 | with type and city "All" and no query every item is kept |
| Marketplace.MergedItemOrigin | client/src/pages/Marketplace.jsx:44-60 | every merged item comes from a hotel or a POI record |
| Marketplace.ItemsComeFromRecords | client/src/pages/Marketplace.jsx:43-67 | every listing comes from a record; POI listings cost 0 and rate 4.5 |
| Toasts.ShownFacts | client/src/components/ToastProvider.jsx:88-91 | the new toast is first, followed by the first four old ones in order, so at most five |
| Toasts.RemovedFacts | client/src/components/ToastProvider.jsx:84-86 | exactly the toasts with that id go, the rest keep their order and every copy, and an unknown id changes nothing |
| Toasts.ShowThenRemove | client/src/components/ToastProvider.jsx:84-90 | show with a fresh id, then remove that id, leaves the previous list's first four |
| Toasts.EventToastsFallBackWhenDrawn | client/src/components/ToastProvider.jsx:89 | passed keys override the defaults even when undefined; drawing falls back to the info style and 3500 ms |
| Toasts.ToastList.constructor | client/src/components/ToastProvider.jsx:82 | an empty list |
| Toasts.ToastList.Show | client/src/components/ToastProvider.jsx:88-91 | the list becomes the shown list |
| Toasts.ToastList.Remove | client/src/components/ToastProvider.jsx:84-86 | the list becomes the filtered list |
| Toasts.ToastList.Handle | client/src/components/ToastProvider.jsx:95-99 | an event without a message changes nothing; otherwise its fields are shown |
| SearchBar.GuestParts | client/src/components/SearchBar.jsx:31 | one trimmed part per comma-separated piece |
| SearchBar.SearchQuery | client/src/components/SearchBar.jsx:36-42 | exactly q, dates, rooms and guests, in that order, with the parsed counts |
| SearchBar.CountsIgnoreSpaces | client/src/components/SearchBar.jsx:31-35 | rooms come from the first piece and guests from the second, trimmed or not |
| SearchBar.ExtraPartsIgnored | client/src/components/SearchBar.jsx:31-33 | pieces after the second are ignored |
| SearchBar.LabelRoundTrip | client/src/components/SearchBar.jsx:31-35 | "N word, M word" reads back as (N, M) |
| SearchBar.DefaultIsOneAndOne | client/src/components/SearchBar.jsx:24 | the default label reads as one room and one guest |
| SearchBar.ZeroIsKept | client/src/components/SearchBar.jsx:34-35 | an explicit "0" reads as 0 rooms, and a missing second piece gives 1 guest |
| AuthPage.Validate | client/src/pages/Auth.jsx:52-64 | "" exactly when every check passes |
| AuthPage.LoginIgnoresNames | client/src/pages/Auth.jsx:58-62 | login never looks at the name fields or the checkbox |
| AuthPage.ValidateEmailFirst | client/src/pages/Auth.jsx:53-56 | "Email is required" iff the trimmed email is empty; "Enter a valid email" iff it is present and malformed |
| AuthPage.ValidateThenPassword | client/src/pages/Auth.jsx:57-63 | after a good email the password check comes next, then (signup only) first name, last name and agreement in that order |
| AuthPage.FullNameJoins | client/src/pages/Auth.jsx:100 | with both names present the full name is them joined by one space |
| AuthPage.LowerKeepsEmailShape | client/src/pages/Auth.jsx:82 | lower-casing a well-formed email keeps it well-formed |
| AuthPage.ClientValidLoginPassesServer | client/src/pages/Auth.jsx:80-84 | a login the page accepts passes the server's login validator |
| AuthPage.ClientValidSignupServerIff | client/src/pages/Auth.jsx:98-105 | a sign-up the page accepts passes the server iff the password has at least 6 characters, and otherwise gets the password message |
| AuthPage.ShortPasswordSignupRefused | client/src/pages/Auth.jsx:57 | a concrete form the page accepts and the server refuses |
| AuthPage.AuthPage.constructor | client/src/pages/Auth.jsx:39-41 | not loading, no messages, no user |
| AuthPage.AuthPage.Begin | client/src/pages/Auth.jsx:66-79 | ignored while loading; otherwise it shows the validation message and sends nothing, or starts loading and sends the payload |
| AuthPage.AuthPage.Finish | client/src/pages/Auth.jsx:80-125 | success iff the status is 200 or 201: it sets the user, shows the message and navigates; otherwise the server's or fallback message; loading always ends |
| HotelDetails.CenterOf | client/src/pages/HotelDetails.jsx:42-44 | a centre exists iff the key is declared |
| HotelDetails.DeriveLatLng | client/src/pages/HotelDetails.jsx:26-47 | the loop computes the derived centre |
| HotelDetails.ScanFindsFirst | client/src/pages/HotelDetails.jsx:35-39 | the first mentioned key in order decides |
| HotelDetails.FallbackAddsNothing | client/src/pages/HotelDetails.jsx:40-45 | among declared keys the last-segment lookup finds nothing the scan missed |
| HotelDetails.DerivedIsFirstMention | client/src/pages/HotelDetails.jsx:26-47 | numeric coordinates win; else none iff no key is mentioned, and otherwise the centre of the first mentioned key |
| HotelDetails.ScanIgnoresCase | client/src/pages/HotelDetails.jsx:36-37 | "goa" finds the Goa centre |
| HotelDetails.Suggestions | client/src/pages/HotelDetails.jsx:363-425 | the four base entries first, plus one only for exactly Jaipur, Goa, Agra, Varanasi or Manali |
| HotelDetails.FullLocationGetsBaseOnly | client/src/pages/HotelDetails.jsx:386-423 | "Jaipur, Rajasthan" gets only the base entries |
| HotelDetails.GalleryOf | client/src/pages/HotelDetails.jsx:129-135 | a main image iff there are images; up to three thumbnails, in order, after it |
| HotelDetails.GalleryFallsBackToStock | client/src/pages/HotelDetails.jsx:117-128 | without images the main image is `image` or else the first stock photo, and the thumbnails are the stock photos not shown |
| Explore.ResolveTab | client/src/pages/Explore.jsx:15-23 | always "stays" or "market"; a valid route tab wins, then a valid query tab, then "stays" |
| Explore.UnknownTabIsIgnored | client/src/pages/Explore.jsx:16-20 | an unknown route tab counts as none |
| Explore.WithoutTab | client/src/pages/Explore.jsx:28 | exactly the non-tab parameters, in order |
| Explore.QueryStringEmpty | client/src/pages/Explore.jsx:29 | the query string is empty iff no parameter is left |
| Explore.TabUrlFacts | client/src/pages/Explore.jsx:25-32 | the market path iff the tab is "market"; a bare path iff only tab parameters existed; else the path, "?" and the other parameters |
| SearchApi.MockSearch | client/src/api/search.js:4-25 | exactly the hotels matching the query (name or location, case-insensitive), in order and with every copy; total is the count; rooms and guests default to 1; the rest is echoed |
| SearchApi.EmptyQueryKeepsAll | client/src/api/search.js:17-21 | a missing or empty query keeps every hotel in order |

Three behaviours of the code worth noting:
- The "Family", "Group" and "Airport" collections are matched with `includes` on the collection name (client/src/pages/Hotels.jsx:68-79).
- The reset-to-page-1 effect also runs on mount, so a `page` in the URL is overridden (client/src/pages/Hotels.jsx:98-100).
- The controller's gate compares the provider setting with "off" case-sensitively, so a provider "OFF" is consulted and the gateway answers `provider_off` (server/src/controllers/aiController.js:171-181).

## Left out

- Database, HTTP and storage I/O are not modelled. Their results are inputs:
  - the Mongo lookups;
  - `fetch` and axios;
  - `localStorage` reads and writes.
- The network branch of `searchHotels` is not modelled (client/src/api/search.js:27-30).
- The POI lookup's regular expression on the city is not modelled; the POI list arrives as an input.
- `JSON.parse` and `JSON.stringify` are function parameters. The reply's JSON body is a datatype: malformed, or completed with its first content.
- The clock, random ids and `Date` parsing are parameters. Timestamps are integers, and an unparseable date is not modelled.
- The toast timers are not modelled; the toast id is a parameter.
- Leaflet, geolocation, sharing and the DOM are not modelled.
- The chart series in Dashboard.jsx are not modelled.
- Lower-casing covers ASCII letters only.
- String lengths are counted in Unicode scalar values, while JavaScript's `.length` counts UTF-16 code units. A character outside the Basic Multilingual Plane, such as an emoji, counts 1 here and 2 in the source. The length checks below are affected.
- Validation.ValidateSignup: the name check (trimmed length at least 2) and the password check (length at least 6) count Unicode scalars. A password of three emoji has length 6 in JavaScript and passes the server, but is rejected here; a one-emoji name likewise.
- AuthPage.ClientValidSignupServerIff: "at least 6 characters" is counted in Unicode scalars, not in the UTF-16 units of `String(password).length`.
- Temperatures, forecast temperatures, crowd percents and prices are integers (a forecast entry may lack its temperature). The schemas declare them as `Number`, so a stored 23.5 °C is possible, but it cannot be represented here; the seeded data holds integers only. The day score and the heat message computed from a fractional value are therefore not modelled.
- `URLSearchParams` percent-encoding is not modelled: a parameter is written as `key=value`.
- `Number(...)` on a string is read as an optional '-' followed by decimal digits. Other numeric forms are not numbers here.
- Planner.LocalDailyBudget: for zero days the contract says only that the result is not a finite number. The body also tells +Infinity, -Infinity and NaN apart by the budget's sign.
- Safety.WeatherChecks: a missing temperature counts as not finite. JavaScript's `Number(null) == 0` is not modelled, so a null temperature never fires the heat message.
- The crowd note's fallback to a legacy `level` field is not modelled (server/src/controllers/aiController.js:39). Without `crowd_level`, the note prints the record's text.
- HotelDetails.DeriveLatLng: looks up declared city keys only. Inherited object properties such as "constructor" are not keys of the table.
- Marketplace.ItemsAreFilteredMerge: a hotel or POI without a `name` is treated as having the name "". With a non-empty query the source calls `d.name.toLowerCase()` on it and throws a TypeError (client/src/pages/Marketplace.jsx:65); the model drops the item instead.
- Planner.FormatPlan: a `null` entry in the reply's `hotels` or `days` array cannot be represented. In the source, reading its fields throws (client/src/pages/Planner.jsx:123-129). `requestServerAI` catches that and shows the AI error message and an error toast (client/src/pages/Planner.jsx:160-164).
- HotelDetails.Suggestions: the entries' icons are not modelled. A location equal to an inherited property name such as "constructor" or "toString" makes the page throw a TypeError when it spreads `cityAdds[city]` (client/src/pages/HotelDetails.jsx:424); the model returns the four base entries instead.
- Marketplace.HotelItems: the listing `id` (`_id || id`) is not modelled.
- Hotels.ExpandSeed: the bundled hotel list is an arbitrary input.
- AuthPage.AuthPage.Finish: the token written to storage and the navigation itself are left out. The method returns where it would navigate.
- The in-browser assistant, the budget converter and the purely presentational components are outside this model.

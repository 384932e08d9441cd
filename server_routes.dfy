/** The Express proxy's routes: request checks and defaults for the flight
    search, chat, embeddings and subscription endpoints; the static sitemap;
    and the shaping of weather forecasts and events from the upstream
    answers. Every upstream call is a parameter. */
module ServerRoutes {
  import opened Wrappers
  import opened Seqs
  import opened Text
  import SupportChatbot

  // ---------------------------------------------------------------------
  // Request bodies

  /** A JSON value of a request body, with `Undefined` for a missing field. */
  datatype Value = Undefined | Null | Str(s: string) | Num(n: real) | Bool(b: bool) | Arr(items: seq<Value>) | Obj

  /** JavaScript truthiness (NaN is not modelled). */
  predicate Truthy(v: Value)
  {
    match v
    case Undefined => false
    case Null => false
    case Str(s) => s != ""
    case Num(n) => n != 0.0
    case Bool(b) => b
    case Arr(_) => true
    case Obj => true
  }

  /** `!v || typeof v !== 'string'` fails exactly for a non-empty string. */
  predicate IsText(v: Value)
  {
    v.Str? && v.s != ""
  }

  lemma IsTextIff(v: Value)
    ensures IsText(v) <==> Truthy(v) && v.Str?
  {
  }

  /** `String(v)`: a string is itself; other values use `show`. */
  function Stringify(v: Value, show: Value -> string): string
  {
    if v.Str? then v.s else show(v)
  }

  /** A route's answer: the upstream data, or an error status and message. */
  datatype Reply<T> = Ok(data: T) | Error(status: nat, message: string)

  /** An upstream call: its JSON answer, or the HTTP status of a failure. */
  datatype Fetch<T> = Fetched(value: T) | HttpError(status: nat)

  // ---------------------------------------------------------------------
  // Flight search

  datatype FlightBody = FlightBody(
    originLocationCode: Value, destinationLocationCode: Value, departureDate: Value, returnDate: Value,
    currencyCode: Value, maxPrice: Value, adults: Value, max: Value)

  /** A destructuring default: it applies only to a missing field. */
  function Default(v: Value, d: string): Value
  {
    if v.Undefined? then Str(d) else v
  }

  const MissingFields := "Missing required fields: originLocationCode, destinationLocationCode, departureDate"

  /** The upstream query, or `None` when a required field is falsy. */
  function FlightQuery(body: FlightBody, show: Value -> string): Option<seq<(string, string)>>
  {
    if !Truthy(body.originLocationCode) || !Truthy(body.destinationLocationCode) || !Truthy(body.departureDate) then None
    else Some(
      [ ("originLocationCode", Stringify(body.originLocationCode, show)),
        ("destinationLocationCode", Stringify(body.destinationLocationCode, show)),
        ("departureDate", Stringify(body.departureDate, show)),
        ("adults", Stringify(Default(body.adults, "1"), show)),
        ("max", Stringify(Default(body.max, "10"), show)),
        ("currencyCode", Stringify(Default(body.currencyCode, "USD"), show)) ]
      + (if Truthy(body.returnDate) then [("returnDate", Stringify(body.returnDate, show))] else [])
      + (if Truthy(body.maxPrice) then [("maxPrice", Stringify(body.maxPrice, show))] else []))
  }

  /** The query holds `key` exactly once. */
  ghost predicate HasKey(q: seq<(string, string)>, key: string)
  {
    exists k :: 0 <= k < |q| && q[k].0 == key
  }

  /** A required field that is missing or falsy gives 400; otherwise the
      query sends the three required fields, `adults`, `max` and
      `currencyCode` defaulting to 1, 10 and USD only when absent, and
      `returnDate` and `maxPrice` exactly when they are given. */
  lemma FlightQueryFacts(body: FlightBody, show: Value -> string)
    ensures FlightQuery(body, show).None? <==>
      !Truthy(body.originLocationCode) || !Truthy(body.destinationLocationCode) || !Truthy(body.departureDate)
    ensures FlightQuery(body, show).Some? ==>
      var q := FlightQuery(body, show).value;
      && q[0] == ("originLocationCode", Stringify(body.originLocationCode, show))
      && q[1] == ("destinationLocationCode", Stringify(body.destinationLocationCode, show))
      && q[2] == ("departureDate", Stringify(body.departureDate, show))
      && q[3] == ("adults", if body.adults.Undefined? then "1" else Stringify(body.adults, show))
      && q[4] == ("max", if body.max.Undefined? then "10" else Stringify(body.max, show))
      && q[5] == ("currencyCode", if body.currencyCode.Undefined? then "USD" else Stringify(body.currencyCode, show))
      && (HasKey(q, "returnDate") <==> Truthy(body.returnDate))
      && (HasKey(q, "maxPrice") <==> Truthy(body.maxPrice))
  {
    if FlightQuery(body, show).Some? {
      var q := FlightQuery(body, show).value;
      var base := q[..6];
      assert forall k :: 0 <= k < 6 ==> q[k].0 != "returnDate" && q[k].0 != "maxPrice";
      if Truthy(body.returnDate) {
        assert q[6].0 == "returnDate";
      }
      if Truthy(body.maxPrice) {
        assert q[|q| - 1].0 == "maxPrice";
      }
    }
  }

  /** `POST /api/amadeus/flight-search`: 400 without the required fields,
      500 when the token request or the search fails, else the upstream
      answer unchanged. */
  function FlightSearch<T>(body: FlightBody, show: Value -> string, tokenOk: bool, search: seq<(string, string)> -> Fetch<T>): (r: Reply<T>)
    ensures r == Error(400, MissingFields) <==> FlightQuery(body, show).None?
    ensures r.Ok? <==> FlightQuery(body, show).Some? && tokenOk && search(FlightQuery(body, show).value).Fetched?
    ensures r.Ok? ==> r.data == search(FlightQuery(body, show).value).value
    ensures r.Error? && r.status != 400 ==> r == Error(500, "Failed to search flights")
  {
    match FlightQuery(body, show)
    case None => Error(400, MissingFields)
    case Some(q) =>
      if !tokenOk then Error(500, "Failed to search flights")
      else match search(q)
        case Fetched(data) => Ok(data)
        case HttpError(_) => Error(500, "Failed to search flights")
  }

  // ---------------------------------------------------------------------
  // Chat and embeddings

  const PromptHead := "You are TripWhiz AI, a helpful travel assistant specializing in finding flight deals and travel hacking strategies. You help users with:\n\n1. Flight search and booking strategies\n2. Hidden city ticketing (skiplag) techniques\n3. Error fare detection and booking\n4. Multi-city route optimization\n5. VPN travel tricks for regional pricing\n6. Carry-on only travel tips\n7. Price drop alerts and monitoring\n\nAdditional context: "
  const PromptTail := "\n\nBe helpful, accurate, and focus on practical travel advice. Always remind users to check airline policies and terms of service."
  const NoContext := "No additional context provided."

  /** The system prompt with `context || 'No additional context provided.'` spliced in. */
  function SystemPrompt(context: Value, show: Value -> string): string
  {
    PromptHead + (if Truthy(context) then Stringify(context, show) else NoContext) + PromptTail
  }

  /** `POST /api/openai/chat`: 400 unless `messages` is an array; otherwise
      the upstream receives the system prompt followed by the messages. */
  function Chat<T>(messages: Value, context: Value, show: Value -> string, complete: (string, seq<Value>) -> Fetch<T>): (r: Reply<T>)
  {
    if !Truthy(messages) || !messages.Arr? then Error(400, "Invalid request: messages array is required")
    else match complete(SystemPrompt(context, show), messages.items)
      case Fetched(data) => Ok(data)
      case HttpError(_) => Error(500, "Failed to generate chat response")
  }

  /** Only an array is accepted; the context (or the fallback sentence) sits
      right after the fixed head of the prompt, and the user's messages go
      upstream unchanged and in order. */
  lemma ChatFacts<T>(messages: Value, context: Value, show: Value -> string, complete: (string, seq<Value>) -> Fetch<T>)
    ensures Chat(messages, context, show, complete) == Error(400, "Invalid request: messages array is required") <==> !messages.Arr?
    ensures messages.Arr? ==>
      var p := SystemPrompt(context, show);
      && (Chat(messages, context, show, complete).Ok? <==> complete(p, messages.items).Fetched?)
      && p[..|PromptHead|] == PromptHead
      && OccursAt(p, if Truthy(context) then Stringify(context, show) else NoContext, |PromptHead|)
  {
    Spliced(PromptHead, if Truthy(context) then Stringify(context, show) else NoContext, PromptTail);
  }

  lemma Spliced(head: string, middle: string, tail: string)
    ensures (head + middle + tail)[..|head|] == head
    ensures OccursAt(head + middle + tail, middle, |head|)
  {
    assert (head + middle + tail)[|head|..|head| + |middle|] == middle;
  }

  /** `POST /api/openai/embeddings`: 400 unless `text` is a non-empty string. */
  function Embeddings<T>(text: Value, embed: string -> Fetch<T>): (r: Reply<T>)
    ensures r == Error(400, "Invalid request: text string is required") <==> !IsText(text)
    ensures r.Ok? <==> IsText(text) && embed(text.s).Fetched?
  {
    if !IsText(text) then Error(400, "Invalid request: text string is required")
    else match embed(text.s)
      case Fetched(data) => Ok(data)
      case HttpError(_) => Error(500, "Failed to generate embeddings")
  }

  // ---------------------------------------------------------------------
  // Subscription

  /** `POST /api/subscribe`. */
  function Subscribe(email: Value): Reply<string>
  {
    if !IsText(email) then Error(400, "Email is required")
    else if !IsEmail(email.s) then Error(400, "Please provide a valid email address")
    else Ok("Successfully subscribed to TripWhiz beta")
  }

  /** A missing, empty or non-string e-mail is "required"; a string that does
      not match `^[^\s@]+@[^\s@]+\.[^\s@]+$` is refused as invalid; every
      other address is accepted. */
  lemma SubscribeFacts(email: Value)
    ensures Subscribe(email) == Error(400, "Email is required") <==> !IsText(email)
    ensures Subscribe(email) == Error(400, "Please provide a valid email address") <==> IsText(email) && !EmailShape(email.s)
    ensures Subscribe(email).Ok? <==> IsText(email) && EmailShape(email.s)
  {
    if IsText(email) {
      EmailIff(email.s);
    }
  }

  // ---------------------------------------------------------------------
  // Sitemap

  /** `GET /api/sitemap`: the pages the support chatbot indexes. */
  const Sitemap: seq<SupportChatbot.Page> := [
    SupportChatbot.Page("/", "TripWhiz - Smart Travel Booking Platform",
      "TripWhiz is your ultimate travel hacking platform featuring 8 powerful tools for finding the best flight deals, hidden city routes, and error fares. Our AI-powered tools help you save thousands on travel."),
    SupportChatbot.Page("/budget-tracker", "Budget Airline Tracker",
      "Track and compare budget airline prices in real-time using live Amadeus flight data. Find the cheapest flights and set price alerts for your favorite routes."),
    SupportChatbot.Page("/price-drop", "Price Drop Notifier",
      "Get automatic notifications when flight prices drop. Monitor multiple routes and receive instant browser alerts when deals become available."),
    SupportChatbot.Page("/carry-on", "Carry-On Only Filter",
      "Find flights that only require carry-on luggage, avoiding checked baggage fees. Perfect for short trips and budget travelers."),
    SupportChatbot.Page("/vpn-trick", "Travel VPN Trick",
      "Use VPN location switching to find better flight prices from different regional markets. Access deals exclusive to specific countries."),
    SupportChatbot.Page("/hidden-deals", "Hidden Deal Finder",
      "Discover hidden-city ticketing opportunities and secret flight deals using advanced routing strategies and airline pricing loopholes."),
    SupportChatbot.Page("/error-fare", "Error Fare Scanner",
      "Detect airline pricing mistakes and error fares by comparing current prices against historical data and market averages."),
    SupportChatbot.Page("/multi-city", "Multi-City Hack Builder",
      "Build complex multi-city routes that cost less than traditional round-trip tickets. Optimize your itinerary for maximum savings.")
  ]

  /** The sitemap lists eight pages with distinct URLs, which is what the
      chatbot's rebuild needs to index each page under its own id. */
  lemma SitemapUrlsDistinct()
    ensures |Sitemap| == 8
    ensures SupportChatbot.DistinctUrls(Sitemap)
  {
    var s := Sitemap;
    forall i, j | 0 <= i < j < |s| ensures s[i].url != s[j].url {
      if |s[i].url| == |s[j].url| {
        assert s[i].url[1] != s[j].url[1] || s[i].url[2] != s[j].url[2];
      }
    }
  }

  // ---------------------------------------------------------------------
  // Weather

  /** `Math.round`: halves round up. */
  function Round(x: real): int
  {
    (x + 0.5).Floor
  }

  lemma RoundFacts(x: real)
    ensures x - 0.5 < Round(x) as real <= x + 0.5
  {
  }

  /** `a || d` on a number: zero (or absence) gives the default. */
  function NumberOr(v: Option<real>, d: real): real
  {
    if v.Some? && v.value != 0.0 then v.value else d
  }

  /** The current conditions as OpenWeatherMap returns them. */
  datatype CurrentData = CurrentData(
    name: string, temp: real, description: string, humidity: real,
    windSpeed: Option<real>, visibility: Option<real>, icon: string)

  datatype Current = Current(temperature: int, condition: string, humidity: real, windSpeed: int, visibility: int, icon: string)

  function CurrentOf(c: CurrentData): Current
  {
    Current(
      Round(c.temp), c.description, c.humidity,
      Round(NumberOr(c.windSpeed, 0.0)),
      Round(NumberOr(c.visibility, 10000.0) / 1609.34),
      c.icon)
  }

  /** Without a wind speed the wind is 0 mph; without a visibility it is
      10 km, shown as 6 miles. */
  lemma CurrentDefaults(c: CurrentData)
    ensures c.windSpeed.None? ==> CurrentOf(c).windSpeed == 0
    ensures c.visibility.None? ==> CurrentOf(c).visibility == 6
  {
    if c.visibility.None? {
      var v := 10000.0 / 1609.34;
      assert 6.0 * 1609.34 <= 10000.0 < 6.5 * 1609.34;
      assert 6.0 <= v < 6.5;
    }
  }

  /** A three-hourly forecast entry (its first `weather` element folded in). */
  datatype ForecastItem = ForecastItem(dt: int, tempMax: real, tempMin: real, description: string, icon: string)

  datatype DailyForecast = DailyForecast(date: string, high: int, low: int, condition: string, icon: string)

  /** The calendar day of each entry (`new Date(dt * 1000).toDateString()`). */
  function Days(items: seq<ForecastItem>, dayOf: int -> string): (r: seq<string>)
    ensures |r| == |items| && forall i :: 0 <= i < |r| ==> r[i] == dayOf(items[i].dt)
  {
    Map(items, (item: ForecastItem) => dayOf(item.dt))
  }

  /** The forecast loop on the day keys: the indices it keeps and the days it
      has marked as processed. A day is kept when it is new and fewer than
      five are kept. */
  function Pick(days: seq<string>): (r: (seq<nat>, set<string>))
    ensures |r.0| <= 5
    ensures forall k :: 0 <= k < |r.0| ==> r.0[k] < |days|
  {
    if days == [] then ([], {})
    else
      var (kept, seen) := Pick(days[..|days| - 1]);
      var d := days[|days| - 1];
      if d !in seen && |kept| < 5 then (kept + [|days| - 1], seen + {d}) else (kept, seen)
  }

  /** `kept[k]` is the first index with its day. */
  ghost predicate FirstOfDay(days: seq<string>, kept: seq<nat>, k: int)
    requires 0 <= k < |kept| && kept[k] < |days|
  {
    forall i :: 0 <= i < kept[k] ==> days[i] != days[kept[k]]
  }

  /** The days marked as processed are exactly those of the kept entries. */
  ghost predicate SeenIsKept(days: seq<string>, kept: seq<nat>, seen: set<string>)
    requires forall k :: 0 <= k < |kept| ==> kept[k] < |days|
  {
    forall d :: d in seen <==> exists k :: 0 <= k < |kept| && days[kept[k]] == d
  }

  ghost predicate Increasing(s: seq<nat>)
  {
    forall j, k :: 0 <= j < k < |s| ==> s[j] < s[k]
  }

  /** The forecast keeps entries in input order. */
  lemma {:induction false} PickIncreasing(days: seq<string>)
    ensures Increasing(Pick(days).0)
  {
    if days != [] {
      var init := days[..|days| - 1];
      PickIncreasing(init);
      var kept0 := Pick(init).0;
      var kept := Pick(days).0;
      var d := days[|days| - 1];
      assert forall k :: 0 <= k < |kept0| ==> kept0[k] < |init|;
      if d !in Pick(init).1 && |kept0| < 5 {
        assert kept == kept0 + [|days| - 1];
        forall j, k | 0 <= j < k < |kept| ensures kept[j] < kept[k] {
          assert kept[j] == kept0[j];
          if k < |kept0| {
            assert kept[k] == kept0[k];
          }
        }
      } else {
        assert kept == kept0;
      }
    }
  }

  /** While fewer than five entries are kept, every day of the input has
      been marked as processed. */
  lemma {:induction false} PickComplete(days: seq<string>)
    ensures var (kept, seen) := Pick(days);
      |kept| < 5 ==> forall i :: 0 <= i < |days| ==> days[i] in seen
  {
    if days != [] {
      var init := days[..|days| - 1];
      PickComplete(init);
      assert forall i :: 0 <= i < |init| ==> init[i] == days[i];
    }
  }

  /** Each kept entry is the first of its calendar day. */
  lemma {:induction false} PickFirst(days: seq<string>)
    ensures var kept := Pick(days).0;
      forall k :: 0 <= k < |kept| ==> FirstOfDay(days, kept, k)
  {
    if days != [] {
      var init := days[..|days| - 1];
      var n := |days| - 1;
      PickFirst(init);
      PickComplete(init);
      var (kept0, seen0) := Pick(init);
      var kept := Pick(days).0;
      forall k | 0 <= k < |kept| ensures FirstOfDay(days, kept, k) {
        if k < |kept0| {
          assert kept[k] == kept0[k];
          assert FirstOfDay(init, kept0, k);
        } else {
          forall i | 0 <= i < n ensures days[i] != days[n] {
            assert init[i] == days[i] && init[i] in seen0;
          }
        }
      }
    }
  }

  /** The days marked as processed are exactly those of the kept entries. */
  lemma {:induction false} PickSeen(days: seq<string>)
    ensures var (kept, seen) := Pick(days);
      SeenIsKept(days, kept, seen)
  {
    if days != [] {
      var init := days[..|days| - 1];
      var n := |days| - 1;
      PickSeen(init);
      var (kept0, seen0) := Pick(init);
      var (kept, seen) := Pick(days);
      forall e ensures e in seen <==> exists k :: 0 <= k < |kept| && days[kept[k]] == e {
        if e in seen0 {
          var k :| 0 <= k < |kept0| && init[kept0[k]] == e;
          assert days[kept[k]] == e;
        }
        if e in seen && e !in seen0 {
          assert days[kept[|kept| - 1]] == e;
        }
        if exists k :: 0 <= k < |kept| && days[kept[k]] == e {
          var k :| 0 <= k < |kept| && days[kept[k]] == e;
          if k < |kept0| {
            assert init[kept0[k]] == e;
          }
        }
      }
    }
  }

  /** The forecast keeps entries in input order, each the first of its
      calendar day, so no day twice; and while fewer than five are kept,
      every day of the input has one. */
  lemma PickFacts(days: seq<string>)
    ensures var (kept, seen) := Pick(days);
      && Increasing(kept)
      && (forall k :: 0 <= k < |kept| ==> FirstOfDay(days, kept, k))
      && (forall j, k :: 0 <= j < k < |kept| ==> days[kept[j]] != days[kept[k]])
      && SeenIsKept(days, kept, seen)
      && (|kept| < 5 ==> forall i :: 0 <= i < |days| ==> days[i] in seen)
  {
    PickIncreasing(days);
    PickFirst(days);
    PickSeen(days);
    PickComplete(days);
    var kept := Pick(days).0;
    forall j, k | 0 <= j < k < |kept| ensures days[kept[j]] != days[kept[k]] {
      assert FirstOfDay(days, kept, k);
    }
  }

  function Daily(item: ForecastItem, iso: int -> string): DailyForecast
  {
    DailyForecast(iso(item.dt), Round(item.tempMax), Round(item.tempMin), item.description, item.icon)
  }

  /** The daily forecast the route returns. */
  function Forecast(items: seq<ForecastItem>, dayOf: int -> string, iso: int -> string): (r: seq<DailyForecast>)
    ensures |r| <= 5
  {
    var kept := Pick(Days(items, dayOf)).0;
    seq(|kept|, k requires 0 <= k < |kept| => Daily(items[kept[k]], iso))
  }

  /** The forecast loop as written, with the `processedDates` set. */
  method DailyForecasts(items: seq<ForecastItem>, dayOf: int -> string, iso: int -> string) returns (daily: seq<DailyForecast>)
    ensures daily == Forecast(items, dayOf, iso)
  {
    ghost var days := Days(items, dayOf);
    ghost var kept: seq<nat> := [];
    daily := [];
    var processed: set<string> := {};
    var i := 0;
    while i < |items|
      invariant 0 <= i <= |items|
      invariant (kept, processed) == Pick(days[..i])
      invariant |daily| == |kept|
      invariant forall k :: 0 <= k < |kept| ==> kept[k] < |items| && daily[k] == Daily(items[kept[k]], iso)
    {
      var date := dayOf(items[i].dt);
      assert Pick(days[..i + 1])
          == if date !in processed && |kept| < 5 then (kept + [i], processed + {date}) else (kept, processed) by {
        assert days[..i + 1][..i] == days[..i];
        assert days[..i + 1][i] == date;
      }
      if date !in processed && |daily| < 5 {
        daily := daily + [Daily(items[i], iso)];
        processed := processed + {date};
        kept := kept + [i];
      }
      i := i + 1;
    }
    assert days[..i] == days;
    assert daily == Forecast(items, dayOf, iso) by {
      assert kept == Pick(Days(items, dayOf)).0;
    }
  }

  datatype WeatherData = WeatherData(location: string, current: Current, forecast: seq<DailyForecast>)

  const WeatherKeyMissing := "OpenWeatherMap API key not configured. Please add OPENWEATHERMAP_API_KEY to your environment variables."
  const WeatherKeyInvalid := "Invalid OpenWeatherMap API key. Please check your API key configuration."

  /** The weather route after the location check: the key must be set, a 401
      from the current-weather call is passed on, any other failure is a 500
      with the status in its message. */
  function WeatherFor(
    location: string, apiKey: string, current: string -> Fetch<CurrentData>, forecast: string -> Fetch<seq<ForecastItem>>,
    dayOf: int -> string, iso: int -> string): Reply<WeatherData>
  {
    if apiKey == "" then Error(500, WeatherKeyMissing)
    else match current(location)
      case HttpError(status) =>
        if status == 401 then Error(401, WeatherKeyInvalid)
        else Error(500, "Weather API error: " + NatToString(status))
      case Fetched(c) =>
        match forecast(location)
        case HttpError(status) => Error(500, "Forecast API error: " + NatToString(status))
        case Fetched(items) => Ok(WeatherData(c.name, CurrentOf(c), Forecast(items, dayOf, iso)))
  }

  /** `POST /api/weather`. */
  function Weather(
    location: Value, apiKey: string, current: string -> Fetch<CurrentData>, forecast: string -> Fetch<seq<ForecastItem>>,
    dayOf: int -> string, iso: int -> string): (r: Reply<WeatherData>)
    ensures !IsText(location) <==> r == Error(400, "Location is required")
    ensures r.Ok? ==> IsText(location) && apiKey != "" && current(location.s).Fetched? && forecast(location.s).Fetched?
    ensures r.Ok? ==> r.data.location == current(location.s).value.name && |r.data.forecast| <= 5
  {
    if !IsText(location) then Error(400, "Location is required")
    else WeatherFor(location.s, apiKey, current, forecast, dayOf, iso)
  }

  /** The weather route after the location check, with the forecast loop. */
  method ServeWeather(
    location: string, apiKey: string, current: string -> Fetch<CurrentData>, forecast: string -> Fetch<seq<ForecastItem>>,
    dayOf: int -> string, iso: int -> string) returns (r: Reply<WeatherData>)
    ensures r == WeatherFor(location, apiKey, current, forecast, dayOf, iso)
  {
    if apiKey == "" {
      return Error(500, WeatherKeyMissing);
    }
    var now := current(location);
    if now.HttpError? {
      if now.status == 401 {
        return Error(401, WeatherKeyInvalid);
      }
      return Error(500, "Weather API error: " + NatToString(now.status));
    }
    var later := forecast(location);
    if later.HttpError? {
      return Error(500, "Forecast API error: " + NatToString(later.status));
    }
    var daily := DailyForecasts(later.value, dayOf, iso);
    r := Ok(WeatherData(now.value.name, CurrentOf(now.value), daily));
  }

  method HandleWeather(
    location: Value, apiKey: string, current: string -> Fetch<CurrentData>, forecast: string -> Fetch<seq<ForecastItem>>,
    dayOf: int -> string, iso: int -> string) returns (r: Reply<WeatherData>)
    ensures r == Weather(location, apiKey, current, forecast, dayOf, iso)
  {
    if !IsText(location) {
      return Error(400, "Location is required");
    }
    r := ServeWeather(location.s, apiKey, current, forecast, dayOf, iso);
  }

  // ---------------------------------------------------------------------
  // Events

  datatype PriceRange = PriceRange(min: real, max: real, currency: Option<string>)

  /** A Ticketmaster event, reduced to the fields the route reads. */
  datatype RawEvent = RawEvent(
    id: string, name: string, localDate: string, localTime: Option<string>,
    segmentName: Option<string>, venueName: Option<string>, priceRange: Option<PriceRange>,
    info: Option<string>, pleaseNote: Option<string>, url: string)

  datatype Event = Event(
    id: string, title: string, description: string, date: string, time: string,
    venue: string, category: string, price: string, ticketUrl: string)

  /** `s || fallback` on an optional string. */
  function OrElse(s: Option<string>, fallback: string): (r: string)
    ensures s.Some? && s.value != "" ==> r == s.value
    ensures !(s.Some? && s.value != "") ==> r == fallback
  {
    if s.Some? && s.value != "" then s.value else fallback
  }

  /** The category, decided on the lower-cased segment name. */
  function Category(segment: Option<string>): string
  {
    if segment.None? || segment.value == "" then "arts"
    else
      var name := ToLower(segment.value);
      if Contains(name, "music") then "music"
      else if Contains(name, "sports") then "sports"
      else if Contains(name, "arts") || Contains(name, "theatre") then "cultural"
      else "arts"
  }

  /** "music" wins over "sports", which wins over "arts"/"theatre"
      (`cultural`); no segment, or none of the words, gives `arts`. */
  lemma CategoryOrder(segment: Option<string>)
    ensures var named := segment.Some? && segment.value != "";
      var name := if named then ToLower(segment.value) else "";
      && (Category(segment) == "music" <==> named && Contains(name, "music"))
      && (Category(segment) == "sports" <==> named && !Contains(name, "music") && Contains(name, "sports"))
      && (Category(segment) == "cultural" <==>
            named && !Contains(name, "music") && !Contains(name, "sports") && (Contains(name, "arts") || Contains(name, "theatre")))
      && (Category(segment) == "arts" <==>
            !named || (!Contains(name, "music") && !Contains(name, "sports") && !Contains(name, "arts") && !Contains(name, "theatre")))
  {
  }

  /** `"CUR min"` or `"CUR min-max"`; "Price varies" without a range. */
  function PriceLabel(range: Option<PriceRange>, show: real -> string): string
  {
    match range
    case None => "Price varies"
    case Some(p) =>
      var currency := OrElse(p.currency, "USD");
      if p.min == p.max then currency + " " + show(p.min)
      else currency + " " + show(p.min) + "-" + show(p.max)
  }

  /** A label with a range starts with its currency (USD by default) and a
      space, then the minimum; the maximum follows a dash only when it
      differs. */
  lemma PriceLabelFacts(range: Option<PriceRange>, show: real -> string)
    ensures range.None? ==> PriceLabel(range, show) == "Price varies"
    ensures range.Some? ==>
      var currency := OrElse(range.value.currency, "USD");
      var head := currency + " " + show(range.value.min);
      var shown := PriceLabel(range, show);
      && shown[..|head|] == head
      && (range.value.min == range.value.max <==> |shown| == |head|)
      && (range.value.min != range.value.max ==> shown[|head|..] == "-" + show(range.value.max))
  {
    if range.Some? {
      var currency := OrElse(range.value.currency, "USD");
      var head := currency + " " + show(range.value.min);
      var shown := PriceLabel(range, show);
      if range.value.min != range.value.max {
        assert shown == head + ("-" + show(range.value.max));
      }
    }
  }

  /** One event as the route shapes it; `formatDate` and `formatTime` are the
      locale formatting of the date and of the time (7 pm when absent). */
  function ShapeEvent(e: RawEvent, formatDate: string -> string, formatTime: string -> string, show: real -> string): (r: Event)
    ensures r.venue == OrElse(e.venueName, "Venue TBA")
    ensures r.description == OrElse(e.info, OrElse(e.pleaseNote, "No description available"))
    ensures r.time == formatTime(OrElse(e.localTime, "19:00"))
    ensures r.id == e.id && r.title == e.name && r.ticketUrl == e.url
  {
    Event(
      e.id, e.name,
      OrElse(e.info, OrElse(e.pleaseNote, "No description available")),
      formatDate(e.localDate),
      formatTime(OrElse(e.localTime, "19:00")),
      OrElse(e.venueName, "Venue TBA"),
      Category(e.segmentName),
      PriceLabel(e.priceRange, show),
      e.url)
  }

  function Shaper(formatDate: string -> string, formatTime: string -> string, show: real -> string): RawEvent -> Event
  {
    e => ShapeEvent(e, formatDate, formatTime, show)
  }

  /** The events returned for an answer whose `_embedded.events` is `raw`
      (`None` when absent): the first ten, shaped, in upstream order. */
  function EventList(raw: Option<seq<RawEvent>>, formatDate: string -> string, formatTime: string -> string, show: real -> string): (r: seq<Event>)
    ensures |r| <= 10
    ensures raw.None? ==> r == []
    ensures raw.Some? ==> |r| == Min(|raw.value|, 10)
    ensures raw.Some? ==> forall k :: 0 <= k < |r| ==> r[k] == ShapeEvent(raw.value[k], formatDate, formatTime, show)
  {
    if raw.None? then [] else Map(Take(raw.value, 10), Shaper(formatDate, formatTime, show))
  }

  /** The event loop as written. */
  method ShapeEvents(raw: Option<seq<RawEvent>>, formatDate: string -> string, formatTime: string -> string, show: real -> string)
    returns (events: seq<Event>)
    ensures events == EventList(raw, formatDate, formatTime, show)
  {
    events := [];
    if raw.None? {
      return;
    }
    var first := Take(raw.value, 10);
    var f := Shaper(formatDate, formatTime, show);
    var i := 0;
    while i < |first|
      invariant 0 <= i <= |first|
      invariant events == Map(first[..i], f)
    {
      MapSnoc(first, i, f);
      events := events + [f(first[i])];
      i := i + 1;
    }
    assert first[..i] == first;
  }

  const EventsKeyMissing := "Ticketmaster API key not configured. Please add TICKETMASTER_API_KEY to your environment variables."
  const EventsKeyInvalid := "Invalid Ticketmaster API key. Please check your API key configuration."

  /** The events route after the location check. */
  function EventsFor(
    location: string, apiKey: string, fetch: string -> Fetch<Option<seq<RawEvent>>>,
    formatDate: string -> string, formatTime: string -> string, show: real -> string): Reply<seq<Event>>
  {
    if apiKey == "" then Error(500, EventsKeyMissing)
    else match fetch(location)
      case HttpError(status) =>
        if status == 401 then Error(401, EventsKeyInvalid)
        else Error(500, "Events API error: " + NatToString(status))
      case Fetched(raw) => Ok(EventList(raw, formatDate, formatTime, show))
  }

  /** `POST /api/events`; every error answer also carries an empty list. */
  function Events(
    location: Value, apiKey: string, fetch: string -> Fetch<Option<seq<RawEvent>>>,
    formatDate: string -> string, formatTime: string -> string, show: real -> string): (r: Reply<seq<Event>>)
    ensures !IsText(location) <==> r == Error(400, "Location is required")
    ensures r.Ok? ==> IsText(location) && apiKey != "" && fetch(location.s).Fetched? && |r.data| <= 10
  {
    if !IsText(location) then Error(400, "Location is required")
    else EventsFor(location.s, apiKey, fetch, formatDate, formatTime, show)
  }

  method ServeEvents(
    location: string, apiKey: string, fetch: string -> Fetch<Option<seq<RawEvent>>>,
    formatDate: string -> string, formatTime: string -> string, show: real -> string) returns (r: Reply<seq<Event>>)
    ensures r == EventsFor(location, apiKey, fetch, formatDate, formatTime, show)
  {
    if apiKey == "" {
      return Error(500, EventsKeyMissing);
    }
    var answer := fetch(location);
    if answer.HttpError? {
      if answer.status == 401 {
        return Error(401, EventsKeyInvalid);
      }
      return Error(500, "Events API error: " + NatToString(answer.status));
    }
    var events := ShapeEvents(answer.value, formatDate, formatTime, show);
    r := Ok(events);
  }

  method HandleEvents(
    location: Value, apiKey: string, fetch: string -> Fetch<Option<seq<RawEvent>>>,
    formatDate: string -> string, formatTime: string -> string, show: real -> string) returns (r: Reply<seq<Event>>)
    ensures r == Events(location, apiKey, fetch, formatDate, formatTime, show)
  {
    if !IsText(location) {
      return Error(400, "Location is required");
    }
    r := ServeEvents(location.s, apiKey, fetch, formatDate, formatTime, show);
  }
}

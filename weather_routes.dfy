/** The standalone weather router: the same weather and events routes as
    the main proxy, but the location is checked by a schema (a string of at
    least one character), and a failed check is answered like any other
    thrown error, with status 500 and the schema's message. */
module WeatherRoutes {
  import opened Wrappers
  import opened ServerRoutes

  /** `z.object({ location: z.string().min(1) })` on the request body. */
  predicate SchemaAccepts(location: Value)
  {
    location.Str? && |location.s| >= 1
  }

  /** `POST /weather`; `schemaError` is the message of the schema's error. */
  function Weather(
    location: Value, schemaError: string, apiKey: string, current: string -> Fetch<CurrentData>,
    forecast: string -> Fetch<seq<ForecastItem>>, dayOf: int -> string, iso: int -> string): (r: Reply<WeatherData>)
    ensures !SchemaAccepts(location) ==> r == Error(500, schemaError)
    ensures SchemaAccepts(location) ==> r == WeatherFor(location.s, apiKey, current, forecast, dayOf, iso)
  {
    if !SchemaAccepts(location) then Error(500, schemaError)
    else WeatherFor(location.s, apiKey, current, forecast, dayOf, iso)
  }

  /** `POST /events`. */
  function Events(
    location: Value, schemaError: string, apiKey: string, fetch: string -> Fetch<Option<seq<RawEvent>>>,
    formatDate: string -> string, formatTime: string -> string, show: real -> string): (r: Reply<seq<Event>>)
    ensures !SchemaAccepts(location) ==> r == Error(500, schemaError)
    ensures SchemaAccepts(location) ==> r == EventsFor(location.s, apiKey, fetch, formatDate, formatTime, show)
  {
    if !SchemaAccepts(location) then Error(500, schemaError)
    else EventsFor(location.s, apiKey, fetch, formatDate, formatTime, show)
  }

  /** The two routers accept the same locations; for those they answer
      alike, and a rejected location is a 400 in the main proxy but a 500
      here. */
  lemma WeatherAgrees(
    location: Value, schemaError: string, apiKey: string, current: string -> Fetch<CurrentData>,
    forecast: string -> Fetch<seq<ForecastItem>>, dayOf: int -> string, iso: int -> string)
    ensures SchemaAccepts(location) <==> IsText(location)
    ensures SchemaAccepts(location) ==>
      Weather(location, schemaError, apiKey, current, forecast, dayOf, iso)
        == ServerRoutes.Weather(location, apiKey, current, forecast, dayOf, iso)
    ensures !SchemaAccepts(location) ==>
      && Weather(location, schemaError, apiKey, current, forecast, dayOf, iso).status == 500
      && ServerRoutes.Weather(location, apiKey, current, forecast, dayOf, iso).status == 400
  {
  }

  lemma EventsAgree(
    location: Value, schemaError: string, apiKey: string, fetch: string -> Fetch<Option<seq<RawEvent>>>,
    formatDate: string -> string, formatTime: string -> string, show: real -> string)
    ensures SchemaAccepts(location) ==>
      Events(location, schemaError, apiKey, fetch, formatDate, formatTime, show)
        == ServerRoutes.Events(location, apiKey, fetch, formatDate, formatTime, show)
    ensures !SchemaAccepts(location) ==>
      && Events(location, schemaError, apiKey, fetch, formatDate, formatTime, show).status == 500
      && ServerRoutes.Events(location, apiKey, fetch, formatDate, formatTime, show).status == 400
  {
  }

  method HandleWeather(
    location: Value, schemaError: string, apiKey: string, current: string -> Fetch<CurrentData>,
    forecast: string -> Fetch<seq<ForecastItem>>, dayOf: int -> string, iso: int -> string) returns (r: Reply<WeatherData>)
    ensures r == Weather(location, schemaError, apiKey, current, forecast, dayOf, iso)
  {
    if !SchemaAccepts(location) {
      return Error(500, schemaError);
    }
    r := ServeWeather(location.s, apiKey, current, forecast, dayOf, iso);
  }

  method HandleEvents(
    location: Value, schemaError: string, apiKey: string, fetch: string -> Fetch<Option<seq<RawEvent>>>,
    formatDate: string -> string, formatTime: string -> string, show: real -> string) returns (r: Reply<seq<Event>>)
    ensures r == Events(location, schemaError, apiKey, fetch, formatDate, formatTime, show)
  {
    if !SchemaAccepts(location) {
      return Error(500, schemaError);
    }
    r := ServeEvents(location.s, apiKey, fetch, formatDate, formatTime, show);
  }
}

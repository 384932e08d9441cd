/** The budget-airline tracker: a search form for one route under a budget,
    the "within budget, cheapest first, first five" selection, and the
    tracking switch, which keeps a list of tracked route keys in the
    component and a list of route records in the browser's storage slot
    `trackedRoutes` (the price-drop notifier reads that slot). */
module BudgetTracker {
  import opened Wrappers
  import opened Seqs
  import opened Text
  import opened FlightOffers

  datatype Form = Form(origin: string, destination: string, departureDate: string, returnDate: string, budget: string)

  /** A tracked route as stored; `returnDate` is stored as typed, possibly empty. */
  datatype TrackedRoute = TrackedRoute(
    origin: string, destination: string, departureDate: string,
    returnDate: string, budget: string, dateAdded: string)

  /** `origin-destination-departureDate`: what identifies a tracked route. */
  function RouteKey(origin: string, destination: string, departureDate: string): string
  {
    origin + "-" + destination + "-" + departureDate
  }

  function KeyOf(r: TrackedRoute): string
  {
    RouteKey(r.origin, r.destination, r.departureDate)
  }

  /** The filter test of the switch: a record of some other route. */
  function OtherRoute(key: string): TrackedRoute -> bool
  {
    r => KeyOf(r) != key
  }

  /** The filter test on the tracked keys: some other key. */
  function OtherKey(key: string): string -> bool
  {
    k => k != key
  }

  // ---------------------------------------------------------------------
  // Form checks

  function FormChecks(form: Form, parseDate: string -> Option<int>, number: string -> Option<real>, today: int): seq<(string, Option<string>)>
  {
    [ ("origin", CodeError(form.origin, "Origin is required", "Origin must be a 3-letter IATA code (e.g., LAX)")),
      ("destination", CodeError(form.destination, "Destination is required", "Destination must be a 3-letter IATA code (e.g., JFK)")),
      ("departureDate", DateError(form.departureDate, "Departure date", parseDate, today)),
      ("budget", BudgetError(form.budget, number)) ]
  }

  /** The errors `validateForm` collects. */
  function FormErrors(form: Form, parseDate: string -> Option<int>, number: string -> Option<real>, today: int): map<string, string>
  {
    Errors(FormChecks(form, parseDate, number, today))
  }

  /** The form is valid exactly when origin and destination are airport
      codes, a departure date is given and is not before today (a date that
      cannot be read passes), and the budget is a number above zero. */
  lemma FormValidIff(form: Form, parseDate: string -> Option<int>, number: string -> Option<real>, today: int)
    ensures FormErrors(form, parseDate, number, today) == map[] <==>
      && IsIataCode(form.origin)
      && IsIataCode(form.destination)
      && form.departureDate != ""
      && (parseDate(form.departureDate).None? || parseDate(form.departureDate).value >= today)
      && !IsBlank(form.budget) && number(form.budget).Some? && number(form.budget).value > 0.0
  {
    var checks := FormChecks(form, parseDate, number, today);
    ErrorsEmptyIff4(checks[0], checks[1], checks[2], checks[3]);
    assert checks == [checks[0], checks[1], checks[2], checks[3]];
  }

  // ---------------------------------------------------------------------
  // Search

  /** The body of the flight-search request. */
  datatype SearchParams = SearchParams(
    originLocationCode: string, destinationLocationCode: string, departureDate: string,
    returnDate: Option<string>, currencyCode: string, maxPrice: string, adults: string, max: string)

  function Request(form: Form): SearchParams
  {
    SearchParams(
      ToUpper(form.origin), ToUpper(form.destination), form.departureDate,
      if form.returnDate != "" then Some(form.returnDate) else None,
      "USD", form.budget, "1", "10")
  }

  /** The codes are sent upper-cased, the budget as the price cap, and the
      return date only when one was typed. */
  lemma RequestFacts(form: Form)
    ensures var p := Request(form);
      && p.originLocationCode == ToUpper(form.origin) && p.destinationLocationCode == ToUpper(form.destination)
      && p.departureDate == form.departureDate && p.maxPrice == form.budget
      && (p.returnDate.Some? <==> form.returnDate != "")
      && (p.returnDate.Some? ==> p.returnDate.value == form.returnDate)
      && p.currencyCode == "USD" && p.adults == "1" && p.max == "10"
  {
  }

  /** The offers shown after a search: the selection on an OK response with a
      `data` array; nothing otherwise (the error is reported and the list
      stays empty). `parseFloat` of the budget is `None` for NaN, which no
      price is at or below. */
  function Shown(outcome: SearchOutcome, budget: Option<real>): seq<FlightOffer>
  {
    match outcome
    case Offers(data) => if budget.Some? then SelectWithinBudget(data, budget.value) else []
    case NoData => []
    case Failed => []
  }

  /** At most five offers, all within the budget, cheapest first, all from the
      response; on an OK response with a readable budget, as many as there
      are in budget up to five, and none cheaper within the budget is left
      out. */
  lemma ShownFacts(outcome: SearchOutcome, budget: Option<real>)
    ensures var r := Shown(outcome, budget);
      && |r| <= 5
      && (forall i :: 0 <= i < |r| ==> budget.Some? && r[i].price.total <= budget.value)
      && (forall i, j :: 0 <= i < j < |r| ==> r[i].price.total <= r[j].price.total)
      && (r != [] ==> outcome.Offers? && multiset(r) <= multiset(outcome.data))
      && (outcome.Offers? && budget.Some? ==>
            var within := Filter(outcome.data, InBudget(budget.value));
            && |r| == (if |within| <= 5 then |within| else 5)
            && forall x, y :: x in r && y in multiset(within) - multiset(r) ==> x.price.total <= y.price.total)
  {
    if outcome.Offers? && budget.Some? {
      assert Shown(outcome, budget) == SelectWithinBudget(outcome.data, budget.value);
      SelectWithinBudgetKeepsCheapest(outcome.data, budget.value);
    } else {
      assert Shown(outcome, budget) == [];
    }
  }

  // ---------------------------------------------------------------------
  // Tracking

  /** The tracked keys after the switch: a tracked key is removed (every
      copy of it), an untracked one appended. */
  function ToggleKeys(keys: seq<string>, key: string): seq<string>
  {
    if key in keys then Filter(keys, OtherKey(key)) else keys + [key]
  }

  /** The storage slot after the switch. Turning tracking off drops every
      record with the key when there is a stored list; turning it on appends
      the new record, to an empty list when nothing was stored. A stored
      value that does not parse stops the handler before it writes. */
  function ToggleStored(slot: Slot<seq<TrackedRoute>>, on: bool, key: string, route: TrackedRoute): Slot<seq<TrackedRoute>>
  {
    match slot
    case Corrupt => Corrupt
    case Missing => if on then Stored([route]) else Missing
    case Stored(routes) =>
      if on then Stored(routes + [route]) else Stored(Filter(routes, OtherRoute(key)))
  }

  /** The switch flips whether the key is tracked and leaves every other key as it was. */
  lemma ToggleFlips(keys: seq<string>, key: string)
    ensures key in ToggleKeys(keys, key) <==> key !in keys
    ensures forall k :: k != key ==> (k in ToggleKeys(keys, key) <==> k in keys)
  {
    FilterFacts(keys, OtherKey(key));
  }

  /** Turning tracking on and then off restores the tracked keys. */
  lemma ToggleOnOff(keys: seq<string>, key: string)
    requires key !in keys
    ensures ToggleKeys(ToggleKeys(keys, key), key) == keys
  {
    FilterAppend(keys, [key], OtherKey(key));
    FilterAll(keys, OtherKey(key));
    assert Filter([key], OtherKey(key)) == [];
  }

  /** Turning tracking off keeps the other stored records, in order, and
      removes every record of the route. */
  lemma ToggleOffStored(routes: seq<TrackedRoute>, key: string, route: TrackedRoute)
    ensures ToggleStored(Stored(routes), false, key, route) == Stored(Filter(routes, OtherRoute(key)))
    ensures var off := Filter(routes, OtherRoute(key));
      && (forall i :: 0 <= i < |off| ==> KeyOf(off[i]) != key)
      && (forall i :: 0 <= i < |routes| && KeyOf(routes[i]) != key ==> routes[i] in off)
  {
  }

  /** Turning tracking on and then off restores a stored list that held no
      record of the route. */
  lemma ToggleStoredOnOff(routes: seq<TrackedRoute>, key: string, route: TrackedRoute)
    requires KeyOf(route) == key
    requires forall i :: 0 <= i < |routes| ==> KeyOf(routes[i]) != key
    ensures ToggleStored(ToggleStored(Stored(routes), true, key, route), false, key, route) == Stored(routes)
  {
    var p := OtherRoute(key);
    assert forall i :: 0 <= i < |routes| ==> p(routes[i]);
    FilterAll(routes, p);
    FilterAppend(routes, [route], p);
    assert !p(route);
    assert Filter([route], p) == [];
    assert Filter(routes + [route], p) == routes;
  }

  /** The tracker's state: the form, its errors, the shown offers, the
      tracked keys, and the storage slot it shares with the notifier. */
  class Tracker {
    var form: Form
    var errors: map<string, string>
    var offers: seq<FlightOffer>
    var trackedRoutes: seq<string>
    var stored: Slot<seq<TrackedRoute>>

    constructor(stored: Slot<seq<TrackedRoute>>)
      ensures form == Form("", "", "", "", "") && errors == map[] && offers == [] && trackedRoutes == []
      ensures this.stored == stored
    {
      form := Form("", "", "", "", "");
      errors := map[];
      offers := [];
      trackedRoutes := [];
      this.stored := stored;
    }

    /** `validateForm`: fills the errors field by field. */
    method ValidateForm(parseDate: string -> Option<int>, number: string -> Option<real>, today: int) returns (valid: bool)
      modifies this
      ensures errors == FormErrors(form, parseDate, number, today)
      ensures valid <==> errors == map[]
      ensures form == old(form) && offers == old(offers) && trackedRoutes == old(trackedRoutes) && stored == old(stored)
    {
      var origin := CodeError(form.origin, "Origin is required", "Origin must be a 3-letter IATA code (e.g., LAX)");
      var destination := CodeError(form.destination, "Destination is required", "Destination must be a 3-letter IATA code (e.g., JFK)");
      var departure := DateError(form.departureDate, "Departure date", parseDate, today);
      var budget := BudgetError(form.budget, number);
      var newErrors := map[];
      newErrors := Record(newErrors, "origin", origin);
      newErrors := Record(newErrors, "destination", destination);
      newErrors := Record(newErrors, "departureDate", departure);
      newErrors := Record(newErrors, "budget", budget);
      ErrorsInOrder4(("origin", origin), ("destination", destination), ("departureDate", departure), ("budget", budget));
      errors := newErrors;
      valid := newErrors.Keys == {};
      assert valid ==> newErrors == map[];
    }

    /** `searchFlights`: validates, then shows the selection from the
      response. An invalid form leaves the shown offers as they were. */
    method SearchFlights(
      parseDate: string -> Option<int>, number: string -> Option<real>, parseFloat: string -> Option<real>,
      today: int, respond: SearchParams -> SearchOutcome)
      modifies this
      ensures errors == FormErrors(form, parseDate, number, today)
      ensures errors != map[] ==> offers == old(offers)
      ensures errors == map[] ==> offers == Shown(respond(Request(form)), parseFloat(form.budget))
      ensures form == old(form) && trackedRoutes == old(trackedRoutes) && stored == old(stored)
    {
      var valid := ValidateForm(parseDate, number, today);
      if !valid {
        return;
      }
      offers := [];
      var outcome := respond(Request(form));
      offers := Shown(outcome, parseFloat(form.budget));
    }

    /** `toggleTracking(offerId)`: the key is built from the form alone, so
      `offerId` plays no part and tracking is per route. */
    method ToggleTracking(offerId: string, now: string)
      modifies this
      ensures var key := RouteKey(form.origin, form.destination, form.departureDate);
        && trackedRoutes == ToggleKeys(old(trackedRoutes), key)
        && stored == ToggleStored(old(stored), key !in old(trackedRoutes), key,
             TrackedRoute(form.origin, form.destination, form.departureDate, form.returnDate, form.budget, now))
      ensures form == old(form) && errors == old(errors) && offers == old(offers)
    {
      var key := RouteKey(form.origin, form.destination, form.departureDate);
      if key in trackedRoutes {
        trackedRoutes := Filter(trackedRoutes, OtherKey(key));
        match stored {
          case Stored(routes) =>
            stored := Stored(Filter(routes, OtherRoute(key)));
          case Missing =>
          case Corrupt =>
        }
      } else {
        trackedRoutes := trackedRoutes + [key];
        var route := TrackedRoute(form.origin, form.destination, form.departureDate, form.returnDate, form.budget, now);
        match stored {
          case Stored(routes) => stored := Stored(routes + [route]);
          case Missing => stored := Stored([route]);
          case Corrupt =>
        }
      }
    }
  }
}

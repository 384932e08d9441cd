/** The carry-on-only filter: a search form for one route, the test that an
    offer includes no checked bag, the "carry-on only, cheapest first, first
    five" selection, and the Google Flights link for the searched trip. */
module CarryOn {
  import opened Wrappers
  import opened Seqs
  import opened Text
  import opened FlightOffers

  datatype Form = Form(origin: string, destination: string, departureDate: string, returnDate: string)

  // ---------------------------------------------------------------------
  // Form checks

  function FormChecks(form: Form, parseDate: string -> Option<int>, today: int): seq<(string, Option<string>)>
  {
    [ ("origin", CodeError(form.origin, "Origin is required", "Origin must be a 3-letter IATA code (e.g., LAX)")),
      ("destination", CodeError(form.destination, "Destination is required", "Destination must be a 3-letter IATA code (e.g., JFK)")),
      ("departureDate", DateError(form.departureDate, "Departure date", parseDate, today)) ]
  }

  /** The errors `validateForm` collects; there is no budget field. */
  function FormErrors(form: Form, parseDate: string -> Option<int>, today: int): map<string, string>
  {
    Errors(FormChecks(form, parseDate, today))
  }

  /** The form is valid exactly when origin and destination are airport codes
      and a departure date is given that is not before today (a date that
      cannot be read passes). */
  lemma FormValidIff(form: Form, parseDate: string -> Option<int>, today: int)
    ensures FormErrors(form, parseDate, today) == map[] <==>
      && IsIataCode(form.origin)
      && IsIataCode(form.destination)
      && form.departureDate != ""
      && (parseDate(form.departureDate).None? || parseDate(form.departureDate).value >= today)
  {
    var checks := FormChecks(form, parseDate, today);
    ErrorsEmptyIff3(checks[0], checks[1], checks[2]);
    assert checks == [checks[0], checks[1], checks[2]];
  }

  /** `validateForm`: fills the errors field by field. */
  method ValidateForm(form: Form, parseDate: string -> Option<int>, today: int)
    returns (errors: map<string, string>, valid: bool)
    ensures errors == FormErrors(form, parseDate, today)
    ensures valid <==> errors == map[]
  {
    var origin := CodeError(form.origin, "Origin is required", "Origin must be a 3-letter IATA code (e.g., LAX)");
    var destination := CodeError(form.destination, "Destination is required", "Destination must be a 3-letter IATA code (e.g., JFK)");
    var departure := DateError(form.departureDate, "Departure date", parseDate, today);
    errors := map[];
    errors := Record(errors, "origin", origin);
    errors := Record(errors, "destination", destination);
    errors := Record(errors, "departureDate", departure);
    ErrorsInOrder3(("origin", origin), ("destination", destination), ("departureDate", departure));
    valid := errors.Keys == {};
    assert valid ==> errors == map[];
  }

  // ---------------------------------------------------------------------
  // Baggage

  /** `includedCheckedBags && includedCheckedBags.quantity > 0`: absent counts as none. */
  predicate HasCheckedBags(bags: Option<Bags>)
  {
    bags.Some? && bags.value.quantity > 0
  }

  /** The segment's own pricing detail includes a checked bag. */
  predicate SegmentHasBags(s: Segment)
  {
    s.pricingDetailPerAdult.Some? && HasCheckedBags(s.pricingDetailPerAdult.value.includedCheckedBags)
  }

  /** `isCarryOnOnly`: no fare detail of any traveler pricing, and no segment
      of any itinerary, includes a checked bag. */
  predicate IsCarryOnOnly(o: FlightOffer)
  {
    && (forall t, f :: 0 <= t < |o.travelerPricings| && 0 <= f < |o.travelerPricings[t].fareDetailsBySegment| ==>
          !HasCheckedBags(o.travelerPricings[t].fareDetailsBySegment[f].includedCheckedBags))
    && (forall i, s :: 0 <= i < |o.itineraries| && 0 <= s < |o.itineraries[i].segments| ==>
          !SegmentHasBags(o.itineraries[i].segments[s]))
  }

  /** An offer with no baggage data at all is carry-on only. */
  lemma NoBagDataIsCarryOn(o: FlightOffer)
    requires forall t, f :: 0 <= t < |o.travelerPricings| && 0 <= f < |o.travelerPricings[t].fareDetailsBySegment| ==>
      o.travelerPricings[t].fareDetailsBySegment[f].includedCheckedBags.None?
    requires forall i, s :: 0 <= i < |o.itineraries| && 0 <= s < |o.itineraries[i].segments| ==>
      o.itineraries[i].segments[s].pricingDetailPerAdult.None?
        || o.itineraries[i].segments[s].pricingDetailPerAdult.value.includedCheckedBags.None?
    ensures IsCarryOnOnly(o)
  {
  }

  /** The test as written: two nested scans that stop at the first bag found. */
  method CheckCarryOnOnly(o: FlightOffer) returns (carryOnOnly: bool)
    ensures carryOnOnly == IsCarryOnOnly(o)
  {
    var t := 0;
    while t < |o.travelerPricings|
      invariant 0 <= t <= |o.travelerPricings|
      invariant forall t', f :: 0 <= t' < t && 0 <= f < |o.travelerPricings[t'].fareDetailsBySegment| ==>
        !HasCheckedBags(o.travelerPricings[t'].fareDetailsBySegment[f].includedCheckedBags)
    {
      var details := o.travelerPricings[t].fareDetailsBySegment;
      var f := 0;
      while f < |details|
        invariant 0 <= f <= |details|
        invariant forall f' :: 0 <= f' < f ==> !HasCheckedBags(details[f'].includedCheckedBags)
      {
        if HasCheckedBags(details[f].includedCheckedBags) {
          return false;
        }
        f := f + 1;
      }
      t := t + 1;
    }
    var i := 0;
    while i < |o.itineraries|
      invariant 0 <= i <= |o.itineraries|
      invariant forall i', s :: 0 <= i' < i && 0 <= s < |o.itineraries[i'].segments| ==>
        !SegmentHasBags(o.itineraries[i'].segments[s])
    {
      var segments := o.itineraries[i].segments;
      var s := 0;
      while s < |segments|
        invariant 0 <= s <= |segments|
        invariant forall s' :: 0 <= s' < s ==> !SegmentHasBags(segments[s'])
      {
        if SegmentHasBags(segments[s]) {
          return false;
        }
        s := s + 1;
      }
      i := i + 1;
    }
    return true;
  }

  // ---------------------------------------------------------------------
  // Search

  /** The body of the flight-search request: all offers are asked for, up to 20. */
  datatype SearchParams = SearchParams(
    originLocationCode: string, destinationLocationCode: string, departureDate: string,
    returnDate: Option<string>, currencyCode: string, adults: string,
    includedCheckedBagsOnly: bool, max: string)

  function Request(form: Form): SearchParams
  {
    SearchParams(
      ToUpper(form.origin), ToUpper(form.destination), form.departureDate,
      if form.returnDate != "" then Some(form.returnDate) else None,
      "USD", "1", false, "20")
  }

  /** `filter(isCarryOnOnly).sort(by price).slice(0, 5)`. */
  function Select(offers: seq<FlightOffer>): seq<FlightOffer>
  {
    ByPriceIsTotalPreorder();
    TopBy(Filter(offers, IsCarryOnOnly), ByPrice, 5)
  }

  /** At most five offers, all carry-on only, cheapest first, taken from the
      response; every carry-on-only offer left out costs at least as much as
      each selected one. */
  lemma SelectFacts(offers: seq<FlightOffer>)
    ensures var r := Select(offers);
      var carryOn := Filter(offers, IsCarryOnOnly);
      && |r| == (if |carryOn| <= 5 then |carryOn| else 5)
      && (forall i :: 0 <= i < |r| ==> IsCarryOnOnly(r[i]))
      && (forall i, j :: 0 <= i < j < |r| ==> r[i].price.total <= r[j].price.total)
      && multiset(r) <= multiset(offers)
      && (forall x, y :: x in r && y in multiset(carryOn) - multiset(r) ==> x.price.total <= y.price.total)
  {
    ByPriceIsTotalPreorder();
    var r := Select(offers);
    var carryOn := Filter(offers, IsCarryOnOnly);
    FilterFacts(offers, IsCarryOnOnly);
    TopByKeepsLeast(carryOn, ByPrice, 5);
    forall i | 0 <= i < |r| ensures IsCarryOnOnly(r[i]) {
      assert r[i] in multiset(carryOn);
    }
    forall i, j | 0 <= i < j < |r| ensures r[i].price.total <= r[j].price.total {
      assert ByPrice(r[i], r[j]);
    }
    forall x, y | x in r && y in multiset(carryOn) - multiset(r) ensures x.price.total <= y.price.total {
      assert ByPrice(x, y);
    }
  }

  /** The offers shown: the selection from an OK response with a `data`
      array, nothing otherwise. */
  function Shown(outcome: SearchOutcome): seq<FlightOffer>
  {
    match outcome
    case Offers(data) => Select(data)
    case NoData => []
    case Failed => []
  }

  /** `searchCarryOnFlights`: an invalid form is reported and nothing is
      searched; otherwise the response's selection is shown. */
  method SearchCarryOnFlights(form: Form, parseDate: string -> Option<int>, today: int, respond: SearchParams -> SearchOutcome)
    returns (errors: map<string, string>, offers: Option<seq<FlightOffer>>)
    ensures errors == FormErrors(form, parseDate, today)
    ensures offers.None? <==> errors != map[]
    ensures offers.Some? ==> offers.value == Shown(respond(Request(form)))
  {
    var valid;
    errors, valid := ValidateForm(form, parseDate, today);
    if !valid {
      return errors, None;
    }
    var outcome := respond(Request(form));
    offers := Some(Shown(outcome));
  }

  // ---------------------------------------------------------------------
  // Booking link

  /** `generateBookingUrl`: the one-way link, or the outbound and return legs
      joined by `*` when a return date is left after removing its dashes. */
  function BookingUrl(form: Form): string
  {
    var origin := ToUpper(form.origin);
    var destination := ToUpper(form.destination);
    var depDate := RemoveChar(form.departureDate, '-');
    var retDate := if form.returnDate != "" then RemoveChar(form.returnDate, '-') else "";
    if retDate != "" then
      FlightsPrefix + Join([origin, destination, depDate], ".") + "*" + Join([destination, origin, retDate], ".")
    else FlightsPrefix + Join([origin, destination, depDate], ".")
  }

  /** Without a return date the link is the one-way link for the upper-cased route. */
  lemma BookingUrlOneWay(form: Form)
    requires RemoveChar(form.returnDate, '-') == ""
    ensures BookingUrl(form) == GoogleFlightsUrl(ToUpper(form.origin), ToUpper(form.destination), form.departureDate)
  {
  }

  /** Two legs joined by `*`, each a `.`-joined list of parts free of both
      separators, split back into the same parts. */
  lemma TripReadsBack(out: seq<string>, back: seq<string>)
    requires |out| >= 1 && |back| >= 1
    requires forall k :: 0 <= k < |out| ==> '.' !in out[k] && '*' !in out[k]
    requires forall k :: 0 <= k < |back| ==> '.' !in back[k] && '*' !in back[k]
    ensures var legs := Split(Join([Join(out, "."), Join(back, ".")], "*"), '*');
      && |legs| == 2 && Split(legs[0], '.') == out && Split(legs[1], '.') == back
  {
    JoinAvoids(out, ".", '*');
    JoinAvoids(back, ".", '*');
    SplitJoin([Join(out, "."), Join(back, ".")], '*');
    SplitJoin(out, '.');
    SplitJoin(back, '.');
  }

  /** A typed field free of `.` and `*` stays free of them once upper-cased
      or stripped of dashes. */
  lemma FieldAvoids(s: string)
    requires '.' !in s && '*' !in s
    ensures '.' !in ToUpper(s) && '*' !in ToUpper(s)
    ensures '.' !in RemoveChar(s, '-') && '*' !in RemoveChar(s, '-')
  {
    UpperAvoids(s, '.');
    UpperAvoids(s, '*');
    var r := RemoveChar(s, '-');
    assert multiset(r)['.'] == multiset(s)['.'] == 0;
    assert multiset(r)['*'] == multiset(s)['*'] == 0;
  }

  /** With a return date the link reads back, after the prefix, as the
      outbound leg `O.D.dep` and the return leg `D.O.ret`, with upper-cased
      codes and dates without dashes. */
  lemma BookingUrlRoundTrip(form: Form)
    requires RemoveChar(form.returnDate, '-') != ""
    requires '.' !in form.origin && '*' !in form.origin
    requires '.' !in form.destination && '*' !in form.destination
    requires '.' !in form.departureDate && '*' !in form.departureDate
    requires '.' !in form.returnDate && '*' !in form.returnDate
    ensures var url := BookingUrl(form);
      var legs := Split(url[|FlightsPrefix|..], '*');
      && url[..|FlightsPrefix|] == FlightsPrefix
      && |legs| == 2
      && Split(legs[0], '.') == [ToUpper(form.origin), ToUpper(form.destination), RemoveChar(form.departureDate, '-')]
      && Split(legs[1], '.') == [ToUpper(form.destination), ToUpper(form.origin), RemoveChar(form.returnDate, '-')]
  {
    var out := [ToUpper(form.origin), ToUpper(form.destination), RemoveChar(form.departureDate, '-')];
    var back := [ToUpper(form.destination), ToUpper(form.origin), RemoveChar(form.returnDate, '-')];
    FieldAvoids(form.origin);
    FieldAvoids(form.destination);
    FieldAvoids(form.departureDate);
    FieldAvoids(form.returnDate);
    TripReadsBack(out, back);
    BookingUrlShape(form);
    var trip := Join([Join(out, "."), Join(back, ".")], "*");
    assert (FlightsPrefix + trip)[|FlightsPrefix|..] == trip;
  }

  lemma BookingUrlShape(form: Form)
    requires RemoveChar(form.returnDate, '-') != ""
    ensures BookingUrl(form) == FlightsPrefix + Join([
      Join([ToUpper(form.origin), ToUpper(form.destination), RemoveChar(form.departureDate, '-')], "."),
      Join([ToUpper(form.destination), ToUpper(form.origin), RemoveChar(form.returnDate, '-')], ".")], "*")
  {
    assert form.returnDate != "";
  }
}

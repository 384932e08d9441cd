/** The hidden-city deal finder: searches from the origin to destinations
    that commonly connect through the chosen hidden city, and keeps the
    connecting offers whose first leg lands there, cheapest five first. */
module HiddenDeal {
  import opened Wrappers
  import opened Seqs
  import opened Text
  import opened FlightOffers

  datatype Form = Form(origin: string, hiddenCity: string, departureDate: string, budget: string)

  // ---------------------------------------------------------------------
  // Form checks

  /** The hidden city: an airport code, and not the origin (compared upper-cased). */
  function HiddenCityError(hiddenCity: string, origin: string): Option<string>
  {
    OtherCodeError(hiddenCity, origin, "Hidden city destination is required", "Hidden city must be a 3-letter IATA code (e.g., JFK)",
      "Hidden city must be different from origin")
  }

  function FormChecks(form: Form, parseDate: string -> Option<int>, number: string -> Option<real>, today: int): seq<(string, Option<string>)>
  {
    [ ("origin", CodeError(form.origin, "Origin is required", "Origin must be a 3-letter IATA code (e.g., LAX)")),
      ("hiddenCity", HiddenCityError(form.hiddenCity, form.origin)),
      ("departureDate", DateError(form.departureDate, "Departure date", parseDate, today)),
      ("budget", BudgetError(form.budget, number)) ]
  }

  function FormErrors(form: Form, parseDate: string -> Option<int>, number: string -> Option<real>, today: int): map<string, string>
  {
    Errors(FormChecks(form, parseDate, number, today))
  }

  /** The form is valid exactly when origin and hidden city are different
      airport codes, a departure date is given that is not before today (a
      date that cannot be read passes), and the budget is a positive number. */
  lemma FormValidIff(form: Form, parseDate: string -> Option<int>, number: string -> Option<real>, today: int)
    ensures FormErrors(form, parseDate, number, today) == map[] <==>
      && IsIataCode(form.origin)
      && IsIataCode(form.hiddenCity)
      && ToUpper(form.hiddenCity) != ToUpper(form.origin)
      && form.departureDate != ""
      && (parseDate(form.departureDate).None? || parseDate(form.departureDate).value >= today)
      && !IsBlank(form.budget) && number(form.budget).Some? && number(form.budget).value > 0.0
  {
    var checks := FormChecks(form, parseDate, number, today);
    ErrorsEmptyIff4(checks[0], checks[1], checks[2], checks[3]);
    assert checks == [checks[0], checks[1], checks[2], checks[3]];
  }

  /** `validateForm`: fills the errors field by field. */
  method ValidateForm(form: Form, parseDate: string -> Option<int>, number: string -> Option<real>, today: int)
    returns (errors: map<string, string>, valid: bool)
    ensures errors == FormErrors(form, parseDate, number, today)
    ensures valid <==> errors == map[]
  {
    var origin := CodeError(form.origin, "Origin is required", "Origin must be a 3-letter IATA code (e.g., LAX)");
    var hidden := HiddenCityError(form.hiddenCity, form.origin);
    var date := DateError(form.departureDate, "Departure date", parseDate, today);
    var budget := BudgetError(form.budget, number);
    errors := map[];
    errors := Record(errors, "origin", origin);
    errors := Record(errors, "hiddenCity", hidden);
    errors := Record(errors, "departureDate", date);
    errors := Record(errors, "budget", budget);
    ErrorsInOrder4(("origin", origin), ("hiddenCity", hidden), ("departureDate", date), ("budget", budget));
    valid := errors.Keys == {};
    assert valid ==> errors == map[];
  }

  // ---------------------------------------------------------------------
  // Candidate destinations

  /** The onward destinations known for a hub, keyed by upper-cased code. */
  function HubDestinations(hub: string): Option<seq<string>>
  {
    if hub == "JFK" then Some(["LAX", "LHR", "CDG", "NRT", "ICN"])
    else if hub == "LAX" then Some(["JFK", "NRT", "ICN", "SYD", "HND"])
    else if hub == "LHR" then Some(["JFK", "CDG", "FRA", "DXB", "SIN"])
    else if hub == "CDG" then Some(["JFK", "LHR", "FRA", "NRT", "DXB"])
    else if hub == "FRA" then Some(["JFK", "LHR", "CDG", "NRT", "PEK"])
    else if hub == "DXB" then Some(["LHR", "JFK", "BOM", "DEL", "SIN"])
    else if hub == "ORD" then Some(["LAX", "JFK", "LHR", "NRT", "ICN"])
    else if hub == "ATL" then Some(["LAX", "JFK", "LHR", "CDG", "NRT"])
    else None
  }

  const DefaultDestinations: seq<string> := ["JFK", "LAX", "LHR", "CDG", "NRT"]

  /** `findPotentialDestinations`: the table entry of a known hub (looked up
      upper-cased), otherwise the default five. */
  function PotentialDestinations(hiddenCity: string): (r: seq<string>)
    ensures HubDestinations(ToUpper(hiddenCity)).Some? ==> r == HubDestinations(ToUpper(hiddenCity)).value
    ensures HubDestinations(ToUpper(hiddenCity)).None? ==> r == DefaultDestinations
  {
    var entry := HubDestinations(ToUpper(hiddenCity));
    if entry.Some? then entry.value else DefaultDestinations
  }

  /** Five distinct destinations. */
  ghost predicate FiveCodes(r: seq<string>)
  {
    && |r| == 5
    && (forall i, j :: 0 <= i < j < |r| ==> r[i] != r[j])
  }

  lemma FiveLetterCodes(a: string, b: string, c: string, d: string, e: string)
    requires a != b && a != c && a != d && a != e && b != c && b != d && b != e && c != d && c != e && d != e
    ensures FiveCodes([a, b, c, d, e])
  {
  }

  /** Every candidate list names five distinct destinations. */
  lemma PotentialDestinationsFacts(hiddenCity: string)
    ensures FiveCodes(PotentialDestinations(hiddenCity))
  {
    var hub := ToUpper(hiddenCity);
    if hub == "JFK" { FiveLetterCodes("LAX", "LHR", "CDG", "NRT", "ICN"); }
    else if hub == "LAX" { FiveLetterCodes("JFK", "NRT", "ICN", "SYD", "HND"); }
    else if hub == "LHR" { FiveLetterCodes("JFK", "CDG", "FRA", "DXB", "SIN"); }
    else if hub == "CDG" { FiveLetterCodes("JFK", "LHR", "FRA", "NRT", "DXB"); }
    else if hub == "FRA" { FiveLetterCodes("JFK", "LHR", "CDG", "NRT", "PEK"); }
    else if hub == "DXB" { FiveLetterCodes("LHR", "JFK", "BOM", "DEL", "SIN"); }
    else if hub == "ORD" { FiveLetterCodes("LAX", "JFK", "LHR", "NRT", "ICN"); }
    else if hub == "ATL" { FiveLetterCodes("LAX", "JFK", "LHR", "CDG", "NRT"); }
    else { FiveLetterCodes("JFK", "LAX", "LHR", "CDG", "NRT"); }
  }

  /** No hub lists itself as an onward destination. */
  lemma HubNotListed(hub: string)
    requires HubDestinations(hub).Some?
    ensures hub !in HubDestinations(hub).value
  {
  }

  // ---------------------------------------------------------------------
  // One destination

  datatype HiddenDealRecord = HiddenDealRecord(
    id: string, price: Price, segments: seq<Segment>, validatingAirlineCodes: seq<string>,
    hiddenDestination: string, finalDestination: string, savings: Option<real>)

  /** The request for one final destination. */
  datatype SearchParams = SearchParams(
    originLocationCode: string, destinationLocationCode: string, departureDate: string,
    currencyCode: string, maxPrice: string, adults: string, max: string)

  function Request(form: Form, finalDest: string): SearchParams
  {
    SearchParams(ToUpper(form.origin), finalDest, form.departureDate, "USD", form.budget, "1", "5")
  }

  /** The filter: a connecting first itinerary whose first segment lands at
      the hidden city, priced within `parseFloat(budget)` (nothing passes a
      budget that reads as NaN). */
  predicate StopsAt(o: FlightOffer, hiddenCity: string, budget: Option<real>)
  {
    && |o.itineraries| > 0
    && |o.itineraries[0].segments| >= 2
    && o.itineraries[0].segments[0].arrival.iataCode == hiddenCity
    && budget.Some? && o.price.total <= budget.value
  }

  /** `savings = max(0, 1.2 p - p)`, shown only above 50. */
  function DealSavings(price: real): (r: Option<real>)
  {
    var s := if 1.2 * price - price > 0.0 then 1.2 * price - price else 0.0;
    if s > 50.0 then Some(s) else None
  }

  /** Savings are shown exactly for prices above 250, and are a fifth of the price. */
  lemma DealSavingsFacts(price: real)
    ensures DealSavings(price).Some? <==> price > 250.0
    ensures DealSavings(price).Some? ==> DealSavings(price).value == price / 5.0
  {
  }

  function ToDeal(o: FlightOffer, hiddenCity: string, finalDest: string): HiddenDealRecord
  {
    HiddenDealRecord(
      o.id, o.price,
      if |o.itineraries| > 0 then Map(o.itineraries[0].segments, CopySegment) else [],
      o.validatingAirlineCodes, hiddenCity, finalDest, DealSavings(o.price.total))
  }

  function Stops(hiddenCity: string, budget: Option<real>): FlightOffer -> bool
  {
    o => StopsAt(o, hiddenCity, budget)
  }

  function Converted(hiddenCity: string, finalDest: string): FlightOffer -> HiddenDealRecord
  {
    o => ToDeal(o, hiddenCity, finalDest)
  }

  /** The deals one search yields. The filter reads the first itinerary of
      every offer, so an offer without one throws; the error is caught for
      this destination, which then adds nothing, as does a failed request. */
  function DealsFrom(outcome: SearchOutcome, hiddenCity: string, finalDest: string, budget: Option<real>): seq<HiddenDealRecord>
  {
    if outcome.Offers? && forall i :: 0 <= i < |outcome.data| ==> |outcome.data[i].itineraries| > 0 then
      Map(Filter(outcome.data, Stops(hiddenCity, budget)), Converted(hiddenCity, finalDest))
    else []
  }

  /** What a deal promises: a connecting flight whose first segment lands at
      the hidden city, within the budget, continuing to the searched
      destination. */
  ghost predicate IsDealFor(d: HiddenDealRecord, hiddenCity: string, finalDest: string, budget: Option<real>)
  {
    && |d.segments| >= 2
    && d.segments[0].arrival.iataCode == hiddenCity
    && budget.Some? && d.price.total <= budget.value
    && d.hiddenDestination == hiddenCity
    && d.finalDestination == finalDest
    && d.savings == DealSavings(d.price.total)
  }

  /** Every deal one search yields is a deal for its destination; when the
      request succeeded and every offer has an itinerary, every offer that
      stops first at the hidden city within the budget yields its deal. */
  lemma DealsFromFacts(outcome: SearchOutcome, hiddenCity: string, finalDest: string, budget: Option<real>)
    ensures var ds := DealsFrom(outcome, hiddenCity, finalDest, budget);
      forall i :: 0 <= i < |ds| ==> IsDealFor(ds[i], hiddenCity, finalDest, budget)
    ensures outcome.Offers? && (forall i :: 0 <= i < |outcome.data| ==> |outcome.data[i].itineraries| > 0) ==>
      forall o :: o in outcome.data && StopsAt(o, hiddenCity, budget) ==>
        ToDeal(o, hiddenCity, finalDest) in DealsFrom(outcome, hiddenCity, finalDest, budget)
  {
    var ds := DealsFrom(outcome, hiddenCity, finalDest, budget);
    if ds != [] {
      var kept := Filter(outcome.data, Stops(hiddenCity, budget));
      forall i | 0 <= i < |ds| ensures IsDealFor(ds[i], hiddenCity, finalDest, budget) {
        assert ds[i] == ToDeal(kept[i], hiddenCity, finalDest);
        assert StopsAt(kept[i], hiddenCity, budget);
      }
    }
    if outcome.Offers? && forall i :: 0 <= i < |outcome.data| ==> |outcome.data[i].itineraries| > 0 {
      assert ds == Map(Filter(outcome.data, Stops(hiddenCity, budget)), Converted(hiddenCity, finalDest));
      KeptOffersConverted(outcome.data, hiddenCity, finalDest, budget);
    }
  }

  /** Every offer that passes the filter is converted. */
  lemma KeptOffersConverted(data: seq<FlightOffer>, hiddenCity: string, finalDest: string, budget: Option<real>)
    ensures forall o :: o in data && StopsAt(o, hiddenCity, budget) ==>
      ToDeal(o, hiddenCity, finalDest) in Map(Filter(data, Stops(hiddenCity, budget)), Converted(hiddenCity, finalDest))
  {
    var kept := Filter(data, Stops(hiddenCity, budget));
    var ds := Map(kept, Converted(hiddenCity, finalDest));
    FilterFacts(data, Stops(hiddenCity, budget));
    forall o | o in data && StopsAt(o, hiddenCity, budget) ensures ToDeal(o, hiddenCity, finalDest) in ds {
      var j :| 0 <= j < |data| && data[j] == o;
      assert Stops(hiddenCity, budget)(data[j]);
      var k :| 0 <= k < |kept| && kept[k] == o;
      assert ds[k] == ToDeal(o, hiddenCity, finalDest);
    }
  }


  // ---------------------------------------------------------------------
  // The search

  predicate Skipped(finalDest: string, origin: string, hiddenCity: string)
  {
    finalDest == origin || finalDest == hiddenCity
  }

  /** The loop over the candidates: skipped ones add nothing, every other one
      adds what `found` gives for it. */
  function Collect(dests: seq<string>, origin: string, hiddenCity: string, found: string -> seq<HiddenDealRecord>): seq<HiddenDealRecord>
  {
    if dests == [] then []
    else
      var d := dests[|dests| - 1];
      Collect(dests[..|dests| - 1], origin, hiddenCity, found) + (if Skipped(d, origin, hiddenCity) then [] else found(d))
  }

  /** `e` came from the search for one of `dests` that is not skipped. */
  ghost predicate FromSearchOf(e: HiddenDealRecord, dests: seq<string>, origin: string, hiddenCity: string, found: string -> seq<HiddenDealRecord>)
  {
    exists k :: 0 <= k < |dests| && !Skipped(dests[k], origin, hiddenCity) && e in found(dests[k])
  }

  /** Every collected deal comes from the search for a candidate other than
      the origin and the hidden city, and every deal such a search finds is
      collected. */
  lemma {:induction false} CollectFacts(dests: seq<string>, origin: string, hiddenCity: string, found: string -> seq<HiddenDealRecord>)
    ensures forall e :: e in Collect(dests, origin, hiddenCity, found) ==> FromSearchOf(e, dests, origin, hiddenCity, found)
    ensures forall k, e :: 0 <= k < |dests| && !Skipped(dests[k], origin, hiddenCity) && e in found(dests[k]) ==>
      e in Collect(dests, origin, hiddenCity, found)
  {
    if dests != [] {
      var init := dests[..|dests| - 1];
      var d := dests[|dests| - 1];
      CollectFacts(init, origin, hiddenCity, found);
      var front := Collect(init, origin, hiddenCity, found);
      var back := if Skipped(d, origin, hiddenCity) then [] else found(d);
      assert Collect(dests, origin, hiddenCity, found) == front + back;
      forall e | e in front + back ensures FromSearchOf(e, dests, origin, hiddenCity, found) {
        if e in front {
          var k :| 0 <= k < |init| && !Skipped(init[k], origin, hiddenCity) && e in found(init[k]);
          assert dests[k] == init[k];
        } else {
          assert dests[|dests| - 1] == d;
        }
      }
      forall k, e | 0 <= k < |dests| && !Skipped(dests[k], origin, hiddenCity) && e in found(dests[k])
        ensures e in front + back
      {
        if k < |init| {
          assert init[k] == dests[k];
        }
      }
    }
  }

  /** The search made for one candidate. */
  function Search(form: Form, respond: SearchParams -> SearchOutcome, hiddenCity: string, budget: Option<real>): string -> seq<HiddenDealRecord>
  {
    d => DealsFrom(respond(Request(form, d)), hiddenCity, d, budget)
  }

  /** The comparator `(a, b) => parseFloat(a.price.total) - parseFloat(b.price.total)`. */
  predicate ByDealPrice(a: HiddenDealRecord, b: HiddenDealRecord)
  {
    a.price.total <= b.price.total
  }

  lemma ByDealPriceIsTotalPreorder()
    ensures TotalPreorder(ByDealPrice)
  {
  }

  /** `sort(by price).slice(0, 5)`. */
  function Cheapest(deals: seq<HiddenDealRecord>): seq<HiddenDealRecord>
  {
    ByDealPriceIsTotalPreorder();
    TopBy(deals, ByDealPrice, 5)
  }

  /** At most five deals, in ascending price, all collected, and none left
      out cheaper than one shown. */
  lemma CheapestFacts(deals: seq<HiddenDealRecord>)
    ensures var r := Cheapest(deals);
      && |r| == (if |deals| <= 5 then |deals| else 5)
      && (forall i, j :: 0 <= i < j < |r| ==> r[i].price.total <= r[j].price.total)
      && multiset(r) <= multiset(deals)
      && (forall x, y :: x in r && y in multiset(deals) - multiset(r) ==> x.price.total <= y.price.total)
  {
    ByDealPriceIsTotalPreorder();
    var r := Cheapest(deals);
    TopByKeepsLeast(deals, ByDealPrice, 5);
    forall i, j | 0 <= i < j < |r| ensures r[i].price.total <= r[j].price.total {
      assert ByDealPrice(r[i], r[j]);
    }
    forall x, y | x in r && y in multiset(deals) - multiset(r) ensures x.price.total <= y.price.total {
      assert ByDealPrice(x, y);
    }
  }

  /** The deals shown for a valid form. */
  function Shown(form: Form, respond: SearchParams -> SearchOutcome, parseFloat: string -> Option<real>): seq<HiddenDealRecord>
  {
    var hidden := ToUpper(form.hiddenCity);
    Cheapest(Collect(PotentialDestinations(hidden), ToUpper(form.origin), hidden, Search(form, respond, hidden, parseFloat(form.budget))))
  }

  /** What a shown deal promises: a connecting flight whose first segment
      lands at the hidden city, within the budget, to a candidate destination
      other than the origin and the hidden city. */
  ghost predicate ShownDeal(e: HiddenDealRecord, form: Form, parseFloat: string -> Option<real>)
  {
    var hidden := ToUpper(form.hiddenCity);
    && e.finalDestination in PotentialDestinations(hidden)
    && !Skipped(e.finalDestination, ToUpper(form.origin), hidden)
    && IsDealFor(e, hidden, e.finalDestination, parseFloat(form.budget))
  }

  lemma ShownFacts(form: Form, respond: SearchParams -> SearchOutcome, parseFloat: string -> Option<real>)
    ensures forall e :: e in Shown(form, respond, parseFloat) ==> ShownDeal(e, form, parseFloat)
  {
    var hidden := ToUpper(form.hiddenCity);
    var origin := ToUpper(form.origin);
    var budget := parseFloat(form.budget);
    var dests := PotentialDestinations(hidden);
    var found := Search(form, respond, hidden, budget);
    var all := Collect(dests, origin, hidden, found);
    CollectFacts(dests, origin, hidden, found);
    var r := Cheapest(all);
    CheapestFacts(all);
    forall e | e in r ensures ShownDeal(e, form, parseFloat) {
      assert e in multiset(all);
      assert FromSearchOf(e, dests, origin, hidden, found);
      var k :| 0 <= k < |dests| && !Skipped(dests[k], origin, hidden) && e in found(dests[k]);
      SearchedDeal(e, form, respond, hidden, budget, dests[k]);
    }
  }

  lemma SearchedDeal(e: HiddenDealRecord, form: Form, respond: SearchParams -> SearchOutcome, hiddenCity: string, budget: Option<real>, d: string)
    requires e in Search(form, respond, hiddenCity, budget)(d)
    ensures IsDealFor(e, hiddenCity, d, budget)
  {
    var ds := DealsFrom(respond(Request(form, d)), hiddenCity, d, budget);
    DealsFromFacts(respond(Request(form, d)), hiddenCity, d, budget);
    var j :| 0 <= j < |ds| && ds[j] == e;
  }

  /** `searchHiddenDeals`: validates; an invalid form returns before the
      deals are cleared, so `shown` (what is on screen) stays. A valid one
      loops over the candidates with `continue` for the skipped ones and
      shows the cheapest five. */
  method SearchHiddenDeals(
    form: Form, parseDate: string -> Option<int>, number: string -> Option<real>, parseFloat: string -> Option<real>,
    today: int, respond: SearchParams -> SearchOutcome, shown: seq<HiddenDealRecord>)
    returns (errors: map<string, string>, hiddenDeals: seq<HiddenDealRecord>)
    ensures errors == FormErrors(form, parseDate, number, today)
    ensures errors != map[] ==> hiddenDeals == shown
    ensures errors == map[] ==> hiddenDeals == Shown(form, respond, parseFloat)
  {
    var valid;
    errors, valid := ValidateForm(form, parseDate, number, today);
    if !valid {
      return errors, shown;
    }
    var origin := ToUpper(form.origin);
    var hiddenCity := ToUpper(form.hiddenCity);
    var budget := parseFloat(form.budget);
    var candidates := PotentialDestinations(hiddenCity);
    var deals := CollectDeals(form, respond, candidates, origin, hiddenCity, budget);
    hiddenDeals := Cheapest(deals);
  }

  /** The loop over the candidate destinations: every candidate other than
      the origin and the hidden city is searched, and its deals appended in
      candidate order. */
  method CollectDeals(form: Form, respond: SearchParams -> SearchOutcome, candidates: seq<string>,
                      origin: string, hiddenCity: string, budget: Option<real>)
    returns (deals: seq<HiddenDealRecord>)
    ensures deals == Collect(candidates, origin, hiddenCity, Search(form, respond, hiddenCity, budget))
  {
    ghost var found := Search(form, respond, hiddenCity, budget);
    deals := [];
    var i := 0;
    while i < |candidates|
      invariant 0 <= i <= |candidates|
      invariant deals == Collect(candidates[..i], origin, hiddenCity, found)
    {
      var finalDest := candidates[i];
      assert Collect(candidates[..i + 1], origin, hiddenCity, found)
          == deals + (if Skipped(finalDest, origin, hiddenCity) then [] else found(finalDest)) by {
        assert candidates[..i + 1][..i] == candidates[..i];
      }
      i := i + 1;
      if finalDest == origin || finalDest == hiddenCity {
        continue;
      }
      deals := deals + DealsFrom(respond(Request(form, finalDest)), hiddenCity, finalDest, budget);
    }
    assert candidates[..i] == candidates;
  }

  /** `generateBookingUrl`: a one-way link from the origin to the deal's
      final destination, whose fragment reads back as that route. */
  function BookingUrl(form: Form, deal: HiddenDealRecord): (url: string)
  {
    GoogleFlightsUrl(ToUpper(form.origin), deal.finalDestination, form.departureDate)
  }

  lemma BookingUrlRoundTrip(form: Form, deal: HiddenDealRecord)
    requires '.' !in form.origin && '.' !in deal.finalDestination && '.' !in form.departureDate
    ensures var url := BookingUrl(form, deal);
      && url[..|FlightsPrefix|] == FlightsPrefix
      && Split(url[|FlightsPrefix|..], '.') == [ToUpper(form.origin), deal.finalDestination, RemoveChar(form.departureDate, '-')]
  {
    UpperAvoids(form.origin, '.');
    GoogleFlightsUrlRoundTrip(ToUpper(form.origin), deal.finalDestination, form.departureDate);
  }
}

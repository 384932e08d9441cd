/** The flight-offer records the search tools receive from the flight-search
    proxy, the form checks they share, the "within budget, cheapest first,
    first five" selection, and the Google Flights deep link. */
module FlightOffers {
  import opened Wrappers
  import opened Seqs
  import opened Text

  datatype Endpoint = Endpoint(iataCode: string, at: string)

  /** `includedCheckedBags`: how many checked bags the fare includes. */
  datatype Bags = Bags(quantity: int)

  datatype PricingDetail = PricingDetail(travelClass: string, includedCheckedBags: Option<Bags>)

  datatype Segment = Segment(
    departure: Endpoint,
    arrival: Endpoint,
    carrierCode: string,
    number: string,
    duration: string,
    pricingDetailPerAdult: Option<PricingDetail>)

  datatype Itinerary = Itinerary(duration: string, segments: seq<Segment>)

  datatype FareDetail = FareDetail(segmentId: string, cabin: string, includedCheckedBags: Option<Bags>)

  datatype TravelerPricing = TravelerPricing(fareDetailsBySegment: seq<FareDetail>)

  /** `price.total` arrives as a decimal string; the model holds its parsed value. */
  datatype Price = Price(total: real, currency: string)

  datatype FlightOffer = FlightOffer(
    id: string,
    price: Price,
    itineraries: seq<Itinerary>,
    validatingAirlineCodes: seq<string>,
    numberOfBookableSeats: int,
    travelerPricings: seq<TravelerPricing>)

  /** What a call to the flight-search endpoint yields: an OK response whose
      `data` is an array, an OK response without one, or a failed request. */
  datatype SearchOutcome = Offers(data: seq<FlightOffer>) | NoData | Failed

  // ---------------------------------------------------------------------
  // Form checks shared by the search forms

  /** Every blank string fails the IATA check: white space is not a letter. */
  lemma BlankIsNotIata(s: string)
    requires IsBlank(s)
    ensures !IsIataCode(s)
  {
    BlankIffAllWhitespace(s);
    if |s| == 3 {
      assert IsWhitespace(s[0]);
      assert ToUpper(s)[0] == s[0];
    }
  }

  /** An airport-code field: required, then `^[A-Z]{3}$` after upper-casing. */
  function CodeError(raw: string, missing: string, malformed: string): (e: Option<string>)
    ensures e.None? <==> IsIataCode(raw)
    ensures e.Some? ==> e.value == (if IsBlank(raw) then missing else malformed)
  {
    if IsBlank(raw) then
      BlankIsNotIata(raw);
      Some(missing)
    else if !IsIataCode(raw) then Some(malformed)
    else None
  }

  /** An airport-code field that must also differ from another code field,
      both compared upper-cased: the code check first, then the comparison. */
  function OtherCodeError(raw: string, other: string, missing: string, malformed: string, same: string): (e: Option<string>)
    ensures e.None? <==> IsIataCode(raw) && ToUpper(raw) != ToUpper(other)
    ensures e.Some? ==> e.value == (if IsBlank(raw) then missing else if !IsIataCode(raw) then malformed else same)
  {
    var e := CodeError(raw, missing, malformed);
    if e.Some? then e
    else if ToUpper(raw) == ToUpper(other) then Some(same)
    else None
  }

  /** A date field: an empty string is missing; a date before local midnight
      today is in the past. `new Date` of text it cannot read is an invalid
      date, which compares false with everything, so it passes. */
  function DateError(raw: string, name: string, parseDate: string -> Option<int>, today: int): (e: Option<string>)
    ensures e.None? <==> raw != "" && (parseDate(raw).None? || parseDate(raw).value >= today)
    ensures e.Some? ==> e.value == name + (if raw == "" then " is required" else " cannot be in the past")
  {
    if raw == "" then Some(name + " is required")
    else match parseDate(raw)
      case Some(t) => if t < today then Some(name + " cannot be in the past") else None
      case None => None
  }

  /** A budget field: required, then `Number(raw)` must be a number above 0. */
  function BudgetError(raw: string, number: string -> Option<real>): (e: Option<string>)
    ensures e.None? <==> !IsBlank(raw) && number(raw).Some? && number(raw).value > 0.0
    ensures e.Some? ==> e.value == (if IsBlank(raw) then "Budget is required" else "Budget must be a positive number")
  {
    if IsBlank(raw) then Some("Budget is required")
    else match number(raw)
      case None => Some("Budget must be a positive number")
      case Some(v) => if v <= 0.0 then Some("Budget must be a positive number") else None
  }

  /** `errors[field] = e` when `e` is an error, as the forms fill `newErrors`. */
  function Record(errors: map<string, string>, field: string, e: Option<string>): (r: map<string, string>)
    ensures e.None? ==> r == errors
    ensures e.Some? ==> r == errors[field := e.value]
  {
    if e.Some? then errors[field := e.value] else errors
  }

  /** The error record a form's checks produce, run in order: each failing
      check is recorded under its field name. */
  function Errors(checks: seq<(string, Option<string>)>): map<string, string>
  {
    if checks == [] then map[]
    else
      var last := checks[|checks| - 1];
      Record(Errors(checks[..|checks| - 1]), last.0, last.1)
  }

  /** A form is valid, its error record empty, exactly when every check passes. */
  lemma {:induction false} ErrorsEmptyIff(checks: seq<(string, Option<string>)>)
    ensures Errors(checks) == map[] <==> forall i :: 0 <= i < |checks| ==> checks[i].1.None?
  {
    if checks != [] {
      var init := checks[..|checks| - 1];
      ErrorsEmptyIff(init);
      assert forall i :: 0 <= i < |init| ==> init[i] == checks[i];
      var last := checks[|checks| - 1];
      if last.1.Some? {
        assert last.0 in Errors(checks);
      } else if Errors(init) != map[] {
        var k :| k in Errors(init);
        assert k in Errors(checks);
      }
    }
  }

  lemma ErrorsEmptyIff3(a: (string, Option<string>), b: (string, Option<string>), c: (string, Option<string>))
    ensures Errors([a, b, c]) == map[] <==> a.1.None? && b.1.None? && c.1.None?
  {
    ErrorsEmptyIff([a, b, c]);
    assert [a, b, c][0] == a && [a, b, c][1] == b && [a, b, c][2] == c;
  }

  lemma ErrorsEmptyIff4(a: (string, Option<string>), b: (string, Option<string>), c: (string, Option<string>), d: (string, Option<string>))
    ensures Errors([a, b, c, d]) == map[] <==> a.1.None? && b.1.None? && c.1.None? && d.1.None?
  {
    ErrorsEmptyIff([a, b, c, d]);
    assert [a, b, c, d][0] == a && [a, b, c, d][1] == b && [a, b, c, d][2] == c && [a, b, c, d][3] == d;
  }

  /** The record of three checks, built as the forms build it, one field after another. */
  lemma ErrorsInOrder3(a: (string, Option<string>), b: (string, Option<string>), c: (string, Option<string>))
    ensures Errors([a, b, c]) == Record(Record(Record(map[], a.0, a.1), b.0, b.1), c.0, c.1)
  {
    assert Errors([a]) == Record(map[], a.0, a.1) by {
      assert [a][..0] == [];
    }
    assert Errors([a, b]) == Record(Errors([a]), b.0, b.1) by {
      assert [a, b][..1] == [a];
    }
    assert Errors([a, b, c]) == Record(Errors([a, b]), c.0, c.1) by {
      assert [a, b, c][..2] == [a, b];
    }
  }

  lemma ErrorsInOrder4(a: (string, Option<string>), b: (string, Option<string>), c: (string, Option<string>), d: (string, Option<string>))
    ensures Errors([a, b, c, d]) == Record(Record(Record(Record(map[], a.0, a.1), b.0, b.1), c.0, c.1), d.0, d.1)
  {
    assert [a, b, c, d][..3] == [a, b, c];
    ErrorsInOrder3(a, b, c);
  }

  /** With distinct field names, a field is in the record exactly when its
      check fails, and then it holds that check's message. */
  lemma {:induction false} ErrorsAt(checks: seq<(string, Option<string>)>, i: nat)
    requires i < |checks|
    requires forall j, k :: 0 <= j < k < |checks| ==> checks[j].0 != checks[k].0
    ensures checks[i].0 in Errors(checks) <==> checks[i].1.Some?
    ensures checks[i].1.Some? ==> Errors(checks)[checks[i].0] == checks[i].1.value
  {
    var init := checks[..|checks| - 1];
    if i < |checks| - 1 {
      assert init[i] == checks[i];
      ErrorsAt(init, i);
    } else if init != [] {
      ErrorsAbsent(init, checks[i].0);
    }
  }

  lemma {:induction false} ErrorsAbsent(checks: seq<(string, Option<string>)>, field: string)
    requires forall j :: 0 <= j < |checks| ==> checks[j].0 != field
    ensures field !in Errors(checks)
  {
    if checks != [] {
      ErrorsAbsent(checks[..|checks| - 1], field);
    }
  }

  /** A segment as the deal finders copy it, field by field: without its
      pricing detail. */
  function CopySegment(s: Segment): (r: Segment)
    ensures r.departure == s.departure && r.arrival == s.arrival && r.carrierCode == s.carrierCode
    ensures r.number == s.number && r.duration == s.duration && r.pricingDetailPerAdult.None?
  {
    s.(pricingDetailPerAdult := None)
  }

  // ---------------------------------------------------------------------
  // Offer selection

  /** The comparator `(a, b) => a.price.total - b.price.total`, as "may come first". */
  predicate ByPrice(a: FlightOffer, b: FlightOffer)
  {
    a.price.total <= b.price.total
  }

  lemma ByPriceIsTotalPreorder()
    ensures TotalPreorder(ByPrice)
  {
  }

  predicate WithinBudget(o: FlightOffer, budget: real)
  {
    o.price.total <= budget
  }

  function InBudget(budget: real): FlightOffer -> bool
  {
    o => WithinBudget(o, budget)
  }

  /** `filter(price <= budget).sort(by price).slice(0, 5)`. */
  function SelectWithinBudget(offers: seq<FlightOffer>, budget: real): (r: seq<FlightOffer>)
    ensures var n := |Filter(offers, InBudget(budget))|; |r| == if n <= 5 then n else 5
    ensures forall i :: 0 <= i < |r| ==> r[i].price.total <= budget
    ensures forall i, j :: 0 <= i < j < |r| ==> r[i].price.total <= r[j].price.total
    ensures multiset(r) <= multiset(offers)
  {
    ByPriceIsTotalPreorder();
    var within := Filter(offers, InBudget(budget));
    assert multiset(within) <= multiset(offers) by {
      FilterFacts(offers, InBudget(budget));
    }
    var r := TopBy(within, ByPrice, 5);
    SubMultisetKeeps(r, within, InBudget(budget));
    assert forall i :: 0 <= i < |r| ==> InBudget(budget)(r[i]);
    r
  }

  /** The five cheapest in-budget offers are selected: as many as there are
      up to five, and an in-budget offer that was not selected costs at least
      as much as every selected one; when at most five offers are in budget
      all of them are selected. */
  lemma SelectWithinBudgetKeepsCheapest(offers: seq<FlightOffer>, budget: real)
    ensures var r := SelectWithinBudget(offers, budget);
      var within := Filter(offers, InBudget(budget));
      && |r| == (if |within| <= 5 then |within| else 5)
      && (|within| <= 5 ==> multiset(r) == multiset(within))
      && (forall x, y :: x in r && y in multiset(within) - multiset(r) ==> x.price.total <= y.price.total)
  {
    ByPriceIsTotalPreorder();
    var within := Filter(offers, InBudget(budget));
    var r := SelectWithinBudget(offers, budget);
    assert r == TopBy(within, ByPrice, 5);
    TopByKeepsLeast(within, ByPrice, 5);
    forall x, y | x in r && y in multiset(within) - multiset(r) ensures x.price.total <= y.price.total {
      assert ByPrice(x, y);
    }
  }

  // ---------------------------------------------------------------------
  // Deep links

  const FlightsPrefix := "https://www.google.com/flights#flt="

  /** `https://www.google.com/flights#flt=<origin>.<destination>.<date without '-'>`. */
  function GoogleFlightsUrl(origin: string, destination: string, date: string): string
  {
    FlightsPrefix + Join([origin, destination, RemoveChar(date, '-')], ".")
  }

  /** The link's fragment reads back as the route and the date with its dashes
      removed, as long as no part contains a `.`. */
  lemma GoogleFlightsUrlRoundTrip(origin: string, destination: string, date: string)
    requires '.' !in origin && '.' !in destination && '.' !in date
    ensures var url := GoogleFlightsUrl(origin, destination, date);
      && url[..|FlightsPrefix|] == FlightsPrefix
      && Split(url[|FlightsPrefix|..], '.') == [origin, destination, RemoveChar(date, '-')]
  {
    DottedRoundTrip(FlightsPrefix, origin, destination, date);
  }
}

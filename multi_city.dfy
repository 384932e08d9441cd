/** The multi-city simulator: validates a route of up to three destinations
    with one date each, chains the legs, keeps up to five options per leg,
    enumerates every choice of one option per leg that stays within the
    budget, and shows the five cheapest with a rough savings estimate. */
module MultiCity {
  import opened Wrappers
  import opened Seqs
  import opened Text
  import opened FlightOffers

  datatype Form = Form(origin: string, destinations: string, departureDates: string, budget: string)

  // ---------------------------------------------------------------------
  // Form checks

  /** `destinations.split(',').map(d => d.trim().toUpperCase())`. */
  function DestinationCodes(raw: string): (r: seq<string>)
    ensures |r| == |Split(raw, ',')| && |r| >= 1
  {
    Map(Split(raw, ','), Code)
  }

  function Code(piece: string): string
  {
    ToUpper(Trim(piece))
  }

  /** Every code matches `^[A-Z]{3}$`. */
  predicate AllCodes(codes: seq<string>)
  {
    forall i :: 0 <= i < |codes| ==> MatchesThreeUpper(codes[i])
  }

  /** The destinations field: required, at most three entries, each an airport code. */
  function DestinationsError(raw: string): (e: Option<string>)
    ensures e.Some? ==> e.value in {
      "At least one destination is required", "Maximum 3 destinations allowed",
      "All destinations must be 3-letter IATA codes (e.g., JFK,LAX,MIA)" }
  {
    if IsBlank(raw) then Some("At least one destination is required")
    else if |DestinationCodes(raw)| > 3 then Some("Maximum 3 destinations allowed")
    else if !AllCodes(DestinationCodes(raw)) then
      Some("All destinations must be 3-letter IATA codes (e.g., JFK,LAX,MIA)")
    else None
  }

  /** Each comma-separated piece, trimmed, is an airport code. */
  ghost predicate PiecesAreCodes(raw: string)
  {
    forall i :: 0 <= i < |Split(raw, ',')| ==> IsIataCode(Trim(Split(raw, ',')[i]))
  }

  lemma CodesOfPieces(raw: string)
    ensures AllCodes(DestinationCodes(raw)) <==> PiecesAreCodes(raw)
  {
    var pieces := Split(raw, ',');
    var codes := DestinationCodes(raw);
    forall i | 0 <= i < |codes| ensures MatchesThreeUpper(codes[i]) <==> IsIataCode(Trim(pieces[i])) {
      assert codes[i] == Code(pieces[i]);
    }
  }

  /** The destinations are accepted exactly when the field is not blank and
      splits into one to three pieces that are each an airport code once
      trimmed. */
  lemma DestinationsErrorIff(raw: string)
    ensures DestinationsError(raw).None? <==>
      !IsBlank(raw) && |Split(raw, ',')| <= 3 && PiecesAreCodes(raw)
  {
    CodesOfPieces(raw);
  }

  /** The problem with the date at `i`, given that the dates before it passed. */
  function DateProblem(dates: seq<string>, i: nat, parseDate: string -> Option<int>, today: int): Option<string>
    requires i < |dates|
  {
    match parseDate(dates[i])
    case None => Some("All dates must be valid (YYYY-MM-DD format)")
    case Some(t) =>
      if t < today then Some("Departure dates cannot be in the past")
      else if i > 0 && parseDate(dates[i - 1]).Some? && t <= parseDate(dates[i - 1]).value then
        Some("Dates must be in chronological order")
      else None
  }

  /** The first problem found scanning the dates from `from` on. */
  function FirstDateProblem(dates: seq<string>, parseDate: string -> Option<int>, today: int, from: nat): Option<string>
    requires from <= |dates|
    decreases |dates| - from
  {
    if from == |dates| then None
    else if DateProblem(dates, from, parseDate, today).Some? then DateProblem(dates, from, parseDate, today)
    else FirstDateProblem(dates, parseDate, today, from + 1)
  }

  /** Every date is readable, none is before today, and each is strictly later than the previous one. */
  ghost predicate DatesInOrder(dates: seq<string>, parseDate: string -> Option<int>, today: int)
  {
    forall i :: 0 <= i < |dates| ==>
      && parseDate(dates[i]).Some?
      && parseDate(dates[i]).value >= today
      && (i > 0 ==> parseDate(dates[i - 1]).Some? && parseDate(dates[i - 1]).value < parseDate(dates[i]).value)
  }

  lemma {:induction false} FirstDateProblemNone(dates: seq<string>, parseDate: string -> Option<int>, today: int, from: nat)
    requires from <= |dates|
    ensures FirstDateProblem(dates, parseDate, today, from).None?
      <==> forall i :: from <= i < |dates| ==> DateProblem(dates, i, parseDate, today).None?
    decreases |dates| - from
  {
    if from < |dates| {
      FirstDateProblemNone(dates, parseDate, today, from + 1);
    }
  }

  /** The date scan finds nothing exactly when the dates are readable, not in
      the past and strictly increasing. */
  lemma DatesOkIff(dates: seq<string>, parseDate: string -> Option<int>, today: int)
    ensures FirstDateProblem(dates, parseDate, today, 0).None? <==> DatesInOrder(dates, parseDate, today)
  {
    FirstDateProblemNone(dates, parseDate, today, 0);
    if FirstDateProblem(dates, parseDate, today, 0).None? {
      forall i | 0 <= i < |dates|
        ensures && parseDate(dates[i]).Some?
                && parseDate(dates[i]).value >= today
                && (i > 0 ==> parseDate(dates[i - 1]).Some? && parseDate(dates[i - 1]).value < parseDate(dates[i]).value)
      {
        assert DateProblem(dates, i, parseDate, today).None?;
        if i > 0 {
          assert DateProblem(dates, i - 1, parseDate, today).None?;
        }
      }
    }
  }

  /** The scan loop: stops at the first date with a problem. */
  method CheckDates(dates: seq<string>, parseDate: string -> Option<int>, today: int) returns (problem: Option<string>)
    ensures problem == FirstDateProblem(dates, parseDate, today, 0)
  {
    var i := 0;
    while i < |dates|
      invariant 0 <= i <= |dates|
      invariant FirstDateProblem(dates, parseDate, today, 0) == FirstDateProblem(dates, parseDate, today, i)
    {
      var date := parseDate(dates[i]);
      if date.None? {
        return Some("All dates must be valid (YYYY-MM-DD format)");
      }
      if date.value < today {
        return Some("Departure dates cannot be in the past");
      }
      if i > 0 {
        var previous := parseDate(dates[i - 1]);
        if previous.Some? && date.value <= previous.value {
          return Some("Dates must be in chronological order");
        }
      }
      i := i + 1;
    }
    return None;
  }

  /** `departureDates.split(',').map(d => d.trim())`. */
  function DateStrings(raw: string): seq<string>
  {
    Map(Split(raw, ','), (p: string) => Trim(p))
  }

  /** The dates field: required, one date per destination, then the scan. */
  function DatesError(rawDates: string, rawDestinations: string, parseDate: string -> Option<int>, today: int): Option<string>
  {
    if IsBlank(rawDates) then Some("Departure dates are required")
    else if |DateStrings(rawDates)| != |Split(rawDestinations, ',')| then
      Some("Number of dates must match number of destinations")
    else FirstDateProblem(DateStrings(rawDates), parseDate, today, 0)
  }

  /** The dates are accepted exactly when the field is not blank, has as many
      entries as the destinations field, and those are in order. */
  lemma DatesErrorIff(rawDates: string, rawDestinations: string, parseDate: string -> Option<int>, today: int)
    ensures DatesError(rawDates, rawDestinations, parseDate, today).None? <==>
      && !IsBlank(rawDates)
      && |DateStrings(rawDates)| == |Split(rawDestinations, ',')|
      && DatesInOrder(DateStrings(rawDates), parseDate, today)
  {
    DatesOkIff(DateStrings(rawDates), parseDate, today);
  }

  /** The four field checks of `validateForm`, in the order it runs them. */
  function FormChecks(form: Form, parseDate: string -> Option<int>, number: string -> Option<real>, today: int): seq<(string, Option<string>)>
  {
    [ ("origin", CodeError(form.origin, "Origin is required", "Origin must be a 3-letter IATA code (e.g., LAX)")),
      ("destinations", DestinationsError(form.destinations)),
      ("departureDates", DatesError(form.departureDates, form.destinations, parseDate, today)),
      ("budget", BudgetError(form.budget, number)) ]
  }

  /** The errors `validateForm` collects, one per failing field. */
  function FormErrors(form: Form, parseDate: string -> Option<int>, number: string -> Option<real>, today: int): map<string, string>
  {
    Errors(FormChecks(form, parseDate, number, today))
  }

  /** The form is valid exactly when the origin is an airport code, the
      destinations are one to three airport codes, there is one date per
      destination and the dates are readable, not in the past and strictly
      increasing, and the budget is a positive number. */
  lemma FormValidIff(form: Form, parseDate: string -> Option<int>, number: string -> Option<real>, today: int)
    ensures FormErrors(form, parseDate, number, today) == map[] <==>
      && IsIataCode(form.origin)
      && !IsBlank(form.destinations)
      && |Split(form.destinations, ',')| <= 3
      && PiecesAreCodes(form.destinations)
      && !IsBlank(form.departureDates)
      && |DateStrings(form.departureDates)| == |Split(form.destinations, ',')|
      && DatesInOrder(DateStrings(form.departureDates), parseDate, today)
      && !IsBlank(form.budget) && number(form.budget).Some? && number(form.budget).value > 0.0
  {
    var checks := FormChecks(form, parseDate, number, today);
    ErrorsEmptyIff4(checks[0], checks[1], checks[2], checks[3]);
    assert checks == [checks[0], checks[1], checks[2], checks[3]];
    DestinationsErrorIff(form.destinations);
    DatesErrorIff(form.departureDates, form.destinations, parseDate, today);
  }

  /** The dates branch of `validateForm`. */
  method CheckDatesField(rawDates: string, rawDestinations: string, parseDate: string -> Option<int>, today: int)
    returns (problem: Option<string>)
    ensures problem == DatesError(rawDates, rawDestinations, parseDate, today)
  {
    if IsBlank(rawDates) {
      return Some("Departure dates are required");
    }
    var dates := DateStrings(rawDates);
    if |dates| != |Split(rawDestinations, ',')| {
      return Some("Number of dates must match number of destinations");
    }
    problem := CheckDates(dates, parseDate, today);
  }

  /** `validateForm`: fills the error record field by field. */
  method ValidateForm(form: Form, parseDate: string -> Option<int>, number: string -> Option<real>, today: int)
    returns (errors: map<string, string>, valid: bool)
    ensures errors == FormErrors(form, parseDate, number, today)
    ensures valid <==> errors == map[]
  {
    var origin := CodeError(form.origin, "Origin is required", "Origin must be a 3-letter IATA code (e.g., LAX)");
    var destinations := DestinationsError(form.destinations);
    var dates := CheckDatesField(form.departureDates, form.destinations, parseDate, today);
    var budget := BudgetError(form.budget, number);
    errors := map[];
    errors := Record(errors, "origin", origin);
    errors := Record(errors, "destinations", destinations);
    errors := Record(errors, "departureDates", dates);
    errors := Record(errors, "budget", budget);
    ErrorsInOrder4(("origin", origin), ("destinations", destinations), ("departureDates", dates), ("budget", budget));
    valid := errors.Keys == {};
    assert valid ==> errors == map[];
  }

  // ---------------------------------------------------------------------
  // Legs

  datatype LegRequest = LegRequest(origin: string, destination: string, date: string)

  /** Origin to the first destination, then destination to destination. */
  function Legs(origin: string, destinations: seq<string>, dates: seq<string>): (r: seq<LegRequest>)
    requires |dates| == |destinations|
  {
    seq(|destinations|, i requires 0 <= i < |destinations| =>
      if i == 0 then LegRequest(origin, destinations[0], dates[0])
      else LegRequest(destinations[i - 1], destinations[i], dates[i]))
  }

  /** The legs form a chain from the origin through every destination in
      order, leg `i` flying on date `i`. */
  lemma LegsChain(origin: string, destinations: seq<string>, dates: seq<string>)
    requires |dates| == |destinations| >= 1
    ensures var legs := Legs(origin, destinations, dates);
      && |legs| == |destinations|
      && legs[0].origin == origin
      && (forall i :: 0 <= i < |legs| ==> legs[i].destination == destinations[i] && legs[i].date == dates[i])
      && (forall i :: 0 < i < |legs| ==> legs[i].origin == legs[i - 1].destination)
  {
  }

  /** The leg-building loop. */
  method BuildLegs(origin: string, destinations: seq<string>, dates: seq<string>) returns (legs: seq<LegRequest>)
    requires |dates| == |destinations| >= 1
    ensures legs == Legs(origin, destinations, dates)
  {
    legs := [LegRequest(origin, destinations[0], dates[0])];
    var i := 1;
    while i < |destinations|
      invariant 1 <= i <= |destinations|
      invariant legs == Legs(origin, destinations[..i], dates[..i])
    {
      legs := legs + [LegRequest(destinations[i - 1], destinations[i], dates[i])];
      i := i + 1;
    }
    assert destinations[..i] == destinations && dates[..i] == dates;
  }

  /** One flight option for a leg, read from the first itinerary of an offer. */
  datatype FlightLeg = FlightLeg(
    origin: string,
    destination: string,
    departureDate: string,
    price: real,
    airline: Option<string>,
    flightNumber: string,
    departureTime: string,
    arrivalTime: string,
    duration: string,
    stops: int,
    segments: seq<Segment>)

  /** An offer the mapping can read: it has a first itinerary with a segment. */
  predicate Readable(o: FlightOffer)
  {
    |o.itineraries| > 0 && |o.itineraries[0].segments| > 0
  }

  function ToLeg(req: LegRequest, o: FlightOffer): FlightLeg
    requires Readable(o)
  {
    var it := o.itineraries[0];
    var first := it.segments[0];
    var last := it.segments[|it.segments| - 1];
    FlightLeg(
      req.origin, req.destination, req.date, o.price.total,
      if |o.validatingAirlineCodes| > 0 then Some(o.validatingAirlineCodes[0]) else None,
      first.carrierCode + first.number, first.departure.at, last.arrival.at,
      it.duration, |it.segments| - 1, it.segments)
  }

  function ToLegs(req: LegRequest, offers: seq<FlightOffer>): (r: seq<FlightLeg>)
    requires forall i :: 0 <= i < |offers| ==> Readable(offers[i])
    ensures |r| == |offers|
    ensures forall i :: 0 <= i < |r| ==> r[i] == ToLeg(req, offers[i])
  {
    if offers == [] then [] else [ToLeg(req, offers[0])] + ToLegs(req, offers[1..])
  }

  /** `searchLegFlights`: the first five offers, each read as a flight option.
      A failed request, a response without data, or an offer that cannot be
      read (the exception is caught) gives no options for the leg. */
  function LegOptions(req: LegRequest, outcome: SearchOutcome): seq<FlightLeg>
  {
    match outcome
    case Offers(data) =>
      var top := Take(data, 5);
      if forall i :: 0 <= i < |top| ==> Readable(top[i]) then ToLegs(req, top) else []
    case NoData => []
    case Failed => []
  }

  /** At most five options per leg, each flying the leg's route on its date
      at the price of the offer at the same position. */
  lemma LegOptionsFacts(req: LegRequest, outcome: SearchOutcome)
    ensures var r := LegOptions(req, outcome);
      && |r| <= 5
      && (forall i :: 0 <= i < |r| ==>
            && r[i].origin == req.origin && r[i].destination == req.destination && r[i].departureDate == req.date
            && outcome.Offers? && r[i].price == outcome.data[i].price.total)
      && (outcome.Offers? && (forall i :: 0 <= i < |outcome.data| && i < 5 ==> Readable(outcome.data[i])) ==>
            |r| == if |outcome.data| <= 5 then |outcome.data| else 5)
  {
    if outcome.Offers? {
      var top := Take(outcome.data, 5);
      assert forall i :: 0 <= i < |top| ==> top[i] == outcome.data[i];
    }
  }

  /** The options of every leg, in leg order. */
  function AllLegOptions(legs: seq<LegRequest>, search: LegRequest -> SearchOutcome): seq<seq<FlightLeg>>
  {
    seq(|legs|, i requires 0 <= i < |legs| => LegOptions(legs[i], search(legs[i])))
  }

  /** The search loop, one request per leg. */
  method SearchLegs(legs: seq<LegRequest>, search: LegRequest -> SearchOutcome) returns (options: seq<seq<FlightLeg>>)
    ensures options == AllLegOptions(legs, search)
  {
    options := [];
    var i := 0;
    while i < |legs|
      invariant 0 <= i <= |legs|
      invariant options == AllLegOptions(legs[..i], search)
    {
      options := options + [LegOptions(legs[i], search(legs[i]))];
      i := i + 1;
    }
    assert legs[..i] == legs;
  }

  // ---------------------------------------------------------------------
  // Combinations

  datatype Combination = Combination(id: string, legs: seq<FlightLeg>, totalPrice: real)

  /** The chosen flight numbers joined with `_`. */
  function CombinationId(legs: seq<FlightLeg>): string
  {
    Join(Map(legs, (l: FlightLeg) => l.flightNumber), "_")
  }

  /** `total <= parseFloat(budget)`: false when the budget does not parse. */
  predicate Affordable(total: real, budget: Option<real>)
  {
    budget.Some? && total <= budget.value
  }

  /** `generateRecursive(current, remaining, total)`: every way to extend
      `current` with one option of each remaining leg, in option order,
      dropping a branch as soon as its running total exceeds the budget. */
  function Expand(current: seq<FlightLeg>, total: real, remaining: seq<seq<FlightLeg>>, budget: Option<real>): seq<Combination>
    decreases |remaining|, 1, 0
  {
    if remaining == [] then [Combination(CombinationId(current), current, total)]
    else Branch(current, total, remaining[0], remaining[1..], budget)
  }

  /** The loop over one leg's options inside `generateRecursive`. */
  function Branch(current: seq<FlightLeg>, total: real, options: seq<FlightLeg>, rest: seq<seq<FlightLeg>>, budget: Option<real>): seq<Combination>
    decreases |rest| + 1, 0, |options|
  {
    if options == [] then []
    else
      var o := options[|options| - 1];
      Branch(current, total, options[..|options| - 1], rest, budget)
        + (if Affordable(total + o.price, budget) then Expand(current + [o], total + o.price, rest, budget) else [])
  }

  function Sum(legs: seq<FlightLeg>): real
  {
    if legs == [] then 0.0 else legs[0].price + Sum(legs[1..])
  }

  /** `chosen` takes exactly one option from every leg, in leg order. */
  ghost predicate Chooses(chosen: seq<FlightLeg>, options: seq<seq<FlightLeg>>)
  {
    |chosen| == |options| && forall k :: 0 <= k < |chosen| ==> chosen[k] in options[k]
  }

  /** A combination of the branch over `options` comes from one affordable
      option, which is returned. */
  lemma {:induction false} BranchMember(current: seq<FlightLeg>, total: real, options: seq<FlightLeg>, rest: seq<seq<FlightLeg>>, budget: Option<real>, c: Combination)
    returns (o: FlightLeg)
    requires c in Branch(current, total, options, rest, budget)
    ensures o in options && Affordable(total + o.price, budget) && c in Expand(current + [o], total + o.price, rest, budget)
  {
    var init := options[..|options| - 1];
    if c in Branch(current, total, init, rest, budget) {
      o := BranchMember(current, total, init, rest, budget, c);
      assert o in options by {
        var k :| 0 <= k < |init| && init[k] == o;
        assert options[k] == o;
      }
    } else {
      o := options[|options| - 1];
    }
  }

  lemma {:induction false} BranchIncludes(current: seq<FlightLeg>, total: real, options: seq<FlightLeg>, rest: seq<seq<FlightLeg>>, budget: Option<real>, o: FlightLeg, c: Combination)
    requires o in options && Affordable(total + o.price, budget)
    requires c in Expand(current + [o], total + o.price, rest, budget)
    ensures c in Branch(current, total, options, rest, budget)
  {
    var init := options[..|options| - 1];
    if o != options[|options| - 1] {
      assert o in init by {
        var k :| 0 <= k < |options| && options[k] == o;
        assert k < |options| - 1 && init[k] == o;
      }
      BranchIncludes(current, total, init, rest, budget, o, c);
    }
  }

  /** Soundness: every combination extends `current` with one option per
      remaining leg; its total is the running total plus the chosen prices,
      within the budget; its id joins its flight numbers. */
  lemma ExpandSound(current: seq<FlightLeg>, total: real, remaining: seq<seq<FlightLeg>>, budget: Option<real>, c: Combination)
    requires c in Expand(current, total, remaining, budget)
    ensures |c.legs| == |current| + |remaining|
    ensures c.legs[..|current|] == current
    ensures Chooses(c.legs[|current|..], remaining)
    ensures c.totalPrice == total + Sum(c.legs[|current|..])
    ensures remaining != [] ==> Affordable(c.totalPrice, budget)
    ensures c.id == CombinationId(c.legs)
  {
    ExpandLegs(current, total, remaining, budget, c);
    ExpandTotal(current, total, remaining, budget, c);
  }

  /** The legs half of `ExpandSound`. */
  lemma {:induction false} ExpandLegs(current: seq<FlightLeg>, total: real, remaining: seq<seq<FlightLeg>>, budget: Option<real>, c: Combination)
    requires c in Expand(current, total, remaining, budget)
    ensures |c.legs| == |current| + |remaining|
    ensures c.legs[..|current|] == current
    ensures Chooses(c.legs[|current|..], remaining)
    ensures c.id == CombinationId(c.legs)
    decreases |remaining|
  {
    if remaining != [] {
      var o := BranchMember(current, total, remaining[0], remaining[1..], budget, c);
      ExpandLegs(current + [o], total + o.price, remaining[1..], budget, c);
      var n := |current|;
      var chosen := c.legs[n..];
      assert c.legs[..n] == current by {
        assert c.legs[..n] == (c.legs[..n + 1])[..n];
      }
      assert chosen[0] == o && chosen[1..] == c.legs[n + 1..] by {
        assert c.legs[..n + 1][n] == o;
      }
      forall k | 0 <= k < |chosen| ensures chosen[k] in remaining[k] {
        if k > 0 {
          assert chosen[k] == c.legs[n + 1..][k - 1];
        }
      }
    }
  }

  /** The price half of `ExpandSound`. */
  lemma {:induction false} ExpandTotal(current: seq<FlightLeg>, total: real, remaining: seq<seq<FlightLeg>>, budget: Option<real>, c: Combination)
    requires c in Expand(current, total, remaining, budget)
    ensures |c.legs| >= |current|
    ensures c.totalPrice == total + Sum(c.legs[|current|..])
    ensures remaining != [] ==> Affordable(c.totalPrice, budget)
    decreases |remaining|
  {
    if remaining != [] {
      var o := BranchMember(current, total, remaining[0], remaining[1..], budget, c);
      ExpandTotal(current + [o], total + o.price, remaining[1..], budget, c);
      var n := |current|;
      assert c.legs[n] == o && c.legs[n..][1..] == c.legs[n + 1..] by {
        ExpandLegs(current + [o], total + o.price, remaining[1..], budget, c);
        assert c.legs[..n + 1][n] == o;
      }
      assert Sum(c.legs[n..]) == o.price + Sum(c.legs[n + 1..]);
      if |remaining| == 1 {
        assert c.legs[n + 1..] == [] by {
          ExpandLegs(current + [o], total + o.price, remaining[1..], budget, c);
        }
      }
    }
  }

  lemma {:induction false} SumNonNegative(legs: seq<FlightLeg>)
    requires forall k :: 0 <= k < |legs| ==> legs[k].price >= 0.0
    ensures Sum(legs) >= 0.0
  {
    if legs != [] {
      SumNonNegative(legs[1..]);
    }
  }

  /** Completeness: with prices that are not negative, every choice of one
      option per remaining leg whose total is within the budget is produced. */
  lemma {:induction false} ExpandComplete(current: seq<FlightLeg>, total: real, remaining: seq<seq<FlightLeg>>, budget: Option<real>, chosen: seq<FlightLeg>)
    requires Chooses(chosen, remaining)
    requires forall k :: 0 <= k < |chosen| ==> chosen[k].price >= 0.0
    requires Affordable(total + Sum(chosen), budget)
    ensures Combination(CombinationId(current + chosen), current + chosen, total + Sum(chosen)) in Expand(current, total, remaining, budget)
    decreases |remaining|
  {
    if remaining == [] {
      assert chosen == [] && current + chosen == current;
    } else {
      var o := chosen[0];
      var tail := chosen[1..];
      SumNonNegative(tail);
      assert Chooses(tail, remaining[1..]) by {
        forall k | 0 <= k < |tail| ensures tail[k] in remaining[1..][k] {
          assert tail[k] == chosen[k + 1];
        }
      }
      assert total + o.price + Sum(tail) == total + Sum(chosen);
      ExpandComplete(current + [o], total + o.price, remaining[1..], budget, tail);
      assert current + [o] + tail == current + chosen;
      BranchIncludes(current, total, remaining[0], remaining[1..], budget, o,
        Combination(CombinationId(current + chosen), current + chosen, total + Sum(chosen)));
    }
  }

  /** A single leg: every option on its own, with no budget check. */
  function Single(l: FlightLeg): Combination
  {
    Combination("single_" + l.flightNumber, [l], l.price)
  }

  /** `generateCombinations`. */
  function Combinations(legOptions: seq<seq<FlightLeg>>, budget: Option<real>): seq<Combination>
  {
    if |legOptions| == 0 then []
    else if |legOptions| == 1 then Map(legOptions[0], Single)
    else Expand([], 0.0, legOptions, budget)
  }

  /** With two or more legs: each combination takes one option of every leg
      in order, costs the sum of its prices, is within the budget and is
      named by its flight numbers; and, prices being not negative, every such
      choice within the budget is produced. */
  lemma CombinationsOfLegs(legOptions: seq<seq<FlightLeg>>, budget: Option<real>)
    requires |legOptions| >= 2
    ensures forall c :: c in Combinations(legOptions, budget) ==>
      && Chooses(c.legs, legOptions)
      && c.totalPrice == Sum(c.legs)
      && Affordable(c.totalPrice, budget)
      && c.id == CombinationId(c.legs)
    ensures forall chosen: seq<FlightLeg> ::
      Chooses(chosen, legOptions) && (forall k :: 0 <= k < |chosen| ==> chosen[k].price >= 0.0) && Affordable(Sum(chosen), budget)
      ==> Combination(CombinationId(chosen), chosen, Sum(chosen)) in Combinations(legOptions, budget)
  {
    forall c | c in Combinations(legOptions, budget)
      ensures && Chooses(c.legs, legOptions) && c.totalPrice == Sum(c.legs)
              && Affordable(c.totalPrice, budget) && c.id == CombinationId(c.legs)
    {
      ExpandSound([], 0.0, legOptions, budget, c);
      assert c.legs[0..] == c.legs;
    }
    forall chosen: seq<FlightLeg> | Chooses(chosen, legOptions) && (forall k :: 0 <= k < |chosen| ==> chosen[k].price >= 0.0) && Affordable(Sum(chosen), budget)
      ensures Combination(CombinationId(chosen), chosen, Sum(chosen)) in Combinations(legOptions, budget)
    {
      ExpandComplete([], 0.0, legOptions, budget, chosen);
      assert [] + chosen == chosen;
    }
  }

  /** No legs give nothing; a single leg gives each option alone, named
      `single_<flight number>`, at its own price, whatever the budget. */
  lemma CombinationsOfFewLegs(legOptions: seq<seq<FlightLeg>>, budget: Option<real>)
    requires |legOptions| <= 1
    ensures |legOptions| == 0 ==> Combinations(legOptions, budget) == []
    ensures |legOptions| == 1 ==>
      && |Combinations(legOptions, budget)| == |legOptions[0]|
      && forall i :: 0 <= i < |legOptions[0]| ==>
           var c := Combinations(legOptions, budget)[i];
           c.id == "single_" + legOptions[0][i].flightNumber && c.legs == [legOptions[0][i]] && c.totalPrice == legOptions[0][i].price
  {
  }

  /** The recursive helper: appends the combinations it finds to `combinations`. */
  method GenerateRecursive(combinations: seq<Combination>, current: seq<FlightLeg>, remaining: seq<seq<FlightLeg>>, totalPrice: real, budget: Option<real>)
    returns (out: seq<Combination>)
    ensures out == combinations + Expand(current, totalPrice, remaining, budget)
    decreases |remaining|
  {
    if remaining == [] {
      out := combinations + [Combination(CombinationId(current), current, totalPrice)];
      return;
    }
    var next := remaining[0];
    var rest := remaining[1..];
    out := combinations;
    var i := 0;
    while i < |next|
      invariant 0 <= i <= |next|
      invariant out == combinations + Branch(current, totalPrice, next[..i], rest, budget)
    {
      assert next[..i + 1][..i] == next[..i];
      var leg := next[i];
      var newTotal := totalPrice + leg.price;
      if Affordable(newTotal, budget) {
        out := GenerateRecursive(out, current + [leg], rest, newTotal, budget);
      }
      i := i + 1;
    }
    assert next[..i] == next;
  }

  /** `generateCombinations`, with its first-leg loop. */
  method GenerateCombinations(legOptions: seq<seq<FlightLeg>>, budget: Option<real>) returns (combinations: seq<Combination>)
    ensures combinations == Combinations(legOptions, budget)
  {
    if |legOptions| == 0 {
      return [];
    }
    if |legOptions| == 1 {
      return Map(legOptions[0], Single);
    }
    var first := legOptions[0];
    var rest := legOptions[1..];
    combinations := [];
    var i := 0;
    while i < |first|
      invariant 0 <= i <= |first|
      invariant combinations == Branch([], 0.0, first[..i], rest, budget)
    {
      assert first[..i + 1][..i] == first[..i];
      var leg := first[i];
      assert [] + [leg] == [leg] && 0.0 + leg.price == leg.price;
      if Affordable(leg.price, budget) {
        combinations := GenerateRecursive(combinations, [leg], rest, leg.price, budget);
      }
      i := i + 1;
    }
    assert first[..i] == first;
  }

  // ---------------------------------------------------------------------
  // Ranking

  datatype HackItinerary = HackItinerary(id: string, legs: seq<FlightLeg>, totalPrice: real, savings: Option<real>)

  predicate ByTotal(a: Combination, b: Combination)
  {
    a.totalPrice <= b.totalPrice
  }

  lemma ByTotalIsTotalPreorder()
    ensures TotalPreorder(ByTotal)
  {
  }

  /** `Math.max(0, total * 1.3 - total)`, shown only above 50. */
  function Savings(total: real): Option<real>
  {
    var estimate := total * 1.3 - total;
    var savings := if estimate > 0.0 then estimate else 0.0;
    if savings > 50.0 then Some(savings) else None
  }

  function Enhance(c: Combination): HackItinerary
  {
    HackItinerary(c.id, c.legs, c.totalPrice, Savings(c.totalPrice))
  }

  /** `sort(by totalPrice).slice(0, 5).map(enhance)`. */
  function Rank(combinations: seq<Combination>): seq<HackItinerary>
  {
    ByTotalIsTotalPreorder();
    Map(TopBy(combinations, ByTotal, 5), Enhance)
  }

  function Strip(h: HackItinerary): Combination
  {
    Combination(h.id, h.legs, h.totalPrice)
  }

  /** `Math.max(0, total * 1.3 - total)` is 30% of a positive total, and is
      shown only when it exceeds 50. */
  lemma SavingsShown(total: real)
    ensures Savings(total) == if 0.3 * total > 50.0 then Some(0.3 * total) else None
  {
    assert total * 1.3 - total == 0.3 * total;
  }

  /** What is shown is what the stable sort put first. */
  lemma RankIsTop(combinations: seq<Combination>)
    ensures (ByTotalIsTotalPreorder(); Map(Rank(combinations), Strip) == TopBy(combinations, ByTotal, 5))
  {
    ByTotalIsTotalPreorder();
    var r := Rank(combinations);
    var top := TopBy(combinations, ByTotal, 5);
    assert forall i :: 0 <= i < |r| ==> Strip(r[i]) == top[i];
  }

  /** At most five itineraries, cheapest first, each shown with its savings estimate. */
  lemma RankOrder(combinations: seq<Combination>)
    ensures var r := Rank(combinations);
      && |r| == (if |combinations| <= 5 then |combinations| else 5)
      && (forall i, j :: 0 <= i < j < |r| ==> r[i].totalPrice <= r[j].totalPrice)
      && (forall i :: 0 <= i < |r| ==> r[i].savings == Savings(r[i].totalPrice))
  {
    ByTotalIsTotalPreorder();
    var top := TopBy(combinations, ByTotal, 5);
    var r := Rank(combinations);
    forall i, j | 0 <= i < j < |r| ensures r[i].totalPrice <= r[j].totalPrice {
      assert ByTotal(top[i], top[j]);
    }
  }

  /** The shown itineraries are combinations that were found (all of them
      when there are at most five), and no combination left out is cheaper
      than one shown. */
  lemma RankKeepsCheapest(combinations: seq<Combination>)
    ensures var shown := Map(Rank(combinations), Strip);
      && multiset(shown) <= multiset(combinations)
      && (|combinations| <= 5 ==> multiset(shown) == multiset(combinations))
      && (forall x, y :: x in shown && y in multiset(combinations) - multiset(shown) ==> x.totalPrice <= y.totalPrice)
  {
    ByTotalIsTotalPreorder();
    RankIsTop(combinations);
    TopByKeepsLeast(combinations, ByTotal, 5);
    var shown := Map(Rank(combinations), Strip);
    forall x, y | x in shown && y in multiset(combinations) - multiset(shown)
      ensures x.totalPrice <= y.totalPrice
    {
      assert ByTotal(x, y);
    }
  }

  // ---------------------------------------------------------------------
  // The whole simulation

  /** The legs the simulation searches: origin (upper-cased) to the first
      destination and on through the rest. The form checks guarantee one
      date per destination; any other form has no route. */
  function Route(form: Form): seq<LegRequest>
  {
    var destinations := DestinationCodes(form.destinations);
    var dates := DateStrings(form.departureDates);
    if |dates| == |destinations| then Legs(ToUpper(form.origin), destinations, dates) else []
  }

  /** A valid form has one date per destination, so its route is the chain of legs. */
  lemma ValidFormHasRoute(form: Form, parseDate: string -> Option<int>, number: string -> Option<real>, today: int)
    requires FormErrors(form, parseDate, number, today) == map[]
    ensures |DateStrings(form.departureDates)| == |DestinationCodes(form.destinations)|
  {
    var checks := FormChecks(form, parseDate, number, today);
    ErrorsEmptyIff4(checks[0], checks[1], checks[2], checks[3]);
    assert checks == [checks[0], checks[1], checks[2], checks[3]];
  }

  /** The search, enumeration and ranking once the form is valid. */
  method SearchRoute(form: Form, budget: Option<real>, search: LegRequest -> SearchOutcome)
    returns (itineraries: seq<HackItinerary>)
    requires |DateStrings(form.departureDates)| == |DestinationCodes(form.destinations)|
    ensures itineraries == Rank(Combinations(AllLegOptions(Route(form), search), budget))
  {
    var destinations := DestinationCodes(form.destinations);
    var dates := DateStrings(form.departureDates);
    var legs := BuildLegs(ToUpper(form.origin), destinations, dates);
    var options := SearchLegs(legs, search);
    var combinations := GenerateCombinations(options, budget);
    itineraries := Rank(combinations);
  }

  /** `simulateMultiCityHacks`. `search` answers the flight search for a leg;
      `parseFloat` reads the budget for the enumeration (`None` for NaN). An
      invalid form returns before the itineraries are cleared, so `shown`
      (what is on screen) stays. */
  method Simulate(
    form: Form, parseDate: string -> Option<int>, number: string -> Option<real>,
    parseFloat: string -> Option<real>, today: int, search: LegRequest -> SearchOutcome,
    shown: seq<HackItinerary>)
    returns (errors: map<string, string>, itineraries: seq<HackItinerary>)
    ensures errors == FormErrors(form, parseDate, number, today)
    ensures errors != map[] ==> itineraries == shown
    ensures errors == map[] ==>
      itineraries == Rank(Combinations(AllLegOptions(Route(form), search), parseFloat(form.budget)))
  {
    var valid;
    errors, valid := ValidateForm(form, parseDate, number, today);
    if !valid {
      return errors, shown;
    }
    ValidFormHasRoute(form, parseDate, number, today);
    itineraries := SearchRoute(form, parseFloat(form.budget), search);
  }
}

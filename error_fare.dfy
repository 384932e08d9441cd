/** The error-fare scanner: estimates a baseline price for a route from one
    search, flags the offers of a second search priced at or below the
    baseline times a threshold, and shows the three with the lowest ratio of
    price to baseline. */
module ErrorFare {
  import opened Wrappers
  import opened Seqs
  import opened Text
  import opened FlightOffers

  datatype Form = Form(origin: string, destination: string, travelDate: string, anomalyThreshold: string)

  // ---------------------------------------------------------------------
  // Form checks

  /** The destination: an airport code, and not the origin (compared upper-cased). */
  function DestinationError(destination: string, origin: string): Option<string>
  {
    OtherCodeError(destination, origin, "Destination is required", "Destination must be a 3-letter IATA code (e.g., JFK)",
      "Destination must be different from origin")
  }

  /** The threshold: required, then `parseFloat` must give a number in (0, 1]. */
  function ThresholdError(raw: string, parseFloat: string -> Option<real>): (e: Option<string>)
    ensures e.None? <==> !IsBlank(raw) && parseFloat(raw).Some? && 0.0 < parseFloat(raw).value <= 1.0
  {
    if IsBlank(raw) then Some("Anomaly threshold is required")
    else match parseFloat(raw)
      case None => Some("Threshold must be between 0.1 and 1.0 (e.g., 0.7 for 70%)")
      case Some(t) =>
        if t <= 0.0 || t > 1.0 then Some("Threshold must be between 0.1 and 1.0 (e.g., 0.7 for 70%)") else None
  }

  function FormChecks(form: Form, parseDate: string -> Option<int>, parseFloat: string -> Option<real>, today: int): seq<(string, Option<string>)>
  {
    [ ("origin", CodeError(form.origin, "Origin is required", "Origin must be a 3-letter IATA code (e.g., LAX)")),
      ("destination", DestinationError(form.destination, form.origin)),
      ("travelDate", DateError(form.travelDate, "Travel date", parseDate, today)),
      ("anomalyThreshold", ThresholdError(form.anomalyThreshold, parseFloat)) ]
  }

  function FormErrors(form: Form, parseDate: string -> Option<int>, parseFloat: string -> Option<real>, today: int): map<string, string>
  {
    Errors(FormChecks(form, parseDate, parseFloat, today))
  }

  /** The form is valid exactly when origin and destination are different
      airport codes, a travel date is given that is not before today (a date
      that cannot be read passes), and the threshold is a number in (0, 1]. */
  lemma FormValidIff(form: Form, parseDate: string -> Option<int>, parseFloat: string -> Option<real>, today: int)
    ensures FormErrors(form, parseDate, parseFloat, today) == map[] <==>
      && IsIataCode(form.origin)
      && IsIataCode(form.destination)
      && ToUpper(form.destination) != ToUpper(form.origin)
      && form.travelDate != ""
      && (parseDate(form.travelDate).None? || parseDate(form.travelDate).value >= today)
      && !IsBlank(form.anomalyThreshold)
      && parseFloat(form.anomalyThreshold).Some?
      && 0.0 < parseFloat(form.anomalyThreshold).value <= 1.0
  {
    var checks := FormChecks(form, parseDate, parseFloat, today);
    ErrorsEmptyIff4(checks[0], checks[1], checks[2], checks[3]);
    assert checks == [checks[0], checks[1], checks[2], checks[3]];
  }

  /** `validateForm`: fills the errors field by field. */
  method ValidateForm(form: Form, parseDate: string -> Option<int>, parseFloat: string -> Option<real>, today: int)
    returns (errors: map<string, string>, valid: bool)
    ensures errors == FormErrors(form, parseDate, parseFloat, today)
    ensures valid <==> errors == map[]
  {
    var origin := CodeError(form.origin, "Origin is required", "Origin must be a 3-letter IATA code (e.g., LAX)");
    var destination := DestinationError(form.destination, form.origin);
    var travel := DateError(form.travelDate, "Travel date", parseDate, today);
    var threshold := ThresholdError(form.anomalyThreshold, parseFloat);
    errors := map[];
    errors := Record(errors, "origin", origin);
    errors := Record(errors, "destination", destination);
    errors := Record(errors, "travelDate", travel);
    errors := Record(errors, "anomalyThreshold", threshold);
    ErrorsInOrder4(("origin", origin), ("destination", destination), ("travelDate", travel), ("anomalyThreshold", threshold));
    valid := errors.Keys == {};
    assert valid ==> errors == map[];
  }

  // ---------------------------------------------------------------------
  // Averages

  /** `reduce((sum, p) => sum + p, 0)`, left to right. */
  function Sum(xs: seq<real>): real
  {
    if xs == [] then 0.0 else Sum(xs[..|xs| - 1]) + xs[|xs| - 1]
  }

  function Mean(xs: seq<real>): real
    requires |xs| > 0
  {
    Sum(xs) / (|xs| as real)
  }

  lemma {:induction false} SumBounds(xs: seq<real>, lo: real, hi: real)
    requires forall i :: 0 <= i < |xs| ==> lo <= xs[i] <= hi
    ensures (|xs| as real) * lo <= Sum(xs) <= (|xs| as real) * hi
  {
    if xs != [] {
      var init := xs[..|xs| - 1];
      SumBounds(init, lo, hi);
      assert (|xs| as real) * lo == (|init| as real) * lo + lo;
      assert (|xs| as real) * hi == (|init| as real) * hi + hi;
    }
  }

  /** The mean lies between any lower and upper bound of the values; in
      particular the mean of equal values is that value. */
  lemma MeanBounds(xs: seq<real>, lo: real, hi: real)
    requires |xs| > 0
    requires forall i :: 0 <= i < |xs| ==> lo <= xs[i] <= hi
    ensures lo <= Mean(xs) <= hi
  {
    SumBounds(xs, lo, hi);
    var n := |xs| as real;
    var m := Mean(xs);
    assert m * n == Sum(xs);
    assert n * lo <= n * m <= n * hi;
  }

  /** A historical price record: `price` may be absent. */
  datatype PricePoint = PricePoint(price: Option<string>)

  /** The records with a price that `parseFloat` can read, read. */
  function ValidPrices(data: seq<PricePoint>, parseFloat: string -> Option<real>): (r: seq<real>)
    ensures |r| <= |data|
  {
    if data == [] then []
    else
      var item := data[|data| - 1];
      ValidPrices(data[..|data| - 1], parseFloat)
        + (if item.price.Some? && item.price.value != "" && parseFloat(item.price.value).Some?
           then [parseFloat(item.price.value).value] else [])
  }

  /** `calculateAveragePrice`: 0 without readable prices, else their mean. */
  function AveragePrice(data: seq<PricePoint>, parseFloat: string -> Option<real>): real
  {
    var prices := ValidPrices(data, parseFloat);
    if |prices| == 0 then 0.0 else Mean(prices)
  }

  /** No records, or no readable price, give 0; otherwise the average lies
      between the lowest and the highest readable price. */
  lemma AveragePriceFacts(data: seq<PricePoint>, parseFloat: string -> Option<real>, lo: real, hi: real)
    ensures data == [] ==> AveragePrice(data, parseFloat) == 0.0
    ensures ValidPrices(data, parseFloat) == [] ==> AveragePrice(data, parseFloat) == 0.0
    ensures var prices := ValidPrices(data, parseFloat);
      prices != [] && (forall i :: 0 <= i < |prices| ==> lo <= prices[i] <= hi) ==>
        lo <= AveragePrice(data, parseFloat) <= hi
  {
    var prices := ValidPrices(data, parseFloat);
    if prices != [] && (forall i :: 0 <= i < |prices| ==> lo <= prices[i] <= hi) {
      MeanBounds(prices, lo, hi);
    }
  }

  function Prices(offers: seq<FlightOffer>): (r: seq<real>)
    ensures |r| == |offers| && forall i :: 0 <= i < |r| ==> r[i] == offers[i].price.total
  {
    Map(offers, (o: FlightOffer) => o.price.total)
  }

  const DefaultBaseline := 300.0

  /** `simulatePriceInsights`: 1.2 times the mean offer price, or 300 when
      there are no offers or the request fails. */
  function Baseline(outcome: SearchOutcome): real
  {
    if outcome.Offers? && |outcome.data| > 0 then Mean(Prices(outcome.data)) * 1.2 else DefaultBaseline
  }

  /** The baseline is 300 without offers; with offers it lies between 1.2
      times the lowest and 1.2 times the highest price, so it is positive
      when every price is. */
  lemma BaselineFacts(outcome: SearchOutcome, lo: real, hi: real)
    ensures !(outcome.Offers? && |outcome.data| > 0) ==> Baseline(outcome) == 300.0
    ensures outcome.Offers? && |outcome.data| > 0 && (forall i :: 0 <= i < |outcome.data| ==> lo <= outcome.data[i].price.total <= hi) ==>
      1.2 * lo <= Baseline(outcome) <= 1.2 * hi
  {
    if outcome.Offers? && |outcome.data| > 0 && (forall i :: 0 <= i < |outcome.data| ==> lo <= outcome.data[i].price.total <= hi) {
      MeanBounds(Prices(outcome.data), lo, hi);
    }
  }

  // ---------------------------------------------------------------------
  // Detection

  /** A flagged fare. `anomalyScore` and `savingsPercent` are `None` where the
      source divides by a zero baseline (NaN or an infinity). */
  datatype ErrorFare = ErrorFare(
    id: string, price: Price, segments: seq<Segment>, validatingAirlineCodes: seq<string>,
    averagePrice: real, savingsPercent: Option<real>, anomalyScore: Option<real>)

  predicate Flagged(o: FlightOffer, baseline: real, threshold: real)
  {
    o.price.total <= baseline * threshold
  }

  /** The fare recorded for a flagged offer with a first itinerary. */
  function ToErrorFare(o: FlightOffer, baseline: real): ErrorFare
    requires |o.itineraries| > 0
  {
    ErrorFare(
      o.id, o.price, Map(o.itineraries[0].segments, CopySegment), o.validatingAirlineCodes, baseline,
      if baseline != 0.0 then Some((baseline - o.price.total) / baseline * 100.0) else None,
      if baseline != 0.0 then Some(o.price.total / baseline) else None)
  }

  /** The scan loop: every flagged offer in order. Reading the first
      itinerary of a flagged offer that has none throws, and the scan fails. */
  function Detect(offers: seq<FlightOffer>, baseline: real, threshold: real): Option<seq<ErrorFare>>
  {
    if offers == [] then Some([])
    else
      var o := offers[|offers| - 1];
      match Detect(offers[..|offers| - 1], baseline, threshold)
      case None => None
      case Some(fares) =>
        if !Flagged(o, baseline, threshold) then Some(fares)
        else if |o.itineraries| == 0 then None
        else Some(fares + [ToErrorFare(o, baseline)])
  }

  /** With a positive baseline, a flagged fare's score is at most the
      threshold and its savings at least (1 - threshold) x 100 percent. */
  lemma FlaggedScore(o: FlightOffer, baseline: real, threshold: real)
    requires baseline > 0.0 && |o.itineraries| > 0
    requires Flagged(o, baseline, threshold)
    ensures var f := ToErrorFare(o, baseline);
      && f.anomalyScore.Some? && f.anomalyScore.value <= threshold
      && f.savingsPercent.Some? && f.savingsPercent.value >= (1.0 - threshold) * 100.0
      && f.savingsPercent.value == (1.0 - f.anomalyScore.value) * 100.0
  {
    var p := o.price.total;
    var score := p / baseline;
    assert score * baseline == p;
    assert score <= threshold by {
      assert score * baseline <= threshold * baseline;
    }
    var q := (baseline - p) / baseline;
    assert q * baseline == baseline - p;
    assert (1.0 - score) * baseline == baseline - p;
    CancelFactor(q, 1.0 - score, baseline);
    var f := ToErrorFare(o, baseline);
    assert f.anomalyScore == Some(score);
    assert f.savingsPercent == Some(q * 100.0);
    assert q * 100.0 >= (1.0 - threshold) * 100.0;
  }

  lemma CancelFactor(x: real, y: real, b: real)
    requires b > 0.0 && x * b == y * b
    ensures x == y
  {
  }

  /** `o => o.price.total <= baseline * threshold`. */
  function IsFlagged(baseline: real, threshold: real): FlightOffer -> bool
  {
    o => Flagged(o, baseline, threshold)
  }

  /** When the scan succeeds it keeps exactly the flagged offers, in order,
      each recorded with its own id, price and the baseline; it fails only
      when a flagged offer has no itinerary. */
  lemma DetectFacts(offers: seq<FlightOffer>, baseline: real, threshold: real)
    ensures Detect(offers, baseline, threshold).None? <==>
      exists i :: 0 <= i < |offers| && Flagged(offers[i], baseline, threshold) && |offers[i].itineraries| == 0
    ensures Detect(offers, baseline, threshold).Some? ==>
      var fares := Detect(offers, baseline, threshold).value;
      var flagged := Filter(offers, IsFlagged(baseline, threshold));
      && |fares| == |flagged|
      && forall i :: 0 <= i < |fares| ==>
           fares[i].id == flagged[i].id && fares[i].price == flagged[i].price && fares[i].averagePrice == baseline
  {
    DetectFails(offers, baseline, threshold);
    DetectKeeps(offers, baseline, threshold);
  }

  ghost predicate Unreadable(offers: seq<FlightOffer>, baseline: real, threshold: real)
  {
    exists i :: 0 <= i < |offers| && Flagged(offers[i], baseline, threshold) && |offers[i].itineraries| == 0
  }

  lemma {:induction false} DetectFails(offers: seq<FlightOffer>, baseline: real, threshold: real)
    ensures Detect(offers, baseline, threshold).None? <==> Unreadable(offers, baseline, threshold)
  {
    if offers != [] {
      var init := offers[..|offers| - 1];
      var n := |offers| - 1;
      DetectFails(init, baseline, threshold);
      if Unreadable(init, baseline, threshold) {
        var i :| 0 <= i < |init| && Flagged(init[i], baseline, threshold) && |init[i].itineraries| == 0;
        assert offers[i] == init[i];
      }
      if Unreadable(offers, baseline, threshold) {
        var i :| 0 <= i < |offers| && Flagged(offers[i], baseline, threshold) && |offers[i].itineraries| == 0;
        if i < n {
          assert offers[i] == init[i];
        }
      }
    }
  }

  /** Agreement of a fare with the offer it was recorded from. */
  ghost predicate RecordedFrom(fares: seq<ErrorFare>, flagged: seq<FlightOffer>, baseline: real)
  {
    && |fares| == |flagged|
    && forall i :: 0 <= i < |fares| ==>
         fares[i].id == flagged[i].id && fares[i].price == flagged[i].price && fares[i].averagePrice == baseline
  }

  lemma {:induction false} DetectKeeps(offers: seq<FlightOffer>, baseline: real, threshold: real)
    ensures Detect(offers, baseline, threshold).Some? ==>
      RecordedFrom(Detect(offers, baseline, threshold).value, Filter(offers, IsFlagged(baseline, threshold)), baseline)
  {
    if offers != [] && Detect(offers, baseline, threshold).Some? {
      var init := offers[..|offers| - 1];
      var o := offers[|offers| - 1];
      DetectKeeps(init, baseline, threshold);
      var fares0 := Detect(init, baseline, threshold).value;
      var p := IsFlagged(baseline, threshold);
      var flagged0 := Filter(init, p);
      var fares := Detect(offers, baseline, threshold).value;
      var flagged := Filter(offers, p);
      if Flagged(o, baseline, threshold) {
        assert flagged == flagged0 + [o] by {
          assert p(o);
        }
        assert fares == fares0 + [ToErrorFare(o, baseline)];
        forall i | 0 <= i < |fares| ensures fares[i].id == flagged[i].id && fares[i].price == flagged[i].price && fares[i].averagePrice == baseline {
          if i < |fares0| {
            assert fares[i] == fares0[i] && flagged[i] == flagged0[i];
          }
        }
      } else {
        assert flagged == flagged0 by {
          assert !p(o);
        }
        assert fares == fares0;
      }
    }
  }

  /** The scan loop as written, pushing flagged fares. */
  method ScanOffers(offers: seq<FlightOffer>, baseline: real, threshold: real) returns (fares: Option<seq<ErrorFare>>)
    ensures fares == Detect(offers, baseline, threshold)
  {
    var found: seq<ErrorFare> := [];
    var i := 0;
    while i < |offers|
      invariant 0 <= i <= |offers|
      invariant Detect(offers[..i], baseline, threshold) == Some(found)
    {
      var o := offers[i];
      assert offers[..i + 1][..i] == offers[..i];
      if o.price.total <= baseline * threshold {
        if |o.itineraries| == 0 {
          DetectFailureStays(offers, i + 1, baseline, threshold);
          assert offers[..|offers|] == offers;
          return None;
        }
        found := found + [ToErrorFare(o, baseline)];
      }
      i := i + 1;
    }
    assert offers[..i] == offers;
    return Some(found);
  }

  /** Once the scan of a prefix fails, the scan of the whole list fails. */
  lemma {:induction false} DetectFailureStays(offers: seq<FlightOffer>, k: nat, baseline: real, threshold: real)
    requires k <= |offers|
    requires Detect(offers[..k], baseline, threshold).None?
    ensures Detect(offers, baseline, threshold).None?
    decreases |offers| - k
  {
    if k < |offers| {
      assert offers[..k + 1][..k] == offers[..k];
      DetectFailureStays(offers, k + 1, baseline, threshold);
    } else {
      assert offers[..k] == offers;
    }
  }

  /** The sort key of `(a, b) => a.anomalyScore - b.anomalyScore`. A zero
      baseline makes every score of the scan NaN or infinite, so every
      comparison of that scan reads as equal, as the key 0 makes them. */
  function ScoreKey(f: ErrorFare): real
  {
    if f.anomalyScore.Some? then f.anomalyScore.value else 0.0
  }

  predicate ByScore(a: ErrorFare, b: ErrorFare)
  {
    ScoreKey(a) <= ScoreKey(b)
  }

  lemma ByScoreIsTotalPreorder()
    ensures TotalPreorder(ByScore)
  {
  }

  /** `sort(by anomalyScore).slice(0, 3)`. */
  function TopFares(fares: seq<ErrorFare>): seq<ErrorFare>
  {
    ByScoreIsTotalPreorder();
    TopBy(fares, ByScore, 3)
  }

  /** At most three fares, lowest score first, all among the flagged ones,
      and none left out with a lower score than one shown. */
  lemma TopFaresFacts(fares: seq<ErrorFare>)
    ensures var r := TopFares(fares);
      && |r| == (if |fares| <= 3 then |fares| else 3)
      && (forall i, j :: 0 <= i < j < |r| ==> ScoreKey(r[i]) <= ScoreKey(r[j]))
      && multiset(r) <= multiset(fares)
      && (forall x, y :: x in r && y in multiset(fares) - multiset(r) ==> ScoreKey(x) <= ScoreKey(y))
  {
    ByScoreIsTotalPreorder();
    var r := TopFares(fares);
    TopByKeepsLeast(fares, ByScore, 3);
    forall i, j | 0 <= i < j < |r| ensures ScoreKey(r[i]) <= ScoreKey(r[j]) {
      assert ByScore(r[i], r[j]);
    }
    forall x, y | x in r && y in multiset(fares) - multiset(r) ensures ScoreKey(x) <= ScoreKey(y) {
      assert ByScore(x, y);
    }
  }

  // ---------------------------------------------------------------------
  // The scan

  /** The request body of both searches; only `max` differs (20 for the
      baseline, 15 for the scan). */
  datatype SearchParams = SearchParams(
    originLocationCode: string, destinationLocationCode: string, departureDate: string,
    currencyCode: string, adults: string, max: string)

  function Request(form: Form, max: string): SearchParams
  {
    SearchParams(ToUpper(form.origin), ToUpper(form.destination), form.travelDate, "USD", "1", max)
  }

  /** What the scan shows: the top fares when the second search returns
      offers and every flagged offer can be read; nothing otherwise. */
  function Shown(outcome: SearchOutcome, baseline: real, threshold: real): seq<ErrorFare>
  {
    if outcome.Offers? then
      match Detect(outcome.data, baseline, threshold)
      case Some(fares) => TopFares(fares)
      case None => []
    else []
  }

  /** `scanForErrorFares`: validates; an invalid form returns before the
      results are cleared, so `shownAverage` and `shownFares` (what is on
      screen) stay. A valid one shows the baseline from the first search and
      the top fares of the second. */
  method ScanForErrorFares(
    form: Form, parseDate: string -> Option<int>, parseFloat: string -> Option<real>, today: int,
    respond: SearchParams -> SearchOutcome, shownAverage: Option<real>, shownFares: seq<ErrorFare>)
    returns (errors: map<string, string>, averagePrice: Option<real>, errorFares: seq<ErrorFare>)
    ensures errors == FormErrors(form, parseDate, parseFloat, today)
    ensures errors != map[] ==> averagePrice == shownAverage && errorFares == shownFares
    ensures errors == map[] ==>
      && parseFloat(form.anomalyThreshold).Some?
      && averagePrice == Some(Baseline(respond(Request(form, "20"))))
      && errorFares == Shown(respond(Request(form, "15")), averagePrice.value, parseFloat(form.anomalyThreshold).value)
  {
    var valid;
    errors, valid := ValidateForm(form, parseDate, parseFloat, today);
    if !valid {
      return errors, shownAverage, shownFares;
    }
    FormValidIff(form, parseDate, parseFloat, today);
    var threshold := parseFloat(form.anomalyThreshold).value;
    var baseline := Baseline(respond(Request(form, "20")));
    averagePrice := Some(baseline);
    var outcome := respond(Request(form, "15"));
    errorFares := [];
    if outcome.Offers? {
      var fares := ScanOffers(outcome.data, baseline, threshold);
      if fares.Some? {
        errorFares := TopFares(fares.value);
      }
    }
  }
}

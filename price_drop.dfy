/** The price-drop notifier: joins the tracked routes with their stored price
    records when it loads, and on each check asks for the current offers of
    every route, records the lowest price, and flags a drop. */
module PriceDrop {
  import opened Wrappers
  import opened Seqs
  import opened FlightOffers
  import opened BudgetTracker

  /** A tracked route with its price history. `lastPrice` is `None` where
      the source holds NaN (`parseFloat` of a budget that is not a number). */
  datatype RouteWithPrice = RouteWithPrice(
    route: TrackedRoute,
    lastPrice: Option<real>,
    currentPrice: Option<real>,
    lastChecked: Option<string>,
    priceDropDetected: bool)

  // ---------------------------------------------------------------------
  // Loading

  /** The first stored record whose route has the key (`existingPrices.find`). */
  function FindByKey(records: seq<RouteWithPrice>, key: string): (r: Option<RouteWithPrice>)
    ensures r.Some? ==> exists i :: FirstWithKey(records, key, i) && records[i] == r.value
    ensures r.None? ==> forall i :: 0 <= i < |records| ==> KeyOf(records[i].route) != key
  {
    if records == [] then None
    else if KeyOf(records[0].route) == key then
      assert FirstWithKey(records, key, 0);
      Some(records[0])
    else
      var r := FindByKey(records[1..], key);
      if r.Some? then
        assert exists i :: FirstWithKey(records, key, i) && records[i] == r.value by {
          var i :| FirstWithKey(records[1..], key, i) && records[1..][i] == r.value;
          assert forall j :: 1 <= j < i + 1 ==> records[j] == records[1..][j - 1];
          assert FirstWithKey(records, key, i + 1);
        }
        r
      else r
  }

  /** `records[i]` is the first record with the key. */
  ghost predicate FirstWithKey(records: seq<RouteWithPrice>, key: string, i: int)
  {
    && 0 <= i < |records| && KeyOf(records[i].route) == key
    && forall j :: 0 <= j < i ==> KeyOf(records[j].route) != key
  }

  /** The record a tracked route gets at load: its stored record if one has
      the same key, otherwise a fresh one priced at the route's budget. */
  function Merged(route: TrackedRoute, existing: seq<RouteWithPrice>, parseFloat: string -> Option<real>): RouteWithPrice
  {
    match FindByKey(existing, KeyOf(route))
    case Some(record) => record
    case None => RouteWithPrice(route, parseFloat(route.budget), None, None, false)
  }

  /** `routes.map(route => existing.find(same key) || fresh record)`. */
  function Merge(routes: seq<TrackedRoute>, existing: seq<RouteWithPrice>, parseFloat: string -> Option<real>): seq<RouteWithPrice>
  {
    Map(routes, (r: TrackedRoute) => Merged(r, existing, parseFloat))
  }

  /** One entry per tracked route, in tracked order, each carrying the
      route's key: the first stored record with that key, reused as is, or
      else a fresh record whose last price is the budget, with no current
      price, no check time and no drop. */
  lemma MergeFacts(routes: seq<TrackedRoute>, existing: seq<RouteWithPrice>, parseFloat: string -> Option<real>)
    ensures var m := Merge(routes, existing, parseFloat);
      && |m| == |routes|
      && (forall i :: 0 <= i < |m| ==> KeyOf(m[i].route) == KeyOf(routes[i]))
      && (forall i :: 0 <= i < |m| ==>
            (exists j :: 0 <= j < |existing| && KeyOf(existing[j].route) == KeyOf(routes[i]))
              ==> exists j :: FirstWithKey(existing, KeyOf(routes[i]), j) && m[i] == existing[j])
      && (forall i :: 0 <= i < |m| ==>
            (forall j :: 0 <= j < |existing| ==> KeyOf(existing[j].route) != KeyOf(routes[i]))
              ==> m[i] == RouteWithPrice(routes[i], parseFloat(routes[i].budget), None, None, false))
  {
    var m := Merge(routes, existing, parseFloat);
    forall i | 0 <= i < |m| ensures KeyOf(m[i].route) == KeyOf(routes[i]) {
      var found := FindByKey(existing, KeyOf(routes[i]));
      if found.Some? {
        var j :| FirstWithKey(existing, KeyOf(routes[i]), j) && existing[j] == found.value;
      }
    }
    forall i | 0 <= i < |m| && (exists j :: 0 <= j < |existing| && KeyOf(existing[j].route) == KeyOf(routes[i]))
      ensures exists j :: FirstWithKey(existing, KeyOf(routes[i]), j) && m[i] == existing[j]
    {
      var found := FindByKey(existing, KeyOf(routes[i]));
      assert found.Some?;
      var j :| FirstWithKey(existing, KeyOf(routes[i]), j) && existing[j] == found.value;
      assert m[i] == existing[j];
    }
  }

  /** What the notifier shows after loading. With no tracked routes stored
      nothing is shown; a stored value that does not parse (either slot) is
      reported and nothing is shown; a missing price slot counts as empty. */
  function Load(tracked: Slot<seq<TrackedRoute>>, prices: Slot<seq<RouteWithPrice>>, parseFloat: string -> Option<real>): seq<RouteWithPrice>
  {
    match tracked
    case Missing => []
    case Corrupt => []
    case Stored(routes) =>
      match prices
      case Corrupt => []
      case Missing => Merge(routes, [], parseFloat)
      case Stored(existing) => Merge(routes, existing, parseFloat)
  }

  /** Without stored prices every tracked route starts fresh at its budget. */
  lemma LoadWithoutPrices(routes: seq<TrackedRoute>, parseFloat: string -> Option<real>)
    ensures var m := Load(Stored(routes), Missing, parseFloat);
      && |m| == |routes|
      && forall i :: 0 <= i < |m| ==> m[i] == RouteWithPrice(routes[i], parseFloat(routes[i].budget), None, None, false)
  {
    MergeFacts(routes, [], parseFloat);
  }

  // ---------------------------------------------------------------------
  // Checking

  /** `Math.min(...prices)` of a non-empty offer list. */
  function LowestPrice(offers: seq<FlightOffer>): (m: real)
    requires |offers| > 0
    ensures exists i :: 0 <= i < |offers| && offers[i].price.total == m
    ensures forall i :: 0 <= i < |offers| ==> m <= offers[i].price.total
  {
    if |offers| == 1 then offers[0].price.total
    else
      var rest := LowestPrice(offers[1..]);
      assert forall i :: 1 <= i < |offers| ==> offers[i] == offers[1..][i - 1];
      if offers[0].price.total <= rest then offers[0].price.total else rest
  }

  /** `currentPrice || lastPrice`: a current price of 0 counts as absent. */
  function PreviousPrice(r: RouteWithPrice): Option<real>
  {
    if r.currentPrice.Some? && r.currentPrice.value != 0.0 then r.currentPrice else r.lastPrice
  }

  /** The update rule for one route. With offers, the current price becomes
      the lowest offer price and a drop is flagged when that is below the
      previous price, in which case the last price follows it. With no
      offers, a failed request or an error, only the check time changes. */
  function Update(r: RouteWithPrice, outcome: SearchOutcome, now: string): RouteWithPrice
  {
    if outcome.Offers? && |outcome.data| > 0 then
      var lowest := LowestPrice(outcome.data);
      var previous := PreviousPrice(r);
      var drop := previous.Some? && lowest < previous.value;
      RouteWithPrice(r.route, if drop then Some(lowest) else r.lastPrice, Some(lowest), Some(now), drop)
    else r.(lastChecked := Some(now))
  }

  /** The route is kept and stamped with the check time. With offers, the
      current price is the lowest offer price, the drop flag holds exactly
      when it is below the previous price (the non-zero current price, else
      the last price), and the last price changes only on a drop, to the new
      lowest price. Without offers nothing else changes. */
  lemma UpdateFacts(r: RouteWithPrice, outcome: SearchOutcome, now: string)
    ensures var u := Update(r, outcome, now);
      && u.route == r.route && u.lastChecked == Some(now)
      && (outcome.Offers? && |outcome.data| > 0 ==>
            && u.currentPrice.Some?
            && (exists i :: 0 <= i < |outcome.data| && outcome.data[i].price.total == u.currentPrice.value)
            && (forall i :: 0 <= i < |outcome.data| ==> u.currentPrice.value <= outcome.data[i].price.total)
            && (u.priceDropDetected <==> PreviousPrice(r).Some? && u.currentPrice.value < PreviousPrice(r).value)
            && u.lastPrice == (if u.priceDropDetected then u.currentPrice else r.lastPrice))
      && (!(outcome.Offers? && |outcome.data| > 0) ==> u == r.(lastChecked := Some(now)))
  {
  }

  /** A route whose current price was never recorded (or is 0) is compared
      with its last price; otherwise with its current price. */
  lemma PreviousPriceChoice(r: RouteWithPrice)
    ensures r.currentPrice.None? ==> PreviousPrice(r) == r.lastPrice
    ensures r.currentPrice.Some? && r.currentPrice.value != 0.0 ==> PreviousPrice(r) == r.currentPrice
  {
  }

  /** A route updated with the answer to its own search. */
  function Checked(search: TrackedRoute -> SearchOutcome, now: string): RouteWithPrice -> RouteWithPrice
  {
    (r: RouteWithPrice) => Update(r, search(r.route), now)
  }

  /** Every route updated with its own answer, in list order. */
  function CheckAll(routes: seq<RouteWithPrice>, search: TrackedRoute -> SearchOutcome, now: string): seq<RouteWithPrice>
  {
    Map(routes, Checked(search, now))
  }

  /** A check keeps the length and the order of the routes and stamps every
      entry with the same time. */
  lemma CheckAllFacts(routes: seq<RouteWithPrice>, search: TrackedRoute -> SearchOutcome, now: string)
    ensures var c := CheckAll(routes, search, now);
      && |c| == |routes|
      && (forall i :: 0 <= i < |c| ==> c[i].route == routes[i].route && c[i].lastChecked == Some(now))
  {
    var c := CheckAll(routes, search, now);
    forall i | 0 <= i < |c| ensures c[i].route == routes[i].route && c[i].lastChecked == Some(now) {
      UpdateFacts(routes[i], search(routes[i].route), now);
    }
  }

  predicate Dropped(r: RouteWithPrice)
  {
    r.priceDropDetected
  }

  /** The "Price Drops" figure: the entries whose drop flag is set. */
  function DropCount(routes: seq<RouteWithPrice>): (n: nat)
    ensures n <= |routes|
  {
    |Filter(routes, Dropped)|
  }

  /** The figure is zero exactly when no entry is flagged, and equals the
      number of entries when every entry is flagged. */
  lemma DropCountFacts(routes: seq<RouteWithPrice>)
    ensures DropCount(routes) == 0 <==> forall i :: 0 <= i < |routes| ==> !routes[i].priceDropDetected
    ensures (forall i :: 0 <= i < |routes| ==> routes[i].priceDropDetected) ==> DropCount(routes) == |routes|
  {
    var p := Dropped;
    FilterNone(routes, p);
    if forall i :: 0 <= i < |routes| ==> routes[i].priceDropDetected {
      FilterAll(routes, p);
    }
  }

  /** The notifier's state: the routes with prices, the time of the last
      check, whether a check is running, and the storage slot
      `trackedRoutesWithPrices` it saves to. */
  class Notifier {
    var routes: seq<RouteWithPrice>
    var lastCheckTime: string
    var isChecking: bool
    var saved: Slot<seq<RouteWithPrice>>

    /** Mounting: loads from the two storage slots. */
    constructor(tracked: Slot<seq<TrackedRoute>>, prices: Slot<seq<RouteWithPrice>>, parseFloat: string -> Option<real>)
      ensures routes == Load(tracked, prices, parseFloat)
      ensures lastCheckTime == "" && !isChecking && saved == prices
    {
      routes := Load(tracked, prices, parseFloat);
      lastCheckTime := "";
      isChecking := false;
      saved := prices;
    }

    /** `checkPrices`: nothing happens without routes; otherwise every route
        is updated with one shared time, the list is saved, and the time is
        recorded. */
    method CheckPrices(search: TrackedRoute -> SearchOutcome, now: string)
      modifies this
      ensures old(routes) == [] ==> unchanged(this)
      ensures old(routes) != [] ==>
        && routes == CheckAll(old(routes), search, now)
        && saved == Stored(routes)
        && lastCheckTime == now
        && !isChecking
    {
      if |routes| == 0 {
        return;
      }
      isChecking := true;
      var updated: seq<RouteWithPrice> := [];
      var i := 0;
      while i < |routes|
        invariant 0 <= i <= |routes|
        invariant routes == old(routes)
        invariant updated == CheckAll(routes[..i], search, now)
      {
        var routeData := routes[i];
        var next := Update(routeData, search(routeData.route), now);
        MapSnoc(routes, i, Checked(search, now));
        updated := updated + [next];
        i := i + 1;
      }
      assert routes[..i] == routes;
      routes := updated;
      saved := Stored(updated);
      lastCheckTime := now;
      isChecking := false;
    }
  }
}

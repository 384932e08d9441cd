/** The "VPN trick" search: a simulated market switch (a small state machine
    over the connection status and the current market) and a budget search
    that sends the current market along. */
module TravelVpn {
  import opened Wrappers
  import opened Seqs
  import opened Text
  import opened FlightOffers
  import BT = BudgetTracker

  // ---------------------------------------------------------------------
  // Server list

  datatype Server = Server(code: string, name: string, region: string)

  /** `VPN_SERVERS`: the server table in the order its load-time sort by
      country name leaves it; `ServersSorted` and `ServersPermuteSource`
      relate it to `SourceServers`, the table as written. */
  const Servers: seq<Server> := [
    Server("AU", "Australia", "Oceania"),
    Server("BR", "Brazil", "South America"),
    Server("CA", "Canada", "North America"),
    Server("FR", "France", "Europe"),
    Server("DE", "Germany", "Europe"),
    Server("IN", "India", "Asia"),
    Server("JP", "Japan", "Asia"),
    Server("NL", "Netherlands", "Europe"),
    Server("SG", "Singapore", "Asia"),
    Server("CH", "Switzerland", "Europe"),
    Server("GB", "United Kingdom", "Europe"),
    Server("US", "United States", "North America")
  ]

  /** The server table as it is written in the source, before the sort. */
  const SourceServers: seq<Server> := [
    Server("US", "United States", "North America"),
    Server("GB", "United Kingdom", "Europe"),
    Server("DE", "Germany", "Europe"),
    Server("FR", "France", "Europe"),
    Server("JP", "Japan", "Asia"),
    Server("AU", "Australia", "Oceania"),
    Server("CA", "Canada", "North America"),
    Server("IN", "India", "Asia"),
    Server("BR", "Brazil", "South America"),
    Server("SG", "Singapore", "Asia"),
    Server("NL", "Netherlands", "Europe"),
    Server("CH", "Switzerland", "Europe")
  ]

  /** The sorted table holds exactly the written entries, each once. */
  lemma ServersPermuteSource()
    ensures multiset(Servers) == multiset(SourceServers)
  {
    var w := SourceServers;
    assert Servers == [w[5], w[8], w[6], w[3], w[2], w[7], w[4], w[10], w[9], w[11], w[1], w[0]];
    ServerCodesDistinct();
    SameEntries(Servers, SourceServers);
  }

  /** Two sequences of the same length, the first without repeats and all of
      its entries in the second, hold the same entries. */
  lemma {:induction false} SameEntries(s: seq<Server>, t: seq<Server>)
    requires |s| == |t|
    requires forall i, j :: 0 <= i < j < |s| ==> s[i] != s[j]
    requires forall x :: x in s ==> x in t
    ensures multiset(s) == multiset(t)
  {
    if s != [] {
      var x := s[0];
      assert x in s && x in t;
      var k :| 0 <= k < |t| && t[k] == x;
      var rest := t[..k] + t[k + 1..];
      forall y | y in s[1..] ensures y in rest {
        var i :| 0 <= i < |s| - 1 && s[1..][i] == y;
        assert s[i + 1] == y && y != x;
        assert y in t;
        var m :| 0 <= m < |t| && t[m] == y;
        if m < k { assert rest[m] == y; } else { assert m != k && rest[m - 1] == y; }
      }
      forall i, j | 0 <= i < j < |s| - 1 ensures s[1..][i] != s[1..][j] {
        assert s[1..][i] == s[i + 1] && s[1..][j] == s[j + 1];
      }
      SameEntries(s[1..], rest);
      assert s == [x] + s[1..];
      assert t == t[..k] + [x] + t[k + 1..];
    }
  }

  /** `(a, b) => a.name.localeCompare(b.name)`, as code-unit order of the names. */
  predicate ByName(a: Server, b: Server)
  {
    LexLe(a.name, b.name)
  }

  lemma ByNameIsTotalPreorder()
    ensures TotalPreorder(ByName)
  {
    forall a: Server, b: Server ensures ByName(a, b) || ByName(b, a) {
      LexLeTotal(a.name, b.name);
    }
    forall a: Server, b: Server, c: Server | ByName(a, b) && ByName(b, c) ensures ByName(a, c) {
      LexLeTransitive(a.name, b.name, c.name);
    }
  }

  /** A sequence whose neighbours are in order is sorted, for a transitive order. */
  lemma {:induction false} ChainSorted(s: seq<Server>)
    requires forall i :: 0 <= i < |s| - 1 ==> ByName(s[i], s[i + 1])
    ensures forall i, j :: 0 <= i < j < |s| ==> ByName(s[i], s[j])
  {
    if |s| > 1 {
      ChainSorted(s[1..]);
      ByNameIsTotalPreorder();
      forall j | 1 < j < |s| ensures ByName(s[0], s[j]) {
        assert ByName(s[1], s[j]) by { assert s[1..][0] == s[1] && s[1..][j - 1] == s[j]; }
      }
      forall i, j | 0 <= i < j < |s| ensures ByName(s[i], s[j]) {
        if i > 0 { assert s[1..][i - 1] == s[i] && s[1..][j - 1] == s[j]; }
      }
    }
  }

  /** Every server code appears once, so `find` by code is unambiguous. */
  lemma ServerCodesDistinct()
    ensures forall i, j :: 0 <= i < j < |Servers| ==> Servers[i].code != Servers[j].code
  {
  }

  lemma NamesInOrderLow()
    ensures forall i :: 0 <= i < 6 ==> ByName(Servers[i], Servers[i + 1])
  {
    var s := Servers;
    assert LexLe(s[0].name, s[1].name);
    assert LexLe(s[1].name, s[2].name);
    assert LexLe(s[2].name, s[3].name);
    assert LexLe(s[3].name, s[4].name);
    assert LexLe(s[4].name, s[5].name);
    assert LexLe(s[5].name, s[6].name);
  }

  lemma NamesInOrderMid()
    ensures forall i :: 6 <= i < 9 ==> ByName(Servers[i], Servers[i + 1])
  {
    var s := Servers;
    assert LexLe(s[6].name, s[7].name);
    assert LexLe(s[7].name, s[8].name);
    assert LexLe(s[8].name, s[9].name);
  }

  lemma NamesInOrderHigh()
    ensures forall i :: 9 <= i < 11 ==> ByName(Servers[i], Servers[i + 1])
  {
    var s := Servers;
    assert LexLe(s[9].name, s[10].name);
    assert LexLe(s[10].name, s[11].name) by {
      assert LexLe("Kingdom", "States");
      LexLeCommonPrefix("United ", "Kingdom", "States");
      assert s[10].name == "United " + "Kingdom" && s[11].name == "United " + "States";
    }
  }

  /** The servers are in ascending order of country name. */
  lemma ServersSorted()
    ensures forall i, j :: 0 <= i < j < |Servers| ==> LexLe(Servers[i].name, Servers[j].name)
  {
    NamesInOrderLow();
    NamesInOrderMid();
    NamesInOrderHigh();
    ChainSorted(Servers);
    assert forall i, j :: 0 <= i < j < |Servers| ==> ByName(Servers[i], Servers[j]);
  }

  /** `servers[i]` is the first server with `code`. */
  ghost predicate FirstWithCode(servers: seq<Server>, i: int, code: string)
  {
    0 <= i < |servers| && servers[i].code == code && forall j :: 0 <= j < i ==> servers[j].code != code
  }

  /** `servers.find(s => s.code === code)`. */
  function FindServer(servers: seq<Server>, code: string): (r: Option<Server>)
    ensures r.None? <==> forall i :: 0 <= i < |servers| ==> servers[i].code != code
    ensures r.Some? ==> exists i :: 0 <= i < |servers| && servers[i] == r.value && FirstWithCode(servers, i, code)
  {
    if servers == [] then None
    else if servers[0].code == code then
      assert FirstWithCode(servers, 0, code);
      Some(servers[0])
    else
      var r := FindServer(servers[1..], code);
      if r.Some? then
        assert exists i :: 0 <= i < |servers| && servers[i] == r.value && FirstWithCode(servers, i, code) by {
          var i :| 0 <= i < |servers[1..]| && servers[1..][i] == r.value && FirstWithCode(servers[1..], i, code);
          assert servers[i + 1] == r.value;
          forall j | 0 <= j < i + 1 ensures servers[j].code != code {
            if j > 0 { assert servers[j] == servers[1..][j - 1]; }
          }
        }
        r
      else
        assert forall i :: 0 <= i < |servers| ==> servers[i].code != code by {
          forall i | 0 <= i < |servers| ensures servers[i].code != code {
            if i > 0 { assert servers[i] == servers[1..][i - 1]; }
          }
        }
        None
  }

  /** The market name shown after a search: the server's name, or "US" for a
      market not in the table. */
  function MarketName(market: string): (name: string)
    ensures FindServer(Servers, market).Some? ==> name == FindServer(Servers, market).value.name
    ensures FindServer(Servers, market).None? ==> name == "US"
  {
    var info := FindServer(Servers, market);
    if info.Some? then info.value.name else "US"
  }

  // ---------------------------------------------------------------------
  // Search request

  /** The flight-search body, with the market it is priced for. */
  datatype SearchParams = SearchParams(
    originLocationCode: string, destinationLocationCode: string, departureDate: string,
    returnDate: Option<string>, currencyCode: string, maxPrice: string, adults: string, max: string,
    market: string)

  function Request(form: BT.Form, market: string): SearchParams
  {
    var p := BT.Request(form);
    SearchParams(
      p.originLocationCode, p.destinationLocationCode, p.departureDate, p.returnDate,
      p.currencyCode, p.maxPrice, p.adults, p.max, market)
  }

  /** The request carries the given market and otherwise the same fields as
      the budget tracker's: upper-cased codes, the budget as the price cap,
      the return date only when one was typed, USD, one adult, ten offers. */
  lemma RequestFacts(form: BT.Form, market: string)
    ensures var p := Request(form, market);
      && p.market == market
      && p.originLocationCode == ToUpper(form.origin) && p.destinationLocationCode == ToUpper(form.destination)
      && p.departureDate == form.departureDate && p.maxPrice == form.budget
      && (p.returnDate.Some? <==> form.returnDate != "")
      && (p.returnDate.Some? ==> p.returnDate.value == form.returnDate)
      && p.currencyCode == "USD" && p.adults == "1" && p.max == "10"
  {
    BT.RequestFacts(form);
  }

  // ---------------------------------------------------------------------
  // The component

  datatype Status = Disconnected | Connecting | Connected

  const DefaultMarket := "US"

  class Vpn {
    var form: BT.Form
    var errors: map<string, string>
    var offers: seq<FlightOffer>
    var selectedServer: string
    var status: Status
    var currentMarket: string

    /** The market is the default one unless connected, and a connection
        always has a market. */
    ghost predicate Valid()
      reads this
    {
      && (status != Connected ==> currentMarket == DefaultMarket)
      && (status == Connected ==> currentMarket != "")
    }

    constructor()
      ensures Valid()
      ensures status == Disconnected && currentMarket == DefaultMarket && selectedServer == ""
      ensures form == BT.Form("", "", "", "", "") && errors == map[] && offers == []
    {
      form := BT.Form("", "", "", "", "");
      errors := map[];
      offers := [];
      selectedServer := "";
      status := Disconnected;
      currentMarket := DefaultMarket;
    }

    /** Choosing a server in the list changes only the selection. */
    method SelectServer(code: string)
      requires Valid()
      modifies this
      ensures Valid()
      ensures selectedServer == code
      ensures status == old(status) && currentMarket == old(currentMarket)
      ensures form == old(form) && errors == old(errors) && offers == old(offers)
    {
      selectedServer := code;
    }

    /** The first half of `handleVPNConnect`, up to the simulated delay. It is
        offered only while not connected. Without a selected server nothing
        changes; otherwise the status becomes connecting and the server the
        handler will connect to is returned. */
    method BeginConnect() returns (pending: Option<string>)
      requires Valid() && status != Connected
      modifies this
      ensures Valid()
      ensures old(selectedServer) == "" ==> pending.None? && status == old(status)
      ensures old(selectedServer) != "" ==> pending == Some(old(selectedServer)) && status == Connecting
      ensures currentMarket == old(currentMarket) && selectedServer == old(selectedServer)
      ensures form == old(form) && errors == old(errors) && offers == old(offers)
    {
      if selectedServer == "" {
        return None;
      }
      status := Connecting;
      return Some(selectedServer);
    }

    /** The second half: on success the status is connected and the market is
        the server chosen when the button was pressed; on an error the status
        returns to disconnected. */
    method FinishConnect(server: string, ok: bool)
      requires Valid() && status == Connecting && server != ""
      modifies this
      ensures Valid()
      ensures ok ==> status == Connected && currentMarket == server
      ensures !ok ==> status == Disconnected && currentMarket == old(currentMarket)
      ensures selectedServer == old(selectedServer)
      ensures form == old(form) && errors == old(errors) && offers == old(offers)
    {
      if ok {
        status := Connected;
        currentMarket := server;
      } else {
        status := Disconnected;
      }
    }

    /** `handleVPNDisconnect`: back to the default market. */
    method Disconnect()
      modifies this
      ensures Valid()
      ensures status == Disconnected && currentMarket == DefaultMarket
      ensures selectedServer == old(selectedServer)
      ensures form == old(form) && errors == old(errors) && offers == old(offers)
    {
      status := Disconnected;
      currentMarket := DefaultMarket;
    }

    /** `validateForm`: the same four checks as the budget tracker's. */
    method ValidateForm(parseDate: string -> Option<int>, number: string -> Option<real>, today: int) returns (valid: bool)
      modifies this
      ensures errors == BT.FormErrors(form, parseDate, number, today)
      ensures valid <==> errors == map[]
      ensures form == old(form) && offers == old(offers)
      ensures selectedServer == old(selectedServer) && status == old(status) && currentMarket == old(currentMarket)
    {
      var origin := CodeError(form.origin, "Origin is required", "Origin must be a 3-letter IATA code (e.g., LAX)");
      var destination := CodeError(form.destination, "Destination is required", "Destination must be a 3-letter IATA code (e.g., JFK)");
      var departure := DateError(form.departureDate, "Departure date", parseDate, today);
      var budget := BudgetError(form.budget, number);
      var newErrors := map[];
      newErrors := Record(newErrors, "origin", origin);
      newErrors := Record(newErrors, "destination", destination);
      newErrors := Record(newErrors, "departureDate", departure);
      newErrors := Record(newErrors, "budget", budget);
      ErrorsInOrder4(("origin", origin), ("destination", destination), ("departureDate", departure), ("budget", budget));
      errors := newErrors;
      valid := newErrors.Keys == {};
      assert valid ==> newErrors == map[];
    }

    /** `searchFlights`: validates, then searches in the current market and
        shows at most five offers within the budget, cheapest first. An
        invalid form leaves the shown offers as they were. The request is
        returned so that its market can be stated. */
    method SearchFlights(
      parseDate: string -> Option<int>, number: string -> Option<real>, parseFloat: string -> Option<real>,
      today: int, respond: SearchParams -> SearchOutcome)
      returns (sent: Option<SearchParams>)
      requires Valid()
      modifies this
      ensures Valid()
      ensures errors == BT.FormErrors(form, parseDate, number, today)
      ensures errors != map[] ==> sent.None? && offers == old(offers)
      ensures errors == map[] ==>
        && sent == Some(Request(form, currentMarket))
        && (status != Connected ==> sent.value.market == DefaultMarket)
        && offers == BT.Shown(respond(sent.value), parseFloat(form.budget))
      ensures form == old(form) && selectedServer == old(selectedServer)
      ensures status == old(status) && currentMarket == old(currentMarket)
    {
      var valid := ValidateForm(parseDate, number, today);
      if !valid {
        return None;
      }
      offers := [];
      var request := Request(form, currentMarket);
      sent := Some(request);
      var outcome := respond(request);
      offers := BT.Shown(outcome, parseFloat(form.budget));
    }
  }
}

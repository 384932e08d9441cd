# TripWhiz core in Dafny

TripWhiz is a travel-deals web application. A React client offers several
flight-hacking tools and a support assistant, and an Express proxy forwards
requests to the flight, chat, embedding, weather and events services. This
project models the logic underneath the screens and the proxy, with every
network call, clock and parser passed in as a parameter, and proves what
that logic promises.

Modules, one per source file plus shared pieces:

- `Wrappers`: `Option` and the storage `Slot` (a missing, unreadable or
  stored value).
- `Seqs`: the array operations the components use. This covers `filter`,
  `map` and `slice(0, n)`. It also covers the stable `sort` under a
  comparator that is a total preorder, and "first n of the sort", with its
  cheapest-kept and permutation lemmas.
- `Text`: `trim`, ASCII `toUpperCase`/`toLowerCase`, `split`/`join`,
  `replace(/-/g, '')`, decimal rendering of timestamps, the `^[A-Z]{3}$`
  airport-code test and the `^[^\s@]+@[^\s@]+\.[^\s@]+$` e-mail test.
- `Durations`: `formatDuration`, the `PT#H#M` subset of ISO 8601
  durations (ISO 8601:2004, section 4.4.3.2).
- `FlightOffers`: the flight offer records, the shared field checks and
  error records of the search forms, the "within budget, cheapest first,
  at most five" selection and the Google Flights deep link.
- `SignUp`: the sign-up checks, in their order, and the message for each
  account-service error code.
- `BudgetTracker`, `CarryOn`, `ErrorFare`, `HiddenDeal`, `TravelVpn`,
  `MultiCity`, `PriceDrop`: the search tools. Each has its form
  validation, its request, its selection or ranking rule and its state
  (tracked routes, the VPN connection, stored price records).
- `VectorStore`: the embedding store. It is a class over a sequence of
  documents, persisted to a storage slot. It provides upsert by id with a
  timestamp, clear, snapshot, per-type statistics and top-k similarity
  ranking.
- `SupportChatbot`: the assistant's knowledge base. It covers the 24-hour
  freshness test, the rebuild that keeps conversation documents and indexes
  each page, retrieval of the context from the top three matches above 0.7,
  and the storing of each exchange.
- `ServerRoutes`: the proxy's request checks and response shaping. This
  covers flight search, chat, embeddings and subscribe. It also covers the
  five-day forecast (the first entry of each calendar day) and the event
  list: category, venue, description and price label.
- `WeatherRoutes`: the standalone weather router. It has the same routes,
  with a schema check whose failure ends in the generic 500 handler.

The outside world enters as parameters. These include:

- the upstream responses (`respond`, `search`, `embed`, `complete`, `fetch`);
- the clock (`now`, `today`);
- date parsing and keys (`parseDate`, `dayOf`, `iso`);
- number parsing (`Number`, `parseFloat`) as `Option<real>`;
- locale formatting (`formatDate`, `formatTime`, `show`);
- the cosine's square-root-and-divide step (`ratio`).

Prices are `real`.

A method that keeps the source's loop is proved equal to a function of its
inputs or of the old state, and the lemmas state what the source promises
about that function.

## Model

| member | source | states |
|---|---|---|
| Durations.FindPT | client/src/components/MultiCityHackSimulator.tsx:368 | the unanchored `PT(\d+H)?(\d+M)?` match starts at the first `PT`, and no earlier position holds `PT` |
| Durations.RunEnd | client/src/components/MultiCityHackSimulator.tsx:368 | the greedy `\d+` run covers only digits and stops at the end or at the first non-digit |
| Durations.MatchGroup | client/src/components/MultiCityHackSimulator.tsx:368 | a matched group `(\d+X)` ends just after its designator |
| Durations.FindPTExtend | client/src/components/MultiCityHackSimulator.tsx:368 | text appended after the text does not move the first `PT` match |
| Durations.GroupOfNumber | client/src/components/MultiCityHackSimulator.tsx:371-372 | a number written in decimal and followed by its designator is read back as that number (`parseInt` of the group) |
| Durations.FormatDuration | client/src/components/MultiCityHackSimulator.tsx:367-378 | the text comes back unchanged exactly when the pattern finds no `PT`, or when both parts are 0 or absent (a 0 is falsy); any other match is rewritten |
| Durations.FormatHoursAndMinutes | client/src/components/MultiCityHackSimulator.tsx:367-378 | for any `h, m >= 0`, after any text without `PT` and before any text, `PT<h>H<m>M` becomes `"<h>h <m>m"`, `"<h>h"` or `"<m>m"` as the parts are non-zero, and the text is returned as it is when both are 0 |
| Durations.FormatHoursOnly | client/src/components/MultiCityHackSimulator.tsx:367-378 | for any `h >= 0`, `PT<h>H` not followed by a digit becomes `"<h>h"`, and `PT0H` leaves the text as it is |
| Durations.FormatMinutesOnly | client/src/components/MultiCityHackSimulator.tsx:367-378 | for any `m >= 0`, `PT<m>M` becomes `"<m>m"`, and `PT0M` leaves the text as it is: the hours group is absent and the minutes group is read right after `PT` |
| Durations.FormatBarePT | client/src/components/MultiCityHackSimulator.tsx:367-378 | a `PT` with neither group (not followed by a digit) leaves the text as it is |
| Text.Trim | client/src/components/auth/SignUp.tsx:27 | `trim()` drops only white space on either side; the result neither starts nor ends with white space |
| Text.BlankIffAllWhitespace | client/src/components/auth/SignUp.tsx:27 | `!s.trim()` holds exactly when every character of `s` is white space |
| Text.ToUpper | client/src/components/BudgetAirlineTracker.tsx:92 | `toUpperCase()` keeps the length, turns every ASCII lower-case letter into upper case and leaves every other character alone |
| Text.UpperIdempotent | client/src/components/BudgetAirlineTracker.tsx:92 | upper-casing an already upper-cased field (the inputs upper-case on entry) changes nothing |
| Text.ToLower | server/routes/index.ts:415 | `toLowerCase()` keeps the length, lowers every ASCII upper-case letter and leaves every other character alone |
| Text.IataCodeIff | client/src/components/BudgetAirlineTracker.tsx:92 | `/^[A-Z]{3}$/.test(s.toUpperCase())` holds exactly when `s` is three ASCII letters, in either case |
| Text.IndexOf | client/src/components/MultiCityHackSimulator.tsx:103 | the first occurrence of the separator, or none exactly when it does not occur |
| Text.Split | client/src/components/MultiCityHackSimulator.tsx:103 | `split(',')` gives at least one piece and no piece holds the separator |
| Text.JoinSplit | client/src/components/MultiCityHackSimulator.tsx:103 | joining the pieces of a split with the separator gives the string back |
| Text.SplitJoin | client/src/components/MultiCityHackSimulator.tsx:384-387 | splitting a join of pieces free of the separator gives the pieces back |
| Text.DottedRoundTrip | client/src/components/MultiCityHackSimulator.tsx:384-387 | after the link prefix, `origin.destination.date-without-dashes` splits back into its three parts when none holds a `.` |
| Text.RemoveChar | client/src/components/MultiCityHackSimulator.tsx:385 | `replace(/-/g, '')` leaves no `-`, keeps the count of every other character, and changes nothing when there was no `-` |
| Text.JsLength | client/src/components/auth/SignUp.tsx:46 | `length` counts UTF-16 code units: two for a character above U+FFFF and one for any other, so it lies between the character count and twice it, and equals the character count when no character is above U+FFFF |
| Text.NatToString | client/src/components/SupportChatbot.tsx:188 | `toString()` of a non-negative integer is a non-empty run of digits without a leading zero |
| Text.NatToStringRoundTrip | client/src/components/SupportChatbot.tsx:188 | the rendered digits read back as the number |
| Text.NatToStringInjective | client/src/components/SupportChatbot.tsx:188 | two different timestamps never give the same message id |
| Text.LexLeTotal | client/src/components/TravelVPNTrick.tsx:74 | any two names are ordered one way or the other |
| Text.LexLeTransitive | client/src/components/TravelVPNTrick.tsx:74 | the name order is transitive |
| Text.LexLeCommonPrefix | client/src/components/TravelVPNTrick.tsx:74 | a common prefix does not change the order of two names |
| Text.EmailIff | client/src/components/auth/SignUp.tsx:36-37 | the single-scan e-mail check accepts exactly the strings `^[^\s@]+@[^\s@]+\.[^\s@]+$` matches |
| Text.EmailSound | client/src/components/auth/SignUp.tsx:36-37 | a string the scan accepts has a non-empty local part, an `@`, and a domain with a `.` that has text on both sides |
| Text.EmailComplete | client/src/components/auth/SignUp.tsx:36-37 | every string the pattern matches is accepted by the scan |
| SignUp.ValidIff | client/src/components/auth/SignUp.tsx:24-65 | the form is valid exactly when the name is not blank, the e-mail matches, the password is at least 6 UTF-16 code units long and equals its confirmation |
| SignUp.FirstErrorOrder | client/src/components/auth/SignUp.tsx:27-62 | each message is reported exactly when every earlier check passed and its own check failed |
| SignUp.PasswordBoundary | client/src/components/auth/SignUp.tsx:46 | with a valid name and e-mail, a password of 5 code units is refused for its length and one of 6 is not |
| SignUp.AstralPasswordLength | client/src/components/auth/SignUp.tsx:46 | a password of three characters above U+FFFF is six code units long and passes the length check |
| SignUp.ErrorMessageFacts | client/src/components/auth/SignUp.tsx:80-89 | the three known codes give three different messages, none of them the fallback; any other code, or none, gives "Failed to create account" |
| SignUp.SubmitFacts | client/src/components/auth/SignUp.tsx:67-99 | an invalid form shows its first error and nothing else; a valid one ends in the welcome exactly when the service creates the account, and otherwise shows the message for the service's error code |
| FlightOffers.BlankIsNotIata | client/src/components/BudgetAirlineTracker.tsx:90-93 | a blank code field never passes the `^[A-Z]{3}$` check, so "required" and "malformed" never both apply |
| FlightOffers.CodeError | client/src/components/BudgetAirlineTracker.tsx:90-94 | an airport-code field has no error exactly when it is a code; otherwise the "required" message when blank and the format message when not |
| FlightOffers.OtherCodeError | client/src/components/ErrorFareScanner.tsx:93-99 | a code field that must differ from another (the error-fare destination, the hidden city) has no error exactly when it is a code that differs from the other once both are upper-cased; otherwise the required, format or "must be different" message, in that order |
| FlightOffers.DateError | client/src/components/BudgetAirlineTracker.tsx:104-113 | a date field has no error exactly when it is given and is unreadable or not before today; otherwise "… is required" or "… cannot be in the past" |
| FlightOffers.BudgetError | client/src/components/BudgetAirlineTracker.tsx:116-120 | a budget has no error exactly when it is not blank and `Number` of it is a number above zero; otherwise "Budget is required" or "Budget must be a positive number" |
| FlightOffers.Record | client/src/components/BudgetAirlineTracker.tsx:91-93 | a failing check sets its field's message; a passing one leaves the record as it was |
| FlightOffers.ErrorsEmptyIff | client/src/components/BudgetAirlineTracker.tsx:122-123 | the error record is empty (the form is valid) exactly when every check passes |
| FlightOffers.ErrorsEmptyIff3 | client/src/components/CarryOnOnlyFilter.tsx:100-131 | the same for a form of three checks |
| FlightOffers.ErrorsEmptyIff4 | client/src/components/BudgetAirlineTracker.tsx:86-124 | the same for a form of four checks |
| FlightOffers.ErrorsInOrder3 | client/src/components/CarryOnOnlyFilter.tsx:100-131 | the record of three checks is the one built field after field in source order |
| FlightOffers.ErrorsInOrder4 | client/src/components/BudgetAirlineTracker.tsx:86-124 | the record of four checks is the one built field after field in source order |
| FlightOffers.ErrorsAt | client/src/components/BudgetAirlineTracker.tsx:86-124 | with distinct field names, a field is in the record exactly when its check fails, and then holds that check's message |
| FlightOffers.ErrorsAbsent | client/src/components/BudgetAirlineTracker.tsx:86-124 | a field no check names never appears in the record |
| FlightOffers.CopySegment | client/src/components/HiddenDealFinder.tsx:202-208 | a copied segment keeps departure, arrival, carrier, number and duration, and drops the pricing detail |
| FlightOffers.ByPriceIsTotalPreorder | client/src/components/BudgetAirlineTracker.tsx:161 | the price comparator orders any two offers and is transitive, so the sort is well defined |
| FlightOffers.SelectWithinBudget | client/src/components/BudgetAirlineTracker.tsx:159-162 | as many offers as are within the budget, up to five, each priced at or below the budget, in ascending price, all taken from the response |
| FlightOffers.SelectWithinBudgetKeepsCheapest | client/src/components/BudgetAirlineTracker.tsx:159-162 | the five cheapest in-budget offers are selected: as many as there are up to five, an in-budget offer left out costs at least as much as every selected one, and with at most five in budget all of them are selected |
| FlightOffers.GoogleFlightsUrlRoundTrip | client/src/components/MultiCityHackSimulator.tsx:384-387 | the link starts with the Google Flights prefix and its fragment splits back into origin, destination and the date without dashes |
| BudgetTracker.FormValidIff | client/src/components/BudgetAirlineTracker.tsx:86-124 | the form is valid exactly when origin and destination are codes, a departure date is given and is unreadable or not before today, and the budget is a number above zero |
| BudgetTracker.RequestFacts | client/src/components/BudgetAirlineTracker.tsx:133-142 | the request sends the codes upper-cased, the budget as `maxPrice`, USD, one adult, ten results, and `returnDate` exactly when one was typed |
| BudgetTracker.ShownFacts | client/src/components/BudgetAirlineTracker.tsx:156-164 | the shown offers are at most five, within the budget, cheapest first, drawn from an OK response with data; on such a response with a readable budget they are as many as are in budget up to five, and no cheaper in-budget offer is left out |
| BudgetTracker.ToggleFlips | client/src/components/BudgetAirlineTracker.tsx:195-213 | the switch flips whether the route key is tracked and leaves every other key as it was |
| BudgetTracker.ToggleOnOff | client/src/components/BudgetAirlineTracker.tsx:193-213 | turning an untracked route on and then off restores the tracked keys |
| BudgetTracker.ToggleOffStored | client/src/components/BudgetAirlineTracker.tsx:200-207 | turning tracking off removes every stored record of the route and keeps every other record |
| BudgetTracker.ToggleStoredOnOff | client/src/components/BudgetAirlineTracker.tsx:200-226 | turning tracking on and then off restores a stored list that held no record of the route |
| BudgetTracker.Tracker.constructor | client/src/components/BudgetAirlineTracker.tsx:73-83 | the tracker starts with an empty form, no errors, no offers and no tracked keys, over the given storage slot |
| BudgetTracker.Tracker.ValidateForm | client/src/components/BudgetAirlineTracker.tsx:86-124 | the errors field becomes the record of the four checks, the result is true exactly when it is empty, and nothing else changes |
| BudgetTracker.Tracker.SearchFlights | client/src/components/BudgetAirlineTracker.tsx:126-191 | an invalid form keeps the shown offers; a valid one shows the selection from the response to its request |
| BudgetTracker.Tracker.ToggleTracking | client/src/components/BudgetAirlineTracker.tsx:193-232 | the tracked keys and the stored list change by the switch on the `origin-destination-departureDate` key, whatever `offerId` is, and nothing else changes |
| CarryOn.FormValidIff | client/src/components/CarryOnOnlyFilter.tsx:100-131 | the form is valid exactly when origin and destination are codes and a departure date is given that is unreadable or not before today |
| CarryOn.ValidateForm | client/src/components/CarryOnOnlyFilter.tsx:100-131 | the collected errors are the record of the three checks, and the result is true exactly when that record is empty |
| CarryOn.NoBagDataIsCarryOn | client/src/components/CarryOnOnlyFilter.tsx:134-156 | an offer without any checked-bag data counts as carry-on only |
| CarryOn.CheckCarryOnOnly | client/src/components/CarryOnOnlyFilter.tsx:134-156 | the two nested scans answer true exactly when no fare detail and no segment includes a checked bag |
| CarryOn.SelectFacts | client/src/components/CarryOnOnlyFilter.tsx:192-195 | at most five offers, all carry-on only, cheapest first, taken from the response, as many as there are up to five, and no cheaper carry-on offer is left out |
| CarryOn.SearchCarryOnFlights | client/src/components/CarryOnOnlyFilter.tsx:158-224 | an invalid form is reported and nothing is searched; a valid one shows the selection from the response to its request |
| CarryOn.BookingUrlOneWay | client/src/components/CarryOnOnlyFilter.tsx:251-263 | without a return date the link is the one-way link for the upper-cased route |
| CarryOn.TripReadsBack | client/src/components/CarryOnOnlyFilter.tsx:259 | two legs joined by `*`, each a `.`-joined list, split back into the same two lists |
| CarryOn.FieldAvoids | client/src/components/CarryOnOnlyFilter.tsx:253-256 | upper-casing and removing dashes add no `.` or `*` to a field |
| CarryOn.BookingUrlRoundTrip | client/src/components/CarryOnOnlyFilter.tsx:251-263 | with a return date the link splits back into the outbound leg (origin, destination, departure) and the return leg (destination, origin, return date), codes upper-cased and dates without dashes |
| ErrorFare.ThresholdError | client/src/components/ErrorFareScanner.tsx:114-121 | the threshold has no error exactly when it is not blank and `parseFloat` reads a number in (0, 1] |
| ErrorFare.FormValidIff | client/src/components/ErrorFareScanner.tsx:82-125 | the form is valid exactly when origin and destination are different codes, a travel date is given that is unreadable or not before today, and the threshold is in (0, 1] |
| ErrorFare.ValidateForm | client/src/components/ErrorFareScanner.tsx:82-125 | the collected errors are the record of the four checks, and the result is true exactly when that record is empty |
| ErrorFare.SumBounds | client/src/components/ErrorFareScanner.tsx:137 | the left-to-right sum of n values between two bounds lies between n times each bound |
| ErrorFare.MeanBounds | client/src/components/ErrorFareScanner.tsx:137 | the mean of values between two bounds lies between those bounds |
| ErrorFare.ValidPrices | client/src/components/ErrorFareScanner.tsx:131-133 | the readable prices are no more than the records |
| ErrorFare.AveragePriceFacts | client/src/components/ErrorFareScanner.tsx:128-138 | no records or no readable price give 0; otherwise the average lies between the lowest and highest readable price |
| ErrorFare.Prices | client/src/components/ErrorFareScanner.tsx:165 | one price per offer, the offer's own total, in order |
| ErrorFare.BaselineFacts | client/src/components/ErrorFareScanner.tsx:141-177 | the baseline is 300 without offers or on a failed request; with offers it lies between 1.2 times the lowest and 1.2 times the highest price |
| ErrorFare.FlaggedScore | client/src/components/ErrorFareScanner.tsx:228-245 | with a positive baseline, a flagged fare's score is at most the threshold and its savings are (1 - score) x 100, so at least (1 - threshold) x 100 percent |
| ErrorFare.DetectFacts | client/src/components/ErrorFareScanner.tsx:221-250 | the scan fails exactly when a flagged offer has no itinerary; otherwise it keeps exactly the flagged offers, in order, each with its id, price and the baseline |
| ErrorFare.DetectFails | client/src/components/ErrorFareScanner.tsx:224-249 | the scan fails exactly when some flagged offer has no first itinerary |
| ErrorFare.DetectKeeps | client/src/components/ErrorFareScanner.tsx:224-249 | a successful scan records the flagged offers, one fare each, in order |
| ErrorFare.ScanOffers | client/src/components/ErrorFareScanner.tsx:221-250 | the scan loop keeps every flagged offer, in order, as a fare with its score and savings, and fails at the first flagged offer without an itinerary, as `Detect` |
| ErrorFare.DetectFailureStays | client/src/components/ErrorFareScanner.tsx:224-249 | once the scan of a prefix has failed the whole scan fails (the throw leaves the loop) |
| ErrorFare.ByScoreIsTotalPreorder | client/src/components/ErrorFareScanner.tsx:254 | the score comparator orders any two fares and is transitive |
| ErrorFare.TopFaresFacts | client/src/components/ErrorFareScanner.tsx:253-255 | at most three fares, as many as there are up to three, lowest score first, all among the flagged ones, and none left out with a lower score than one shown |
| ErrorFare.ScanForErrorFares | client/src/components/ErrorFareScanner.tsx:179-285 | an invalid form returns before anything is cleared, so the average and fares already shown stay; a valid one shows the baseline of the 20-offer search and the top fares of the 15-offer search |
| HiddenDeal.FormValidIff | client/src/components/HiddenDealFinder.tsx:81-121 | the form is valid exactly when origin and hidden city are different codes, a departure date is given that is unreadable or not before today, and the budget is a number above zero |
| HiddenDeal.ValidateForm | client/src/components/HiddenDealFinder.tsx:81-121 | the collected errors are the record of the four checks, and the result is true exactly when that record is empty |
| HiddenDeal.PotentialDestinations | client/src/components/HiddenDealFinder.tsx:124-138 | a known hub (looked up upper-cased) gives its table entry; any other code gives the default list |
| HiddenDeal.FiveLetterCodes | client/src/components/HiddenDealFinder.tsx:127-137 | five pairwise different codes make a candidate list of five distinct destinations |
| HiddenDeal.PotentialDestinationsFacts | client/src/components/HiddenDealFinder.tsx:124-138 | every candidate list names five distinct destinations |
| HiddenDeal.HubNotListed | client/src/components/HiddenDealFinder.tsx:126-135 | no hub lists itself among its onward destinations |
| HiddenDeal.DealSavingsFacts | client/src/components/HiddenDealFinder.tsx:195-212 | savings are shown exactly for prices above 250, and are then a fifth of the price |
| HiddenDeal.DealsFromFacts | client/src/components/HiddenDealFinder.tsx:175-217 | every deal one search yields is a connecting flight whose first segment lands at the hidden city, within the budget, to the searched destination, with the savings of its price; when the request succeeded and every offer has an itinerary, every offer that stops first at the hidden city within the budget yields its deal |
| HiddenDeal.CollectFacts | client/src/components/HiddenDealFinder.tsx:153-225 | every collected deal comes from the search for a candidate other than the origin and the hidden city, and every deal such a search finds is collected |
| HiddenDeal.ByDealPriceIsTotalPreorder | client/src/components/HiddenDealFinder.tsx:229 | the price comparator orders any two deals and is transitive |
| HiddenDeal.CheapestFacts | client/src/components/HiddenDealFinder.tsx:228-230 | at most five deals, as many as there are up to five, in ascending price, all collected, and none left out cheaper than one shown |
| HiddenDeal.ShownFacts | client/src/components/HiddenDealFinder.tsx:140-230 | every shown deal stops first at the hidden city, is within the budget and goes to a candidate destination other than the origin and the hidden city |
| HiddenDeal.SearchedDeal | client/src/components/HiddenDealFinder.tsx:156-217 | a deal from the search for one destination is a deal for that destination |
| HiddenDeal.SearchHiddenDeals | client/src/components/HiddenDealFinder.tsx:140-257 | an invalid form returns before anything is cleared, so the deals already shown stay; a valid one shows the cheapest five deals collected over the candidates |
| HiddenDeal.CollectDeals | client/src/components/HiddenDealFinder.tsx:153-225 | the loop collects, candidate by candidate, the deals of every search it does not skip, as `Collect` |
| HiddenDeal.BookingUrlRoundTrip | client/src/components/HiddenDealFinder.tsx:291-297 | the link starts with the Google Flights prefix and its fragment splits back into the upper-cased origin, the final destination and the date without dashes |
| TravelVpn.ByNameIsTotalPreorder | client/src/components/TravelVPNTrick.tsx:74 | the name comparator orders any two servers and is transitive |
| TravelVpn.ChainSorted | client/src/components/TravelVPNTrick.tsx:74 | a table whose neighbours are in name order is sorted by name |
| TravelVpn.ServerCodesDistinct | client/src/components/TravelVPNTrick.tsx:61-73 | every server code appears once, so looking a server up by code is unambiguous |
| TravelVpn.NamesInOrderLow | client/src/components/TravelVPNTrick.tsx:61-74 | the first seven servers of the table are in name order |
| TravelVpn.NamesInOrderMid | client/src/components/TravelVPNTrick.tsx:61-74 | servers seven to ten are in name order |
| TravelVpn.NamesInOrderHigh | client/src/components/TravelVPNTrick.tsx:61-74 | the last three servers are in name order |
| TravelVpn.ServersSorted | client/src/components/TravelVPNTrick.tsx:61-74 | the table as listed is ascending by country name, the order the load-time sort leaves |
| TravelVpn.ServersPermuteSource | client/src/components/TravelVPNTrick.tsx:61-74 | the sorted table holds exactly the twelve entries written in the source, each once (a permutation of the literal) |
| TravelVpn.FindServer | client/src/components/TravelVPNTrick.tsx:170 | no server is found exactly when none has the code; a found server is the first with the code |
| TravelVpn.MarketName | client/src/components/TravelVPNTrick.tsx:236-237 | the market shown is the name of the server with the current code, or "US" when there is none |
| TravelVpn.RequestFacts | client/src/components/TravelVPNTrick.tsx:201-212 | the request carries the current market and otherwise the budget tracker's fields: upper-cased codes, the budget as price cap, the return date only when typed, USD, one adult, ten offers |
| TravelVpn.Vpn.constructor | client/src/components/TravelVPNTrick.tsx:96-108 | the search starts disconnected, in the US market, with no server selected, an empty form, no errors and no offers |
| TravelVpn.Vpn.SelectServer | client/src/components/TravelVPNTrick.tsx:106 | choosing a server changes only the selection |
| TravelVpn.Vpn.BeginConnect | client/src/components/TravelVPNTrick.tsx:151-161 | without a selected server nothing changes; otherwise the status becomes connecting and the selected server is the one to connect to |
| TravelVpn.Vpn.FinishConnect | client/src/components/TravelVPNTrick.tsx:163-182 | after the delay the status is connected and the market is that server; on an error the status is disconnected and the market unchanged |
| TravelVpn.Vpn.Disconnect | client/src/components/TravelVPNTrick.tsx:185-192 | the status is disconnected and the market back to US, whatever the state was |
| TravelVpn.Vpn.ValidateForm | client/src/components/TravelVPNTrick.tsx:111-149 | the errors field becomes the record of the budget tracker's four checks, the result is true exactly when it is empty, and nothing else changes |
| TravelVpn.Vpn.SearchFlights | client/src/components/TravelVPNTrick.tsx:194-264 | an invalid form sends nothing and keeps the offers; a valid one sends the request for the current market (US unless connected) and shows the budget tracker's selection from the response |
| MultiCity.DestinationCodes | client/src/components/MultiCityHackSimulator.tsx:103 | one code per comma-separated piece, and always at least one |
| MultiCity.CodesOfPieces | client/src/components/MultiCityHackSimulator.tsx:103-106 | every code matches `^[A-Z]{3}$` exactly when every piece, trimmed, is an airport code |
| MultiCity.DestinationsErrorIff | client/src/components/MultiCityHackSimulator.tsx:100-109 | the destinations are accepted exactly when the field is not blank and splits into at most three pieces that are each an airport code once trimmed |
| MultiCity.FirstDateProblemNone | client/src/components/MultiCityHackSimulator.tsx:124-139 | the scan from a position finds nothing exactly when no date from there on has a problem |
| MultiCity.DatesOkIff | client/src/components/MultiCityHackSimulator.tsx:124-139 | the scan finds nothing exactly when every date is readable, none is before today, and each is strictly later than the one before |
| MultiCity.CheckDates | client/src/components/MultiCityHackSimulator.tsx:124-139 | the loop with its `break`s reports the first date that is unreadable, in the past or not after the one before, as `FirstDateProblem` |
| MultiCity.DatesErrorIff | client/src/components/MultiCityHackSimulator.tsx:112-141 | the dates are accepted exactly when the field is not blank, has as many entries as the destinations field and the dates are in order |
| MultiCity.FormValidIff | client/src/components/MultiCityHackSimulator.tsx:90-152 | the form is valid exactly when the origin is a code, the destinations are one to three codes, there is one date per destination, the dates are in order, and the budget is a number above zero |
| MultiCity.CheckDatesField | client/src/components/MultiCityHackSimulator.tsx:112-141 | the dates branch of the validation reports the dates field's error |
| MultiCity.ValidateForm | client/src/components/MultiCityHackSimulator.tsx:90-152 | the collected errors are the record of the four checks, and the result is true exactly when that record is empty |
| MultiCity.LegsChain | client/src/components/MultiCityHackSimulator.tsx:268-284 | one leg per destination, the first from the origin, each to its destination on its date, each starting where the previous one ended |
| MultiCity.BuildLegs | client/src/components/MultiCityHackSimulator.tsx:268-284 | the loop builds that chain of legs, as `Legs` |
| MultiCity.ToLegs | client/src/components/MultiCityHackSimulator.tsx:182-199 | one flight option per offer, each read from its own offer, in order |
| MultiCity.LegOptionsFacts | client/src/components/MultiCityHackSimulator.tsx:155-207 | at most five options per leg, each flying the leg's route on its date at the price of the offer at its position; all of the first five offers when they can be read |
| MultiCity.SearchLegs | client/src/components/MultiCityHackSimulator.tsx:287-295 | the loop searches once per leg and keeps each leg's options at that leg's position |
| MultiCity.BranchMember | client/src/components/MultiCityHackSimulator.tsx:236-241 | a combination from the loop over one leg's options extends the current one with an option whose running total is within the budget |
| MultiCity.BranchIncludes | client/src/components/MultiCityHackSimulator.tsx:236-241 | every combination that extends an affordable option is produced by the loop |
| MultiCity.ExpandSound | client/src/components/MultiCityHackSimulator.tsx:222-242 | every combination keeps the current legs, takes one option of every remaining leg in order, costs the running total plus their prices, is within the budget, and is named by its flight numbers |
| MultiCity.ExpandLegs | client/src/components/MultiCityHackSimulator.tsx:222-242 | the legs half: one option per remaining leg after the current legs, named by its flight numbers |
| MultiCity.ExpandTotal | client/src/components/MultiCityHackSimulator.tsx:222-242 | the price half: the total is the running total plus the chosen prices, and within the budget |
| MultiCity.SumNonNegative | client/src/components/MultiCityHackSimulator.tsx:237 | prices that are not negative add up to a total that is not negative |
| MultiCity.ExpandComplete | client/src/components/MultiCityHackSimulator.tsx:222-242 | with prices that are not negative, every choice of one option per remaining leg whose total is within the budget is produced |
| MultiCity.CombinationsOfLegs | client/src/components/MultiCityHackSimulator.tsx:210-254 | with two or more legs the combinations are exactly the choices of one option per leg within the budget (completeness needs prices that are not negative) |
| MultiCity.CombinationsOfFewLegs | client/src/components/MultiCityHackSimulator.tsx:211-218 | no legs give nothing; one leg gives each option alone as `single_<flight number>` at its own price, whatever the budget |
| MultiCity.GenerateRecursive | client/src/components/MultiCityHackSimulator.tsx:222-242 | the recursive procedure appends to the shared list exactly the within-budget combinations that extend the current one, as `Expand` |
| MultiCity.GenerateCombinations | client/src/components/MultiCityHackSimulator.tsx:210-254 | the procedure with its first-leg loop produces the combinations |
| MultiCity.ByTotalIsTotalPreorder | client/src/components/MultiCityHackSimulator.tsx:311 | the total-price comparator orders any two combinations and is transitive |
| MultiCity.SavingsShown | client/src/components/MultiCityHackSimulator.tsx:315-322 | the savings estimate is 30% of the total, shown only when that exceeds 50 |
| MultiCity.RankIsTop | client/src/components/MultiCityHackSimulator.tsx:310-323 | the shown itineraries, without their savings, are the first five of the stable sort by total |
| MultiCity.RankOrder | client/src/components/MultiCityHackSimulator.tsx:310-323 | at most five itineraries, as many as there are up to five, cheapest first, each with its savings estimate |
| MultiCity.RankKeepsCheapest | client/src/components/MultiCityHackSimulator.tsx:310-312 | the shown itineraries are found combinations (all of them when at most five), and none left out is cheaper than one shown |
| MultiCity.ValidFormHasRoute | client/src/components/MultiCityHackSimulator.tsx:116-119 | a valid form has one date per destination |
| MultiCity.SearchRoute | client/src/components/MultiCityHackSimulator.tsx:263-323 | the legs are built, searched, combined and ranked |
| MultiCity.Simulate | client/src/components/MultiCityHackSimulator.tsx:256-350 | an invalid form returns before anything is cleared, so the itineraries already shown stay; a valid one shows the ranked combinations over the options found for the chain of legs |
| PriceDrop.FindByKey | client/src/components/PriceDropNotifier.tsx:63-65 | a found record is the first stored record with the route's key; nothing is found exactly when no record has the key |
| PriceDrop.MergeFacts | client/src/components/PriceDropNotifier.tsx:61-74 | one entry per tracked route, in order, with the route's key: the first stored record with that key when there is one (as `find` picks), else a fresh record at the budget with no current price, no check time and no drop |
| PriceDrop.LoadWithoutPrices | client/src/components/PriceDropNotifier.tsx:52-76 | without stored prices every tracked route starts fresh at its budget |
| PriceDrop.LowestPrice | client/src/components/PriceDropNotifier.tsx:138-140 | the lowest price is one of the offer prices and no offer is cheaper |
| PriceDrop.UpdateFacts | client/src/components/PriceDropNotifier.tsx:133-196 | the route is kept and stamped with the check time; with offers the current price is the lowest one, a drop is flagged exactly when it is below the previous price, and the last price follows it only on a drop; otherwise nothing else changes |
| PriceDrop.PreviousPriceChoice | client/src/components/PriceDropNotifier.tsx:142 | the previous price is the current price when one is recorded and not 0, else the last price |
| PriceDrop.CheckAllFacts | client/src/components/PriceDropNotifier.tsx:109-200 | a check keeps the length and order of the routes and stamps every entry with the same time |
| PriceDrop.DropCount | client/src/components/PriceDropNotifier.tsx:302 | the number of flagged entries is at most the number of entries |
| PriceDrop.DropCountFacts | client/src/components/PriceDropNotifier.tsx:302 | the figure is zero exactly when no entry is flagged, and the number of entries when all are |
| PriceDrop.Notifier.constructor | client/src/components/PriceDropNotifier.tsx:45-89 | the notifier starts with the loaded routes, no check time, not checking |
| PriceDrop.Notifier.CheckPrices | client/src/components/PriceDropNotifier.tsx:101-204 | without routes nothing changes; otherwise every route is updated with its own search and one shared time, the list is saved, and the time recorded |
| VectorStore.ZeroVectorHasZeroNorm | client/src/lib/VectorStore.ts:35-41 | an all-zero (or empty) vector has norm zero, so it is caught by the zero-norm guard |
| VectorStore.CosineGuards | client/src/lib/VectorStore.ts:28-44 | vectors of different lengths, or a zero vector on either side, score 0 |
| VectorStore.CosineSimilarity | client/src/lib/VectorStore.ts:28-44 | the loop accumulating the dot product and both norms returns 0 on a length mismatch or a zero norm, and otherwise the cosine step `ratio` applied to the dot product and both squared norms |
| VectorStore.RemoveId | client/src/lib/VectorStore.ts:49 | no kept document has the removed id |
| VectorStore.Stamp | client/src/lib/VectorStore.ts:52-58 | a stamped document keeps its id, embedding and metadata, with only the timestamp set to the time of the add |
| VectorStore.UpsertShape | client/src/lib/VectorStore.ts:47-61 | after an add exactly one document has the id: the stamped new one, last; before it come the old documents without that id, in their old order |
| VectorStore.UpsertKeepsOthers | client/src/lib/VectorStore.ts:47-61 | a document is in the store after an add exactly when it was there with another id or is the stamped new one |
| VectorStore.FilterKeepsDistinct | client/src/lib/VectorStore.ts:49 | keeping some of the documents keeps ids distinct |
| VectorStore.RemoveIdKeepsDistinct | client/src/lib/VectorStore.ts:49 | removing the documents with one id keeps ids distinct |
| VectorStore.UpsertKeepsDistinct | client/src/lib/VectorStore.ts:47-61 | adding keeps one document per id |
| VectorStore.RemoveIdIdempotent | client/src/lib/VectorStore.ts:49 | removing one id twice is removing it once |
| VectorStore.UpsertSameIdTwice | client/src/lib/VectorStore.ts:47-61 | adding two documents with the same id leaves the store as adding only the second |
| VectorStore.UpsertAllStep | client/src/lib/VectorStore.ts:47-61 | a run of adds followed by one more add is the longer run |
| VectorStore.UpsertAllOnly | client/src/lib/VectorStore.ts:47-61 | after a run of adds every document is an old one or a stamped new one |
| VectorStore.UpsertAllKeeps | client/src/lib/VectorStore.ts:47-61 | an old document survives a run of adds that never uses its id |
| VectorStore.UpsertAllHas | client/src/lib/VectorStore.ts:47-61 | a new document whose id is not added again later in the run is in the store |
| VectorStore.Scored | client/src/lib/VectorStore.ts:65-70 | one result per stored document, in store order, each with that document's score |
| VectorStore.BySimilarityIsTotalPreorder | client/src/lib/VectorStore.ts:74 | the highest-first comparator orders any two results and is transitive |
| VectorStore.SearchRanking | client/src/lib/VectorStore.ts:64-76 | `min(topK, n)` results for a non-negative `topK`, in non-increasing similarity, each with its own document's score, drawn from the scored documents (all of them when `topK >= n`) |
| VectorStore.SearchReturnsStoredDocuments | client/src/lib/VectorStore.ts:64-76 | each stored document is returned at most as often as it is stored, and with `topK >= n` every stored document is returned |
| VectorStore.Bump | client/src/lib/VectorStore.ts:117 | counting one more document adds at most one entry to the `byType` record |
| VectorStore.BumpFacts | client/src/lib/VectorStore.ts:116-117 | counting a document keeps types distinct and counts positive, adds one to the total and one to its own type's count only |
| VectorStore.BumpDistinct | client/src/lib/VectorStore.ts:117 | counting a document keeps each type listed once |
| VectorStore.BumpTotal | client/src/lib/VectorStore.ts:117 | counting a document adds one to the total of the counts |
| VectorStore.BumpCount | client/src/lib/VectorStore.ts:117 | counting a document adds one to its type's count and leaves every other count |
| VectorStore.BumpPositive | client/src/lib/VectorStore.ts:117 | counting a document keeps every listed count positive |
| VectorStore.BumpTypes | client/src/lib/VectorStore.ts:117 | every type listed after the count is the counted type or one listed before |
| VectorStore.TallyContract | client/src/lib/VectorStore.ts:112-124 | the counts add up to `totalDocuments`, which is the number of documents; each type is listed once with the number of its documents, untyped ones under "unknown"; no count is zero |
| VectorStore.Loaded | client/src/lib/VectorStore.ts:99-109 | a stored list is loaded as is; a missing or unreadable slot gives an empty store |
| VectorStore.Store.constructor | client/src/lib/VectorStore.ts:23-25 | the store starts with the loaded documents |
| VectorStore.Store.Save | client/src/lib/VectorStore.ts:90-96 | the documents are written to the slot when it is writable; a failed write changes nothing |
| VectorStore.Store.Add | client/src/lib/VectorStore.ts:47-61 | the documents become the add of the stamped document, are saved, and ids stay distinct |
| VectorStore.Store.SimilaritySearch | client/src/lib/VectorStore.ts:64-76 | the scoring loop and sort return `min(topK, n)` stored documents, highest similarity first, and leave the store unchanged |
| VectorStore.Store.GetAllDocuments | client/src/lib/VectorStore.ts:79-81 | the documents as they are now |
| VectorStore.Store.Clear | client/src/lib/VectorStore.ts:84-87 | the store is emptied and saved, and its statistics become zero documents of no type |
| VectorStore.Store.GetStats | client/src/lib/VectorStore.ts:112-124 | the counting loop returns `totalDocuments` equal to the number of documents and one positive count per type, untyped ones under "unknown" |
| SupportChatbot.FreshIff | client/src/components/SupportChatbot.tsx:69-76 | the rebuild is skipped exactly when the store holds documents, it was built before, and less than 24 hours (86 400 000 ms) have passed |
| SupportChatbot.PageDocsSound | client/src/components/SupportChatbot.tsx:104-144 | the page loop adds at most one document per page, each the document of a page whose embedding succeeded |
| SupportChatbot.PageDocsComplete | client/src/components/SupportChatbot.tsx:104-144 | every page whose embedding succeeds gives a document; a failed page is skipped and the loop goes on |
| SupportChatbot.PageDocsDistinct | client/src/components/SupportChatbot.tsx:121-130 | pages with distinct URLs give documents with distinct ids |
| SupportChatbot.PageDocsStep | client/src/components/SupportChatbot.tsx:104-144 | one more page adds its document when its embedding succeeds and nothing otherwise |
| SupportChatbot.RebuildOnly | client/src/components/SupportChatbot.tsx:95-144 | nothing survives a rebuild but the stamped conversation documents and the stamped documents of embedded pages |
| SupportChatbot.RebuildKeepsConversations | client/src/components/SupportChatbot.tsx:96-101 | a conversation document survives a rebuild with the same id, embedding and content, unless an embedded page has its id as URL |
| SupportChatbot.RebuildHasPages | client/src/components/SupportChatbot.tsx:117-132 | every embedded page is in the rebuilt store as a `page` document whose id and url are its URL and which carries its title and content, when URLs are distinct |
| SupportChatbot.ContextOfSearch | client/src/components/SupportChatbot.tsx:216-228 | the context uses the matches of the top three above 0.7, all of them, in rank order and with their scores, one rendered piece each; nothing when none is relevant |
| SupportChatbot.UsedMembers | client/src/components/SupportChatbot.tsx:219 | the used matches are exactly the matches above 0.7 |
| SupportChatbot.UsedOrder | client/src/components/SupportChatbot.tsx:217-219 | the used matches keep the descending order of the ranking |
| SupportChatbot.UsedScores | client/src/components/SupportChatbot.tsx:217-219 | the used matches keep the scores the ranking gave them |
| SupportChatbot.ConverseSteps | client/src/components/SupportChatbot.tsx:198-286 | the exchange stores the user turn, builds the context from the store that holds it, asks the chat endpoint, and answers and stores the reply, in that order |
| SupportChatbot.UserTurnStored | client/src/components/SupportChatbot.tsx:200-212 | the user turn is stored as `conversation_<id>` when its embedding succeeds, and nothing else is added |
| SupportChatbot.ReplyStored | client/src/components/SupportChatbot.tsx:263-276 | the reply is stored as `response_<id>` only when the chat call and the reply's embedding succeeded; the stored user turn stays |
| SupportChatbot.ConverseStores | client/src/components/SupportChatbot.tsx:184-290 | one exchange stores the user turn and the reply under their ids and nothing else new; a failed chat call is answered with the apology and stores no reply; no context is sent without a query embedding or before the knowledge base is ready |
| SupportChatbot.Chatbot.constructor | client/src/components/SupportChatbot.tsx:26-38 | the assistant starts with the greeting, an empty input, a store loaded from storage, not ready and never rebuilt |
| SupportChatbot.Chatbot.SetInput | client/src/components/SupportChatbot.tsx:34 | typing changes only the input |
| SupportChatbot.Chatbot.AddAll | client/src/components/SupportChatbot.tsx:101 | the documents are added one after another |
| SupportChatbot.Chatbot.IndexPages | client/src/components/SupportChatbot.tsx:104-144 | the loop adds the document of every page whose embedding succeeds, in page order, and skips the others |
| SupportChatbot.Chatbot.RebuildStore | client/src/components/SupportChatbot.tsx:95-144 | the store becomes the rebuild: conversations kept aside, the store cleared, they and then the pages added |
| SupportChatbot.Chatbot.Refresh | client/src/components/SupportChatbot.tsx:86-158 | the knowledge base is ready afterwards; a failed sitemap fetch changes nothing else; otherwise the store is rebuilt and the update time recorded |
| SupportChatbot.Chatbot.Initialize | client/src/components/SupportChatbot.tsx:66-83 | ready afterwards; a fresh knowledge base is left as it is, otherwise it is refreshed |
| SupportChatbot.Chatbot.RecordUserTurn | client/src/components/SupportChatbot.tsx:200-212 | the user turn is stored when its embedding succeeded |
| SupportChatbot.Chatbot.Retrieve | client/src/components/SupportChatbot.tsx:215-228 | the context built from the top matches, or empty without an embedding or before the knowledge base is ready |
| SupportChatbot.Chatbot.RecordReply | client/src/components/SupportChatbot.tsx:263-276 | the reply is stored when the chat call and its embedding succeeded |
| SupportChatbot.Chatbot.HandleSendMessage | client/src/components/SupportChatbot.tsx:184-290 | a blank input or a pending send changes nothing; otherwise the user's and the assistant's messages are appended, the store holds the exchange's documents, and the input is cleared |
| SupportChatbot.Chatbot.Ask | client/src/components/SupportChatbot.tsx:187-212 | the user's message is shown, the input cleared, loading set, and the question stored when its embedding succeeds |
| SupportChatbot.Chatbot.Answer | client/src/components/SupportChatbot.tsx:214-289 | the assistant's message (or the apology) is appended, the reply stored, and loading ended |
| ServerRoutes.IsTextIff | server/routes/index.ts:155 | the `!v \|\| typeof v !== 'string'` check passes exactly for a non-empty string |
| ServerRoutes.FlightQueryFacts | server/routes/index.ts:9-63 | a missing or falsy required field gives no query; otherwise the query sends the three required fields, `adults`, `max` and `currencyCode` defaulting to 1, 10 and USD only when absent, and `returnDate` and `maxPrice` exactly when they are truthy |
| ServerRoutes.FlightSearch | server/routes/index.ts:7-90 | 400 exactly without the required fields; the upstream data exactly when the token and the search succeed; any other failure is a 500 "Failed to search flights" |
| ServerRoutes.ChatFacts | server/routes/index.ts:93-148 | 400 exactly when `messages` is not an array; otherwise a success exactly when the upstream call on the prompt and the user's messages, unchanged and in order, succeeds, and the prompt carries the context, or the fallback sentence, right after its fixed head |
| ServerRoutes.Spliced | server/routes/index.ts:103-115 | a text spliced into a template sits right after the head |
| ServerRoutes.Embeddings | server/routes/index.ts:151-188 | 400 exactly unless `text` is a non-empty string; a success exactly when it is one and the upstream call succeeds |
| ServerRoutes.SubscribeFacts | server/routes/index.ts:239-282 | a missing, empty or non-string e-mail is "required"; a string that does not match `^[^\s@]+@[^\s@]+\.[^\s@]+$` is refused as invalid; every other address is accepted |
| ServerRoutes.SitemapUrlsDistinct | server/routes/index.ts:191-236 | the sitemap lists eight pages with distinct URLs |
| ServerRoutes.RoundFacts | server/routes/index.ts:337-338 | `Math.round` is within a half of its argument |
| ServerRoutes.CurrentDefaults | server/routes/index.ts:352-353 | without a wind speed the wind is 0 mph; without a visibility it is 10 000 m, 6 miles |
| ServerRoutes.Days | server/routes/index.ts:333 | one calendar day per forecast entry, in order |
| ServerRoutes.Pick | server/routes/index.ts:329-344 | at most five kept entries, each an index of the input |
| ServerRoutes.PickIncreasing | server/routes/index.ts:332-344 | the forecast keeps entries in input order |
| ServerRoutes.PickComplete | server/routes/index.ts:332-344 | while fewer than five entries are kept, every day of the input has been processed |
| ServerRoutes.PickFirst | server/routes/index.ts:332-344 | each kept entry is the first of its calendar day |
| ServerRoutes.PickSeen | server/routes/index.ts:330-344 | the processed days are exactly the days of the kept entries |
| ServerRoutes.PickFacts | server/routes/index.ts:329-344 | the forecast keeps entries in input order, each the first of its day, no day twice, and while fewer than five are kept every day of the input has one |
| ServerRoutes.Forecast | server/routes/index.ts:329-344 | at most five daily forecasts |
| ServerRoutes.DailyForecasts | server/routes/index.ts:329-344 | the loop, with its set of processed days, returns `Forecast`: the first entry of each day, in order, at most five |
| ServerRoutes.Weather | server/routes/index.ts:285-366 | 400 exactly when the location is not a non-empty string; a success needs a key and both upstream calls, and names the current weather's location and at most five days |
| ServerRoutes.ServeWeather | server/routes/index.ts:295-359 | the route after the location check, with the forecast loop, answers as `WeatherFor`: 500 without a key, a 401 passed on as an invalid key, other failures 500 with the status, else the current weather and the daily forecast |
| ServerRoutes.HandleWeather | server/routes/index.ts:285-366 | the handler answers as `Weather`: the location check, then the route |
| ServerRoutes.OrElse | server/routes/index.ts:422 | `s \|\| fallback`: a present non-empty string is itself, anything else the fallback |
| ServerRoutes.CategoryOrder | server/routes/index.ts:412-419 | "music" wins over "sports", which wins over "arts"/"theatre" (cultural); no segment, or none of the words, gives "arts" |
| ServerRoutes.PriceLabelFacts | server/routes/index.ts:424-435 | "Price varies" without a range; otherwise the currency (USD by default), a space and the minimum, then a dash and the maximum exactly when it differs |
| ServerRoutes.ShapeEvent | server/routes/index.ts:409-455 | an event keeps its id, name and link, with the venue, description and time falling back to "Venue TBA", the note or "No description available", and 19:00 |
| ServerRoutes.EventList | server/routes/index.ts:406-457 | no events without `_embedded.events`; otherwise the first ten, each shaped from its own raw event, in order |
| ServerRoutes.ShapeEvents | server/routes/index.ts:406-457 | the loop returns `EventList`: the first ten raw events, each shaped, in order |
| ServerRoutes.Events | server/routes/index.ts:369-467 | 400 exactly when the location is not a non-empty string; a success needs a key and the upstream call, and holds at most ten events |
| ServerRoutes.ServeEvents | server/routes/index.ts:380-459 | the route after the location check, with the shaping loop, answers as `EventsFor`: 500 without a key, a 401 passed on as an invalid key, other failures 500 with the status, else the shaped events |
| ServerRoutes.HandleEvents | server/routes/index.ts:369-467 | the handler answers as `Events`: the location check, then the route |
| WeatherRoutes.Weather | server/routes/weather.ts:6-86 | a location the schema refuses (not a string of at least one character) is a 500 with the schema's message, as the catch answers a thrown parse error; any other is answered by the weather route |
| WeatherRoutes.Events | server/routes/weather.ts:89-180 | the same schema check, then the events route |
| WeatherRoutes.WeatherAgrees | server/routes/weather.ts:6-86 | the schema accepts exactly the locations the main proxy accepts; for those both routers answer alike, and a refused location is a 500 here but a 400 there |
| WeatherRoutes.EventsAgree | server/routes/weather.ts:89-180 | the events routes of both routers answer alike on accepted locations, and with 500 here but 400 there on refused ones |
| WeatherRoutes.HandleWeather | server/routes/weather.ts:11-86 | the handler, with the forecast loop, answers as `Weather` |
| WeatherRoutes.HandleEvents | server/routes/weather.ts:89-180 | the handler, with the shaping loop, answers as `Events` |

## Left out

- HTTP and the services behind it are not modelled. This covers Amadeus (with its OAuth token request), OpenAI chat and embeddings, OpenWeatherMap and Ticketmaster. Each response is a parameter: a value, or a failure with its status. URLs, headers, API keys in query strings and JSON bodies are not modelled.
- `server/routes.ts` is not part of this model: it is a near-duplicate proxy whose only logic is a presence check of four fields.
- Firebase authentication and Firestore (the auth and booking contexts and the user-data hooks) are not modelled. Sign-up's account creation is a parameter that returns success or an error code.
- Rendering is not modelled: JSX, animations, toasts, navigation, the flag emoji, `getAirlineName`, and date and time formatting for display.
- Browser notifications of a price drop are not modelled.
- Timing is not modelled:
  - the rate-limit pauses (`setTimeout` of 100, 200, 300 and 500 ms);
  - the VPN's two-second connection delay, which appears as the split of `BeginConnect` and `FinishConnect`;
  - the periodic timers (the assistant's 24-hour refresh and the notifier's 6-hour price check; the operations they call are modelled);
  - the individual `new Date()` of each `add`: one `now` stamps every document a rebuild adds (SupportChatbot.Rebuild, Chatbot.RebuildStore), where the source's stamps differ by the pauses between pages;
  - interleaving of `await`s and races between browser tabs on the same storage slot.
- Floating point is not modelled:
  - prices, budgets and thresholds are exact `real` values;
  - `Number`/`parseFloat` are parameters returning `Option<real>`, so NaN and Infinity are not represented;
  - the numeric value of cosine similarity (`sqrt` and the division) is the parameter `ratio`, and only its zero guards are modelled;
  - `Math.round` is `(x + 0.5).Floor`;
  - the metres-to-miles visibility conversion `(v || 10000) / 1609.34` is exact real division, with no rounding of the double quotient.
- Clocks and locales are parameters: "now", "today", `Date` parsing, `toDateString` keys (which depend on the time zone), `toISOString` and `toLocale*String`.
- Case mapping covers ASCII letters only, and `localeCompare` on country names is code-unit order. This is the same for the names in the server table.
- The storage format is a `Slot` value. `JSON.stringify`/`JSON.parse` are not modelled; an unreadable slot is the `Corrupt` case.
- ServerRoutes.Chat, ServerRoutes.Embeddings and ServerRoutes.FlightSearch: a thrown error's `message` detail field in the 500 answer is not modelled.
- ServerRoutes.Events and WeatherRoutes.Events: the error answers' `events: []` field is not modelled, since an error reply carries only a status and a message.
- ServerRoutes.Subscribe: the catch-all 500 answer is not modelled, because nothing in the body can throw.
- WeatherRoutes.Weather: the schema's error message is the parameter `schemaError`, not zod's text.
- ServerRoutes.Forecast: forecast entries without a `weather[0]` (which would throw) are not represented; every item carries its condition.
- Durations.FormatDuration: the hour and minute values are exact natural numbers. `parseInt` returns a double, so the source rounds values above 2^53 (`PT99999999999999999999H` becomes `100000000000000000000h`) and prints values from 10^21 up in exponent form. The model prints the exact digits.
- Durations.GroupOfNumber: reads back any number exactly; the source's `parseInt` does so only up to 2^53.
- FormatHoursAndMinutes: holds for all `h, m >= 0` of the model; it matches the source only for `h, m <= 2^53`, for the `parseInt` reason above.
- FormatHoursOnly: matches the source only for `h <= 2^53`, for the same reason.
- FormatMinutesOnly: matches the source only for `m <= 2^53`, for the same reason.
- VectorStore.TallyContract: `byType` is a plain object, so a document type named after an `Object.prototype` member is miscounted in the source. For `"toString"` or `"constructor"` the inherited function is truthy and the count becomes a string. `"__proto__"` is never stored. The model counts every type name correctly. The callers use only `page` and `conversation`.
- VectorStore.Store.GetStats: the same prototype-key gap as VectorStore.TallyContract.
- The threshold message of the error-fare form says "between 0.1 and 1.0", but the check accepts any number in (0, 1]. The model follows the check.

# Airline booking gateway: circuit breaker, purchase saga and backend services

This project models the core of a small airline-booking system. Its API gateway fronts three backends: the flight catalogue, the ticket service and the bonus (loyalty) service.

- **Circuit breaker.** Every backend request runs inside the guard of one circuit breaker. For each service the breaker keeps:
  - a history of observed latencies and successes;
  - an optional "opened at" second.

  From these it derives CLOSED, HALF_OPENED or OPENED.
- **Ticket purchase.** A purchase is a fixed sequence of guarded requests:
  - flight lookup;
  - ticket creation;
  - balance read;
  - bonus post;
  - balance re-read.

  When the final re-read fails, the gateway revokes the ticket and the bonus operation. A revocation that fails is queued for retry, without bound.
- **Backends.** The three services are modelled over abstract tables:
  - bonus ledger: privileges and their history;
  - ticket table;
  - flight and airport catalogue.
- **Person requests.** The gateway's request validation and its error and response schema are modelled as well.

Module by module:

- `Common` (common.dfy): `Option`, `Result`, and Python's truncating `int(n / d)`.
- `PyValues` (values.dfy): Python values as the handlers see decoded JSON.
  - `None`, bools, ints, floats, strings, lists, and dicts as ordered key/value sequences.
  - `d[k]`, `d.get(k)`, assignment, `del`, truthiness and iteration.
  - The exceptions these can raise.
- `CircuitBreakers` (circuit_breaker.dfy): the breaker as a class with the three per-service maps.
  - Every method is proved equal to a pure function on a `Store` value.
  - The properties of the breaker are lemmas about those functions.
  - The clock is an integer parameter `now`.
  - The 3.2 s latency threshold is kept as 32 tenths.
  - Both float comparisons are cross-multiplied.
- `TicketService` (ticket_service.dfy): the `ticket` table as a class over a sequence of rows in `id` order.
- `BonusService` (bonus_service.dfy): the `privilege` and `privilege_history` tables.
  - A `Ledger` class runs each endpoint.
  - Each endpoint is proved equal to a function on a `Tables` value.
  - Those functions keep the tables' invariants.
- `FlightService` (flight_service.dfy): paging defaults, OFFSET/LIMIT windows, the latest-flight lookup, airport formatting, and the two listing loops.
- `Validator` (validator.dfy) and `Schema` (schema.dfy): person-request validation, the error-response classes, and the in-place `to_json` of a person response.
- `Gateway` (gateway.dfy): the request handlers.
  - **Backend requests.** Each backend request is an `Exchange`. It holds:
    - the clock reading when the guard is entered;
    - the seconds the guarded block lasts;
    - the reply: unreachable, or a status with a body that may or may not decode as JSON.
  - **State.** The gateway's state is a `World`. It holds:
    - the breaker's store;
    - the `retry_coros` list, as queued retry tasks;
    - a log of guard entries.
  - **Breaker parameter.** Handlers are functions of a breaker, given as its enter and exit halves. `BreakerOf` plugs in the real one.
  - **Class.** The `Gateway` class runs the handlers on its breaker and retry list.

Where the code departs from what its names and messages suggest, the model follows the code:

- **Trimming.** The breaker trims histories only when the number of tracked service names reaches the store limit. It does not trim per service.
- **Bonus post.** A bonus-post status of 500 or more raises outside the compensating `try`. That error is not compensated. Only a failed final re-read triggers the two revocations.
- **Ticket revocation.** `raw_revoke_ticket` never looks at the status. Only an exception queues a retry.
- **`validate_name`.** It calls `len` on any non-`None` value, so a number or a bool raises `TypeError`.
- **`get_flights` parameters.** The handler parses both parameters with `int()`. Every listing request therefore carries `page` (decremented) and `size`. A missing parameter raises.
- **Minimum.** The `min(balance, price)` of the payment split returns the price only when the price is strictly smaller.
- **`get_me` flight lookups.** They run outside any `try`, so a failed flight lookup fails the whole request. Only the ticket-list and privilege fetches degrade.

## Model

| member | source | states |
|---|---|---|
| Common.TruncDiv | src/bonus_service/main.py:75 | Python's `int()` of a quotient: the magnitude is the exact quotient's magnitude rounded down, and the sign is the dividend's |
| PyValues.Index | src/apigateway/handlers.py:143-149 | `v[k]` succeeds exactly on a dict holding `k`, giving that key's value; otherwise it raises `KeyError` on a dict and `TypeError` on anything else |
| PyValues.Iterate | src/apigateway/handlers.py:49 | `for x in v` works exactly on lists, dicts and strings: a list yields its items, a dict its keys as strings in insertion order, a string its one-character strings in order; anything else raises `TypeError` |
| PyValues.DictSetLookup | src/apigateway/schema.py:72 | after `d[k] = v`, looking up `k` gives `v` and every other key gives what it gave before |
| PyValues.DictSetShape | src/apigateway/schema.py:72 | assigning an existing key keeps every key in place; assigning a new key appends it at the end |
| PyValues.DictSetKeys | src/apigateway/schema.py:72 | assignment adds the key to the key list only when it is new, and keeps the keys distinct |
| CircuitBreakers.KeepLast | src/apigateway/circuit_breaker.py:76-77 | `xs[-k:]` is a suffix of `xs`: `min(k, len)` long for positive `k`, the whole list for `k = 0`, and `len + k` long (at least 0) for negative `k` |
| CircuitBreakers.Trim | src/apigateway/circuit_breaker.py:75-77 | trimming replaces only the queried service's two histories with their last `store_limit` entries, and only when at least `store_limit` service names are tracked; the other services and every "opened at" entry are unchanged |
| CircuitBreakers.ObserveSpec | src/apigateway/circuit_breaker.py:97-99 | an observation appends exactly one latency and one success flag to the service's histories, changes no other service, and keeps the two histories the same length |
| CircuitBreakers.TouchClosedAt | src/apigateway/circuit_breaker.py:68 | reading `closed_at_sec[s]` through the defaultdict inserts a key but changes no service's "opened at" value |
| CircuitBreakers.TouchTimes | src/apigateway/circuit_breaker.py:93 | reading `req_times[s]` through the defaultdict changes no service's latency history |
| CircuitBreakers.TouchSuccess | src/apigateway/circuit_breaker.py:87 | reading `req_success[s]` through the defaultdict changes no service's success history |
| CircuitBreakers.SetClosedAt | src/apigateway/circuit_breaker.py:82 | recording the opening second sets the service's "opened at" and nothing else |
| CircuitBreakers.GetStateIsLocal | src/apigateway/circuit_breaker.py:67-84 | `get_state(s)` leaves every other service's histories and "opened at" entry unchanged |
| CircuitBreakers.JudgeIsLocal | src/apigateway/circuit_breaker.py:75-84 | the health judgement of a service that has not opened touches only that service |
| CircuitBreakers.FreshServiceIsClosed | src/apigateway/circuit_breaker.py:79-95 | a service with no history and no opening time is CLOSED and stays unopened |
| CircuitBreakers.OpensExactlyWhenUnhealthy | src/apigateway/circuit_breaker.py:75-95 | for a service that has not opened, `get_state` returns OPENED exactly when one of two conditions holds, else CLOSED: (1) the mean latency of the (trimmed) history is at least the threshold; (2) the success ratio is at most `error_rate/100`. It never returns HALF_OPENED. It records `now` as the opening second exactly when it opens, and leaves the trimmed histories in place |
| CircuitBreakers.LatencyFailureSkipsSuccessRead | src/apigateway/circuit_breaker.py:79-80 | when the latency check fails, the success check is short-circuited, so the success map does not even gain the service's key |
| CircuitBreakers.HalfOpenBackoff | src/apigateway/circuit_breaker.py:68-74 | an opened service is HALF_OPENED once `half_open_threshold_sec` seconds have passed, with its opening second moved to the midpoint (truncated), and is OPENED and untouched before that; its histories are never trimmed or touched |
| CircuitBreakers.HalfOpenExample | src/apigateway/circuit_breaker.py:69-72 | opened at 1000 and queried at 1010 with the default thresholds: HALF_OPENED, and the opening second becomes 1005 |
| CircuitBreakers.GetStateKeepsBalanced | src/apigateway/circuit_breaker.py:67-84 | if every service's two histories have equal length before `get_state`, they still do afterwards |
| CircuitBreakers.StepKeepsOpened | src/apigateway/circuit_breaker.py:68-82 | once a service has an opening second, no single query or observation removes it, and a query of that service never answers CLOSED |
| CircuitBreakers.OpenedNeverClosesAgain | src/apigateway/circuit_breaker.py:68-82 | over any sequence of queries and observations, a service that has opened keeps its opening second, and every later query of it answers OPENED or HALF_OPENED, never CLOSED |
| CircuitBreakers.ProbeQueriesPrefix | src/apigateway/circuit_breaker.py:57-65 | the combined query asks the services in order and stops right after the first OPENED one; its store effect is exactly that of querying that prefix |
| CircuitBreakers.ComboFromFollowsProbe | src/apigateway/circuit_breaker.py:57-65 | the loop's answer is OPENED if any queried service was OPENED, else HALF_OPENED if any was HALF_OPENED, else the starting value |
| CircuitBreakers.ComboState | src/apigateway/circuit_breaker.py:57-65 | `get_combo_state` answers OPENED at the first opened service without querying later names, otherwise HALF_OPENED if any service is half-open, otherwise CLOSED (also for an empty list) |
| CircuitBreakers.GuardObservesOnce | src/apigateway/circuit_breaker.py:22-33 | the guard admits the call exactly when the state is not OPENED; a refused call records nothing beyond the state query; an admitted call records exactly one observation of the elapsed seconds and of whether the block raised |
| CircuitBreakers.CircuitBreaker.constructor | src/apigateway/circuit_breaker.py:48-55 | a new breaker has the given thresholds (defaults 100, 75, 3.2 s as 32 tenths, 10 s) and empty maps |
| CircuitBreakers.CircuitBreaker.Observe | src/apigateway/circuit_breaker.py:97-99 | the new store is the observation of the old one (see `ObserveSpec`) |
| CircuitBreakers.CircuitBreaker.CheckReqSuccessClosed | src/apigateway/circuit_breaker.py:86-90 | healthy exactly when the history is empty or the success ratio exceeds `error_rate/100`; the read only inserts the key |
| CircuitBreakers.CircuitBreaker.CheckReqTimeClosed | src/apigateway/circuit_breaker.py:92-95 | healthy exactly when the history is empty or the mean latency is below the threshold; the read only inserts the key |
| CircuitBreakers.CircuitBreaker.GetState | src/apigateway/circuit_breaker.py:67-84 | the state returned and the new store are `GetStateSpec` of the old store: `JudgeSpec` for a service that has not opened, with the locality and balance lemmas above |
| CircuitBreakers.CircuitBreaker.GetComboState | src/apigateway/circuit_breaker.py:57-65 | the loop with its early return yields `ComboSpec` of the old store, the answer and store characterised by `ComboState` and `ComboFromFollowsProbe` |
| CircuitBreakers.CircuitBreaker.Enter | src/apigateway/circuit_breaker.py:22-28 | `__enter__` gives `EnterSpec`: it admits the call exactly when the queried state is not OPENED, leaving the store of that query |
| CircuitBreakers.CircuitBreaker.Exit | src/apigateway/circuit_breaker.py:30-33 | `__exit__` gives `ObserveSpec`: it records one observation of the elapsed seconds and of whether the block succeeded |
| TicketService.RevokeCancelsOnlyUid | src/ticket_service/main.py:60-62 | revoking sets CANCELED on exactly the rows carrying the uid and changes no other field and no other row |
| TicketService.RevokeIdempotent | src/ticket_service/main.py:60-62 | revoking the same uid twice leaves the table as revoking it once |
| TicketService.RevokeKeepsWellFormed | src/ticket_service/main.py:60-62 | revoking keeps ids increasing, below the next SERIAL value, and uids unique |
| TicketService.UserTicketsMembers | src/ticket_service/main.py:73-87 | the listing holds a ticket exactly when it is in the table and belongs to the user |
| TicketService.UserTicketsOrdered | src/ticket_service/main.py:80-81 | the listing is in ascending id order |
| TicketService.UserTicketsExact | src/ticket_service/main.py:66-87 | both of the above: exactly the user's tickets, by ascending id |
| TicketService.FirstWithUidFinds | src/ticket_service/main.py:38-47 | the uid lookup finds a row exactly when some row carries the uid, and the row it finds carries it |
| TicketService.TicketTable.constructor | src/ticket_service/main.py:119-129 | a new table is empty, its SERIAL sequence starts at 1, and it is well formed |
| TicketService.TicketTable.PostTicket | src/ticket_service/main.py:90-104 | the insert succeeds exactly when the user name, flight number and price fit their columns (a `VARCHAR` admits a longer string only when the excess is spaces) and the uid is new. On success it appends one PAID row with the next id and the strings cut to the column widths, and echoes uid, flight number, PAID and price. Otherwise it answers 500 and the rows are unchanged. A value that does not fit leaves the id sequence alone; a taken uid still advances it |
| TicketService.TicketTable.RevokeTicketByUid | src/ticket_service/main.py:56-63 | the table becomes `Revoke` of the uid (exactly that uid's rows cancelled, idempotent, well formed, by the lemmas above), and the answer is `{}` whether or not the uid exists |
| TicketService.TicketTable.GetTickets | src/ticket_service/main.py:66-87 | the loop returns `UserTickets` of the user: exactly the user's tickets, in ascending id order |
| TicketService.TicketTable.GetTicketByUid | src/ticket_service/main.py:34-53 | a stored ticket carrying the uid is returned exactly when one exists; otherwise unpacking `None` gives a 500 |
| FlightService.EffectiveSize | src/flight_service/main.py:76 | `size or 100`: a missing or zero size becomes 100, any other size is kept |
| FlightService.EffectivePage | src/flight_service/main.py:77 | `page or 0`: a missing page becomes 0, any other page is kept |
| FlightService.Window | src/flight_service/main.py:93-95 | `OFFSET o LIMIT l` on the id-ordered table gives at most `l` rows starting at row `o`, fewer at the end of the table; an offset or limit that is negative or beyond `BIGINT` (2^63 or more) makes the query fail (500) |
| FlightService.WindowsTile | src/flight_service/main.py:93-95 | two adjacent windows that stay within `BIGINT` concatenate to the window covering both |
| FlightService.PagesFollowEachOther | src/flight_service/main.py:76-78 | page `p` followed by page `p + 1` is the double-size window at page `p`'s offset, so pages neither overlap nor leave gaps, as long as the offsets stay within `BIGINT` |
| FlightService.FindAirportExact | src/flight_service/main.py:31-37 | the airport lookup finds a row exactly when some airport has the id, and the row it finds has that id |
| FlightService.GetAirportById | src/flight_service/main.py:27-41 | 404 exactly when the id is `NULL` or no airport has it; 500 exactly when the airport found for the id has a NULL name, city or country; a success carries an existing airport's id and its name, city and country |
| FlightService.FormatAirport | src/flight_service/main.py:68-69 | an airport is shown as its city, one space, then its name |
| FlightService.ToFlight | src/flight_service/main.py:99-107 | a flight row converts exactly when both airport lookups succeed, into its id, number, date, price and the two formatted airports; otherwise it fails with the 404 or 500 of the first lookup that failed, the origin's before the destination's |
| FlightService.LatestIsLatest | src/flight_service/main.py:48-58 | `ORDER BY datetime DESC LIMIT 1` finds a row exactly when some flight has the number, and no flight with that number departs later than the row found |
| FlightService.GetFlightByNumber | src/flight_service/main.py:44-70 | 404 when no flight has the number; otherwise the conversion of the flight `Latest` picks, one with that number and the latest departure |
| FlightService.GetAllFlights | src/flight_service/main.py:73-109 | a window whose offset or size is negative or beyond `BIGINT` answers 500; when every row of the window converts, the page holds their conversions in order, echoes the effective page and size, and `totalElements` is the number of items on the page; when some row does not, it fails with the error of the first row that does not convert |
| FlightService.GetAllAirports | src/flight_service/main.py:112-130 | a window whose offset or size is negative or beyond `BIGINT` answers 500; otherwise the airports of the window in id order, which succeeds exactly when none has a NULL name, city or country (500 otherwise) |
| Validator.ValidateName | src/apigateway/validator.py:11-16 | `None` gives the single "must be not null" error; a value of length 0 gives the single "must have len gt than 0" error; a value without a length raises `TypeError`; no error exactly for a value of positive length; never more than one error, always for `name` |
| Validator.ValidateAge | src/apigateway/validator.py:19-26 | no error exactly for `None` or a positive integer (bools count as integers); the type error exactly for a non-`None` non-integer; the "must be gt than 0" error for a non-positive integer; at most one error, always for `age` |
| Validator.ValidateOptionalField | src/apigateway/validator.py:29-32 | exactly when the value is the empty string, the single error "Field {name} must be null or have len gt 0" for the given field; none otherwise |
| Validator.ValidatePersonRequest | src/apigateway/validator.py:35-42 | raises exactly when the name check raises; otherwise its errors are exactly those of the four checks, name, age, work, address in that order, at most one each and at most four |
| Validator.RanksIncrease | src/apigateway/validator.py:35-42 | concatenating per-field lists of at most one error each, in field order, gives a list ordered by field |
| Validator.RequestValidIff | src/apigateway/validator.py:35-42 | a request is valid exactly when the name has positive length, the age is `None` or a positive integer, and neither work nor address is the empty string |
| Validator.MissingNameReported | src/apigateway/validator.py:11-13 | a request without `name` is reported, first, with the "must be not null" error |
| Schema.ErrorsDictLastWins | src/apigateway/schema.py:70-72 | the error dict has one distinct key per field named by some error, holding the last message given for it |
| Schema.LastErrorForSome | src/apigateway/schema.py:70-72 | a field has a last message exactly when some error names it |
| Schema.FromValidationErrors | src/apigateway/schema.py:68-73 | the loop builds a validation-error response with the message and a dict mapping exactly the named fields to their last message |
| Schema.Status | src/apigateway/schema.py:46-66 | status 404 exactly for `ErrorNotFound`, 400 for the others |
| Schema.MessageOf | src/apigateway/schema.py:46-59 | `ErrorNotFound` carries "Not found"; the others carry the message they were built with |
| Schema.ErrorToJson | src/apigateway/schema.py:75-79 | the JSON has `message` alone, or `message` then `errors` for a validation error, holding the response's message and errors |
| Schema.FromRaw | src/apigateway/schema.py:34-40 | raises `TypeError` exactly when validation does; raises the "Invalid person request" validation response exactly when validation finds errors; otherwise builds the request from name, age, address and work |
| Schema.FromRawFindsName | src/apigateway/schema.py:40 | a built request always found a `name` key, of positive length, so `data['name']` cannot fail |
| Schema.ToJsonRenamesOnce | src/apigateway/schema.py:20-24 | the first `to_json` gives name, age, address, work and then `id` holding the old `_id`; a second call on the same response raises `AttributeError` |
| Schema.PersonResponse.FromRequest | src/apigateway/schema.py:16-18 | a new response's fields are `_id`, name, age, address, work in that order |
| Schema.PersonResponse.ToJson | src/apigateway/schema.py:20-24 | the result is the object's own field dict after the rename, so the object changes with it |
| BonusService.FillDiff | src/bonus_service/main.py:74-75 | a fill earns a tenth of the price truncated toward zero: for a non-negative price, `10·d ≤ price < 10·d + 10` |
| BonusService.DebitDiff | src/bonus_service/main.py:76-77 | a debit takes the smaller of balance and price: it equals one of them and exceeds neither |
| BonusService.FindByUsernameExact | src/bonus_service/main.py:31-34 | the user lookup finds nothing exactly when no privilege has the name, and finds a row with that name otherwise |
| BonusService.FindByIdExact | src/bonus_service/main.py:100-104 | the id lookup finds nothing exactly when no privilege has the id, and finds a row with that id otherwise |
| BonusService.FindByIdUnique | src/bonus_service/main.py:100-104 | with increasing ids, looking up a row's id finds that very row |
| BonusService.FindByUsernameUnique | src/bonus_service/main.py:31-34 | with unique names, looking up a row's name finds that very row |
| BonusService.SetBalanceShape | src/bonus_service/main.py:83-85 | the balance update changes the balance of exactly the rows with the id and nothing else |
| BonusService.SetBalanceTwice | src/bonus_service/main.py:83-85 | two updates of one id leave the table as the second one alone |
| BonusService.SetBalanceSame | src/bonus_service/main.py:108-110 | writing back a row's own balance leaves the table unchanged |
| BonusService.SetBalanceKeepsKeys | src/bonus_service/main.py:83-85 | a balance update keeps the ids, their order and the user names |
| BonusService.HistoryOfExact | src/bonus_service/main.py:49-61 | the history list holds an item for every history row of the privilege, and only such items |
| BonusService.HistoryOfNone | src/bonus_service/main.py:49-61 | a privilege without history rows gets an empty history |
| BonusService.HistoryOfAppend | src/bonus_service/main.py:78-81 | a new history row adds at most its own item at the end of a privilege's history |
| BonusService.FirstWithUidExact | src/bonus_service/main.py:92-95 | the uid lookup finds a history row exactly when one carries the uid, and the row it finds carries it |
| BonusService.WithoutUidExact | src/bonus_service/main.py:105-106 | the DELETE keeps exactly the history rows that do not carry the uid |
| BonusService.WithoutUidOrdered | src/bonus_service/main.py:105-106 | the DELETE keeps the history ids increasing |
| BonusService.WithoutAbsentUid | src/bonus_service/main.py:105-106 | deleting a uid no row carries changes nothing |
| BonusService.WithoutUidAppend | src/bonus_service/main.py:105-106 | deleting the uid of the only row that carries it, the last one, removes exactly that row |
| BonusService.WithoutUidConcat | src/bonus_service/main.py:105-106 | the DELETE works row by row: it distributes over concatenation |
| BonusService.FindByIdSetBalance | src/bonus_service/main.py:83-85 | after a balance update the id lookup finds the updated row for that id and the old row for any other |
| BonusService.FirstWithUidAppend | src/bonus_service/main.py:92-95 | a freshly appended row is the one found for its new uid |
| BonusService.GetReportsUserRow | src/bonus_service/main.py:27-62 | reading a known user changes nothing and reports the row's balance (0 for a NULL balance), its status and its history |
| BonusService.GetCreatesUnknownUser | src/bonus_service/main.py:36-47 | reading an unknown user (name within 80 characters) inserts a BRONZE row with balance 0 under the next id and reports balance 0, BRONZE, empty history |
| BonusService.GetKeepsValid | src/bonus_service/main.py:27-62 | reading a privilege keeps the table invariants (increasing ids below the SERIAL values, unique names, `INT` balances, history rows naming existing privileges) |
| BonusService.GetTwiceIsGetOnce | src/bonus_service/main.py:27-62 | for a name of at most 80 characters, a second successful read answers the same and changes nothing more |
| BonusService.GetPaddedNameTwiceFails | src/bonus_service/main.py:27-47 | a name over 80 characters whose excess is spaces is stored cut, so the read after the one that created it does not find it and fails with 500 on the UNIQUE name |
| BonusService.PushUnknownUserFails | src/bonus_service/main.py:69-72 | posting for an unknown user fails with 500 before any write |
| BonusService.PushFillAddsTenth | src/bonus_service/main.py:73-85 | a fill appends one history row with the fill amount, advances the history id, and raises only that user's balance by the fill amount |
| BonusService.PushDebitNeverOverdraws | src/bonus_service/main.py:76-85 | a debit records `−min(balance, price)` and leaves the balance at `max(0, balance − price)`, never negative for a non-negative balance and price |
| BonusService.AppendHistoryKeepsValid | src/bonus_service/main.py:78-81 | a history row for an existing privilege, under the next history id, keeps the invariants |
| BonusService.SetBalanceKeepsValid | src/bonus_service/main.py:83-85 | storing an `INT` balance keeps the invariants |
| BonusService.PushRowKeepsValid | src/bonus_service/main.py:78-85 | the history row of a post, with or without the following `INT` balance update, keeps the invariants |
| BonusService.PushKeepsValid | src/bonus_service/main.py:65-85 | every outcome of a post, failures included, keeps the invariants |
| BonusService.PushOkShape | src/bonus_service/main.py:73-85 | a successful post for a row with a balance appends the history row with the diff and adds the diff to that balance, nothing else |
| BonusService.DropUnknownUidFails | src/bonus_service/main.py:92-97 | dropping a uid no history row carries answers 404 and changes nothing |
| BonusService.DropRemovesEveryRow | src/bonus_service/main.py:99-110 | after a drop no history row carries the uid, so a second drop answers 404 and changes nothing |
| BonusService.DropFreshRow | src/bonus_service/main.py:99-110 | dropping the one row of a uid removes it and lowers the balance by `min(balance, diff)` |
| BonusService.DropUndoesRow | src/bonus_service/main.py:99-110 | when subtracting `min(balance, diff)` gives back the earlier balance, the drop restores the tables exactly, apart from the consumed history id |
| BonusService.DiffUndone | src/bonus_service/main.py:108-110 | for a non-negative balance, subtracting `min(balance + d, d)` undoes adding the fill or debit diff `d` |
| BonusService.PushThenDropRestores | src/bonus_service/main.py:77 | a successful fill or debit for a fresh uid, followed by the drop of that uid, restores both tables, with only the history id advanced |
| BonusService.DropKeepsValid | src/bonus_service/main.py:88-110 | every outcome of a drop keeps the invariants |
| BonusService.Ledger.constructor | src/bonus_service/main.py:125-146 | new tables are empty, both SERIAL sequences start at 1, and the invariants hold |
| BonusService.Ledger.GetUserPrivilege | src/bonus_service/main.py:27-62 | the answer and the new tables are `GetSpec` of the old tables, characterised by the read lemmas above, and the invariants are kept |
| BonusService.Ledger.HistoryFor | src/bonus_service/main.py:49-61 | the loop returns the privilege's history items in table order |
| BonusService.Ledger.PushPrivilege | src/bonus_service/main.py:65-85 | the answer and the new tables are `PushSpec` of the old tables, characterised by the post lemmas above, and the invariants are kept |
| BonusService.Ledger.DropPrivilege | src/bonus_service/main.py:88-110 | the answer and the new tables are `DropSpec` of the old tables, characterised by the drop lemmas above, and the invariants are kept |
| Gateway.Guarded | src/apigateway/circuit_breaker.py:22-33 | a guarded block logs one entry and admits the call exactly when `__enter__` does; an admitted call is observed with its elapsed time and whether it raised; no retry is queued |
| Gateway.Gather | src/apigateway/handlers.py:228-242 | a dict display of `src[key]` reads succeeds exactly when every read does, giving the values in order; otherwise it raises the error of the first read that fails |
| Gateway.RawRevokeBonusRetriesOnFailure | src/apigateway/handlers.py:279-289 | the bonus revocation logs one guard entry and queues exactly one retry for the same uid when it fails, none otherwise. It fails when the circuit is open, the request fails, or a status below 400 does not decode. A status of 400 or more never queues a retry |
| Gateway.RawRevokeTicketRetriesOnFailure | src/apigateway/handlers.py:292-300 | the ticket revocation logs one guard entry and queues exactly one retry for the same uid exactly when the circuit refuses it or the request or decoding fails |
| Gateway.RawRevokeTicketIgnoresStatus | src/apigateway/handlers.py:297-298 | the ticket revocation's effect does not depend on the status the ticket service answers |
| Gateway.RunRetry | src/apigateway/handlers.py:274-276 | a queued retry makes one guarded request for the same revocation and either finishes or queues itself once more |
| Gateway.UnreachableRetriesForever | src/apigateway/handlers.py:274-300 | while the backend is unreachable, each run of a retry queues the same task again, one per attempt, with no bound |
| Gateway.RevokeTicketAlwaysAccepted | src/apigateway/handlers.py:303-313 | `DELETE /tickets/{uid}` always answers 204, tries the bonus revocation before the ticket revocation, and queues at most one retry for each |
| Gateway.Minus | src/apigateway/handlers.py:202 | subtraction of two Python numbers gives their numeric difference |
| Gateway.SplitPayment | src/apigateway/handlers.py:196-205 | money plus bonuses is the price. Without `paidFromBalance` the money is the price, the bonuses 0, and the operation FILL_IN_BALANCE for the price. With it, the bonuses are `min(balance, price)`: one of the two, exceeding neither. The operation is then DEBIT_THE_ACCOUNT for the bonus amount, and a non-number raises `TypeError` |
| Gateway.SplitWithinBalance | src/apigateway/handlers.py:201-202 | for a non-negative balance and price the split succeeds, the bonuses lie between 0 and both, and the money part is non-negative |
| Gateway.NonOkFlightStopsEarly | src/apigateway/handlers.py:173-178 | a non-200 flight answer is returned as the response before any ticket or bonus request; only the flight lookup is logged (and observed as a success), and nothing is queued |
| Gateway.FailedPostNotCompensated | src/apigateway/handlers.py:207-215 | a bonus post that is refused, unreachable or answers 500 or more raises with no revocation and no queued retry |
| Gateway.CompensationOnlyAfterReread | src/apigateway/handlers.py:157-242 | a purchase only appends to the log. Revocations or queued retries happen only after all four forward requests went through and the final re-read failed. A failed re-read always leads to the ticket revocation, then the bonus revocation, for the uid the bonus post carried, and the re-read's own exception is raised again |
| Gateway.SagaShape | src/apigateway/handlers.py:173-242 | the purchase from the flight lookup on has the compensation shape above |
| Gateway.TicketShape | src/apigateway/handlers.py:181-242 | the purchase from ticket creation on has the compensation shape |
| Gateway.BalanceShape | src/apigateway/handlers.py:188-242 | the purchase from the balance read on has the compensation shape |
| Gateway.PostShape | src/apigateway/handlers.py:207-242 | the purchase from the bonus post on has the compensation shape |
| Gateway.RereadShape | src/apigateway/handlers.py:217-226 | the re-read either answers, or revokes the ticket and then the bonus for the purchase's uid and raises the re-read's exception |
| Gateway.ShapeStep | src/apigateway/handlers.py:173-215 | a forward stage that stops by itself, or passes on to a later stage with the shape, gives the shape one stage earlier |
| Gateway.AddedShapeCons | src/apigateway/handlers.py:173-215 | an admitted forward request in front of a later stage's log entries keeps the compensation shape |
| Gateway.MeItemShape | src/apigateway/handlers.py:140-150 | one ticket entry looks up the ticket's flight once (admitted) and, on success, has the seven listed keys; nothing is queued |
| Gateway.MeItemsLookups | src/apigateway/handlers.py:140-150 | the ticket loop queues nothing and, when it completes, has made one admitted flight lookup per ticket, in order |
| Gateway.MeItemsOnePerTicket | src/apigateway/handlers.py:140-150 | a completed ticket loop gives one entry per ticket, each with the seven listed keys |
| Gateway.GetMeWithoutTickets | src/apigateway/handlers.py:117-124 | when the ticket fetch is refused or fails, `/me` still answers 200 with an empty ticket list, after logging the ticket fetch and the privilege fetch |
| Gateway.GetMeDegrades | src/apigateway/handlers.py:117-137 | `/me` raises only from a ticket list that was fetched; an answer is 200 with `tickets` and `privilege`; a refused or failed privilege fetch gives `privilege: null` |
| Gateway.NatToString | src/apigateway/handlers.py:38 | `str(n)` of a natural number is a non-empty string of digits |
| Gateway.IntToString | src/apigateway/handlers.py:38 | `str(n)` is non-empty and starts with a minus sign exactly for a negative number |
| Gateway.NatToStringRoundTrip | src/apigateway/handlers.py:42 | the digits of `str(n)` read back as `n` |
| Gateway.IntToStringRoundTrip | src/apigateway/handlers.py:38 | the numeral `str(n)` reads back as `n`, sign included |
| Gateway.FlightsUrlBoth | src/apigateway/handlers.py:34-42 | with both parameters the URL is `/flights?page={page-1}&size={size}` |
| Gateway.GetFlightsRequestsBothParameters | src/apigateway/handlers.py:29-42 | two integer parameters always lead to one guarded request for `/flights?page={page-1}&size={size}`, whose numbers read back as `page - 1` and `size`; a missing or malformed parameter raises before any request and changes nothing |
| Gateway.ProjectFlight | src/apigateway/handlers.py:50-56 | a projected flight has exactly the five listed keys, in order, each holding the backend flight's value for that key |
| Gateway.ProjectFlights | src/apigateway/handlers.py:49-56 | the projection succeeds exactly when every flight projects, giving one entry per flight in order |
| Gateway.ProjectFlightsFirstError | src/apigateway/handlers.py:49-56 | a failing projection raises the error of the first flight that does not project |
| Gateway.CollectFlights | src/apigateway/handlers.py:49-56 | the append loop computes the projection of the flight list |
| Gateway.ReshapeKeepsPage | src/apigateway/handlers.py:47-56 | the reshaped page keeps the backend page's keys in place and every value but `items`, which holds one five-key entry per listed flight |
| Gateway.Gateway.constructor | src/apigateway/handlers.py:15-16 | the module starts with a breaker with default thresholds, empty maps and no queued retries |
| Gateway.Gateway.Guard | src/apigateway/circuit_breaker.py:22-33 | the class's guarded block has the effect of `Guarded` on its breaker |
| Gateway.Gateway.RawRevokeBonus | src/apigateway/handlers.py:279-289 | the class's state changes as `RawRevokeBonusSpec` says, whose retry behaviour `RawRevokeBonusRetriesOnFailure` states |
| Gateway.Gateway.RawRevokeTicket | src/apigateway/handlers.py:292-300 | the class's state changes as `RawRevokeTicketSpec` says, whose retry behaviour `RawRevokeTicketRetriesOnFailure` and `RawRevokeTicketIgnoresStatus` state |
| Gateway.Gateway.RunQueuedRetry | src/apigateway/handlers.py:274-276 | the class's state changes as `RunRetry` says: one guarded attempt that finishes or queues the task again |
| Gateway.Gateway.RevokeTicket | src/apigateway/handlers.py:303-313 | `DELETE /tickets/{uid}` on the class's state gives `RevokeTicketSpec`: 204, bonus then ticket revocation |
| Gateway.Gateway.Compensation | src/apigateway/handlers.py:223-225 | the class's state changes as `Compensate` says: the two revocations of a failed purchase, ticket first |
| Gateway.Gateway.PostTicket | src/apigateway/handlers.py:157-242 | the purchase on the class's state gives `PurchaseSpec`, whose early stops and compensation shape the purchase lemmas above state |
| Gateway.Gateway.FetchFlight | src/apigateway/handlers.py:19-24 | the guarded flight lookup gives `FetchFlightSpec`: the decoded body whatever the status, or the guard's or request's error |
| Gateway.Gateway.GetMe | src/apigateway/handlers.py:108-154 | `/me` on the class's state gives `GetMeSpec`, whose degradation `GetMeWithoutTickets` and `GetMeDegrades` state |
| Gateway.Gateway.MeEntry | src/apigateway/handlers.py:141-150 | one turn of the ticket loop on the class's state gives `MeItem`, whose shape `MeItemShape` states |
| Gateway.Gateway.MeLoop | src/apigateway/handlers.py:140-150 | the ticket loop on the class's state, stopping at the first failing ticket, gives `MeItems`, whose lookups and entries `MeItemsLookups` and `MeItemsOnePerTicket` state |
| Gateway.Gateway.GetFlights | src/apigateway/handlers.py:27-58 | `/flights` on the class's state gives `GetFlightsSpec`: the request `GetFlightsRequestsBothParameters` states, then `Reshape` of the page as `ReshapeKeepsPage` states |

## Left out

- HTTP and aiohttp/FastAPI plumbing is not modelled: sessions, base URLs from the environment, route decorators and header parsing. Each backend request is an oracle reply, and each URL is an abstract `Call`.
- asyncio is not modelled: task creation, the 5-second `asyncio.sleep` and interleaving. `retry_coros` is the list of queued retry tasks, and a retry is run only when `RunQueuedRetry` is invoked.
- The wall clock is a whole-second parameter. The guard's float elapsed time is given already truncated to whole seconds.
- CircuitBreakers.CircuitBreaker.constructor: the latency threshold is an integer number of tenths. A threshold that is not a multiple of 0.1 s cannot be expressed.
- BonusService.FillDiff: `int(price * 0.1)` is modelled as exact truncated division by ten. Float rounding of the product, where it would differ, is not modelled.
- Gateway.SplitPayment: Python floats are modelled as exact reals, without rounding.
- Gateway.Gateway.PostTicket: the ticket uid is passed on as the value the ticket service returned. Its rendering through `str()` in the bonus post is not modelled.
- Only the gateway handlers named above are modelled. The other handlers in src/apigateway/handlers.py are not: `get_tickets`, `get_privilege` and `get_ticket` (lines 61-105 and 245-271).
- The gateway's ticket revocation and the ticket service's handler are kept as separate models. The gateway revokes at `/ticket/{uid}`, while the ticket service serves `DELETE /tickets/{ticketUid}`, so the model does not connect the two.
- Database start-up is not modelled: connection pools and seed rows. Tables start empty.
- SQL is modelled per statement, with each statement committing on its own. A query without `ORDER BY` returns rows in table (id) order.
- TicketService.TicketTable.PostTicket: the `uuid4()` value is a parameter.
- BonusService.GetTwiceIsGetOnce: stated only for names of at most 80 characters. A longer name that the column accepts is stored cut, and the second read then fails, as `BonusService.GetPaddedNameTwiceFails` states.
- The open circuit's error text is not modelled. The `Unavailable` fault carries only the service name the text is built from.
- Dates and times are integers. Their rendering as text with `strftime` is not modelled.
- The gateway's 400 answer for a missing `ticketUid` in the revocation route is not modelled, because routing always supplies it.
- The flight lookups of `/me` take their replies from a function of the ticket's position.
- `print` logging is not modelled.
- Helper modules are not part of this model: src/apigateway/repo.py, db_conn.py, serializer.py, exc_handler.py and main.py.
- Pydantic response validation is not modelled beyond the NULL checks of `Airport`.

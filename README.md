# Cheapest flight and hotel lookup

A model of the two request handlers of a small Flask service, `app.py`, that
answers "what are the cheapest flights to X" and "what are the cheapest
hotels in X" from a document store.

- `GET /flight?destination=&departureDate=&returnDate=` (`GetCheapestFlight`)
  validates its three parameters. It then looks up the outbound leg (from
  Singapore to the destination on the departure date) and the return leg
  (the mirror image, on the return date). Each leg is sorted by price and
  reduced to `FilteredRecord(airline, price)`. The two legs are paired by
  rank: the i-th cheapest outbound with the i-th cheapest return.
- `GET /hotel?destination=&checkInDate=&checkOutDate=` (`GetCheapestHotels`)
  validates its parameters and looks up the hotel records of the destination
  between the two dates. It totals the price per hotel name, sorts the totals
  in ascending order and returns one row per hotel.

The model is imperative where the handlers are. The validation blocks, with
their `validQueries` flag, are `method`s. So are the `append` loops that build
the legs, the pairing loop, the loop over the set of hotel names and the loop
that builds the hotel rows, and each of these loops carries invariants.
`sorted`, `sum` and the list and set comprehensions are functions with lemmas.

The document store is a parameter `find` of each handler. It maps a query to
the records returned (`Fetched`) or to a failure (`FetchFailed`). The model
begins once `request.args` has been read: an absent parameter is `None` and
an empty one is `""`, and both count as false, as Python's truthiness has it.

Files:

- `Common.dfy`: optional parameters, the store's answer, response messages and statuses.
- `IsoDate.dfy`: `date.fromisoformat` as a validator of the `YYYY-MM-DD`
  form. That form is `full-date` of section 5.6 of RFC 3339, with the limits
  and leap-year rule of section 5.7 and Python's year range 1 to 9999. The
  file also holds the canonical text of a date and the round trips between
  the two.
- `Sorting.dfy`: `sorted(..., key=...)` as a stable insertion sort, with
  sortedness, permutation, stability and preservation of distinctness.
- `Flights.dfy`: the flight handler.
- `Hotels.dfy`: the hotel handler.

## Model

| member | source | states |
|---|---|---|
| IsoDate.ParseIsoDate | app.py:41-44 | `date.fromisoformat` returns only for `YYYY-MM-DD` text that names a real calendar date, with the year in 1..9999, and raises otherwise |
| IsoDate.ParseFormat | app.py:41-44 | every valid date is accepted in its canonical text and read back as the same date |
| IsoDate.FormatParse | app.py:41-44 | every accepted string is exactly the canonical text of the date it denotes |
| IsoDate.AcceptedExactlyWhenCanonical | app.py:41-44 | a string is accepted if and only if it is the canonical text of some valid date |
| IsoDate.MonthThirteenRejected | app.py:41-44 | the malformed date `2023-13-40` is refused |
| IsoDate.LeapDays | app.py:144-147 | February 29th is accepted in 2024 and 2000 and refused in 2023 and 1900 |
| Sorting.Insert | app.py:79 | inserting into a sorted list keeps it sorted and adds exactly the one element |
| Sorting.SortBy | app.py:79 | `sorted` returns its input reordered, non-decreasing by the key, with the same length and the same multiset |
| Sorting.SortByIsStable | app.py:98 | for every key value, the elements with that key keep their input order (`sorted` is stable) |
| Sorting.SortByDistinct | app.py:193 | sorting keeps a list free of two elements that agree on a field |
| Flights.ValidateFlightArgs | app.py:36-57 | the request passes exactly when the destination is non-empty and both dates are present and valid; a date on which `date.fromisoformat` raises is reported with that `ValueError`, the return date first; any other rejection is "Bad input" |
| Flights.ReturnFilterMirrorsDeparture | app.py:62-72 | the outbound query starts from "singapore"; the return query is the outbound query with source and destination swapped and the return date in place of the departure date |
| Flights.ProjectSortBy | app.py:79-84 | sorting the records by price and then projecting to `FilteredRecord` gives the same list as projecting first and sorting afterwards |
| Flights.LegIsStableSort | app.py:79-84 | a processed leg has one entry per fetched record, is non-decreasing by price, is a permutation of the projected records, and keeps the fetch order among equal prices |
| Flights.ProcessLeg | app.py:98-103 | the append loop builds the processed leg, and the leg has all the properties of `LegIsStableSort` |
| Flights.PairLegs | app.py:105-116 | the pairing loop succeeds exactly when the return leg is no longer than the departure leg. On success row i joins departure i with return i, there is one row per return flight, and the request's destination and date strings are echoed |
| Flights.ReturnLegFailureIsServerError | app.py:123-129 | for both exceptions of the second `try` block, the as-written answer (500) differs from the evidently intended one (400) |
| Flights.AnswerFlightRequest | app.py:29-129 | the handler's steps with the closing `except` block as a parameter. An invalid request gives 400 and a failed outbound lookup gives 500 "Cannot get flights!". A failed return lookup, or fewer outbound than return flights, gives whatever the `except` block answers. Otherwise the answer is 200 with the rank pairing of the two sorted legs |
| Flights.GetCheapestFlight | app.py:29-129 | with the corrected `except` block. The answer is 200 exactly when the request is valid, both lookups return and there are at least as many outbound as return flights. Its rows then pair the i-th cheapest outbound with the i-th cheapest return flight, one per return flight, dropping the extra outbound flights. Every other outcome is an error: 400 for an invalid request, 500 "Cannot get flights!" for a failed outbound lookup, and 400 naming the exception for a failed return lookup or a short outbound leg |
| Flights.GetCheapestFlightAsWritten | app.py:29-129 | the handler as written. It is identical to `GetCheapestFlight`, except that a failed return lookup or a short outbound leg ends in Flask's 500 (`UnhandledException`), because the closing `except` block raises |
| Flights.TwoRecordLeg | app.py:79-84 | two records come out cheapest first |
| Flights.ExampleLegs | app.py:79-103 | in an example, the outbound prices 500, 300 come out as 300, 500 and the return prices 400, 350 come out as 350, 400 |
| Flights.ExamplePairing | app.py:105-116 | pairing those two legs by rank gives exactly two rows: 300 with 350, then 500 with 400 |
| Hotels.ValidateHotelArgs | app.py:139-163 | the request passes exactly when the destination is non-empty and both dates are present and valid. An invalid check-in date is reported first. A missing or empty check-out date always ends in the `parser.parse` exception. An invalid check-out date is reported with the `ValueError` that `date.fromisoformat` raised on it. Any other rejection is "Bad input" |
| Hotels.HotelQueryOfRequest | app.py:168-177 | the city pattern of the hotel query is the destination, and its inclusive date range runs from exactly the check-in date to exactly the check-out date that the request names |
| Hotels.GroupByName | app.py:184-191 | whatever order the set of names is walked in, the result has one entry per distinct hotel name and no other, no name twice, and each entry's price is the sum over that hotel's records |
| Hotels.SplitSum | app.py:189-190 | the sum over all records is the sum over one hotel's records plus the sum over the rest |
| Hotels.GroupingTotal | app.py:184-191 | the totals of a grouping add up to the sum of all the fetched prices |
| Hotels.GroupingsArePermutations | app.py:184-191 | any two walks of the set of names give the same entries, up to order |
| Hotels.SortedGrouping | app.py:193 | sorting the entries by total keeps them a grouping of the same records |
| Hotels.BuildHotelRows | app.py:195-204 | one row per entry in order, each echoing the destination and the two date strings along with the entry's hotel and total |
| Hotels.CheapestHotelRows | app.py:184-204 | the rows have one entry per distinct hotel name with that hotel's total. The totals add up to the sum of all prices, the rows are non-decreasing by total, and every row echoes the request fields |
| Hotels.GetCheapestHotels | app.py:132-219 | invalid request gives 400; failed lookup gives 500 "Cannot get hotels!"; the answer is 200 exactly when the request is valid and the lookup succeeds, and then it carries the rows of `CheapestHotelRows` |
| Hotels.ExampleIsGrouping | app.py:184-191 | with "Hotel A" at 100 and 50 and "Hotel B" at 120, the entries are A at 150 and B at 120 |
| Hotels.ExampleAnswer | app.py:184-204 | for that example, the only grouping sorted by total is B at 120 followed by A at 150 |

The pairing loop at app.py:107-108 runs over the return leg and indexes the
outbound leg. A shorter outbound leg therefore raises `IndexError`, so the
pairing is not a zip to the shorter length, and no 200 answer is produced.
`PairLegs` and the flight handlers model this `IndexError`.

Where a missing or empty `checkOutDate` reaches app.py:149-150, the code
calls `parser.parse` on a falsy value. That raises, so the request is
refused with the parser's exception message rather than "Bad input" (both
are 400). The model keeps this as written (`DateutilFailure`).

## Findings

| source | as written | input that shows it | evidently intended | confidence | as-written member | corrected member |
|---|---|---|---|---|---|---|
| app.py:123-129 | the `except` block passes the exception object to `json.dumps`, which cannot serialise it and raises `TypeError` inside the handler, so Flask answers 500 | `/flight?destination=Tokyo&departureDate=2024-06-01&returnDate=2024-06-05` where the store holds one outbound and two return flights (the `IndexError` at line 108), or where the return lookup fails | a 400 response whose message names the exception, as the block's `status=400` says | high, not executed | Flights.GetCheapestFlightAsWritten | Flights.GetCheapestFlight |

The discrepancy shows in the contracts of the two handlers, which run the
same steps (`Flights.AnswerFlightRequest`) on the same inputs. When the return
lookup fails, or the outbound leg is shorter than the return leg:

- `Flights.GetCheapestFlight` answers `Error(BadRequest, ReturnLegError(cause))`, through the corrected `Flights.ReturnLegFailure`;
- `Flights.GetCheapestFlightAsWritten` answers
  `Error(InternalServerError, UnhandledException)`, through
  `Flights.ReturnLegFailureAsWritten`.

`Flights.ReturnLegFailureIsServerError` records the same contrast for the
two closing blocks on their own.

## Left out

- The Flask application, routing, reading `request.args`, building
  `Response` objects and JSON serialisation. These are transport. Only the
  status and which message is chosen are modelled, not the text of the
  message or of a Python exception.
- The store connection at app.py:16-26. This is I/O that happens once at start-up.
  Its own error path has a string-concatenation bug of its own, which is not
  part of this model.
- Executing `db.flights.find` and `db.hotels.find`. The store is the
  parameter `find`, and the records it returns are arbitrary. The model does
  not assume that they match the query.
- What a `$regex` pattern matches. That belongs to the store. Only the shape
  of each query is modelled (`Pattern`, `FlightFilter`, `HotelFilter`).
- Overwriting `_id` with its string form (app.py:76-77, 95-96, 181-182). It is
  a foreign type conversion, and no output depends on it.
- `dateutil.parser.parse` (app.py:59-60, 165-166). A library call turns the
  dates into `datetime`s for the query. The model puts the validated date into
  the query instead. At app.py:149-150 only the fact that it raises on a
  falsy check-out value is modelled.
- Prices that are not integers. A float price sorts and sums without raising,
  so such documents lie outside the model, where every price is an integer.
  A missing `price`, `airline` or `hotelName` key raises inside the `try`
  block, and so do prices that cannot be compared or added. Those cases are
  folded into `FetchFailed` for that lookup.
- The ISO 8601 forms other than `YYYY-MM-DD` that newer Python versions'
  `date.fromisoformat` also accepts.
- `print` logging (app.py:26, 46, 86, 124, 152, 206, 214) and `app.run`
  (app.py:222-223).
- Hotels.GetCheapestHotels: the order among hotels with equal totals is not
  stated. It depends on the unspecified iteration order of a Python set, which
  `GroupByName` models with a free choice.

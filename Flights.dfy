/** The `/flight` handler, `GetCheapestFlight`: validate the query, look up
    the outbound and the return leg, sort each by price and pair them by
    rank. */
module Flights {
  import opened Common
  import opened IsoDate
  import opened Sorting

  /** A document of the `flights` collection, as far as the handler reads it. */
  datatype FlightRecord = FlightRecord(srccity: string, destcity: string, date: Date, airline: string, price: int)

  /** The `FilteredRecord` dataclass: the part of a flight that is reported. */
  datatype FilteredRecord = FilteredRecord(airline: string, price: int)

  /** A query on the `flights` collection; `date` stands for `{"$eq": date}`. */
  datatype FlightFilter = FlightFilter(srccity: Pattern, destcity: Pattern, date: Date)

  /** The fixed origin of every outbound flight and goal of every return flight. */
  const Origin: string := "singapore"

  /** One object of the JSON array the handler answers with. */
  datatype FlightRow = FlightRow(
    city: string,
    departureDate: string,
    departureAirline: string,
    departurePrice: int,
    returnDate: string,
    returnAirline: string,
    returnPrice: int)

  datatype FlightArgs = FlightArgs(destination: Option<string>, departureDate: Option<string>, returnDate: Option<string>)

  // ---------------------------------------------------------------------------
  // Validation

  /** The condition under which the handler gets past its validation block. */
  predicate FlightArgsValid(args: FlightArgs)
  {
    Present(args.destination)
    && Present(args.departureDate) && IsIsoDate(args.departureDate.value)
    && Present(args.returnDate) && IsIsoDate(args.returnDate.value)
  }

  /** The outcome of the validation block: the request's destination and
      dates, or the message of the 400 response. */
  datatype FlightCheck =
    | FlightAccepted(destination: string, departure: Date, returning: Date)
    | FlightRejected(message: Message)

  /** The `validQueries` block. `returnDate` is checked before
      `departureDate`, and `date.fromisoformat` raising on either ends the
      block at once with that exception's message. */
  method ValidateFlightArgs(args: FlightArgs) returns (check: FlightCheck)
    ensures check.FlightAccepted? <==> FlightArgsValid(args)
    ensures check.FlightAccepted? ==>
      && check.destination == args.destination.value
      && ParseIsoDate(args.departureDate.value) == Some(check.departure)
      && ParseIsoDate(args.returnDate.value) == Some(check.returning)
    ensures Present(args.returnDate) && !IsIsoDate(args.returnDate.value) ==>
      check == FlightRejected(InvalidDate(args.returnDate.value))
    ensures (!(Present(args.returnDate) && !IsIsoDate(args.returnDate.value))
             && Present(args.departureDate) && !IsIsoDate(args.departureDate.value)) ==>
      check == FlightRejected(InvalidDate(args.departureDate.value))
    ensures (!FlightArgsValid(args)
             && !(Present(args.returnDate) && !IsIsoDate(args.returnDate.value))
             && !(Present(args.departureDate) && !IsIsoDate(args.departureDate.value))) ==>
      check == FlightRejected(BadInput)
  {
    var validQueries := true;
    if !Present(args.destination) {
      validQueries := false;
    }
    if !Present(args.returnDate) {
      validQueries := false;
    } else if !IsIsoDate(args.returnDate.value) {
      return FlightRejected(InvalidDate(args.returnDate.value));
    }
    if !Present(args.departureDate) {
      validQueries := false;
    } else if !IsIsoDate(args.departureDate.value) {
      return FlightRejected(InvalidDate(args.departureDate.value));
    }
    if !validQueries {
      return FlightRejected(BadInput);
    }
    var departure := ParseIsoDate(args.departureDate.value).value;
    var returning := ParseIsoDate(args.returnDate.value).value;
    check := FlightAccepted(args.destination.value, departure, returning);
  }

  // ---------------------------------------------------------------------------
  // The two store queries

  function DepartureFilter(destination: string, departure: Date): FlightFilter
  {
    FlightFilter(CaseInsensitiveRegex(Origin), CaseInsensitiveRegex(destination), departure)
  }

  function ReturnFilter(destination: string, returning: Date): FlightFilter
  {
    FlightFilter(CaseInsensitiveRegex(destination), CaseInsensitiveRegex(Origin), returning)
  }

  /** The outbound query starts from the fixed origin; the return query is
      its mirror image: source and destination swapped, the return date in
      place of the departure date. */
  lemma ReturnFilterMirrorsDeparture(destination: string, departure: Date, returning: Date)
    ensures DepartureFilter(destination, departure).srccity == CaseInsensitiveRegex(Origin)
    ensures ReturnFilter(destination, returning)
      == DepartureFilter(destination, departure).(
           srccity := DepartureFilter(destination, departure).destcity,
           destcity := DepartureFilter(destination, departure).srccity,
           date := returning)
  {
  }

  /** The outbound query of a request that passed validation. */
  function DepartureQuery(args: FlightArgs): FlightFilter
    requires FlightArgsValid(args)
  {
    DepartureFilter(args.destination.value, ParseIsoDate(args.departureDate.value).value)
  }

  /** The return query of a request that passed validation. */
  function ReturnQuery(args: FlightArgs): FlightFilter
    requires FlightArgsValid(args)
  {
    ReturnFilter(args.destination.value, ParseIsoDate(args.returnDate.value).value)
  }

  // ---------------------------------------------------------------------------
  // One leg: sort by price, then project

  function RecordPrice(r: FlightRecord): int
  {
    r.price
  }

  function FilteredPrice(r: FilteredRecord): int
  {
    r.price
  }

  function ToFiltered(r: FlightRecord): FilteredRecord
  {
    FilteredRecord(r.airline, r.price)
  }

  /** Every record reduced to its `FilteredRecord`, in order. */
  function Project(s: seq<FlightRecord>): seq<FilteredRecord>
  {
    seq(|s|, i requires 0 <= i < |s| => ToFiltered(s[i]))
  }

  /** A leg as the handler computes it: `sorted(data, key=price)`, then one
      `FilteredRecord` per record. */
  function Leg(data: seq<FlightRecord>): seq<FilteredRecord>
  {
    Project(SortBy(data, RecordPrice))
  }

  lemma ProjectKeepsOrder(t: seq<FlightRecord>)
    requires SortedBy(t, RecordPrice)
    ensures SortedBy(Project(t), FilteredPrice)
  {
  }

  lemma ProjectCons(x: FlightRecord, t: seq<FlightRecord>)
    ensures Project([x] + t) == [ToFiltered(x)] + Project(t)
  {
  }

  lemma ProjectHead(data: seq<FlightRecord>)
    requires data != []
    ensures Project(data) != [] && Project(data)[0] == ToFiltered(data[0])
    ensures Project(data)[1..] == Project(data[1..])
  {
  }

  lemma {:induction false} ProjectInsert(x: FlightRecord, t: seq<FlightRecord>)
    requires SortedBy(t, RecordPrice)
    ensures SortedBy(Project(t), FilteredPrice)
    ensures Project(Insert(x, t, RecordPrice)) == Insert(ToFiltered(x), Project(t), FilteredPrice)
  {
    ProjectKeepsOrder(t);
    if t == [] || x.price <= t[0].price {
      InsertInFront(x, t, RecordPrice);
      InsertInFront(ToFiltered(x), Project(t), FilteredPrice);
      ProjectCons(x, t);
    } else {
      InsertBehindHead(x, t, RecordPrice);
      var rest := Insert(x, t[1..], RecordPrice);
      ProjectInsert(x, t[1..]);
      ProjectCons(t[0], rest);
      ProjectHead(t);
      InsertBehindHead(ToFiltered(x), Project(t), FilteredPrice);
    }
  }

  /** Sorting by price commutes with the projection, since the projection
      keeps the price. */
  lemma {:induction false} ProjectSortBy(data: seq<FlightRecord>)
    ensures Leg(data) == SortBy(Project(data), FilteredPrice)
  {
    if data != [] {
      var rest := SortBy(data[1..], RecordPrice);
      ProjectSortBy(data[1..]);
      ProjectInsert(data[0], rest);
      SortByCons(data, RecordPrice);
      ProjectHead(data);
      SortByCons(Project(data), FilteredPrice);
    }
  }

  /** A processed leg is the fetched records' projections sorted
      non-decreasingly by price, with the same elements, and with records of
      equal price in the order the store returned them. */
  lemma LegIsStableSort(data: seq<FlightRecord>)
    ensures |Leg(data)| == |data|
    ensures SortedBy(Leg(data), FilteredPrice)
    ensures multiset(Leg(data)) == multiset(Project(data))
    ensures forall p :: WithKey(Leg(data), FilteredPrice, p) == WithKey(Project(data), FilteredPrice, p)
  {
    ProjectSortBy(data);
    forall p ensures WithKey(Leg(data), FilteredPrice, p) == WithKey(Project(data), FilteredPrice, p) {
      SortByIsStable(Project(data), FilteredPrice, p);
    }
  }

  /** The sort and the `resultDepartureFlights`/`resultReturnFlights`
      append loop. */
  method ProcessLeg(data: seq<FlightRecord>) returns (leg: seq<FilteredRecord>)
    ensures leg == Leg(data)
    ensures |leg| == |data|
    ensures SortedBy(leg, FilteredPrice)
    ensures multiset(leg) == multiset(Project(data))
    ensures forall p :: WithKey(leg, FilteredPrice, p) == WithKey(Project(data), FilteredPrice, p)
  {
    var sortedFlights := SortBy(data, RecordPrice);
    leg := [];
    for i := 0 to |sortedFlights|
      invariant |leg| == i
      invariant forall k :: 0 <= k < i ==> leg[k] == FilteredRecord(sortedFlights[k].airline, sortedFlights[k].price)
    {
      leg := leg + [FilteredRecord(sortedFlights[i].airline, sortedFlights[i].price)];
    }
    LegIsStableSort(data);
  }

  // ---------------------------------------------------------------------------
  // Pairing by rank

  datatype Pairing = Paired(rows: seq<FlightRow>) | PairingIndexError

  /** `rows` pairs the two legs by rank: one row per return flight, row `i`
      joining the `i`-th departure with the `i`-th return and echoing the
      request's city and date strings; the departures beyond the last return
      are dropped. */
  predicate RankPairing(rows: seq<FlightRow>, city: string, departureDate: string, returnDate: string,
                        departureLeg: seq<FilteredRecord>, returnLeg: seq<FilteredRecord>)
  {
    && |returnLeg| <= |departureLeg|
    && |rows| == |returnLeg|
    && forall i :: 0 <= i < |returnLeg| ==>
         rows[i] == FlightRow(city, departureDate, departureLeg[i].airline, departureLeg[i].price,
                              returnDate, returnLeg[i].airline, returnLeg[i].price)
  }

  /** The `result` loop: runs over the return leg and indexes the departure
      leg with the same position, which raises `IndexError` as soon as the
      departure leg is the shorter one. */
  method PairLegs(city: string, departureDate: string, returnDate: string,
                  departureLeg: seq<FilteredRecord>, returnLeg: seq<FilteredRecord>)
    returns (pairing: Pairing)
    ensures pairing.Paired? <==> |returnLeg| <= |departureLeg|
    ensures pairing.Paired? ==> RankPairing(pairing.rows, city, departureDate, returnDate, departureLeg, returnLeg)
  {
    var result := [];
    var i := 0;
    while i < |returnLeg|
      invariant i <= |returnLeg| && i <= |departureLeg|
      invariant |result| == i
      invariant forall k :: 0 <= k < i ==>
        result[k] == FlightRow(city, departureDate, departureLeg[k].airline, departureLeg[k].price,
                               returnDate, returnLeg[k].airline, returnLeg[k].price)
    {
      if i >= |departureLeg| {
        return PairingIndexError;
      }
      var resD := departureLeg[i];
      var resR := returnLeg[i];
      result := result + [FlightRow(city, departureDate, resD.airline, resD.price, returnDate, resR.airline, resR.price)];
      i := i + 1;
    }
    pairing := Paired(result);
  }

  // ---------------------------------------------------------------------------
  // The closing `except` block

  /** The closing `except` block as written: it hands the exception object
      itself to `json.dumps`, which cannot serialise it and raises
      `TypeError` inside the block, so the handler lets that exception
      escape and Flask answers with its own 500 error. */
  function ReturnLegFailureAsWritten(cause: ReturnLegCause): Response<FlightRow>
  {
    Error(InternalServerError, UnhandledException)
  }

  /** The closing `except` block as its `status=400` shows it is meant to
      behave: a 400 response naming the exception. */
  function ReturnLegFailure(cause: ReturnLegCause): Response<FlightRow>
  {
    Error(BadRequest, ReturnLegError(cause))
  }

  /** Neither exception of the second `try` block gets the 400 the block
      means to send: a failed return-leg query and a departure leg shorter
      than the return leg both end in a 500. */
  lemma ReturnLegFailureIsServerError(cause: ReturnLegCause)
    ensures ReturnLegFailureAsWritten(cause).status == InternalServerError
    ensures ReturnLegFailure(cause).status == BadRequest
    ensures ReturnLegFailureAsWritten(cause) != ReturnLegFailure(cause)
  {
  }

  // ---------------------------------------------------------------------------
  // The handler

  /** The steps of `GetCheapestFlight`, with the answer of its closing
      `except` block left as the parameter `closingExcept`. `find` stands for
      `db.flights.find`. */
  method AnswerFlightRequest(args: FlightArgs, find: FlightFilter -> Fetch<FlightRecord>,
                             closingExcept: ReturnLegCause -> Response<FlightRow>)
    returns (resp: Response<FlightRow>)
    ensures !FlightArgsValid(args) ==> resp.Error? && resp.status == BadRequest
    ensures FlightArgsValid(args) && find(DepartureQuery(args)).FetchFailed? ==>
      resp == Error(InternalServerError, CannotGetFlights)
    ensures FlightArgsValid(args) && find(DepartureQuery(args)).Fetched? && find(ReturnQuery(args)).FetchFailed? ==>
      resp == closingExcept(StoreError)
    ensures (FlightArgsValid(args) && find(DepartureQuery(args)).Fetched? && find(ReturnQuery(args)).Fetched?
             && |find(DepartureQuery(args)).records| < |find(ReturnQuery(args)).records|) ==>
      resp == closingExcept(IndexOutOfRange)
    ensures (FlightArgsValid(args) && find(DepartureQuery(args)).Fetched? && find(ReturnQuery(args)).Fetched?
             && |find(ReturnQuery(args)).records| <= |find(DepartureQuery(args)).records|) ==>
      && resp.Ok?
      && RankPairing(resp.rows, args.destination.value, args.departureDate.value, args.returnDate.value,
                     Leg(find(DepartureQuery(args)).records), Leg(find(ReturnQuery(args)).records))
  {
    var check := ValidateFlightArgs(args);
    if check.FlightRejected? {
      return Error(BadRequest, check.message);
    }
    var departureQuery := DepartureFilter(check.destination, check.departure);
    var returnQuery := ReturnFilter(check.destination, check.returning);

    var outbound := find(departureQuery);
    if outbound.FetchFailed? {
      return Error(InternalServerError, CannotGetFlights);
    }
    var resultDepartureFlights := ProcessLeg(outbound.records);

    var inbound := find(returnQuery);
    if inbound.FetchFailed? {
      return closingExcept(StoreError);
    }
    var resultReturnFlights := ProcessLeg(inbound.records);
    var pairing := PairLegs(args.destination.value, args.departureDate.value, args.returnDate.value,
                            resultDepartureFlights, resultReturnFlights);
    if pairing.PairingIndexError? {
      return closingExcept(IndexOutOfRange);
    }
    resp := Ok(pairing.rows);
  }

  /** `GetCheapestFlight`, with the closing `except` block answering as
      intended (`ReturnLegFailure`): a 200 exactly when the request is valid,
      both lookups return and the departure leg is at least as long as the
      return leg. */
  method GetCheapestFlight(args: FlightArgs, find: FlightFilter -> Fetch<FlightRecord>)
    returns (resp: Response<FlightRow>)
    ensures !FlightArgsValid(args) ==> resp.Error? && resp.status == BadRequest
    ensures FlightArgsValid(args) && find(DepartureQuery(args)).FetchFailed? ==>
      resp == Error(InternalServerError, CannotGetFlights)
    ensures FlightArgsValid(args) && find(DepartureQuery(args)).Fetched? && find(ReturnQuery(args)).FetchFailed? ==>
      resp == Error(BadRequest, ReturnLegError(StoreError))
    ensures (FlightArgsValid(args) && find(DepartureQuery(args)).Fetched? && find(ReturnQuery(args)).Fetched?
             && |find(DepartureQuery(args)).records| < |find(ReturnQuery(args)).records|) ==>
      resp == Error(BadRequest, ReturnLegError(IndexOutOfRange))
    ensures resp.Ok? <==>
      && FlightArgsValid(args)
      && find(DepartureQuery(args)).Fetched? && find(ReturnQuery(args)).Fetched?
      && |find(ReturnQuery(args)).records| <= |find(DepartureQuery(args)).records|
    ensures resp.Ok? ==>
      RankPairing(resp.rows, args.destination.value, args.departureDate.value, args.returnDate.value,
                  Leg(find(DepartureQuery(args)).records), Leg(find(ReturnQuery(args)).records))
  {
    resp := AnswerFlightRequest(args, find, ReturnLegFailure);
  }

  /** `GetCheapestFlight` exactly as written: both exceptions of the second
      `try` block reach the closing `except` block, which itself raises, so
      they end in Flask's 500 and never in the block's 400. */
  method GetCheapestFlightAsWritten(args: FlightArgs, find: FlightFilter -> Fetch<FlightRecord>)
    returns (resp: Response<FlightRow>)
    ensures !FlightArgsValid(args) ==> resp.Error? && resp.status == BadRequest
    ensures FlightArgsValid(args) && find(DepartureQuery(args)).FetchFailed? ==>
      resp == Error(InternalServerError, CannotGetFlights)
    ensures FlightArgsValid(args) && find(DepartureQuery(args)).Fetched? && find(ReturnQuery(args)).FetchFailed? ==>
      resp == Error(InternalServerError, UnhandledException)
    ensures (FlightArgsValid(args) && find(DepartureQuery(args)).Fetched? && find(ReturnQuery(args)).Fetched?
             && |find(DepartureQuery(args)).records| < |find(ReturnQuery(args)).records|) ==>
      resp == Error(InternalServerError, UnhandledException)
    ensures resp.Ok? <==>
      && FlightArgsValid(args)
      && find(DepartureQuery(args)).Fetched? && find(ReturnQuery(args)).Fetched?
      && |find(ReturnQuery(args)).records| <= |find(DepartureQuery(args)).records|
    ensures resp.Ok? ==>
      RankPairing(resp.rows, args.destination.value, args.departureDate.value, args.returnDate.value,
                  Leg(find(DepartureQuery(args)).records), Leg(find(ReturnQuery(args)).records))
  {
    resp := AnswerFlightRequest(args, find, ReturnLegFailureAsWritten);
  }

  // ---------------------------------------------------------------------------
  // An example: outbound prices [500, 300], return prices [400, 350]

  /** Two fetched records, the dearer first, come out swapped. */
  lemma TwoRecordLeg(a: FlightRecord, b: FlightRecord)
    requires a.price > b.price
    ensures Leg([a, b]) == [ToFiltered(b), ToFiltered(a)]
  {
    assert [a, b][1..] == [b] && [b][1..] == [];
    assert SortBy([b], RecordPrice) == [b] by {
      SortByCons([b], RecordPrice);
      InsertInFront(b, [], RecordPrice);
    }
    SortByCons([a, b], RecordPrice);
    InsertBehindHead(a, [b], RecordPrice);
    InsertInFront(a, [], RecordPrice);
    ProjectCons(b, [a]);
  }

  /** Each leg of the example comes out cheapest first, so the pairs are
      300 with 350 and 500 with 400. */
  lemma ExampleLegs(day1: Date, day2: Date)
    ensures Leg([FlightRecord("Singapore", "Tokyo", day1, "A", 500), FlightRecord("Singapore", "Tokyo", day1, "B", 300)])
      == [FilteredRecord("B", 300), FilteredRecord("A", 500)]
    ensures Leg([FlightRecord("Tokyo", "Singapore", day2, "C", 400), FlightRecord("Tokyo", "Singapore", day2, "D", 350)])
      == [FilteredRecord("D", 350), FilteredRecord("C", 400)]
  {
    TwoRecordLeg(FlightRecord("Singapore", "Tokyo", day1, "A", 500), FlightRecord("Singapore", "Tokyo", day1, "B", 300));
    TwoRecordLeg(FlightRecord("Tokyo", "Singapore", day2, "C", 400), FlightRecord("Tokyo", "Singapore", day2, "D", 350));
  }

  /** Pairing the two sorted legs of the example by rank gives two rows: the
      300 outbound with the 350 return, then the 500 outbound with the 400
      return. */
  lemma ExamplePairing(rows: seq<FlightRow>, city: string, departureDate: string, returnDate: string)
    requires RankPairing(rows, city, departureDate, returnDate,
                         [FilteredRecord("B", 300), FilteredRecord("A", 500)],
                         [FilteredRecord("D", 350), FilteredRecord("C", 400)])
    ensures rows == [FlightRow(city, departureDate, "B", 300, returnDate, "D", 350),
                     FlightRow(city, departureDate, "A", 500, returnDate, "C", 400)]
  {
    assert rows[0] == FlightRow(city, departureDate, "B", 300, returnDate, "D", 350);
    assert rows[1] == FlightRow(city, departureDate, "A", 500, returnDate, "C", 400);
  }
}

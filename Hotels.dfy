/** The `/hotel` handler, `GetCheapestHotels`: validate the query, look up
    the matching hotel records, total the price per hotel and list the
    hotels from the cheapest total up. */
module Hotels {
  import opened Common
  import opened IsoDate
  import opened Sorting

  /** A document of the `hotels` collection, as far as the handler reads it. */
  datatype HotelRecord = HotelRecord(city: string, date: Date, hotelName: string, price: int)

  /** The store query: `city` matches the destination and `date` lies in
      the inclusive range `{"$gte": dateFrom, "$lte": dateTo}`. */
  datatype HotelFilter = HotelFilter(city: Pattern, dateFrom: Date, dateTo: Date)

  /** One `{'Hotel': name, 'Price': total}` entry of `filteredUniqueResult`. */
  datatype HotelAggregate = HotelAggregate(hotel: string, price: int)

  /** One object of the JSON array the handler answers with. */
  datatype HotelRow = HotelRow(city: string, checkInDate: string, checkOutDate: string, hotel: string, price: int)

  datatype HotelArgs = HotelArgs(destination: Option<string>, checkInDate: Option<string>, checkOutDate: Option<string>)

  // ---------------------------------------------------------------------------
  // Validation

  /** The condition under which the handler gets past its validation block. */
  predicate HotelArgsValid(args: HotelArgs)
  {
    Present(args.destination)
    && Present(args.checkInDate) && IsIsoDate(args.checkInDate.value)
    && Present(args.checkOutDate) && IsIsoDate(args.checkOutDate.value)
  }

  /** `checkInDate` is given but `date.fromisoformat` raises on it. */
  predicate CheckInRaises(args: HotelArgs)
  {
    Present(args.checkInDate) && !IsIsoDate(args.checkInDate.value)
  }

  datatype HotelCheck =
    | HotelAccepted(destination: string, checkIn: Date, checkOut: Date)
    | HotelRejected(message: Message)

  /** The `validQueries` block. When `checkOutDate` is missing or empty, the
      branch that clears the flag also calls `parser.parse` on both dates,
      and `parser.parse` raises on the falsy check-out value, so that case
      always ends in the exception handler. */
  method ValidateHotelArgs(args: HotelArgs) returns (check: HotelCheck)
    ensures check.HotelAccepted? <==> HotelArgsValid(args)
    ensures check.HotelAccepted? ==>
      && check.destination == args.destination.value
      && ParseIsoDate(args.checkInDate.value) == Some(check.checkIn)
      && ParseIsoDate(args.checkOutDate.value) == Some(check.checkOut)
    ensures CheckInRaises(args) ==> check == HotelRejected(InvalidDate(args.checkInDate.value))
    ensures (!CheckInRaises(args) && !Present(args.checkOutDate)) ==> check == HotelRejected(DateutilFailure)
    ensures (!CheckInRaises(args) && Present(args.checkOutDate) && !IsIsoDate(args.checkOutDate.value)) ==>
      check == HotelRejected(InvalidDate(args.checkOutDate.value))
    ensures (!HotelArgsValid(args) && !CheckInRaises(args)
             && Present(args.checkOutDate) && IsIsoDate(args.checkOutDate.value)) ==>
      check == HotelRejected(BadInput)
  {
    var validQueries := true;
    if !Present(args.destination) {
      validQueries := false;
    }
    if !Present(args.checkInDate) {
      validQueries := false;
    } else if !IsIsoDate(args.checkInDate.value) {
      return HotelRejected(InvalidDate(args.checkInDate.value));
    }
    if !Present(args.checkOutDate) {
      validQueries := false;
      return HotelRejected(DateutilFailure);
    } else if !IsIsoDate(args.checkOutDate.value) {
      return HotelRejected(InvalidDate(args.checkOutDate.value));
    }
    if !validQueries {
      return HotelRejected(BadInput);
    }
    var checkIn := ParseIsoDate(args.checkInDate.value).value;
    var checkOut := ParseIsoDate(args.checkOutDate.value).value;
    check := HotelAccepted(args.destination.value, checkIn, checkOut);
  }

  /** The store query of a request that passed validation. */
  function HotelQuery(args: HotelArgs): HotelFilter
    requires HotelArgsValid(args)
  {
    HotelFilter(CaseInsensitiveRegex(args.destination.value),
                ParseIsoDate(args.checkInDate.value).value,
                ParseIsoDate(args.checkOutDate.value).value)
  }

  /** The query asks for the destination's city and for the inclusive range
      from exactly the check-in date to exactly the check-out date the request
      names. */
  lemma HotelQueryOfRequest(args: HotelArgs)
    requires HotelArgsValid(args)
    ensures HotelQuery(args).city == CaseInsensitiveRegex(args.destination.value)
    ensures IsValidDate(HotelQuery(args).dateFrom) && FormatIsoDate(HotelQuery(args).dateFrom) == args.checkInDate.value
    ensures IsValidDate(HotelQuery(args).dateTo) && FormatIsoDate(HotelQuery(args).dateTo) == args.checkOutDate.value
  {
    FormatParse(args.checkInDate.value);
    FormatParse(args.checkOutDate.value);
  }

  // ---------------------------------------------------------------------------
  // Grouping by hotel name

  /** `{hotel['hotelName'] for hotel in data}`. */
  function HotelNames(data: seq<HotelRecord>): set<string>
  {
    set h | h in data :: h.hotelName
  }

  /** `[hotel for hotel in data if hotel['hotelName'] == name]`. */
  function Named(data: seq<HotelRecord>, name: string): seq<HotelRecord>
  {
    if data == [] then []
    else (if data[0].hotelName == name then [data[0]] else []) + Named(data[1..], name)
  }

  /** The records of every other hotel, in order. */
  function Others(data: seq<HotelRecord>, name: string): seq<HotelRecord>
  {
    if data == [] then []
    else (if data[0].hotelName != name then [data[0]] else []) + Others(data[1..], name)
  }

  /** `sum(hotel['price'] for hotel in records)`. */
  function SumPrices(records: seq<HotelRecord>): int
  {
    if records == [] then 0 else records[0].price + SumPrices(records[1..])
  }

  /** The sum of the `Price` entries of a list of aggregates. */
  function TotalPrice(groups: seq<HotelAggregate>): int
  {
    if groups == [] then 0 else groups[0].price + TotalPrice(groups[1..])
  }

  function AggregateName(a: HotelAggregate): string
  {
    a.hotel
  }

  function AggregatePrice(a: HotelAggregate): int
  {
    a.price
  }

  /** `groups` has one entry per hotel name of `data` and no other, no name
      twice, and each entry's price is the total over that hotel's records. */
  predicate IsGrouping(data: seq<HotelRecord>, groups: seq<HotelAggregate>)
  {
    && DistinctBy(groups, AggregateName)
    && (forall g :: g in groups ==> g.hotel in HotelNames(data) && g.price == SumPrices(Named(data, g.hotel)))
    && (forall n :: n in HotelNames(data) ==> exists g :: g in groups && g.hotel == n)
  }

  /** The `filteredUniqueResult` loop. It walks the set of hotel names in
      whatever order the set yields them, which Python leaves unspecified;
      the choice `:|` below stands for that order. */
  method GroupByName(data: seq<HotelRecord>) returns (groups: seq<HotelAggregate>)
    ensures IsGrouping(data, groups)
    ensures |groups| == |HotelNames(data)|
  {
    var uniqueHotelNames := HotelNames(data);
    var remaining := uniqueHotelNames;
    groups := [];
    while remaining != {}
      invariant remaining <= uniqueHotelNames
      invariant |groups| + |remaining| == |uniqueHotelNames|
      invariant DistinctBy(groups, AggregateName)
      invariant forall g :: g in groups ==>
        g.hotel in uniqueHotelNames - remaining && g.price == SumPrices(Named(data, g.hotel))
      invariant forall n :: n in uniqueHotelNames - remaining ==> exists g :: g in groups && g.hotel == n
      decreases |remaining|
    {
      var uniqueHotel :| uniqueHotel in remaining;
      var filteredHotels := Named(data, uniqueHotel);
      var totalPrice := SumPrices(filteredHotels);
      var entry := HotelAggregate(uniqueHotel, totalPrice);
      forall i | 0 <= i < |groups| ensures groups[i].hotel != uniqueHotel {
        assert groups[i] in groups;
      }
      var extended := groups + [entry];
      forall n | n in uniqueHotelNames - (remaining - {uniqueHotel})
        ensures exists g :: g in extended && g.hotel == n
      {
        if n == uniqueHotel {
          assert entry in extended;
        } else {
          assert n in uniqueHotelNames - remaining;
          var g :| g in groups && g.hotel == n;
          assert g in extended;
        }
      }
      groups := extended;
      remaining := remaining - {uniqueHotel};
    }
    assert uniqueHotelNames - remaining == HotelNames(data);
  }

  // ---------------------------------------------------------------------------
  // Facts about groupings

  lemma {:induction false} SplitSum(data: seq<HotelRecord>, name: string)
    ensures SumPrices(data) == SumPrices(Named(data, name)) + SumPrices(Others(data, name))
  {
    if data != [] {
      SplitSum(data[1..], name);
      var restNamed, restOthers := Named(data[1..], name), Others(data[1..], name);
      if data[0].hotelName == name {
        assert Named(data, name) == [data[0]] + restNamed;
        assert ([data[0]] + restNamed)[0] == data[0] && ([data[0]] + restNamed)[1..] == restNamed;
        assert Others(data, name) == restOthers;
      } else {
        assert Others(data, name) == [data[0]] + restOthers;
        assert ([data[0]] + restOthers)[0] == data[0] && ([data[0]] + restOthers)[1..] == restOthers;
        assert Named(data, name) == restNamed;
      }
    }
  }

  lemma {:induction false} NamedOthers(data: seq<HotelRecord>, name: string, other: string)
    requires name != other
    ensures Named(Others(data, name), other) == Named(data, other)
  {
    if data != [] {
      NamedOthers(data[1..], name, other);
      var rest := Others(data[1..], name);
      if data[0].hotelName != name {
        assert Others(data, name) == [data[0]] + rest;
        assert ([data[0]] + rest)[0] == data[0] && ([data[0]] + rest)[1..] == rest;
      } else {
        assert Others(data, name) == rest;
        assert Named(data, other) == Named(data[1..], other);
      }
    }
  }

  lemma {:induction false} OthersMembers(data: seq<HotelRecord>, name: string, h: HotelRecord)
    ensures h in Others(data, name) <==> h in data && h.hotelName != name
  {
    if data != [] {
      OthersMembers(data[1..], name, h);
      assert data == [data[0]] + data[1..];
    }
  }

  lemma NamesOfOthers(data: seq<HotelRecord>, name: string)
    ensures HotelNames(Others(data, name)) == HotelNames(data) - {name}
  {
    forall n ensures n in HotelNames(Others(data, name)) <==> n in HotelNames(data) - {name} {
      if n in HotelNames(Others(data, name)) {
        var h :| h in Others(data, name) && h.hotelName == n;
        OthersMembers(data, name, h);
      }
      if n in HotelNames(data) - {name} {
        var h :| h in data && h.hotelName == n;
        OthersMembers(data, name, h);
      }
    }
  }

  lemma NoNamesNoRecords(data: seq<HotelRecord>)
    ensures HotelNames(data) == {} ==> data == []
  {
    if data != [] {
      assert data[0].hotelName in HotelNames(data);
    }
  }

  /** The totals of a grouping add up to the sum of all fetched prices. */
  lemma {:induction false} GroupingTotal(data: seq<HotelRecord>, groups: seq<HotelAggregate>)
    requires IsGrouping(data, groups)
    ensures TotalPrice(groups) == SumPrices(data)
    decreases |groups|
  {
    if groups == [] {
      assert HotelNames(data) == {};
      NoNamesNoRecords(data);
    } else {
      var first := groups[0].hotel;
      var rest := groups[1..];
      var others := Others(data, first);
      NamesOfOthers(data, first);
      forall g | g in rest
        ensures g.hotel in HotelNames(others) && g.price == SumPrices(Named(others, g.hotel))
      {
        var j :| 0 <= j < |rest| && rest[j] == g;
        assert groups[j + 1] == g;
        assert g.hotel != first;
        NamedOthers(data, first, g.hotel);
      }
      forall n | n in HotelNames(others) ensures exists g :: g in rest && g.hotel == n {
        var g :| g in groups && g.hotel == n;
        assert g != groups[0];
        assert g in rest;
      }
      assert IsGrouping(others, rest);
      GroupingTotal(others, rest);
      SplitSum(data, first);
      assert groups[0] in groups;
    }
  }

  lemma {:induction false} DistinctCounts(s: seq<HotelAggregate>, g: HotelAggregate)
    requires DistinctBy(s, AggregateName)
    ensures multiset(s)[g] == if g in s then 1 else 0
  {
    if s != [] {
      assert s == [s[0]] + s[1..];
      DistinctCounts(s[1..], g);
      forall j | 0 <= j < |s[1..]| ensures s[1..][j] != s[0] {
        assert s[1..][j] == s[j + 1];
      }
    }
  }

  /** Two groupings of the same records differ at most in their order. */
  lemma GroupingsArePermutations(data: seq<HotelRecord>, a: seq<HotelAggregate>, b: seq<HotelAggregate>)
    requires IsGrouping(data, a) && IsGrouping(data, b)
    ensures multiset(a) == multiset(b)
  {
    forall g ensures multiset(a)[g] == multiset(b)[g] {
      DistinctCounts(a, g);
      DistinctCounts(b, g);
      if g in a {
        var g' :| g' in b && g'.hotel == g.hotel;
      }
      if g in b {
        var g' :| g' in a && g'.hotel == g.hotel;
      }
    }
  }

  /** Sorting a grouping by total leaves a grouping. */
  lemma SortedGrouping(data: seq<HotelRecord>, groups: seq<HotelAggregate>)
    requires IsGrouping(data, groups)
    ensures IsGrouping(data, SortBy(groups, AggregatePrice))
  {
    var sortedGroups := SortBy(groups, AggregatePrice);
    SortByDistinct(groups, AggregatePrice, AggregateName);
    forall g | g in sortedGroups ensures g in groups {
      assert g in multiset(sortedGroups);
    }
    forall n | n in HotelNames(data) ensures exists g :: g in sortedGroups && g.hotel == n {
      var g :| g in groups && g.hotel == n;
      assert g in multiset(groups);
    }
  }

  // ---------------------------------------------------------------------------
  // The response rows

  /** The `Hotel`/`Price` part of each row. */
  function Aggregates(rows: seq<HotelRow>): seq<HotelAggregate>
  {
    seq(|rows|, i requires 0 <= i < |rows| => HotelAggregate(rows[i].hotel, rows[i].price))
  }

  /** The `result` loop: one row per aggregate, in order, echoing the
      request's destination and dates. */
  method BuildHotelRows(city: string, checkInDate: string, checkOutDate: string, groups: seq<HotelAggregate>)
    returns (rows: seq<HotelRow>)
    ensures |rows| == |groups|
    ensures forall i :: 0 <= i < |groups| ==>
      rows[i] == HotelRow(city, checkInDate, checkOutDate, groups[i].hotel, groups[i].price)
    ensures Aggregates(rows) == groups
  {
    rows := [];
    for i := 0 to |groups|
      invariant |rows| == i
      invariant forall k :: 0 <= k < i ==>
        rows[k] == HotelRow(city, checkInDate, checkOutDate, groups[k].hotel, groups[k].price)
    {
      var hotel := groups[i];
      rows := rows + [HotelRow(city, checkInDate, checkOutDate, hotel.hotel, hotel.price)];
    }
  }

  // ---------------------------------------------------------------------------
  // The handler

  /** The body of the handler's `try` block once the records are fetched:
      group, total, sort by total, and emit the rows. */
  method CheapestHotelRows(city: string, checkInDate: string, checkOutDate: string, data: seq<HotelRecord>)
    returns (rows: seq<HotelRow>)
    ensures IsGrouping(data, Aggregates(rows))
    ensures |rows| == |HotelNames(data)|
    ensures TotalPrice(Aggregates(rows)) == SumPrices(data)
    ensures forall i, j :: 0 <= i < j < |rows| ==> rows[i].price <= rows[j].price
    ensures forall i :: 0 <= i < |rows| ==>
      rows[i].city == city && rows[i].checkInDate == checkInDate && rows[i].checkOutDate == checkOutDate
  {
    var filteredUniqueResult := GroupByName(data);
    var sortedResult := SortBy(filteredUniqueResult, AggregatePrice);
    SortedGrouping(data, filteredUniqueResult);
    GroupingTotal(data, sortedResult);
    rows := BuildHotelRows(city, checkInDate, checkOutDate, sortedResult);
    forall i, j | 0 <= i < j < |rows| ensures rows[i].price <= rows[j].price {
      assert AggregatePrice(sortedResult[i]) <= AggregatePrice(sortedResult[j]);
    }
  }

  /** `GetCheapestHotels`. `find` stands for `db.hotels.find`; its failure
      also stands for any exception raised while reading the records. */
  method GetCheapestHotels(args: HotelArgs, find: HotelFilter -> Fetch<HotelRecord>)
    returns (resp: Response<HotelRow>)
    ensures !HotelArgsValid(args) ==> resp.Error? && resp.status == BadRequest
    ensures HotelArgsValid(args) && find(HotelQuery(args)).FetchFailed? ==>
      resp == Error(InternalServerError, CannotGetHotels)
    ensures resp.Ok? <==> HotelArgsValid(args) && find(HotelQuery(args)).Fetched?
    ensures resp.Ok? ==>
      var data := find(HotelQuery(args)).records;
      && IsGrouping(data, Aggregates(resp.rows))
      && |resp.rows| == |HotelNames(data)|
      && TotalPrice(Aggregates(resp.rows)) == SumPrices(data)
      && (forall i, j :: 0 <= i < j < |resp.rows| ==> resp.rows[i].price <= resp.rows[j].price)
      && (forall i :: 0 <= i < |resp.rows| ==>
            && resp.rows[i].city == args.destination.value
            && resp.rows[i].checkInDate == args.checkInDate.value
            && resp.rows[i].checkOutDate == args.checkOutDate.value)
  {
    var check := ValidateHotelArgs(args);
    if check.HotelRejected? {
      return Error(BadRequest, check.message);
    }
    var query := HotelFilter(CaseInsensitiveRegex(check.destination), check.checkIn, check.checkOut);
    assert query == HotelQuery(args);
    var fetched := find(query);
    if fetched.FetchFailed? {
      return Error(InternalServerError, CannotGetHotels);
    }
    var rows := CheapestHotelRows(args.destination.value, args.checkInDate.value, args.checkOutDate.value,
                                  fetched.records);
    resp := Ok(rows);
  }

  // ---------------------------------------------------------------------------
  // An example: "Hotel A" charged 100 and 50, "Hotel B" charged 120

  function ExampleRecords(day1: Date, day2: Date): seq<HotelRecord>
  {
    [HotelRecord("Paris", day1, "Hotel A", 100),
     HotelRecord("Paris", day2, "Hotel A", 50),
     HotelRecord("Paris", day1, "Hotel B", 120)]
  }

  lemma {:induction false} ExampleGroups(day1: Date, day2: Date)
    ensures Named(ExampleRecords(day1, day2), "Hotel A") == ExampleRecords(day1, day2)[..2]
    ensures Named(ExampleRecords(day1, day2), "Hotel B") == ExampleRecords(day1, day2)[2..]
  {
    var data := ExampleRecords(day1, day2);
    var tail1, tail2 := data[1..], data[2..];
    assert tail1[1..] == tail2 && tail2[1..] == [];
    assert "Hotel A" != "Hotel B" by { assert "Hotel A"[6] != "Hotel B"[6]; }
    assert Named(tail2, "Hotel A") == [] + Named([], "Hotel A") == [];
    assert Named(tail1, "Hotel A") == [data[1]] + Named(tail2, "Hotel A") == [data[1]];
    assert Named(data, "Hotel A") == [data[0]] + Named(tail1, "Hotel A") == [data[0], data[1]];
    assert Named(tail2, "Hotel B") == [data[2]] + Named([], "Hotel B") == [data[2]];
    assert Named(tail1, "Hotel B") == [] + Named(tail2, "Hotel B") == [data[2]];
    assert Named(data, "Hotel B") == [] + Named(tail1, "Hotel B") == [data[2]];
  }

  lemma {:induction false} ExampleSums(day1: Date, day2: Date)
    ensures SumPrices(ExampleRecords(day1, day2)[..2]) == 150
    ensures SumPrices(ExampleRecords(day1, day2)[2..]) == 120
  {
    var data := ExampleRecords(day1, day2);
    var pair, last := data[..2], data[2..];
    assert pair[1..] == [data[1]] && [data[1]][1..] == [] && last[1..] == [];
    assert SumPrices([data[1]]) == 50 + SumPrices([]) == 50;
    assert SumPrices(pair) == 100 + SumPrices([data[1]]) == 150;
    assert SumPrices(last) == 120 + SumPrices([]) == 120;
  }

  lemma ExampleNames(day1: Date, day2: Date)
    ensures HotelNames(ExampleRecords(day1, day2)) == {"Hotel A", "Hotel B"}
  {
    var data := ExampleRecords(day1, day2);
    assert data[0] in data && data[2] in data;
  }

  lemma ExampleIsGrouping(day1: Date, day2: Date)
    ensures IsGrouping(ExampleRecords(day1, day2), [HotelAggregate("Hotel B", 120), HotelAggregate("Hotel A", 150)])
  {
    ExampleGroups(day1, day2);
    ExampleSums(day1, day2);
    ExampleNames(day1, day2);
    assert "Hotel A" != "Hotel B" by { assert "Hotel A"[6] != "Hotel B"[6]; }
  }

  /** The only grouping of the example sorted by total is Hotel B at 120
      followed by Hotel A at 150, so that is the handler's answer. */
  lemma ExampleAnswer(day1: Date, day2: Date, groups: seq<HotelAggregate>)
    requires IsGrouping(ExampleRecords(day1, day2), groups) && SortedBy(groups, AggregatePrice)
    ensures groups == [HotelAggregate("Hotel B", 120), HotelAggregate("Hotel A", 150)]
  {
    var b, a := HotelAggregate("Hotel B", 120), HotelAggregate("Hotel A", 150);
    ExampleIsGrouping(day1, day2);
    GroupingsArePermutations(ExampleRecords(day1, day2), groups, [b, a]);
    assert multiset(groups) == multiset{b, a};
    assert |groups| == 2;
    assert groups[0] in multiset(groups) && groups[1] in multiset(groups);
    assert groups == [groups[0], groups[1]];
  }
}

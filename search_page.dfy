/** The search results page: the filter checkboxes that grow and shrink the
    selections, the page state it starts from, the parameters it passes to
    `searchHotels`, and the fallback of its pagination control. */
module SearchPage {
  import opened Base
  import opened Numbers
  import opened Lists
  import opened SearchQuery
  import opened HotelSearch
  import opened ApiClient

  /** The updater of `handleStarsChange`, `handleHotelTypeChange` and
      `handleFacilityChange`: a checked box appends its value at the end,
      without looking for an earlier copy; an unchecked box removes every copy
      and keeps the rest in order. */
  function Toggle(prev: seq<string>, value: string, checked: bool): (r: seq<string>)
    ensures checked ==> |r| == |prev| + 1 && r[..|prev|] == prev && r[|prev|] == value
    ensures !checked ==> value !in r && forall x :: multiset(r)[x] == if x == value then 0 else multiset(prev)[x]
  {
    if checked then prev + [value]
    else
      WithoutCounts(prev, value);
      Without(prev, value)
  }

  /** Checking a box whose value was not selected and unchecking it again
      gives back the selection as it was. */
  lemma CheckThenUncheckRestores(prev: seq<string>, value: string)
    requires value !in prev
    ensures Toggle(Toggle(prev, value, true), value, false) == prev
  {
    WithoutConcat(prev, [value], value);
    WithoutAbsent(prev, value);
    assert Without([value], value) == [];
  }

  /** Checking a value that is already selected adds a second copy. */
  lemma CheckDoesNotDeduplicate(prev: seq<string>, value: string)
    ensures multiset(Toggle(prev, value, true))[value] == multiset(prev)[value] + 1
  {
    assert Toggle(prev, value, true) == prev + [value];
  }

  /** The page's own state. */
  datatype PageState = PageState(
    page: int,
    selectedStars: seq<string>,
    selectedHotelTypes: seq<string>,
    selectedFacilities: seq<string>,
    selectedPrice: Option<int>,
    sortOption: string)

  /** Page 1, nothing selected, no price, and the empty sort option. */
  const InitialState: PageState := PageState(1, [], [], [], None, "")

  /** The `searchParams` object: the search context's values (dates already
      rendered as strings) and the page state, numbers in decimal. */
  function SearchParamsOf(destination: string, checkIn: string, checkOut: string,
                          adultCount: int, childCount: int, s: PageState): (r: SearchParams)
    ensures r.adultCount.Some? && ParseInt(r.adultCount.value) == Num(adultCount)
    ensures r.childCount.Some? && ParseInt(r.childCount.value) == Num(childCount)
    ensures r.page.Some? && ParseInt(r.page.value) == Num(s.page)
    ensures r.maxPrice.Some? <==> s.selectedPrice.Some?
    ensures r.maxPrice.Some? ==> ParseInt(r.maxPrice.value) == Num(s.selectedPrice.value)
    ensures r.facilities == Some(s.selectedFacilities) && r.types == Some(s.selectedHotelTypes)
            && r.stars == Some(s.selectedStars) && r.sortOption == Some(s.sortOption)
  {
    ParseIntToString(adultCount);
    ParseIntToString(childCount);
    ParseIntToString(s.page);
    ParseIntToString(if s.selectedPrice.Some? then s.selectedPrice.value else 0);
    SearchParams(
      Some(destination), Some(checkIn), Some(checkOut),
      Some(IntToString(adultCount)), Some(IntToString(childCount)), Some(IntToString(s.page)),
      Some(s.selectedFacilities), Some(s.selectedHotelTypes), Some(s.selectedStars),
      if s.selectedPrice.Some? then Some(IntToString(s.selectedPrice.value)) else None,
      Some(s.sortOption))
  }

  /** The first search the page sends asks the server for page 1, unsorted,
      with no facility, type, star or price clause, and with the guest counts
      as thresholds. */
  lemma InitialSearch(destination: string, checkIn: string, checkOut: string, adultCount: int, childCount: int)
    ensures var p := ParseQueryString(QueryPairs(SearchParamsOf(destination, checkIn, checkOut,
                                                                adultCount, childCount, InitialState)));
      && PageNumberOf(p.page) == Num(1)
      && SortOf(p.sortOption) == Unsorted
      && QueryFor(p) == Query(if destination == "" then None else Some(destination),
                              Some(Num(adultCount)), Some(Num(childCount)), None, None, None, None)
  {
    var p := ParseQueryString(QueryPairs(SearchParamsOf(destination, checkIn, checkOut,
                                                         adultCount, childCount, InitialState)));
    assert p == InitialParams(destination, checkIn, checkOut, adultCount, childCount) by {
      ParsedInitialSearch(destination, checkIn, checkOut, adultCount, childCount);
    }
    InitialParamsMeaning(destination, checkIn, checkOut, adultCount, childCount);
  }

  /** What the handler makes of the first search's parameters. */
  lemma InitialParamsMeaning(destination: string, checkIn: string, checkOut: string, adultCount: int,
                             childCount: int)
    ensures var p := InitialParams(destination, checkIn, checkOut, adultCount, childCount);
      && PageNumberOf(p.page) == Num(1)
      && SortOf(p.sortOption) == Unsorted
      && QueryFor(p) == Query(if destination == "" then None else Some(destination),
                              Some(Num(adultCount)), Some(Num(childCount)), None, None, None, None)
  {
    CountOfRendered(adultCount);
    CountOfRendered(childCount);
    var p := InitialParams(destination, checkIn, checkOut, adultCount, childCount);
    InitialQuery(p);
    EmptySortIsUnsorted();
    ParseIntToString(1);
  }

  /** The parameter set the server parses from the first search. */
  function InitialParams(destination: string, checkIn: string, checkOut: string,
                         adultCount: int, childCount: int): QueryParams
  {
    QueryParams(Single(destination), Single(checkIn), Single(checkOut),
                Single(IntToString(adultCount)), Single(IntToString(childCount)),
                Single(IntToString(1)), Single(""), Single(""), Absent, Absent, Absent)
  }

  lemma EmptySortIsUnsorted()
    ensures SortOf(Single("")) == Unsorted
  {
    assert |""| == 0;
  }

  lemma ParsedInitialSearch(destination: string, checkIn: string, checkOut: string, adultCount: int, childCount: int)
    ensures ParseQueryString(QueryPairs(SearchParamsOf(destination, checkIn, checkOut, adultCount, childCount,
                                                       InitialState)))
            == InitialParams(destination, checkIn, checkOut, adultCount, childCount)
  {
    ServerReads(SearchParamsOf(destination, checkIn, checkOut, adultCount, childCount, InitialState));
  }

  lemma InitialQuery(p: QueryParams)
    requires exists d, ci, co, a, c :: p == InitialParams(d, ci, co, a, c)
    ensures p.destination.Single? && p.adultCount.Single? && p.childCount.Single?
    ensures QueryFor(p) == Query(if p.destination.text == "" then None else Some(p.destination.text),
                                 CountClause(p.adultCount), CountClause(p.childCount), None, None, None, None)
  {
  }

  /** A count rendered in decimal yields a threshold of that count. */
  lemma CountOfRendered(n: int)
    ensures CountClause(Single(IntToString(n))) == Some(Num(n))
  {
    ParseIntToString(n);
  }

  /** `page={hotelData?.pagination.page || 1}` and
      `pages={hotelData?.pagination.pages || 1}`: without data, or with a zero,
      the control shows 1. */
  function ShownPagination(hotelData: Option<SearchResponse>): (r: (int, int))
    ensures hotelData.None? ==> r == (1, 1)
    ensures r.0 != 0 && r.1 >= 1
    ensures hotelData.Some? && hotelData.value.pagination.page != 0 ==> r.0 == hotelData.value.pagination.page
    ensures hotelData.Some? && hotelData.value.pagination.pages != 0 ==> r.1 == hotelData.value.pagination.pages
  {
    match hotelData
    case None => (1, 1)
    case Some(d) =>
      (if d.pagination.page != 0 then d.pagination.page else 1,
       if d.pagination.pages != 0 then d.pagination.pages else 1)
  }
}

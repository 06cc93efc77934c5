/** `GET /api/hotels/search`: filter, sort option, page window of five, and the
    pagination summary. The database is an in-memory sequence of hotels in
    natural (insertion) order. */
module HotelSearch {
  import opened Base
  import opened Numbers
  import opened HotelTypes
  import opened SearchQuery

  const PageSize: nat := 5

  datatype SortOption = Unsorted | StarRatingDesc | PriceAsc | PriceDesc

  datatype Pagination = Pagination(total: nat, page: int, pages: nat)

  datatype SearchResponse = SearchResponse(data: seq<Hotel>, pagination: Pagination)

  // ---------------------------------------------------------------------------
  // Sort option

  /** The `switch (req.query.sortOption)`: strict comparison against three
      literal strings; anything else, a repeated key included, leaves the
      sort empty. */
  method ChooseSort(v: QueryValue) returns (sortOptions: SortOption)
    ensures sortOptions == StarRatingDesc <==> v == Single("starRating")
    ensures sortOptions == PriceAsc <==> v == Single("pricePerNightAsc")
    ensures sortOptions == PriceDesc <==> v == Single("pricePerNightDesc")
    ensures sortOptions == SortOf(v)
  {
    sortOptions := Unsorted;
    match v {
      case Single(s) =>
        if s == "starRating" {
          sortOptions := StarRatingDesc;
        } else if s == "pricePerNightAsc" {
          sortOptions := PriceAsc;
        } else if s == "pricePerNightDesc" {
          sortOptions := PriceDesc;
        }
      case _ =>
    }
  }

  function SortOf(v: QueryValue): SortOption
  {
    if v == Single("starRating") then StarRatingDesc
    else if v == Single("pricePerNightAsc") then PriceAsc
    else if v == Single("pricePerNightDesc") then PriceDesc
    else Unsorted
  }

  /** The ascending key of each order: `{starRating: -1}` sorts on the negated
      rating, `{pricePerNight: 1}` on the price, `{pricePerNight: -1}` on the
      negated price. */
  function SortKey(opt: SortOption, h: Hotel): int
  {
    match opt
    case Unsorted => 0
    case StarRatingDesc => -h.starRating
    case PriceAsc => h.pricePerNight
    case PriceDesc => -h.pricePerNight
  }

  ghost predicate SortedBy(s: seq<Hotel>, opt: SortOption)
  {
    forall i, j :: 0 <= i < j < |s| ==> SortKey(opt, s[i]) <= SortKey(opt, s[j])
  }

  function Insert(h: Hotel, s: seq<Hotel>, opt: SortOption): (r: seq<Hotel>)
    requires SortedBy(s, opt)
    ensures SortedBy(r, opt)
    ensures |r| == |s| + 1
    ensures r[0] == h || (s != [] && r[0] == s[0])
  {
    if s == [] || SortKey(opt, h) <= SortKey(opt, s[0]) then
      SortedCons(h, s, opt);
      [h] + s
    else
      var rest := Insert(h, s[1..], opt);
      assert s == [s[0]] + s[1..];
      assert SortKey(opt, s[0]) <= SortKey(opt, rest[0]);
      SortedCons(s[0], rest, opt);
      [s[0]] + rest
  }

  /** Inserting adds exactly the new record. */
  lemma {:induction false} InsertPermutes(h: Hotel, s: seq<Hotel>, opt: SortOption)
    requires SortedBy(s, opt)
    ensures multiset(Insert(h, s, opt)) == multiset(s) + multiset{h}
  {
    if s != [] && SortKey(opt, h) > SortKey(opt, s[0]) {
      assert s == [s[0]] + s[1..];
      InsertPermutes(h, s[1..], opt);
    }
  }

  /** A key no greater than the head of a sorted list can go in front of it. */
  lemma SortedCons(x: Hotel, s: seq<Hotel>, opt: SortOption)
    requires SortedBy(s, opt) && (s == [] || SortKey(opt, x) <= SortKey(opt, s[0]))
    ensures SortedBy([x] + s, opt)
  {
    var r := [x] + s;
    forall i, j | 0 <= i < j < |r|
      ensures SortKey(opt, r[i]) <= SortKey(opt, r[j])
    {
      if i > 0 {
        assert r[i] == s[i - 1] && r[j] == s[j - 1];
      } else {
        assert r[j] == s[j - 1];
        assert SortKey(opt, s[0]) <= SortKey(opt, s[j - 1]);
      }
    }
  }

  /** The order the database returns matching hotels in: unchanged for no
      sort option, otherwise ordered by the option's key. */
  function SortHotels(s: seq<Hotel>, opt: SortOption): (r: seq<Hotel>)
    ensures SortedBy(r, opt)
    ensures multiset(r) == multiset(s)
    ensures opt == Unsorted ==> r == s
  {
    if opt == Unsorted then s
    else if s == [] then []
    else
      assert s == [s[0]] + s[1..];
      InsertPermutes(s[0], SortHotels(s[1..], opt), opt);
      Insert(s[0], SortHotels(s[1..], opt), opt)
  }

  // ---------------------------------------------------------------------------
  // Filter and count

  /** `Hotel.find(query)` without sort or paging: the matching hotels in
      natural order. */
  function MatchingHotels(store: seq<Hotel>, q: Query): (r: seq<Hotel>)
    requires WellFormed(q)
    ensures |r| <= |store|
    ensures forall i :: 0 <= i < |r| ==> r[i] in store && Matches(q, r[i])
    ensures forall i :: 0 <= i < |store| && Matches(q, store[i]) ==> store[i] in r
  {
    if store == [] then []
    else (if Matches(q, store[0]) then [store[0]] else []) + MatchingHotels(store[1..], q)
  }

  /** What `countDocuments(query)` counts: every stored copy of a matching
      hotel is found once, and nothing else. */
  lemma {:induction false} MatchingCounts(store: seq<Hotel>, q: Query)
    requires WellFormed(q)
    ensures forall h :: multiset(MatchingHotels(store, q))[h] == if Matches(q, h) then multiset(store)[h] else 0
  {
    if store != [] {
      MatchingCounts(store[1..], q);
      assert store == [store[0]] + store[1..];
      var head := if Matches(q, store[0]) then [store[0]] else [];
      assert MatchingHotels(store, q) == head + MatchingHotels(store[1..], q);
    }
  }

  /** The filter keeps stored order: the matches of `a + b` are those of `a`
      followed by those of `b`. */
  lemma {:induction false} MatchingHotelsConcat(a: seq<Hotel>, b: seq<Hotel>, q: Query)
    requires WellFormed(q)
    ensures MatchingHotels(a + b, q) == MatchingHotels(a, q) + MatchingHotels(b, q)
  {
    if a == [] {
      assert a + b == b;
    } else {
      assert (a + b)[0] == a[0] && (a + b)[1..] == a[1..] + b;
      MatchingHotelsConcat(a[1..], b, q);
    }
  }

  // ---------------------------------------------------------------------------
  // Paging

  /** `req.query.page ? req.query.page.toString() : "1"`, parsed: a missing
      or empty page reads as page 1, a single page string is parsed as sent. */
  function PageNumberOf(v: QueryValue): (n: Number)
    ensures !Truthy(v) ==> n == Num(1)
    ensures v.Single? && v.text != "" ==> n == ParseInt(v.text)
  {
    ParseIntToString(1);
    assert IntToString(1) == "1";
    ParseInt(if Truthy(v) then AsString(v) else "1")
  }

  /** `.skip(skip).limit(5)` over the sorted matches: the at most five records
      from position `skip` on, none when `skip` is past the end. */
  function PageWindow(s: seq<Hotel>, skip: nat): (w: seq<Hotel>)
    ensures |w| == if skip >= |s| then 0 else if |s| - skip < PageSize then |s| - skip else PageSize
    ensures forall i :: 0 <= i < |w| ==> w[i] == s[skip + i]
  {
    s[if skip <= |s| then skip else |s| .. if skip + PageSize <= |s| then skip + PageSize else |s|]
  }

  /** A page holds at most five records, in the order of the whole result;
      it is full before the last page and empty past it. */
  lemma PageWindowShape(s: seq<Hotel>, page: nat)
    requires page >= 1
    ensures var w := PageWindow(s, (page - 1) * PageSize);
      && |w| <= PageSize
      && (forall i :: 0 <= i < |w| ==> w[i] == s[(page - 1) * PageSize + i])
      && (page < CeilDiv(|s|, PageSize) ==> |w| == PageSize)
      && (page <= CeilDiv(|s|, PageSize) ==> |w| > 0)
      && (page > CeilDiv(|s|, PageSize) ==> w == [])
  {
  }

  /** The first `k` pages, one after the other. */
  function FirstPages(s: seq<Hotel>, k: nat): seq<Hotel>
  {
    if k == 0 then [] else FirstPages(s, k - 1) + PageWindow(s, (k - 1) * PageSize)
  }

  lemma {:induction false} FirstPagesPrefix(s: seq<Hotel>, k: nat)
    ensures FirstPages(s, k) == s[..if k * PageSize <= |s| then k * PageSize else |s|]
  {
    if k > 0 {
      FirstPagesPrefix(s, k - 1);
      var lo := if (k - 1) * PageSize <= |s| then (k - 1) * PageSize else |s|;
      var hi := if k * PageSize <= |s| then k * PageSize else |s|;
      assert PageWindow(s, (k - 1) * PageSize) == s[lo..hi];
      assert s[..hi] == s[..lo] + s[lo..hi];
    }
  }

  /** Pages 1 to `pages` of one fixed order, laid end to end, are that order:
      each record of it lands on exactly one page. */
  lemma PagesPartition(s: seq<Hotel>)
    ensures FirstPages(s, CeilDiv(|s|, PageSize)) == s
  {
    FirstPagesPrefix(s, CeilDiv(|s|, PageSize));
  }

  // ---------------------------------------------------------------------------
  // The handler

  /** Every hotel on any page of a search is a stored hotel that the search
      parameters admit, whatever the sort order. */
  lemma SearchedHotelAdmitted(store: seq<Hotel>, params: QueryParams, opt: SortOption, skip: nat, h: Hotel)
    requires WellFormed(QueryFor(params))
    requires h in PageWindow(SortHotels(MatchingHotels(store, QueryFor(params)), opt), skip)
    ensures NumericParamsParse(params) && h in store && Admits(params, h)
  {
    var matches := MatchingHotels(store, QueryFor(params));
    var sorted := SortHotels(matches, opt);
    assert h in sorted;
    assert h in multiset(matches);
    QueryMeaning(params, h);
  }

  /** The `/search` handler. A filter with a NaN threshold and a page number
      that is NaN or below 1 are passed to the database as they are; the model
      takes the database to reject them, which the handler turns into a 500. */
  method Search(store: seq<Hotel>, params: QueryParams) returns (r: Result<SearchResponse>)
    ensures r.Ok? <==> WellFormed(QueryFor(params)) && PageNumberOf(params.page).Num?
                       && PageNumberOf(params.page).value >= 1
    ensures r.Err? ==> r.status == 500 && r.message == "Something went wrong"
    ensures r.Ok? ==>
      var q := QueryFor(params);
      var matches := MatchingHotels(store, q);
      var page := PageNumberOf(params.page).value;
      && r.value.pagination == Pagination(|matches|, page, CeilDiv(|matches|, PageSize))
      && r.value.data == PageWindow(SortHotels(matches, SortOf(params.sortOption)), (page - 1) * PageSize)
  {
    var query := ConstructSearchQuery(params);
    var sortOptions := ChooseSort(params.sortOption);
    var pageNumber := PageNumberOf(params.page);
    if !WellFormed(query) || !pageNumber.Num? || pageNumber.value < 1 {
      return Err(500, "Something went wrong");
    }
    var skip := (pageNumber.value - 1) * PageSize;
    var matches := MatchingHotels(store, query);
    var sorted := SortHotels(matches, sortOptions);
    var hotels := PageWindow(sorted, skip);
    var total := |matches|;
    r := Ok(SearchResponse(hotels, Pagination(total, pageNumber.value, CeilDiv(total, PageSize))));
  }
}

/** The client side of the hotel search: `searchHotels` builds the query string
    from the search parameters and turns the server's reply into data or an
    error. The query string is a sequence of key/value pairs in append order;
    the server reads it back with `SearchQuery.ParseQueryString`. */
module ApiClient {
  import opened Base
  import opened Numbers
  import opened SearchQuery
  import opened HotelSearch

  /** `SearchParams`: every field is optional. */
  datatype SearchParams = SearchParams(
    destination: Option<string>,
    checkIn: Option<string>,
    checkOut: Option<string>,
    adultCount: Option<string>,
    childCount: Option<string>,
    page: Option<string>,
    facilities: Option<seq<string>>,
    types: Option<seq<string>>,
    stars: Option<seq<string>>,
    maxPrice: Option<string>,
    sortOption: Option<string>)

  /** `value || ""`. */
  function OrBlank(o: Option<string>): (s: string)
    ensures o.Some? ==> s == o.value
    ensures o.None? ==> s == ""
  {
    if o.Some? then o.value else ""
  }

  const ScalarKeys: seq<string> :=
    ["destination", "checkIn", "checkOut", "adultCount", "childCount", "page", "maxPrice", "sortOption"]

  /** The eight scalar pairs, always present, in their fixed order. */
  function ScalarPairs(sp: SearchParams): seq<(string, string)>
  {
    [("destination", OrBlank(sp.destination)), ("checkIn", OrBlank(sp.checkIn)),
     ("checkOut", OrBlank(sp.checkOut)), ("adultCount", OrBlank(sp.adultCount)),
     ("childCount", OrBlank(sp.childCount)), ("page", OrBlank(sp.page)),
     ("maxPrice", OrBlank(sp.maxPrice)), ("sortOption", OrBlank(sp.sortOption))]
  }

  /** One `key=value` pair per list element, in list order. */
  function ListPairs(key: string, xs: seq<string>): (ps: seq<(string, string)>)
    ensures |ps| == |xs| && forall i :: 0 <= i < |xs| ==> ps[i] == (key, xs[i])
  {
    seq(|xs|, i requires 0 <= i < |xs| => (key, xs[i]))
  }

  /** The whole query string: scalars, then facilities, types and stars. */
  function QueryPairs(sp: SearchParams): seq<(string, string)>
  {
    ScalarPairs(sp) + ListPairs("facilities", OrEmpty(sp.facilities))
    + ListPairs("types", OrEmpty(sp.types)) + ListPairs("stars", OrEmpty(sp.stars))
  }

  /** The `URLSearchParams` building in `searchHotels`. */
  method BuildQuery(sp: SearchParams) returns (queryParams: seq<(string, string)>)
    ensures queryParams == QueryPairs(sp)
  {
    queryParams := [];
    queryParams := queryParams + [("destination", OrBlank(sp.destination))];
    queryParams := queryParams + [("checkIn", OrBlank(sp.checkIn))];
    queryParams := queryParams + [("checkOut", OrBlank(sp.checkOut))];
    queryParams := queryParams + [("adultCount", OrBlank(sp.adultCount))];
    queryParams := queryParams + [("childCount", OrBlank(sp.childCount))];
    queryParams := queryParams + [("page", OrBlank(sp.page))];
    queryParams := queryParams + [("maxPrice", OrBlank(sp.maxPrice))];
    queryParams := queryParams + [("sortOption", OrBlank(sp.sortOption))];
    queryParams := AppendEach(queryParams, "facilities", sp.facilities);
    queryParams := AppendEach(queryParams, "types", sp.types);
    queryParams := AppendEach(queryParams, "stars", sp.stars);
  }

  /** `list?.forEach(x => queryParams.append(key, x))`. */
  method AppendEach(pairs: seq<(string, string)>, key: string, list: Option<seq<string>>)
    returns (r: seq<(string, string)>)
    ensures r == pairs + ListPairs(key, OrEmpty(list))
  {
    r := pairs;
    if list.Some? {
      var xs := list.value;
      for i := 0 to |xs|
        invariant r == pairs + ListPairs(key, xs[..i])
      {
        assert ListPairs(key, xs[..i + 1]) == ListPairs(key, xs[..i]) + [(key, xs[i])];
        r := r + [(key, xs[i])];
      }
      assert xs[..|xs|] == xs;
    }
  }

  lemma {:induction false} ValuesOfConcat(a: seq<(string, string)>, b: seq<(string, string)>, key: string)
    ensures ValuesOf(a + b, key) == ValuesOf(a, key) + ValuesOf(b, key)
  {
    if a == [] {
      assert a + b == b;
    } else {
      assert (a + b)[1..] == a[1..] + b;
      ValuesOfConcat(a[1..], b, key);
    }
  }

  lemma {:induction false} ValuesOfListPairs(key: string, xs: seq<string>, k: string)
    ensures ValuesOf(ListPairs(key, xs), k) == if k == key then xs else []
  {
    if xs != [] {
      assert ListPairs(key, xs)[1..] == ListPairs(key, xs[1..]);
      ValuesOfListPairs(key, xs[1..], k);
    }
  }

  /** How the server reads back a list sent as repeated keys. */
  function ListValue(xs: seq<string>): (v: QueryValue)
    ensures |xs| == 0 ==> v == Absent
    ensures |xs| == 1 ==> v == Single(xs[0])
    ensures |xs| >= 2 ==> v == Many(xs)
  {
    if |xs| == 0 then Absent else if |xs| == 1 then Single(xs[0]) else Many(xs)
  }

  /** Among pairs with distinct keys, a key has the value of its one pair, or
      no value at all. */
  lemma {:induction false} ValuesOfDistinct(pairs: seq<(string, string)>, k: string)
    requires forall i, j :: 0 <= i < j < |pairs| ==> pairs[i].0 != pairs[j].0
    ensures forall j :: 0 <= j < |pairs| && pairs[j].0 == k ==> ValuesOf(pairs, k) == [pairs[j].1]
    ensures (forall j :: 0 <= j < |pairs| ==> pairs[j].0 != k) ==> ValuesOf(pairs, k) == []
  {
    if pairs != [] {
      ValuesOfDistinct(pairs[1..], k);
      assert forall j :: 1 <= j < |pairs| ==> pairs[j] == pairs[1..][j - 1];
    }
  }

  /** The values the server sees under `k`: the scalar pair's, then the
      list's. */
  lemma ValuesSent(sp: SearchParams, k: string)
    ensures ValuesOf(QueryPairs(sp), k)
            == ValuesOf(ScalarPairs(sp), k)
               + (if k == "facilities" then OrEmpty(sp.facilities) else [])
               + (if k == "types" then OrEmpty(sp.types) else [])
               + (if k == "stars" then OrEmpty(sp.stars) else [])
  {
    var s := ScalarPairs(sp);
    var f := ListPairs("facilities", OrEmpty(sp.facilities));
    var t := ListPairs("types", OrEmpty(sp.types));
    ValuesOfConcat(s + f + t, ListPairs("stars", OrEmpty(sp.stars)), k);
    ValuesOfConcat(s + f, t, k);
    ValuesOfConcat(s, f, k);
    ValuesOfListPairs("facilities", OrEmpty(sp.facilities), k);
    ValuesOfListPairs("types", OrEmpty(sp.types), k);
    ValuesOfListPairs("stars", OrEmpty(sp.stars), k);
  }

  /** Each scalar key is sent once, with its value or the empty string. */
  lemma ScalarSent(sp: SearchParams, j: nat)
    requires j < 8
    ensures Lookup(QueryPairs(sp), ScalarKeys[j]) == Single(ScalarPairs(sp)[j].1)
  {
    var s := ScalarPairs(sp);
    assert forall i :: 0 <= i < 8 ==> s[i].0 == ScalarKeys[i];
    ValuesOfDistinct(s, ScalarKeys[j]);
    ValuesSent(sp, ScalarKeys[j]);
  }

  /** Each list is sent as repeated pairs under its key. */
  lemma ListSent(sp: SearchParams, k: string, xs: seq<string>)
    requires || (k == "facilities" && xs == OrEmpty(sp.facilities))
             || (k == "types" && xs == OrEmpty(sp.types))
             || (k == "stars" && xs == OrEmpty(sp.stars))
    ensures Lookup(QueryPairs(sp), k) == ListValue(xs)
  {
    var s := ScalarPairs(sp);
    assert forall i :: 0 <= i < 8 ==> s[i].0 == ScalarKeys[i] != k;
    ValuesOfDistinct(s, k);
    ValuesSent(sp, k);
  }

  /** What the server parses from the query string: each scalar once, as the
      sent value or the empty string, and each list as absent, a lone string
      or a list, depending on its length. */
  lemma ServerReads(sp: SearchParams)
    ensures ParseQueryString(QueryPairs(sp)) == QueryParams(
      Single(OrBlank(sp.destination)), Single(OrBlank(sp.checkIn)), Single(OrBlank(sp.checkOut)),
      Single(OrBlank(sp.adultCount)), Single(OrBlank(sp.childCount)), Single(OrBlank(sp.page)),
      Single(OrBlank(sp.maxPrice)), Single(OrBlank(sp.sortOption)),
      ListValue(OrEmpty(sp.facilities)), ListValue(OrEmpty(sp.types)), ListValue(OrEmpty(sp.stars)))
  {
    ScalarSent(sp, 0);
    ScalarSent(sp, 1);
    ScalarSent(sp, 2);
    ScalarSent(sp, 3);
    ScalarSent(sp, 4);
    ScalarSent(sp, 5);
    ScalarSent(sp, 6);
    ScalarSent(sp, 7);
    ListSent(sp, "facilities", OrEmpty(sp.facilities));
    ListSent(sp, "types", OrEmpty(sp.types));
    ListSent(sp, "stars", OrEmpty(sp.stars));
  }

  /** End to end: the filter the server builds from what `searchHotels` sends.
      The dates never reach it; an absent or empty list adds no clause; a
      single star becomes a bare number while several become a list; a missing
      page reads as page 1. */
  lemma SearchSent(sp: SearchParams, checkIn: Option<string>, checkOut: Option<string>)
    ensures QueryFor(ParseQueryString(QueryPairs(sp.(checkIn := checkIn, checkOut := checkOut))))
            == QueryFor(ParseQueryString(QueryPairs(sp)))
    ensures OrEmpty(sp.facilities) == [] ==> QueryFor(ParseQueryString(QueryPairs(sp))).allFacilities.None?
    ensures |OrEmpty(sp.facilities)| >= 2 ==>
              QueryFor(ParseQueryString(QueryPairs(sp))).allFacilities == Some(OrEmpty(sp.facilities))
    ensures OrEmpty(sp.stars) == [] ==> QueryFor(ParseQueryString(QueryPairs(sp))).starsIn.None?
    ensures |OrEmpty(sp.stars)| == 1 && OrEmpty(sp.stars)[0] != "" ==>
              QueryFor(ParseQueryString(QueryPairs(sp))).starsIn
              == Some(StarScalar(ParseInt(OrEmpty(sp.stars)[0])))
    ensures |OrEmpty(sp.stars)| >= 2 ==>
              QueryFor(ParseQueryString(QueryPairs(sp))).starsIn
              == Some(StarList(ParseAll(OrEmpty(sp.stars))))
    ensures OrBlank(sp.page) == "" ==> PageNumberOf(ParseQueryString(QueryPairs(sp)).page) == Num(1)
  {
    ServerReads(sp);
    ServerReads(sp.(checkIn := checkIn, checkOut := checkOut));
    if OrBlank(sp.page) == "" {
      assert PageNumberOf(Single("")) == Num(1);
    }
  }

  /** The server's reply as `fetch` reports it. */
  datatype Reply = Reply(ok: bool, status: int, body: SearchResponse)

  /** `searchHotels`: the data of an OK reply; any other reply raises "Error
      fetching hotels" instead of returning data. The server is a function of
      the query string sent. */
  method SearchHotels(sp: SearchParams, server: seq<(string, string)> -> Reply) returns (r: Result<SearchResponse>)
    ensures r.Ok? <==> server(QueryPairs(sp)).ok
    ensures r.Ok? ==> r.value == server(QueryPairs(sp)).body
    ensures r.Err? ==> r == Err(server(QueryPairs(sp)).status, "Error fetching hotels")
  {
    var queryParams := BuildQuery(sp);
    var response := server(queryParams);
    if !response.ok {
      return Err(response.status, "Error fetching hotels");
    }
    r := Ok(response.body);
  }
}

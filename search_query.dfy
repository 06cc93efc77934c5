/** The search filter of `GET /api/hotels/search`: how the loosely typed query
    string values become a conjunction of optional clauses, and what those
    clauses mean as a predicate over hotel records. */
module SearchQuery {
  import opened Base
  import opened Numbers
  import opened HotelTypes

  /** One value of the parsed query string: missing, one string, or a list of
      strings (a key that occurs more than once). */
  datatype QueryValue = Absent | Single(text: string) | Many(items: seq<string>)

  /** The query string as the handler receives it (`req.query`). `checkIn` and
      `checkOut` are sent by the client but no clause reads them. */
  datatype QueryParams = QueryParams(
    destination: QueryValue,
    checkIn: QueryValue,
    checkOut: QueryValue,
    adultCount: QueryValue,
    childCount: QueryValue,
    page: QueryValue,
    maxPrice: QueryValue,
    sortOption: QueryValue,
    facilities: QueryValue,
    types: QueryValue,
    stars: QueryValue)

  /** All values of `key`, in the order the pairs give them. */
  function ValuesOf(pairs: seq<(string, string)>, key: string): (vs: seq<string>)
    ensures |vs| <= |pairs|
  {
    if pairs == [] then []
    else (if pairs[0].0 == key then [pairs[0].1] else []) + ValuesOf(pairs[1..], key)
  }

  /** The server's reading of one key: absent, the lone value, or the list of
      values when the key is repeated. */
  function Lookup(pairs: seq<(string, string)>, key: string): QueryValue
  {
    var vs := ValuesOf(pairs, key);
    if |vs| == 0 then Absent else if |vs| == 1 then Single(vs[0]) else Many(vs)
  }

  function ParseQueryString(pairs: seq<(string, string)>): QueryParams
  {
    QueryParams(
      Lookup(pairs, "destination"), Lookup(pairs, "checkIn"), Lookup(pairs, "checkOut"),
      Lookup(pairs, "adultCount"), Lookup(pairs, "childCount"), Lookup(pairs, "page"),
      Lookup(pairs, "maxPrice"), Lookup(pairs, "sortOption"), Lookup(pairs, "facilities"),
      Lookup(pairs, "types"), Lookup(pairs, "stars"))
  }

  /** JavaScript truthiness: `undefined` and `""` are falsy, any array is truthy. */
  predicate Truthy(v: QueryValue)
  {
    match v
    case Absent => false
    case Single(s) => s != ""
    case Many(_) => true
  }

  function Join(xs: seq<string>): string
  {
    if xs == [] then "" else if |xs| == 1 then xs[0] else xs[0] + "," + Join(xs[1..])
  }

  /** `String(v)`, which is what `new RegExp(v)`, `parseInt(v)` and `v.toString()`
      see: a list is joined with commas. */
  function AsString(v: QueryValue): string
  {
    match v
    case Absent => "undefined"
    case Single(s) => s
    case Many(xs) => Join(xs)
  }

  /** `Array.isArray(v) ? v : [v]`. */
  function AsList(v: QueryValue): seq<string>
  {
    match v
    case Absent => []
    case Single(s) => [s]
    case Many(xs) => xs
  }

  function ParseAll(xs: seq<string>): (ns: seq<Number>)
    ensures |ns| == |xs| && forall i :: 0 <= i < |xs| ==> ns[i] == ParseInt(xs[i])
  {
    seq(|xs|, i requires 0 <= i < |xs| => ParseInt(xs[i]))
  }

  /** The operand of the `starRating: {$in: ...}` clause: a list of parsed
      numbers for a list of values, but a bare number for a single value. */
  datatype StarsOperand = StarList(ratings: seq<Number>) | StarScalar(rating: Number)

  /** The constructed filter; `None` is a clause that is not there. */
  datatype Query = Query(
    destination: Option<string>,
    minAdults: Option<Number>,
    minChildren: Option<Number>,
    allFacilities: Option<seq<string>>,
    typeIn: Option<seq<string>>,
    starsIn: Option<StarsOperand>,
    maxPrice: Option<string>)

  const MatchAll: Query := Query(None, None, None, None, None, None, None)

  /** The `$gte` threshold a truthy count parameter yields. */
  function CountClause(v: QueryValue): Option<Number>
  {
    if Truthy(v) then Some(ParseInt(AsString(v))) else None
  }

  /** The `$all`/`$in` list a truthy list parameter yields. */
  function ListClause(v: QueryValue): Option<seq<string>>
  {
    if Truthy(v) then Some(AsList(v)) else None
  }

  /** The `starRating: {$in: ...}` operand a truthy `stars` parameter yields. */
  function StarsClause(v: QueryValue): Option<StarsOperand>
  {
    if !Truthy(v) then None
    else if v.Many? then Some(StarList(ParseAll(v.items)))
    else Some(StarScalar(ParseInt(AsString(v))))
  }

  /** The `$lte` operand a truthy `maxPrice` yields: a decimal string. */
  function PriceClause(v: QueryValue): Option<string>
  {
    if Truthy(v) then Some(NumberToString(ParseInt(AsString(v)))) else None
  }

  /** The clauses the handler builds from a parameter set, one per truthy
      parameter. */
  function QueryFor(p: QueryParams): Query
  {
    Query(
      if Truthy(p.destination) then Some(AsString(p.destination)) else None,
      CountClause(p.adultCount),
      CountClause(p.childCount),
      ListClause(p.facilities),
      ListClause(p.types),
      StarsClause(p.stars),
      PriceClause(p.maxPrice))
  }

  /** `constructSearchQuery`: starts from the empty filter and sets one field
      per truthy parameter. */
  method ConstructSearchQuery(p: QueryParams) returns (q: Query)
    ensures q == QueryFor(p)
  {
    q := MatchAll;
    if Truthy(p.destination) {
      q := q.(destination := Some(AsString(p.destination)));
    }
    if Truthy(p.adultCount) {
      q := q.(minAdults := Some(ParseInt(AsString(p.adultCount))));
    }
    if Truthy(p.childCount) {
      q := q.(minChildren := Some(ParseInt(AsString(p.childCount))));
    }
    if Truthy(p.facilities) {
      q := q.(allFacilities := Some(if p.facilities.Many? then p.facilities.items else [p.facilities.text]));
    }
    if Truthy(p.types) {
      q := q.(typeIn := Some(if p.types.Many? then p.types.items else [p.types.text]));
    }
    if Truthy(p.stars) {
      var starRatings := if p.stars.Many? then StarList(ParseAll(p.stars.items))
                         else StarScalar(ParseInt(p.stars.text));
      q := q.(starsIn := Some(starRatings));
    }
    if Truthy(p.maxPrice) {
      q := q.(maxPrice := Some(NumberToString(ParseInt(AsString(p.maxPrice)))));
    }
  }

  // ---------------------------------------------------------------------------
  // The meaning of a filter, as a predicate over hotel records.

  function LowerChar(c: char): char
  {
    if 'A' <= c <= 'Z' then (c as int - 'A' as int + 'a' as int) as char else c
  }

  function Lower(s: string): (r: string)
    ensures |r| == |s| && forall i :: 0 <= i < |s| ==> r[i] == LowerChar(s[i])
  {
    seq(|s|, i requires 0 <= i < |s| => LowerChar(s[i]))
  }

  /** `needle` occurs in `hay` as a contiguous substring. */
  predicate Contains(hay: string, needle: string)
    decreases |hay|
  {
    needle <= hay || (|hay| > 0 && Contains(hay[1..], needle))
  }

  /** `new RegExp(needle, "i").test(hay)`, with the pattern read literally. */
  predicate ContainsIgnoringCase(hay: string, needle: string)
  {
    Contains(Lower(hay), Lower(needle))
  }

  /** The numeric operands the database can compare with: no NaN threshold,
      and a `maxPrice` string that reads as a number. */
  predicate WellFormed(q: Query)
  {
    && (q.minAdults.None? || q.minAdults.value.Num?)
    && (q.minChildren.None? || q.minChildren.value.Num?)
    && StarsWellFormed(q.starsIn)
    && (q.maxPrice.None? || ParseInt(q.maxPrice.value).Num?)
  }

  predicate StarsWellFormed(op: Option<StarsOperand>)
  {
    match op
    case None => true
    case Some(StarList(rs)) => forall i :: 0 <= i < |rs| ==> rs[i].Num?
    case Some(StarScalar(r)) => r.Num?
  }

  predicate DestinationOk(d: Option<string>, h: Hotel)
  {
    d.None? || ContainsIgnoringCase(h.city, d.value) || ContainsIgnoringCase(h.country, d.value)
  }

  predicate AtLeast(threshold: Option<Number>, field: int)
    requires threshold.None? || threshold.value.Num?
  {
    threshold.None? || field >= threshold.value.value
  }

  predicate FacilitiesOk(all: Option<seq<string>>, h: Hotel)
  {
    all.None? || forall i :: 0 <= i < |all.value| ==> all.value[i] in h.facilities
  }

  predicate StarsOk(op: Option<StarsOperand>, rating: int)
    requires StarsWellFormed(op)
  {
    match op
    case None => true
    case Some(StarList(rs)) => exists i :: 0 <= i < |rs| && rs[i].value == rating
    case Some(StarScalar(r)) => r.value == rating
  }

  predicate PriceOk(max: Option<string>, price: int)
    requires max.None? || ParseInt(max.value).Num?
  {
    max.None? || price <= ParseInt(max.value).value
  }

  /** Whether a hotel satisfies every clause that is present. */
  predicate Matches(q: Query, h: Hotel)
    requires WellFormed(q)
  {
    && DestinationOk(q.destination, h)
    && AtLeast(q.minAdults, h.adultCount)
    && AtLeast(q.minChildren, h.childCount)
    && FacilitiesOk(q.allFacilities, h)
    && (q.typeIn.None? || h.hotelType in q.typeIn.value)
    && StarsOk(q.starsIn, h.starRating)
    && PriceOk(q.maxPrice, h.pricePerNight)
  }

  // ---------------------------------------------------------------------------
  // The same filter stated directly over the parameters.

  /** Every truthy numeric parameter reads as a number. */
  predicate NumericParamsParse(p: QueryParams)
  {
    && (!Truthy(p.adultCount) || ParseInt(AsString(p.adultCount)).Num?)
    && (!Truthy(p.childCount) || ParseInt(AsString(p.childCount)).Num?)
    && StarsParse(p.stars)
    && (!Truthy(p.maxPrice) || ParseInt(AsString(p.maxPrice)).Num?)
  }

  predicate StarsParse(v: QueryValue)
  {
    !Truthy(v) || forall s :: s in AsList(v) ==> ParseInt(s).Num?
  }

  predicate ParamAtLeast(v: QueryValue, field: int)
    requires Truthy(v) ==> ParseInt(AsString(v)).Num?
  {
    !Truthy(v) || field >= ParseInt(AsString(v)).value
  }

  predicate ParamStarsOk(v: QueryValue, rating: int)
    requires StarsParse(v)
  {
    !Truthy(v) || exists s :: s in AsList(v) && ParseInt(s).value == rating
  }

  /** What a search with these parameters promises of each returned hotel. */
  predicate Admits(p: QueryParams, h: Hotel)
    requires NumericParamsParse(p)
  {
    && (!Truthy(p.destination) || ContainsIgnoringCase(h.city, AsString(p.destination))
                               || ContainsIgnoringCase(h.country, AsString(p.destination)))
    && ParamAtLeast(p.adultCount, h.adultCount)
    && ParamAtLeast(p.childCount, h.childCount)
    && (!Truthy(p.facilities) || forall f :: f in AsList(p.facilities) ==> f in h.facilities)
    && (!Truthy(p.types) || h.hotelType in AsList(p.types))
    && ParamStarsOk(p.stars, h.starRating)
    && (!Truthy(p.maxPrice) || h.pricePerNight <= ParseInt(AsString(p.maxPrice)).value)
  }

  lemma StarsMeaning(v: QueryValue, rating: int)
    ensures StarsWellFormed(StarsClause(v)) <==> StarsParse(v)
    ensures StarsParse(v) ==> (StarsOk(StarsClause(v), rating) <==> ParamStarsOk(v, rating))
  {
    if v.Many? {
      var xs := v.items;
      assert forall s :: s in xs <==> exists i :: 0 <= i < |xs| && xs[i] == s;
    }
  }

  lemma PriceMeaning(v: QueryValue, price: int)
    ensures (PriceClause(v).None? || ParseInt(PriceClause(v).value).Num?)
            <==> (!Truthy(v) || ParseInt(AsString(v)).Num?)
    ensures (!Truthy(v) || ParseInt(AsString(v)).Num?) ==>
            (PriceOk(PriceClause(v), price) <==> (!Truthy(v) || price <= ParseInt(AsString(v)).value))
  {
    if Truthy(v) {
      var x := ParseInt(AsString(v));
      assert PriceClause(v) == Some(NumberToString(x));
      ParseNumberToString(x);
    }
  }

  /** The constructed filter is well formed exactly when the numeric parameters
      parse, and then it selects exactly the hotels the parameters admit. */
  lemma QueryMeaning(p: QueryParams, h: Hotel)
    ensures WellFormed(QueryFor(p)) <==> NumericParamsParse(p)
    ensures NumericParamsParse(p) ==> (Matches(QueryFor(p), h) <==> Admits(p, h))
  {
    var q := QueryFor(p);
    StarsMeaning(p.stars, h.starRating);
    PriceMeaning(p.maxPrice, h.pricePerNight);
  }

  /** An empty parameter set, or one whose values are all empty strings, adds
      no clause: the filter matches every hotel. */
  lemma EmptyParamsMatchAll(p: QueryParams, h: Hotel)
    requires p.destination in {Absent, Single("")} && p.adultCount in {Absent, Single("")}
    requires p.childCount in {Absent, Single("")} && p.facilities in {Absent, Single("")}
    requires p.types in {Absent, Single("")} && p.stars in {Absent, Single("")}
    requires p.maxPrice in {Absent, Single("")}
    ensures QueryFor(p) == MatchAll
    ensures WellFormed(MatchAll) && Matches(MatchAll, h)
  {
  }

  /** A facilities filter admits a hotel exactly when the hotel has every
      requested facility, whether one or several were requested. */
  lemma FacilitiesAreSuperset(p: QueryParams, h: Hotel)
    requires Truthy(p.facilities)
    ensures QueryFor(p).allFacilities == Some(AsList(p.facilities))
    ensures p.facilities.Single? ==> QueryFor(p).allFacilities == Some([p.facilities.text])
    ensures FacilitiesOk(QueryFor(p).allFacilities, h)
            <==> forall f :: f in AsList(p.facilities) ==> f in h.facilities
  {
  }
}

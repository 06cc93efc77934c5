/** The records the backend stores and the front end displays: a hotel with
    its bookings embedded in it. Dates are instants in integer milliseconds. */
module HotelTypes {
  import opened Base

  datatype Booking = Booking(
    id: string,
    userId: string,
    firstName: string,
    lastName: string,
    email: string,
    adultCount: int,
    childCount: int,
    checkIn: int,
    checkOut: int,
    totalCost: int)

  datatype Hotel = Hotel(
    id: string,
    userId: string,
    name: string,
    city: string,
    country: string,
    description: string,
    hotelType: string,
    adultCount: int,
    childCount: int,
    facilities: seq<string>,
    pricePerNight: int,
    starRating: int,
    imageUrls: seq<string>,
    lastUpdated: int,
    bookings: seq<Booking>)

  /** The editable fields of a hotel, as the hotel form sends them. */
  datatype HotelFields = HotelFields(
    name: string,
    city: string,
    country: string,
    description: string,
    hotelType: string,
    pricePerNight: int,
    starRating: int,
    adultCount: int,
    childCount: int,
    facilities: seq<string>)

  /** An uploaded image file: its name and its size in bytes. */
  datatype ImageFile = ImageFile(name: string, size: nat)

  /** The database gives every hotel document its own id. */
  ghost predicate UniqueIds(hotels: seq<Hotel>)
  {
    forall i, j :: 0 <= i < j < |hotels| ==> hotels[i].id != hotels[j].id
  }

  /** Whether a document satisfies a filter on `_id`, and on `userId` when
      an owner is given. */
  predicate Selects(h: Hotel, id: string, owner: Option<string>)
  {
    h.id == id && (owner.None? || h.userId == owner.value)
  }

  /** The position of the first document from `i` on that the filter selects:
      what `findById`/`findOne` return, as an index into the collection. */
  function FindFrom(hotels: seq<Hotel>, id: string, owner: Option<string>, i: nat): (r: Option<nat>)
    requires i <= |hotels|
    ensures r.Some? ==> i <= r.value < |hotels| && Selects(hotels[r.value], id, owner)
    ensures r.Some? ==> forall j :: i <= j < r.value ==> !Selects(hotels[j], id, owner)
    ensures r.None? ==> forall j :: i <= j < |hotels| ==> !Selects(hotels[j], id, owner)
    decreases |hotels| - i
  {
    if i == |hotels| then None
    else if Selects(hotels[i], id, owner) then Some(i)
    else FindFrom(hotels, id, owner, i + 1)
  }

  function Find(hotels: seq<Hotel>, id: string, owner: Option<string>): (r: Option<nat>)
    ensures r.Some? ==> r.value < |hotels| && Selects(hotels[r.value], id, owner)
    ensures r.None? <==> forall j :: 0 <= j < |hotels| ==> !Selects(hotels[j], id, owner)
  {
    FindFrom(hotels, id, owner, 0)
  }
}

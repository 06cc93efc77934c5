/** The payment and booking flow of `/api/hotels/:hotelId/bookings`: the
    server-side charge computation when a payment intent is requested, the
    ordered checks on the retrieved intent when a booking is confirmed, and
    the booking record that is then pushed onto the hotel. The payment
    provider is an input: a function that creates an intent from a request,
    and the intent it returns on retrieval. */
module Bookings {
  import opened Base
  import opened HotelTypes

  datatype IntentMetadata = IntentMetadata(hotelId: string, userId: string)

  /** What the handler asks the provider to create: an amount in cents. */
  datatype IntentRequest = IntentRequest(amount: int, currency: string, metadata: IntentMetadata)

  /** What the provider answers on creation. */
  datatype CreatedIntent = CreatedIntent(id: string, clientSecret: Option<string>)

  datatype IntentResponse = IntentResponse(paymentIntentId: string, clientSecret: string, totalCost: int)

  /** An intent as retrieved from the provider when a booking is confirmed. */
  datatype RetrievedIntent = RetrievedIntent(metadata: IntentMetadata, status: string)

  /** The booking fields the client sends in the confirmation body. */
  datatype BookingBody = BookingBody(
    userId: string,
    firstName: string,
    lastName: string,
    email: string,
    adultCount: int,
    childCount: int,
    checkIn: int,
    checkOut: int,
    totalCost: int)

  // ---------------------------------------------------------------------------
  // POST /:hotelId/bookings/payment-intent

  /** The charge the handler requests for `numberOfNights` (taken from the
      request body) at the hotel's stored price, tagged with the route's hotel
      and the authenticated caller. A missing hotel is a 400 and no request. */
  function ChargeFor(hotels: seq<Hotel>, hotelId: string, callerId: string, numberOfNights: int)
    : (r: Result<IntentRequest>)
    ensures Find(hotels, hotelId, None).None? <==> r == Err(400, "Hotel not found")
    ensures r.Ok? ==> exists i :: 0 <= i < |hotels| && hotels[i].id == hotelId
                       && r.value.amount == hotels[i].pricePerNight * numberOfNights * 100
    ensures r.Ok? ==> r.value.metadata == IntentMetadata(hotelId, callerId) && r.value.currency == "usd"
  {
    match Find(hotels, hotelId, None)
    case None => Err(400, "Hotel not found")
    case Some(i) =>
      var totalCost := hotels[i].pricePerNight * numberOfNights;
      Ok(IntentRequest(totalCost * 100, "usd", IntentMetadata(hotelId, callerId)))
  }

  /** The whole handler: the provider is asked to create the charge; an intent
      without a client secret is a 500; otherwise the reply echoes the total
      cost, which is the charged amount in dollars. */
  function CreatePaymentIntent(hotels: seq<Hotel>, hotelId: string, callerId: string, numberOfNights: int,
                               create: IntentRequest -> CreatedIntent): (r: Result<IntentResponse>)
    ensures ChargeFor(hotels, hotelId, callerId, numberOfNights).Err? ==> r == Err(400, "Hotel not found")
    ensures r.Ok? ==> ChargeFor(hotels, hotelId, callerId, numberOfNights).Ok?
                      && r.value.totalCost * 100 == ChargeFor(hotels, hotelId, callerId, numberOfNights).value.amount
    ensures r.Ok? ==> r.value.clientSecret != ""
    ensures ChargeFor(hotels, hotelId, callerId, numberOfNights).Ok? ==>
              var charge := ChargeFor(hotels, hotelId, callerId, numberOfNights).value;
              var created := create(charge);
              && (created.clientSecret.None? || created.clientSecret.value == "" ==>
                    r == Err(500, "Error creating payment intent"))
              && (created.clientSecret.Some? && created.clientSecret.value != "" ==>
                    r == Ok(IntentResponse(created.id, created.clientSecret.value, charge.amount / 100)))
  {
    match ChargeFor(hotels, hotelId, callerId, numberOfNights)
    case Err(status, message) => Err(status, message)
    case Ok(charge) =>
      var created := create(charge);
      if created.clientSecret.None? || created.clientSecret.value == "" then
        Err(500, "Error creating payment intent")
      else
        Ok(IntentResponse(created.id, created.clientSecret.value, charge.amount / 100))
  }

  /** Price integrity: with unique hotel ids, the charge and the echoed total
      are the stored price times the nights, whatever else the client sends. */
  lemma ChargeUsesStoredPrice(hotels: seq<Hotel>, i: nat, callerId: string, numberOfNights: int,
                              create: IntentRequest -> CreatedIntent)
    requires UniqueIds(hotels) && i < |hotels|
    ensures ChargeFor(hotels, hotels[i].id, callerId, numberOfNights)
            == Ok(IntentRequest(hotels[i].pricePerNight * numberOfNights * 100, "usd",
                                IntentMetadata(hotels[i].id, callerId)))
    ensures CreatePaymentIntent(hotels, hotels[i].id, callerId, numberOfNights, create).Ok? ==>
            CreatePaymentIntent(hotels, hotels[i].id, callerId, numberOfNights, create).value.totalCost
            == hotels[i].pricePerNight * numberOfNights
  {
    var found := Find(hotels, hotels[i].id, None);
    assert found.Some?;
    assert found.value == i;
  }

  // ---------------------------------------------------------------------------
  // POST /:hotelId/bookings

  /** The checks on the retrieved intent, in the handler's order: it exists,
      its metadata names the route's hotel and the caller, and it succeeded. */
  function CheckIntent(intent: Option<RetrievedIntent>, hotelId: string, callerId: string): (r: Result<()>)
    ensures r.Ok? <==> intent.Some? && intent.value.metadata == IntentMetadata(hotelId, callerId)
                       && intent.value.status == "succeeded"
    ensures intent.None? ==> r == Err(400, "payment intent not found")
    ensures intent.Some? && intent.value.metadata != IntentMetadata(hotelId, callerId)
            ==> r == Err(400, "payment intent mismatch")
    ensures r.Err? ==> r.status == 400
  {
    match intent
    case None => Err(400, "payment intent not found")
    case Some(pi) =>
      if pi.metadata.hotelId != hotelId || pi.metadata.userId != callerId then
        Err(400, "payment intent mismatch")
      else if pi.status != "succeeded" then
        Err(400, "payment intent not succeeded. Status: " + pi.status)
      else Ok(())
  }

  /** `{...req.body, userId: req.userId}`: the client's fields, the total cost
      included, with only the user replaced by the authenticated caller. The
      database gives the embedded booking its id. */
  function NewBooking(body: BookingBody, callerId: string, bookingId: string): (b: Booking)
    ensures b.userId == callerId && b.id == bookingId
    ensures b.totalCost == body.totalCost && b.checkIn == body.checkIn && b.checkOut == body.checkOut
    ensures b.firstName == body.firstName && b.lastName == body.lastName && b.email == body.email
    ensures b.adultCount == body.adultCount && b.childCount == body.childCount
  {
    Booking(bookingId, callerId, body.firstName, body.lastName, body.email,
            body.adultCount, body.childCount, body.checkIn, body.checkOut, body.totalCost)
  }

  /** The recorded cost is the client's figure: two confirmations that differ
      only in the claimed cost record different costs for the same stay, while
      a user id in the body is always overridden. */
  lemma RecordedCostIsClaimed(body: BookingBody, callerId: string, bookingId: string, claimed: int,
                              claimedUser: string)
    ensures NewBooking(body.(totalCost := claimed), callerId, bookingId).totalCost == claimed
    ensures NewBooking(body.(userId := claimedUser), callerId, bookingId)
            == NewBooking(body, callerId, bookingId)
  {
  }

  function TotalBookings(hotels: seq<Hotel>): nat
  {
    if hotels == [] then 0 else |hotels[0].bookings| + TotalBookings(hotels[1..])
  }

  lemma {:induction false} TotalBookingsUpdate(hotels: seq<Hotel>, i: nat, h: Hotel)
    requires i < |hotels|
    ensures TotalBookings(hotels[i := h]) == TotalBookings(hotels) - |hotels[i].bookings| + |h.bookings|
  {
    if i > 0 {
      assert hotels[i := h][1..] == hotels[1..][i - 1 := h];
      TotalBookingsUpdate(hotels[1..], i - 1, h);
    } else {
      assert hotels[i := h][1..] == hotels[1..];
    }
  }

  /** `$push: {bookings: b}` on the hotel at position `i`: that hotel gains
      exactly `b` at the end of its bookings, and nothing else changes. */
  function PushBooking(hotels: seq<Hotel>, i: nat, b: Booking): (r: seq<Hotel>)
    requires i < |hotels|
    ensures |r| == |hotels| && r[i].bookings == hotels[i].bookings + [b]
    ensures r[i] == hotels[i].(bookings := r[i].bookings)
    ensures forall j :: 0 <= j < |hotels| && j != i ==> r[j] == hotels[j]
    ensures TotalBookings(r) == TotalBookings(hotels) + 1
  {
    var h := hotels[i].(bookings := hotels[i].bookings + [b]);
    TotalBookingsUpdate(hotels, i, h);
    hotels[i := h]
  }
}

/** The booking page: the number of nights between the searched dates, when
    the page asks the server for a payment intent, and what it shows. Dates
    are instants in milliseconds; an invalid date is NaN. */
module BookingPage {
  import opened Base
  import opened Numbers
  import opened HotelTypes

  /** `1000 * 60 * 60 * 24`. */
  const MsPerDay: nat := 1000 * 60 * 60 * 24

  function Abs(x: int): nat
  {
    if x < 0 then -x else x
  }

  /** `Math.ceil(Math.abs(checkOut - checkIn) / MsPerDay)`; NaN when either
      date is invalid. */
  function Nights(checkIn: Number, checkOut: Number): (n: Number)
    ensures n.Num? <==> checkIn.Num? && checkOut.Num?
    ensures n.Num? ==>
              && n.value >= 0
              && n.value * MsPerDay >= Abs(checkOut.value - checkIn.value)
              && (n.value == 0 || (n.value - 1) * MsPerDay < Abs(checkOut.value - checkIn.value))
  {
    if checkIn.Num? && checkOut.Num? then Num(CeilDiv(Abs(checkOut.value - checkIn.value), MsPerDay))
    else NaN
  }

  /** The count does not depend on which date comes first. */
  lemma NightsSymmetric(checkIn: Number, checkOut: Number)
    ensures Nights(checkIn, checkOut) == Nights(checkOut, checkIn)
  {
  }

  /** A stay of whole days counts those days; any part of a further day counts
      as one more night. */
  lemma NightsOfStay(checkIn: int, days: nat, extra: nat)
    requires extra < MsPerDay
    ensures Nights(Num(checkIn), Num(checkIn + days * MsPerDay + extra))
            == Num(if extra == 0 then days else days + 1)
  {
    var n := Nights(Num(checkIn), Num(checkIn + days * MsPerDay + extra)).value;
    assert Abs(days * MsPerDay + extra) == days * MsPerDay + extra;
    if extra == 0 {
      assert n * MsPerDay >= days * MsPerDay;
      assert n == 0 || (n - 1) * MsPerDay < days * MsPerDay;
    } else {
      assert n * MsPerDay > days * MsPerDay;
      assert n == 0 || (n - 1) * MsPerDay < (days + 1) * MsPerDay;
    }
  }

  /** `numberOfNights` before the effect has run. */
  const InitialNights: Number := Num(0)

  /** `enabled: !!hotelId && numberOfNights > 0`. */
  predicate IntentRequestEnabled(hotelId: Option<string>, numberOfNights: Number)
  {
    hotelId.Some? && hotelId.value != "" && numberOfNights.Num? && numberOfNights.value > 0
  }

  /** No payment intent is requested before the nights are known, nor for
      dates on the same instant or an invalid date. */
  lemma IntentRequestNeedsNights(hotelId: Option<string>, checkIn: Number, checkOut: Number)
    ensures !IntentRequestEnabled(hotelId, InitialNights)
    ensures IntentRequestEnabled(hotelId, Nights(checkIn, checkOut))
            <==> hotelId.Some? && hotelId.value != "" && checkIn.Num? && checkOut.Num? && checkIn != checkOut
  {
  }

  /** What the page renders. */
  datatype View = Nothing | Summary(paymentForm: bool)

  /** Nothing until the hotel has loaded; then the summary, with the payment
      form only once the current user and the payment intent are both there. */
  function Render<U, P>(hotel: Option<Hotel>, currentUser: Option<U>, paymentIntentData: Option<P>): (v: View)
    ensures v == Nothing <==> hotel.None?
    ensures v.Summary? ==> (v.paymentForm <==> currentUser.Some? && paymentIntentData.Some?)
  {
    if hotel.None? then Nothing
    else Summary(currentUser.Some? && paymentIntentData.Some?)
  }
}

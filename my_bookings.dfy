/** `GET /api/my-bookings`: the hotels in which the caller holds a booking, each
    reduced to the caller's own bookings. */
module MyBookings {
  import opened HotelTypes

  predicate BookedBy(h: Hotel, callerId: string)
  {
    exists k :: 0 <= k < |h.bookings| && h.bookings[k].userId == callerId
  }

  /** `Hotel.find({bookings: {$elemMatch: {userId}}})`: the hotels holding a
      booking of the caller, in stored order. */
  function BookedHotels(hotels: seq<Hotel>, callerId: string): (r: seq<Hotel>)
    ensures |r| <= |hotels|
    ensures forall h :: h in r <==> h in hotels && BookedBy(h, callerId)
  {
    if hotels == [] then []
    else (if BookedBy(hotels[0], callerId) then [hotels[0]] else []) + BookedHotels(hotels[1..], callerId)
  }

  /** The selection keeps stored order: the booked hotels of `a + b` are those
      of `a` followed by those of `b`. */
  lemma {:induction false} BookedHotelsConcat(a: seq<Hotel>, b: seq<Hotel>, callerId: string)
    ensures BookedHotels(a + b, callerId) == BookedHotels(a, callerId) + BookedHotels(b, callerId)
  {
    if a == [] {
      assert a + b == b;
    } else {
      assert (a + b)[0] == a[0] && (a + b)[1..] == a[1..] + b;
      BookedHotelsConcat(a[1..], b, callerId);
    }
  }

  /** Each stored copy of a booked hotel is selected once, and nothing else. */
  lemma {:induction false} BookedHotelsCounts(hotels: seq<Hotel>, callerId: string)
    ensures forall h :: multiset(BookedHotels(hotels, callerId))[h]
                        == if BookedBy(h, callerId) then multiset(hotels)[h] else 0
  {
    if hotels != [] {
      BookedHotelsCounts(hotels[1..], callerId);
      assert hotels == [hotels[0]] + hotels[1..];
      var head := if BookedBy(hotels[0], callerId) then [hotels[0]] else [];
      assert BookedHotels(hotels, callerId) == head + BookedHotels(hotels[1..], callerId);
    }
  }

  /** With unique hotel ids the selection lists each hotel once. */
  lemma {:induction false} BookedHotelsUnique(hotels: seq<Hotel>, callerId: string)
    requires UniqueIds(hotels)
    ensures UniqueIds(BookedHotels(hotels, callerId))
  {
    if hotels != [] {
      var tail := hotels[1..];
      assert UniqueIds(tail) by {
        forall i, j | 0 <= i < j < |tail|
          ensures tail[i].id != tail[j].id
        {
          assert tail[i] == hotels[i + 1] && tail[j] == hotels[j + 1];
        }
      }
      BookedHotelsUnique(tail, callerId);
      var rest := BookedHotels(tail, callerId);
      forall k | 0 <= k < |rest|
        ensures rest[k].id != hotels[0].id
      {
        assert rest[k] in tail;
        var m :| 0 <= m < |tail| && tail[m] == rest[k];
        assert tail[m] == hotels[m + 1];
      }
      var r := BookedHotels(hotels, callerId);
      if BookedBy(hotels[0], callerId) {
        assert r == [hotels[0]] + rest;
        forall i, j | 0 <= i < j < |r|
          ensures r[i].id != r[j].id
        {
          assert r[j] == rest[j - 1];
          if i > 0 {
            assert r[i] == rest[i - 1];
          }
        }
      } else {
        assert r == rest;
      }
    }
  }

  /** `hotel.bookings.filter(b => b.userId === req.userId)`. */
  function CallerBookings(bookings: seq<Booking>, callerId: string): (r: seq<Booking>)
    ensures |r| <= |bookings|
    ensures forall b :: b in r <==> b in bookings && b.userId == callerId
  {
    if bookings == [] then []
    else (if bookings[0].userId == callerId then [bookings[0]] else []) + CallerBookings(bookings[1..], callerId)
  }

  /** The filter keeps the original order: filtering two runs of bookings one
      after the other is filtering each. */
  lemma {:induction false} CallerBookingsConcat(a: seq<Booking>, b: seq<Booking>, callerId: string)
    ensures CallerBookings(a + b, callerId) == CallerBookings(a, callerId) + CallerBookings(b, callerId)
  {
    if a == [] {
      assert a + b == b;
    } else {
      assert (a + b)[1..] == a[1..] + b;
      CallerBookingsConcat(a[1..], b, callerId);
    }
  }

  /** A list of only the caller's bookings passes through whole. */
  lemma {:induction false} CallerBookingsAllOwn(bookings: seq<Booking>, callerId: string)
    requires forall k :: 0 <= k < |bookings| ==> bookings[k].userId == callerId
    ensures CallerBookings(bookings, callerId) == bookings
  {
    if bookings != [] {
      CallerBookingsAllOwn(bookings[1..], callerId);
    }
  }

  /** The handler's reply: one entry per selected hotel, in selection order,
      each the stored hotel with its bookings replaced by the caller's. */
  function MyBookings(hotels: seq<Hotel>, callerId: string): (r: seq<Hotel>)
    ensures |r| == |BookedHotels(hotels, callerId)|
    ensures forall i :: 0 <= i < |r| ==>
              var h := BookedHotels(hotels, callerId)[i];
              r[i] == h.(bookings := CallerBookings(h.bookings, callerId))
  {
    var selected := BookedHotels(hotels, callerId);
    seq(|selected|, i requires 0 <= i < |selected| =>
      selected[i].(bookings := CallerBookings(selected[i].bookings, callerId)))
  }

  /** Every entry of the reply comes from a stored hotel the caller booked:
      its other fields are unchanged, its bookings are exactly the caller's
      bookings of that hotel, and there is at least one of them. */
  lemma ReplyEntries(hotels: seq<Hotel>, callerId: string, i: nat)
    requires i < |MyBookings(hotels, callerId)|
    ensures var e := MyBookings(hotels, callerId)[i];
      && e.bookings != []
      && (forall k :: 0 <= k < |e.bookings| ==> e.bookings[k].userId == callerId)
      && exists h :: h in hotels && BookedBy(h, callerId) && e == h.(bookings := CallerBookings(h.bookings, callerId))
  {
    var h := BookedHotels(hotels, callerId)[i];
    assert h in BookedHotels(hotels, callerId);
    var k :| 0 <= k < |h.bookings| && h.bookings[k].userId == callerId;
    assert h.bookings[k] in CallerBookings(h.bookings, callerId);
    var e := MyBookings(hotels, callerId)[i];
    assert forall k :: 0 <= k < |e.bookings| ==> e.bookings[k] in CallerBookings(h.bookings, callerId);
  }

  /** With unique hotel ids, the reply lists each hotel once. */
  lemma ReplyListsHotelOnce(hotels: seq<Hotel>, callerId: string)
    requires UniqueIds(hotels)
    ensures UniqueIds(MyBookings(hotels, callerId))
  {
    BookedHotelsUnique(hotels, callerId);
    var selected := BookedHotels(hotels, callerId);
    var reply := MyBookings(hotels, callerId);
    assert forall i :: 0 <= i < |reply| ==> reply[i].id == selected[i].id;
  }

  /** With unique hotel ids, a stored hotel appears in the reply exactly when
      the caller holds one of its bookings. */
  lemma HotelListedIffBooked(hotels: seq<Hotel>, callerId: string, n: nat)
    requires UniqueIds(hotels) && n < |hotels|
    ensures (exists e :: e in MyBookings(hotels, callerId) && e.id == hotels[n].id) <==> BookedBy(hotels[n], callerId)
  {
    var h := hotels[n];
    var reply := MyBookings(hotels, callerId);
    if BookedBy(h, callerId) {
      var selected := BookedHotels(hotels, callerId);
      assert h in selected;
      var j :| 0 <= j < |selected| && selected[j] == h;
      assert reply[j].id == h.id;
    }
    if e :| e in reply && e.id == h.id {
      var j :| 0 <= j < |reply| && reply[j] == e;
      ReplyEntries(hotels, callerId, j);
      var g :| g in hotels && BookedBy(g, callerId) && e == g.(bookings := CallerBookings(g.bookings, callerId));
      var m :| 0 <= m < |hotels| && hotels[m] == g;
      assert m == n;
    }
  }
}

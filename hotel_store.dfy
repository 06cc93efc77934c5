/** The hotel collection as the handlers that change it see it: confirming a
    booking pushes onto one hotel's bookings, creating a hotel saves a new
    document, and updating a hotel merges the form into the owner's document
    and then replaces its image URLs. */
module HotelStore {
  import opened Base
  import opened HotelTypes
  import opened Bookings
  import opened MyHotels

  class HotelCollection {
    /** The documents in natural (insertion) order. */
    var hotels: seq<Hotel>

    ghost predicate Valid()
      reads this
    {
      UniqueIds(hotels)
    }

    constructor (initial: seq<Hotel>)
      requires UniqueIds(initial)
      ensures Valid() && hotels == initial
    {
      hotels := initial;
    }

    /** `POST /api/hotels/:hotelId/bookings`. The intent checks run first and in
        order; the booking is then pushed onto the hotel with the route's id
        (no owner filter). Every rejection is a 400 that leaves the collection
        as it was. */
    method ConfirmBooking(hotelId: string, callerId: string, intent: Option<RetrievedIntent>,
                          body: BookingBody, bookingId: string) returns (r: Result<()>)
      requires Valid()
      modifies this
      ensures Valid()
      ensures CheckIntent(intent, hotelId, callerId).Err? ==> r == CheckIntent(intent, hotelId, callerId)
      ensures CheckIntent(intent, hotelId, callerId).Ok? && Find(old(hotels), hotelId, None).None?
              ==> r == Err(400, "hotel not found")
      ensures r.Ok? <==> CheckIntent(intent, hotelId, callerId).Ok? && Find(old(hotels), hotelId, None).Some?
      ensures r.Err? ==> r.status == 400 && hotels == old(hotels)
      ensures r.Ok? ==> hotels == PushBooking(old(hotels), Find(old(hotels), hotelId, None).value,
                                              NewBooking(body, callerId, bookingId))
    {
      var check := CheckIntent(intent, hotelId, callerId);
      if check.Err? {
        return Err(check.status, check.message);
      }
      var newBooking := NewBooking(body, callerId, bookingId);
      var found := Find(hotels, hotelId, None);
      if found.None? {
        return Err(400, "hotel not found");
      }
      var i := found.value;
      hotels := PushBooking(hotels, i, newBooking);
      r := Ok(());
    }

    /** `POST /api/my-hotels`. The upload middleware rejects more than six files
        or a file over 5 MB before the handler runs; a failed upload is a 500;
        otherwise the new document is saved at the end of the collection. The
        field validators' outcome plays no part: a body that fails them is
        saved all the same. `newId` is the id the database assigns. */
    method CreateHotel(callerId: string, fields: HotelFields, files: seq<ImageFile>,
                       upload: ImageFile -> Option<string>, newId: string, now: int) returns (r: Result<Hotel>)
      requires Valid()
      requires forall i :: 0 <= i < |hotels| ==> hotels[i].id != newId
      modifies this
      ensures Valid()
      ensures r.Ok? <==> LimitError(files, Some(MaxCreateFiles)).None? && UploadImages(files, upload).Some?
      ensures LimitError(files, Some(MaxCreateFiles)).Some?
              ==> r == Err(500, LimitError(files, Some(MaxCreateFiles)).value)
      ensures LimitError(files, Some(MaxCreateFiles)).None? && UploadImages(files, upload).None?
              ==> r == Err(500, "Something went wrong")
      ensures r.Err? ==> hotels == old(hotels)
      ensures r.Ok? ==> r.value == NewHotel(fields, callerId, newId, UploadImages(files, upload).value, now)
                        && hotels == old(hotels) + [r.value]
    {
      var limit := LimitError(files, Some(MaxCreateFiles));
      if limit.Some? {
        return Err(500, limit.value);
      }
      var imageUrls := UploadImages(files, upload);
      if imageUrls.None? {
        return Err(500, "Something went wrong");
      }
      var newHotel := NewHotel(fields, "", newId, [], 0);
      newHotel := newHotel.(imageUrls := imageUrls.value);
      newHotel := newHotel.(lastUpdated := now);
      newHotel := newHotel.(userId := callerId);
      hotels := hotels + [newHotel];
      r := Ok(newHotel);
    }

    /** `PUT /api/my-hotels/:hotelId`. Only the size limit applies to the files.
        The caller's hotel with that id gets the form's fields first; then the
        new files are uploaded and the image URLs become the uploaded URLs
        followed by the retained ones. A failed upload is a 500 after the
        field update has already been stored. */
    method UpdateHotel(callerId: string, hotelId: string, fields: HotelFields, retained: Option<seq<string>>,
                       files: seq<ImageFile>, upload: ImageFile -> Option<string>, now: int)
      returns (r: Result<Hotel>)
      requires Valid()
      modifies this
      ensures Valid()
      ensures LimitError(files, None).Some? ==> r == Err(500, LimitError(files, None).value) && hotels == old(hotels)
      ensures LimitError(files, None).None? && Find(old(hotels), hotelId, Some(callerId)).None?
              ==> r == Err(404, "Hotel not found") && hotels == old(hotels)
      ensures r.Ok? <==> LimitError(files, None).None? && Find(old(hotels), hotelId, Some(callerId)).Some?
                         && UploadImages(files, upload).Some?
      ensures LimitError(files, None).None? && Find(old(hotels), hotelId, Some(callerId)).Some?
              ==> var i := Find(old(hotels), hotelId, Some(callerId)).value;
                  var merged := ApplyUpdate(old(hotels)[i], fields, retained, now);
                  if UploadImages(files, upload).None? then
                    r == Err(500, "Something went throw") && hotels == old(hotels)[i := merged]
                  else
                    r == Ok(merged.(imageUrls := UploadImages(files, upload).value + OrEmpty(retained)))
                    && hotels == old(hotels)[i := r.value]
    {
      var limit := LimitError(files, None);
      if limit.Some? {
        return Err(500, limit.value);
      }
      var found := Find(hotels, hotelId, Some(callerId));
      if found.None? {
        return Err(404, "Hotel not found");
      }
      var i := found.value;
      var hotel := ApplyUpdate(hotels[i], fields, retained, now);
      hotels := hotels[i := hotel];
      var updatedImageUrls := UploadImages(files, upload);
      if updatedImageUrls.None? {
        return Err(500, "Something went throw");
      }
      hotel := hotel.(imageUrls := updatedImageUrls.value + OrEmpty(retained));
      hotels := hotels[i := hotel];
      r := Ok(hotel);
    }
  }
}

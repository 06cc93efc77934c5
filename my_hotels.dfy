/** `/api/my-hotels`: the owner-scoped view of the hotel collection, the file
    limits the upload middleware enforces, the image upload, and the hotel
    records that creation and update produce. The stateful handlers that use
    these are methods of `HotelStore.HotelCollection`. */
module MyHotels {
  import opened Base
  import opened HotelTypes

  /** The upload middleware's size limit per file: 5 MB. */
  const MaxFileSize: nat := 5 * 1024 * 1024

  /** The file count `POST /` accepts; `PUT /:hotelId` sets none. */
  const MaxCreateFiles: nat := 6

  /** The upload middleware reads the files one after the other: the first file
      past the count limit fails with "Unexpected field", the first file over
      the size limit with "File too large". `None` when every file passes. */
  function LimitErrorFrom(files: seq<ImageFile>, maxCount: Option<nat>, i: nat): (r: Option<string>)
    requires i <= |files| && (maxCount.None? || i <= maxCount.value)
    ensures r.None? <==> (maxCount.None? || |files| <= maxCount.value)
                         && forall j :: i <= j < |files| ==> files[j].size <= MaxFileSize
    ensures r == None || r == Some("Unexpected field") || r == Some("File too large")
    ensures r == Some("Unexpected field") <==>
              maxCount.Some? && |files| > maxCount.value
              && forall j :: i <= j < maxCount.value ==> files[j].size <= MaxFileSize
    ensures r == Some("File too large") <==>
              exists j :: i <= j < |files| && (maxCount.None? || j < maxCount.value) && files[j].size > MaxFileSize
    decreases |files| - i
  {
    if i == |files| then None
    else if maxCount.Some? && i >= maxCount.value then Some("Unexpected field")
    else if files[i].size > MaxFileSize then Some("File too large")
    else LimitErrorFrom(files, maxCount, i + 1)
  }

  function LimitError(files: seq<ImageFile>, maxCount: Option<nat>): (r: Option<string>)
    ensures r.None? <==> (maxCount.None? || |files| <= maxCount.value)
                         && forall j :: 0 <= j < |files| ==> files[j].size <= MaxFileSize
    ensures r == Some("Unexpected field") <==>
              maxCount.Some? && |files| > maxCount.value
              && forall j :: 0 <= j < maxCount.value ==> files[j].size <= MaxFileSize
    ensures r == Some("File too large") <==>
              exists j :: 0 <= j < |files| && (maxCount.None? || j < maxCount.value) && files[j].size > MaxFileSize
  {
    LimitErrorFrom(files, maxCount, 0)
  }

  /** Create accepts at most six files; update accepts any number, so only the
      size limit can reject it. */
  lemma FileLimits(files: seq<ImageFile>)
    requires forall j :: 0 <= j < |files| ==> files[j].size <= MaxFileSize
    ensures LimitError(files, Some(MaxCreateFiles)).None? <==> |files| <= 6
    ensures LimitError(files, None).None?
  {
  }

  /** `uploadImages`: every file is uploaded and the URLs come back in the
      order of the files; one failed upload fails the whole batch. */
  function UploadImages(files: seq<ImageFile>, upload: ImageFile -> Option<string>): (r: Option<seq<string>>)
    ensures r.None? <==> exists i :: 0 <= i < |files| && upload(files[i]).None?
    ensures r.Some? ==> |r.value| == |files|
                        && forall i :: 0 <= i < |files| ==> upload(files[i]) == Some(r.value[i])
  {
    if files == [] then Some([])
    else
      match upload(files[0])
      case None => None
      case Some(url) =>
        match UploadImages(files[1..], upload)
        case None =>
          assert exists i :: 0 <= i < |files| && upload(files[i]).None? by {
            var k :| 0 <= k < |files[1..]| && upload(files[1..][k]).None?;
            assert files[k + 1] == files[1..][k];
          }
          None
        case Some(rest) =>
          assert forall i :: 1 <= i < |files| ==> files[i] == files[1..][i - 1];
          Some([url] + rest)
  }

  /** The request-body validators of `POST /`: one message per missing field.
      The handler never reads their outcome. */
  function ValidationErrors(body: HotelFields): (errors: seq<string>)
    ensures errors == [] <==> body.name != "" && body.city != "" && body.country != ""
                              && body.description != "" && body.hotelType != "" && body.facilities != []
    ensures body.name == "" ==> errors[0] == "Name is required"
  {
    (if body.name == "" then ["Name is required"] else [])
    + (if body.city == "" then ["City is required"] else [])
    + (if body.country == "" then ["Country is required"] else [])
    + (if body.description == "" then ["Description is required"] else [])
    + (if body.hotelType == "" then ["Hotel type is required"] else [])
    + (if body.facilities == [] then ["Facilities are required"] else [])
  }

  /** The editable part of a stored hotel. */
  function FieldsOf(h: Hotel): HotelFields
  {
    HotelFields(h.name, h.city, h.country, h.description, h.hotelType, h.pricePerNight,
                h.starRating, h.adultCount, h.childCount, h.facilities)
  }

  /** The document `POST /` saves: the body's fields, the uploaded URLs in file
      order, the time of the request and the authenticated caller as owner,
      under the id the database assigns, with no bookings. */
  function NewHotel(fields: HotelFields, callerId: string, id: string, imageUrls: seq<string>, now: int): (h: Hotel)
    ensures FieldsOf(h) == fields
    ensures h.id == id && h.userId == callerId && h.imageUrls == imageUrls && h.lastUpdated == now
    ensures h.bookings == []
  {
    Hotel(id, callerId, fields.name, fields.city, fields.country, fields.description, fields.hotelType,
          fields.adultCount, fields.childCount, fields.facilities, fields.pricePerNight, fields.starRating,
          imageUrls, now, [])
  }

  /** The merge `findOneAndUpdate` performs with the update body: a key the
      body carries replaces the stored field, a key it lacks leaves it. The
      form always sends the nine scalars and the time, but sends no
      `facilities` key for an empty list and no `imageUrls` key unless URLs are
      retained; so those two lists are replaced only when the body carries
      them. Identity, owner and bookings are kept. */
  function ApplyUpdate(h: Hotel, fields: HotelFields, retained: Option<seq<string>>, now: int): (r: Hotel)
    ensures r.facilities == (if fields.facilities == [] then h.facilities else fields.facilities)
    ensures FieldsOf(r) == fields.(facilities := r.facilities) && r.lastUpdated == now
    ensures r.id == h.id && r.userId == h.userId && r.bookings == h.bookings
    ensures r.imageUrls == (if retained.Some? then retained.value else h.imageUrls)
  {
    var facilities := if fields.facilities == [] then h.facilities else fields.facilities;
    var merged := NewHotel(fields.(facilities := facilities), h.userId, h.id, OrEmpty(retained), now)
                  .(bookings := h.bookings);
    if retained.Some? then merged else merged.(imageUrls := h.imageUrls)
  }

  /** `GET /`: exactly the caller's hotels, in stored order. */
  function OwnedHotels(hotels: seq<Hotel>, callerId: string): (r: seq<Hotel>)
    ensures |r| <= |hotels|
    ensures forall h :: h in r <==> h in hotels && h.userId == callerId
  {
    if hotels == [] then []
    else (if hotels[0].userId == callerId then [hotels[0]] else []) + OwnedHotels(hotels[1..], callerId)
  }

  /** Listing after adding a hotel: the new hotel is listed for its owner only,
      after that owner's earlier hotels. */
  lemma {:induction false} OwnedHotelsAppend(hotels: seq<Hotel>, h: Hotel, callerId: string)
    ensures OwnedHotels(hotels + [h], callerId)
            == OwnedHotels(hotels, callerId) + (if h.userId == callerId then [h] else [])
  {
    if hotels == [] {
      assert [h][1..] == [];
    } else {
      var all := hotels + [h];
      assert all[0] == hotels[0] && all[1..] == hotels[1..] + [h];
      OwnedHotelsAppend(hotels[1..], h, callerId);
      var first := if hotels[0].userId == callerId then [hotels[0]] else [];
      assert OwnedHotels(all, callerId) == first + OwnedHotels(all[1..], callerId);
      assert OwnedHotels(hotels, callerId) == first + OwnedHotels(hotels[1..], callerId);
    }
  }

  /** `GET /:id`: a hotel only when both its id and its owner match; the empty
      reply otherwise. */
  function OwnedHotel(hotels: seq<Hotel>, callerId: string, id: string): (r: Option<Hotel>)
    ensures r.Some? <==> exists i :: 0 <= i < |hotels| && hotels[i].id == id && hotels[i].userId == callerId
    ensures r.Some? ==> r.value in OwnedHotels(hotels, callerId) && r.value.id == id
  {
    match Find(hotels, id, Some(callerId))
    case None => None
    case Some(i) =>
      assert Selects(hotels[i], id, Some(callerId));
      Some(hotels[i])
  }
}

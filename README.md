# Hotel booking: search, payment and hotel management, modelled in Dafny

This project models the decision logic of a hotel booking web application.
It has an Express/MongoDB backend and a React frontend. The model covers
these parts:

- **Hotel search** (`GET /api/hotels/search`): the filter built from the loosely
  typed query values (absent, one string, or a list of strings), stated twice.
  First as the clause record the handler constructs. Second as its meaning, a
  predicate over hotel records. Then the sort-option switch and the page window
  of five with its pagination summary.
- **Payment and booking**: the charge computed for a payment intent, and the
  ordered checks on the retrieved intent. On success the booking is pushed
  onto the hotel. The hotel collection is a class whose methods change it.
- **My bookings**: the hotels the caller has booked, each reduced to the
  caller's own bookings.
- **My hotels**:
  - create, list, get-by-id and update, each scoped by id and owner;
  - the upload middleware's limits on file count and size;
  - the order of the image upload, and the image-URL merge on update.
- **Frontend**:
  - the query string `searchHotels` sends, read back as the server parses it;
  - the multipart body of the hotel form;
  - the image-count rule and image delete;
  - the filter checkboxes, initial state and pagination fallback of the search page;
  - the search context and its session storage;
  - the nights count, the payment-intent enable condition and the view of the
    booking page.

Files and modules:

- `base.dfy` (`Base`): `Option`, `Result`.
- `numbers.dfy` (`Numbers`): JavaScript `parseInt`, number-to-string and `Math.ceil` of a division.
- `lists.dfy` (`Lists`): `filter(x => x !== v)`.
- `types.dfy` (`HotelTypes`): the hotel and booking records, and lookup by id and owner.
- `search_query.dfy` (`SearchQuery`): `constructSearchQuery` and the meaning of its result.
- `hotel_search.dfy` (`HotelSearch`): sort, paging and the `/search` handler.
- `bookings.dfy` (`Bookings`): the payment intent and the booking record.
- `my_hotels.dfy` (`MyHotels`): upload limits, `uploadImages`, and the owner-scoped records.
- `hotel_store.dfy` (`HotelStore`): the class over the collection: confirm a booking, create and update a hotel.
- `my_bookings.dfy` (`MyBookings`): the my-bookings projection.
- `api_client.dfy` (`ApiClient`): `searchHotels`.
- `hotel_form.dfy` (`HotelForm`): `onSubmit` and the images section.
- `search_page.dfy` (`SearchPage`): the search page.
- `search_context.dfy` (`SearchContext`): the provider and `sessionStorage`.
- `booking_page.dfy` (`BookingPage`): the booking page.

JavaScript numbers appear as `Number = Num(int) | NaN`. Dates are instants in
integer milliseconds. The database is an in-memory sequence of hotel
documents in insertion order. Ids are unique, as the database makes them.
These parts of the system are inputs:

- the payment provider: a function that creates an intent, and the optional
  intent it returns on retrieval;
- the image host: a function from a file to an optional URL;
- the caller's id, the clock and the id the database assigns;
- the server, on the client side.

Where the database would reject a filter the code builds, the model states
that rejection as the error the handler's `catch` sends (500). This covers a
NaN threshold, a `maxPrice` of `"NaN"`, and a page number that is NaN or
below 1. The code does not clamp a page below 1 to page 1, so neither does
the model.

## Model

| member | source | states |
|---|---|---|
| Numbers.ParseIntToString | backend/src/routes/hotels.ts:36-39 | `parseInt` of an integer's decimal rendering gives back that integer |
| Numbers.ParseNumberToString | backend/src/routes/hotels.ts:253 | `parseInt(x.toString())` gives back `x` for every number, NaN included |
| Numbers.CeilDiv | backend/src/routes/hotels.ts:57 | `Math.ceil(a / b)` is the least count of size-`b` blocks covering `a`, and zero exactly when `a` is |
| HotelTypes.Find | backend/src/routes/hotels.ts:111 | the position found selects the id (and the owner, when given); none is found exactly when no document selects |
| SearchQuery.ConstructSearchQuery | backend/src/routes/hotels.ts:200-257 | starting from the empty filter, one clause is set per truthy parameter, with the operand shapes of the source |
| SearchQuery.QueryMeaning | backend/src/routes/hotels.ts:200-257 | the filter is well formed exactly when the numeric parameters parse; a hotel then matches exactly when the parameters admit it (destination substring on city or country, ignoring case; count thresholds; all facilities; type among the types; star among the stars; price at most maxPrice) |
| SearchQuery.StarsMeaning | backend/src/routes/hotels.ts:241-247 | a list of stars is parsed element by element, a single star gives a bare number; both admit a rating exactly when one of the values parses to it |
| SearchQuery.PriceMeaning | backend/src/routes/hotels.ts:250-255 | the `$lte` operand is the decimal string of `parseInt(maxPrice)` and admits exactly the prices at most that number |
| SearchQuery.EmptyParamsMatchAll | backend/src/routes/hotels.ts:200-208 | absent or empty-string parameters add no clause: the filter is the match-all filter |
| SearchQuery.FacilitiesAreSuperset | backend/src/routes/hotels.ts:222-229 | a lone facility is wrapped in a list; the filter admits a hotel exactly when it has every requested facility |
| SearchQuery.ParseAll | backend/src/routes/hotels.ts:244 | each star is parsed, in order |
| SearchQuery.ValuesOf | frontend/src/api-client.ts:186 | the values a key carries in a query string are no more than its pairs; how they combine over the request's pairs is stated by `ApiClient.ValuesOfConcat`, `ApiClient.ValuesOfListPairs` and `ApiClient.ValuesOfDistinct` |
| HotelSearch.ChooseSort | backend/src/routes/hotels.ts:22-33 | each of the three literal options chooses its order, and anything else chooses none |
| HotelSearch.SortHotels | backend/src/routes/hotels.ts:46 | the result is ordered by the option's key and is a permutation of the matches; no option leaves the order as stored |
| HotelSearch.Insert | backend/src/routes/hotels.ts:46 | inserting into a sorted list keeps it sorted and one longer |
| HotelSearch.InsertPermutes | backend/src/routes/hotels.ts:46 | inserting adds exactly the new record and loses none |
| HotelSearch.MatchingHotels | backend/src/routes/hotels.ts:45-50 | exactly the stored hotels that match the filter |
| HotelSearch.MatchingCounts | backend/src/routes/hotels.ts:45-50 | each stored copy of a matching hotel is found once and nothing else is, so the reported total is the number of stored matches |
| HotelSearch.MatchingHotelsConcat | backend/src/routes/hotels.ts:45-50 | the matches keep stored order: those of `a + b` are those of `a` followed by those of `b` |
| HotelSearch.PageNumberOf | backend/src/routes/hotels.ts:36-39 | a missing or empty page reads as page 1; a single page string is parsed as sent |
| HotelSearch.PageWindow | backend/src/routes/hotels.ts:41-48 | the at most five records from position `skip` on, in order; none when `skip` is past the end |
| HotelSearch.PageWindowShape | backend/src/routes/hotels.ts:41-48 | a page is the at most five consecutive records after `(page-1)*5`; it is full before the last page, non-empty up to it, and empty past it |
| HotelSearch.FirstPagesPrefix | backend/src/routes/hotels.ts:41-48 | the first `k` pages together are the first `5k` records |
| HotelSearch.PagesPartition | backend/src/routes/hotels.ts:50-57 | pages 1 to `ceil(total/5)` of one fixed order, laid end to end, are that order: each record on exactly one page |
| HotelSearch.SearchedHotelAdmitted | backend/src/routes/hotels.ts:20-48 | every hotel on any page is stored and admitted by the parameters, whatever the sort |
| HotelSearch.Search | backend/src/routes/hotels.ts:13-66 | an answer exactly when the filter and page are usable; total counts all matches, pages is `ceil(total/5)`, data is the page's window of the sorted matches; otherwise 500 "Something went wrong" |
| Bookings.ChargeFor | backend/src/routes/hotels.ts:107-128 | a missing hotel is 400 "Hotel not found" and no charge; otherwise the stored price times the nights, in cents, in "usd", tagged with the route's hotel and the caller |
| Bookings.CreatePaymentIntent | backend/src/routes/hotels.ts:102-143 | a missing hotel is 400; once the charge is created, a missing or empty client secret is 500 "Error creating payment intent", and otherwise the reply carries the created intent's id and secret and the charged amount in dollars |
| Bookings.ChargeUsesStoredPrice | backend/src/routes/hotels.ts:111-140 | for a stored hotel the charge and the echoed total are its price times the nights, whatever the client sends |
| Bookings.CheckIntent | backend/src/routes/hotels.ts:157-172 | a booking passes exactly when the intent exists, names the route's hotel and the caller, and succeeded; failures are 400, the missing intent and the mismatch with their own messages, in that order |
| Bookings.NewBooking | backend/src/routes/hotels.ts:174-177 | the booking carries every body field, the client's total cost included, with the user replaced by the caller |
| Bookings.RecordedCostIsClaimed | backend/src/routes/hotels.ts:174-177 | the recorded cost is whatever the client claims, while a user id in the body has no effect |
| Bookings.PushBooking | backend/src/routes/hotels.ts:179-184 | the target hotel gains exactly the booking at the end of its bookings; every other hotel and field is unchanged; the booking count grows by one |
| Bookings.TotalBookingsUpdate | backend/src/routes/hotels.ts:179-184 | replacing one hotel changes the booking count by that hotel's difference |
| HotelStore.HotelCollection.ConfirmBooking | backend/src/routes/hotels.ts:146-191 | the intent checks run first and in order; a missing hotel is 400 "hotel not found"; every rejection leaves the collection unchanged; success pushes exactly one booking onto the route's hotel |
| HotelStore.HotelCollection.CreateHotel | backend/src/routes/my-hotels.ts:44-70 | more than six files or a file over 5 MB fails with the middleware's message; a failed upload is 500; otherwise the new hotel (caller as owner, upload URLs in file order, time of request) is appended; the validators play no part |
| HotelStore.HotelCollection.UpdateHotel | backend/src/routes/my-hotels.ts:100-143 | only the size limit applies; no hotel with that id and owner is 404 and no change; the fields are stored before the upload, merged as `MyHotels.ApplyUpdate` states (an empty facilities list keeps the stored one), so a failed upload is 500 with them applied; success sets the URLs to the uploaded ones followed by the retained ones |
| HotelStore.HotelCollection.constructor | backend/src/shared/types.ts:13-42 | a collection over documents with unique ids |
| MyHotels.LimitError | backend/src/routes/my-hotels.ts:15-20 | no error exactly when the count is within the limit (if any) and every file is at most 5 MB; otherwise the message of the first failing file, as for `MyHotels.LimitErrorFrom` from the first file |
| MyHotels.LimitErrorFrom | backend/src/routes/my-hotels.ts:15-20 | files are checked in order: "Unexpected field" exactly when there are more files than the count and every file before the count is within 5 MB; "File too large" exactly when some file before the count (or any file, without one) is over 5 MB |
| MyHotels.FileLimits | backend/src/routes/my-hotels.ts:44-104 | create accepts at most six files; update accepts any number |
| MyHotels.UploadImages | backend/src/routes/my-hotels.ts:145-157 | the URLs come back one per file in file order; one failed upload fails the batch |
| MyHotels.ValidationErrors | backend/src/routes/my-hotels.ts:29-43 | no message exactly when name, city, country, description, type and facilities are present; the handler never reads the result, and the validators run before the upload middleware parses the multipart body, so they do not decide any outcome of `HotelStore.HotelCollection.CreateHotel` |
| MyHotels.NewHotel | backend/src/routes/my-hotels.ts:54-58 | the saved document has the form's fields, the caller as owner, the upload URLs, the request time and no bookings |
| MyHotels.ApplyUpdate | backend/src/routes/my-hotels.ts:108-122 | for a body carrying the form's fields: the nine scalars and the time replace the stored ones; the facilities only when the list is non-empty (an empty list sends no key, so the stored list is kept); the URLs only when the body carries them; id, owner and bookings are kept |
| MyHotels.OwnedHotels | backend/src/routes/my-hotels.ts:76 | exactly the caller's hotels |
| MyHotels.OwnedHotelsAppend | backend/src/routes/my-hotels.ts:61-76 | a created hotel is listed for its owner only, after that owner's earlier hotels |
| MyHotels.OwnedHotel | backend/src/routes/my-hotels.ts:84-98 | a hotel exactly when one has both the id and the caller as owner, and it is one of the caller's hotels |
| MyBookings.BookedHotels | backend/src/routes/my-bookings.ts:12-14 | exactly the hotels holding a booking of the caller |
| MyBookings.BookedHotelsConcat | backend/src/routes/my-bookings.ts:12-14 | the selection keeps stored order: the booked hotels of `a + b` are those of `a` followed by those of `b` |
| MyBookings.BookedHotelsCounts | backend/src/routes/my-bookings.ts:12-14 | each stored copy of a booked hotel is selected once, and nothing else is |
| MyBookings.BookedHotelsUnique | backend/src/routes/my-bookings.ts:12-14 | with unique hotel ids the selection lists each hotel once |
| MyBookings.CallerBookings | backend/src/routes/my-bookings.ts:18-20 | exactly the caller's bookings |
| MyBookings.CallerBookingsConcat | backend/src/routes/my-bookings.ts:18-20 | the filter keeps the original order |
| MyBookings.CallerBookingsAllOwn | backend/src/routes/my-bookings.ts:18-20 | a list of only the caller's bookings passes whole |
| MyBookings.MyBookings | backend/src/routes/my-bookings.ts:16-29 | one entry per selected hotel in selection order, each the hotel with its bookings replaced by the caller's |
| MyBookings.ReplyEntries | backend/src/routes/my-bookings.ts:12-26 | every entry comes from a booked stored hotel, keeps its other fields, and has only and at least one of the caller's bookings |
| MyBookings.ReplyListsHotelOnce | backend/src/routes/my-bookings.ts:12-33 | with unique hotel ids the reply lists each hotel once |
| MyBookings.HotelListedIffBooked | backend/src/routes/my-bookings.ts:12-14 | a stored hotel is in the reply exactly when one of its bookings is the caller's |
| ApiClient.BuildQuery | frontend/src/api-client.ts:167-184 | the pairs appended are the eight scalars in fixed order (missing as empty), then one pair per facility, type and star in list order |
| ApiClient.AppendEach | frontend/src/api-client.ts:179-184 | one pair per element, in list order; none for an absent list |
| ApiClient.OrBlank | frontend/src/api-client.ts:168-176 | a missing value is sent as the empty string; that each scalar then reaches the server once, as sent, is `ApiClient.ScalarSent` and `ApiClient.ServerReads` |
| ApiClient.ListPairs | frontend/src/api-client.ts:179-184 | one pair per element under the key, in order |
| ApiClient.ServerReads | frontend/src/api-client.ts:167-188 | the server reads each scalar once as sent, and each list as absent, a lone string or a list by its length |
| ApiClient.ScalarSent | frontend/src/api-client.ts:168-176 | each scalar key reaches the server exactly once |
| ApiClient.ListSent | frontend/src/api-client.ts:179-184 | each list reaches the server as its repeated key |
| ApiClient.ValuesSent | frontend/src/api-client.ts:167-184 | a key's values are its scalar's followed by its list's |
| ApiClient.ValuesOfConcat | frontend/src/api-client.ts:167-184 | a key's values in two runs of pairs are the values of each run |
| ApiClient.ValuesOfListPairs | frontend/src/api-client.ts:179-184 | a list's pairs carry its elements under its own key and nothing under others |
| ApiClient.ValuesOfDistinct | frontend/src/api-client.ts:168-176 | among pairs with distinct keys a key has one value or none |
| ApiClient.ListValue | backend/src/routes/hotels.ts:222-248 | a list sent as repeated keys arrives with no elements as absent, with one as a lone string and with several as a list: the shapes the handler's `Array.isArray` checks tell apart |
| ApiClient.SearchSent | frontend/src/api-client.ts:163-188 | the dates never affect the filter; an empty list adds no clause; one star becomes a bare number and several a list; a missing page reads as page 1 |
| ApiClient.SearchHotels | frontend/src/api-client.ts:163-197 | the data of an OK reply; any other reply is the error "Error fetching hotels" |
| HotelForm.OnSubmit | frontend/src/forms/ManageHotelForm/ManageHotelForm.tsx:43-82 | the body handed once to the save callback is exactly the entries below, in append order |
| HotelForm.AppendScalars | frontend/src/forms/ManageHotelForm/ManageHotelForm.tsx:51-59 | the nine scalar entries are appended in fixed order |
| HotelForm.AppendIndexed | frontend/src/forms/ManageHotelForm/ManageHotelForm.tsx:62-72 | one `key[i]` entry per element, in order |
| HotelForm.AppendFiles | frontend/src/forms/ManageHotelForm/ManageHotelForm.tsx:75-78 | one `imageFiles` entry per file, in order |
| HotelForm.ScalarEntries | frontend/src/forms/ManageHotelForm/ManageHotelForm.tsx:51-59 | nine scalar entries; their keys and order in the body are stated by `HotelForm.FormHead` |
| HotelForm.IndexedEntries | frontend/src/forms/ManageHotelForm/ManageHotelForm.tsx:62-72 | entry `i` is `key[i]` with the `i`-th element |
| HotelForm.FileEntries | frontend/src/forms/ManageHotelForm/ManageHotelForm.tsx:75-78 | entry `i` carries the `i`-th file |
| HotelForm.IndexedKeyInjective | frontend/src/forms/ManageHotelForm/ManageHotelForm.tsx:62-72 | distinct positions give distinct keys |
| HotelForm.FormEntries | frontend/src/forms/ManageHotelForm/ManageHotelForm.tsx:47-78 | one entry for the hotel id when editing, one per scalar, one per facility, one per stored URL and one per file |
| HotelForm.FormHead | frontend/src/forms/ManageHotelForm/ManageHotelForm.tsx:48-59 | `hotelId` leads exactly when editing, followed by the nine scalars in order |
| HotelForm.FormTail | frontend/src/forms/ManageHotelForm/ManageHotelForm.tsx:62-78 | after the scalars come the `facilities[i]` entries, then the `imageUrls[i]` entries (none when adding), then the `imageFiles` entries, each group exactly its entry list |
| HotelForm.ValidateImages | frontend/src/forms/ManageHotelForm/ImagesSection.tsx:59-72 | new files plus stored URLs (none when undefined): 0 and above 6 are rejected with their messages, 1 to 6 accepted |
| HotelForm.HandleDelete | frontend/src/forms/ManageHotelForm/ImagesSection.tsx:15-25 | every copy of the URL goes, the others stay with their counts; an absent URL changes nothing |
| HotelForm.HandleDeleteConcat | frontend/src/forms/ManageHotelForm/ImagesSection.tsx:23 | deleting from two runs of URLs deletes from each, so the URLs that stay keep their order |
| HotelForm.DeleteOnlyCopy | frontend/src/forms/ManageHotelForm/ImagesSection.tsx:23 | deleting a URL stored once removes it from its place and leaves the URLs before and after it as they were |
| Lists.WithoutConcat | frontend/src/forms/ManageHotelForm/ImagesSection.tsx:23 | `filter` distributes over concatenation |
| Lists.WithoutOnlyCopy | frontend/src/forms/ManageHotelForm/ImagesSection.tsx:23 | removing the one copy of a value closes the gap it leaves |
| Lists.WithoutMembers | frontend/src/forms/ManageHotelForm/ImagesSection.tsx:23 | a value survives exactly when it was there and is not the one removed |
| Lists.WithoutCounts | frontend/src/forms/ManageHotelForm/ImagesSection.tsx:23 | every other value keeps its count |
| HotelForm.AcceptedAddWithinServerLimit | frontend/src/forms/ManageHotelForm/ImagesSection.tsx:59-72 | a form the add page accepts, with files within the size limit, passes the server's upload limits |
| SearchPage.Toggle | frontend/src/pages/Search.tsx:46-77 | checking appends the value at the end; unchecking removes every copy and keeps the other counts |
| SearchPage.CheckThenUncheckRestores | frontend/src/pages/Search.tsx:50-54 | checking then unchecking an unselected value restores the selection |
| SearchPage.CheckDoesNotDeduplicate | frontend/src/pages/Search.tsx:50-54 | checking a selected value adds a second copy |
| SearchPage.SearchParamsOf | frontend/src/pages/Search.tsx:22-36 | the guest counts, page and price (present exactly when one is selected) are sent in decimal and read back as those numbers; the lists are the page's selections and the sort option is the page's |
| SearchPage.InitialSearch | frontend/src/pages/Search.tsx:14-36 | the first search asks for page 1, unsorted, with no facility, type, star or price clause |
| SearchPage.CountOfRendered | frontend/src/pages/Search.tsx:22-36 | a guest count sent in decimal becomes that threshold |
| SearchPage.ShownPagination | frontend/src/pages/Search.tsx:138-139 | no data shows page 1 of 1; a zero falls back to 1; otherwise the server's numbers |
| SearchContext.Restore | frontend/src/contexts/SearchContext.tsx:32-51 | destination and hotel id are the stored items (the hotel id read from "hotelID"), or empty; a missing or empty date is now; a missing or empty count is 1 |
| SearchContext.SavedItems | frontend/src/contexts/SearchContext.tsx:71-80 | the five search keys are written and the hotel id under "hotelId" only when a non-empty one is given; every other stored item is kept |
| SearchContext.ItemOr | frontend/src/contexts/SearchContext.tsx:33-50 | a missing or empty item gives the fallback |
| SearchContext.EmptyStorageDefaults | frontend/src/contexts/SearchContext.tsx:32-51 | with empty storage: no destination, now for both dates, one adult, one child, no hotel |
| SearchContext.NumberItemRestored | frontend/src/contexts/SearchContext.tsx:43-48 | a number stored in decimal is read back as that number |
| SearchContext.SavedSearchRestored | frontend/src/contexts/SearchContext.tsx:32-76 | a provider started after a save reads back the destination, dates and counts |
| SearchContext.SavedHotelIdNotRestored | frontend/src/contexts/SearchContext.tsx:49-80 | a saved hotel id is written under "hotelId" but read from "hotelID", so it is not restored |
| SearchContext.SearchContextProvider.constructor | frontend/src/contexts/SearchContext.tsx:32-51 | every value is read from storage |
| SearchContext.SessionStorage.SetItem | frontend/src/contexts/SearchContext.tsx:72-79 | the item is stored under its key and every other item is kept |
| SearchContext.SearchContextProvider.SaveSearchValues | frontend/src/contexts/SearchContext.tsx:54-81 | the five search values are set and stored under their keys; the hotel id only when a non-empty one is given |
| BookingPage.Nights | frontend/src/pages/Booking.tsx:19-25 | `ceil(abs(checkOut - checkIn) / 86400000)`, non-negative; NaN for an invalid date |
| BookingPage.NightsSymmetric | frontend/src/pages/Booking.tsx:21 | swapping the dates does not change the count |
| BookingPage.NightsOfStay | frontend/src/pages/Booking.tsx:19-25 | whole days count as themselves; any part of a further day is one more night |
| BookingPage.IntentRequestNeedsNights | frontend/src/pages/Booking.tsx:16-38 | no request before the nights are known; afterwards exactly when there is a hotel id and the dates differ |
| BookingPage.Render | frontend/src/pages/Booking.tsx:57-72 | nothing until the hotel is loaded; the payment form exactly when user and intent data are both present |

## Left out

- `GET /api/hotels` and `GET /api/hotels/:id` (backend/src/routes/hotels.ts:68-99): they read without deciding anything; the same lookup is `HotelTypes.Find`.
- The database itself: mongoose schema validation, casting of strings to numbers or ids, and the cast error for an invalid id. backend/src/models/hotel.ts is not part of this model. Its numeric fields appear here as integers.
- The database's handling of the `$lte` string and of the bare `$in` number. The model gives them their plain numeric meaning.
- The tie order of sorting, which is the database's: hotels with the same star rating or price come back in no promised order, and each page is a separate query. The model fixes one order, a stable insertion sort, and the following members rely on it.
- `HotelSearch.Search`: its `data` is the window of that one fixed order. The database only promises some order sorted by the key, possibly a different one for each page's query.
- `HotelSearch.PagesPartition`: pages cover every record exactly once only for a fixed tie order. With ties and separate queries per page, the program can repeat or skip a record across pages.
- `$all` with an empty list. No truthy parameter produces one, so the model gives `$all []` no special meaning.
- Regular expression metacharacters in the destination: the model reads the pattern literally, as a substring. Case is folded for ASCII letters only. A destination that is not a valid pattern, such as `(`, makes `new RegExp` throw at backend/src/routes/hotels.ts:205, so the handler answers 500; the model returns the hotels whose city or country contain it literally.
- Floating point: prices, counts and costs are integers. A fractional `numberOfNights` or price is not modelled.
- Dates: ISO strings and `Date` objects are left out. Session storage holds dates as decimal milliseconds.
- The payment provider, the image host, cookies, authentication and the network are inputs. The image host's base64 encoding is left out.
- Concurrency: `Promise.all` is modelled only by its result order. Two confirmations racing on one intent are not modelled, and neither is react-query caching.
- `Bookings.CreatePaymentIntent`: the handler has no `try`. A provider failure there is an unhandled rejection rather than a reply, and it is not modelled.
- `HotelStore.HotelCollection.ConfirmBooking`: body fields beyond the booking's own are not modelled. A provider or database failure (500 "something went wrong") is not modelled either.
- `HotelStore.HotelCollection.CreateHotel`: the body is taken as the form's fields. Extra body fields that mass assignment would store are not modelled. The middleware's error is modelled as a 500 with its message; the HTML page of the default error handler is not.
- `HotelStore.HotelCollection.UpdateHotel`: the upload middleware's error (a file too large) is likewise modelled as a 500 with its message; the HTML page of the default error handler is not.
- Database failures of the read handlers are not modelled: "Error fetching hotels", "Unable to fetch bookings", "Error fetching hotel".
- `MyHotels.ApplyUpdate`: the update body is taken as the form's fields. `findOneAndUpdate` writes every field the body carries, so a body carrying `userId` or `bookings` would overwrite the owner or the bookings. That is not modelled, and the promise that owner and bookings are kept holds only for form-shaped bodies.
- `HotelStore.HotelCollection.UpdateHotel`: the same limit as `MyHotels.ApplyUpdate`. Owner and bookings are kept only for bodies without `userId` or `bookings`.
- `MyHotels.ValidationErrors`: `pricePerNight` is an integer here, so its validator cannot fail. Facilities are checked for presence, not for being an array.
- `HotelSearch.Search`: the link to the parameters' meaning (`Admits`) is stated in `HotelSearch.SearchedHotelAdmitted`, not in the method's own contract.
- React rendering, styling, routing and toasts.

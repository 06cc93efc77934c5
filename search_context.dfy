/** The search context: the search values every page shares, restored from the
    browser's session storage when the provider starts and written back by
    `saveSearchValues`. Dates are instants in milliseconds; the storage holds
    them as decimal strings, and an unreadable one is an invalid date (NaN). */
module SearchContext {
  import opened Base
  import opened Numbers

  /** `sessionStorage`: string keys to string values. */
  class SessionStorage {
    var items: map<string, string>

    constructor (initial: map<string, string>)
      ensures items == initial
    {
      items := initial;
    }

    method SetItem(key: string, value: string)
      modifies this
      ensures items == old(items)[key := value]
    {
      items := items[key := value];
    }
  }

  /** The five keys `saveSearchValues` always writes. */
  const SearchKeys: set<string> := {"destination", "checkIn", "checkOut", "adultCount", "childCount"}

  /** The provider's state. */
  datatype SearchValues = SearchValues(
    destination: string,
    checkIn: Number,
    checkOut: Number,
    adultCount: Number,
    childCount: Number,
    hotelId: string)

  /** `sessionStorage.getItem(key) || fallback`, read from the storage's items:
      a missing or empty item gives the fallback. */
  function ItemOr(items: map<string, string>, key: string, fallback: string): (s: string)
    ensures key in items && items[key] != "" ==> s == items[key]
    ensures key !in items || items[key] == "" ==> s == fallback
  {
    if key in items && items[key] != "" then items[key] else fallback
  }

  /** The provider's initial state read from storage at time `now`. The hotel
      id is read from the key "hotelID". */
  function Restore(items: map<string, string>, now: int): (r: SearchValues)
    ensures r.destination == if "destination" in items then items["destination"] else ""
    ensures r.hotelId == if "hotelID" in items then items["hotelID"] else ""
    ensures "checkIn" !in items || items["checkIn"] == "" ==> r.checkIn == Num(now)
    ensures "checkOut" !in items || items["checkOut"] == "" ==> r.checkOut == Num(now)
    ensures "adultCount" !in items || items["adultCount"] == "" ==> r.adultCount == Num(1)
    ensures "childCount" !in items || items["childCount"] == "" ==> r.childCount == Num(1)
  {
    ParseIntToString(now);
    ParseIntToString(1);
    assert IntToString(1) == "1";
    SearchValues(
      ItemOr(items, "destination", ""),
      ParseInt(ItemOr(items, "checkIn", IntToString(now))),
      ParseInt(ItemOr(items, "checkOut", IntToString(now))),
      ParseInt(ItemOr(items, "adultCount", "1")),
      ParseInt(ItemOr(items, "childCount", "1")),
      ItemOr(items, "hotelID", ""))
  }

  /** A first visit starts with no destination, the current instant for both
      dates, one adult, one child and no hotel. */
  lemma EmptyStorageDefaults(now: int)
    ensures Restore(map[], now) == SearchValues("", Num(now), Num(now), Num(1), Num(1), "")
  {
    ParseIntToString(now);
    ParseIntToString(1);
    assert IntToString(1) == "1";
  }

  /** The storage after `saveSearchValues`: the five search items, and the
      hotel id under "hotelId" when one is given. */
  function SavedItems(items: map<string, string>, destination: string, checkIn: int, checkOut: int,
                      adultCount: int, childCount: int, hotelId: Option<string>): (r: map<string, string>)
    ensures forall k :: k in r <==> k in items || k in SearchKeys
                                    || (k == "hotelId" && hotelId.Some? && hotelId.value != "")
    ensures forall k :: k in items && k !in SearchKeys && (k != "hotelId" || hotelId.None? || hotelId.value == "")
                        ==> r[k] == items[k]
    ensures r["destination"] == destination
  {
    var five := items["destination" := destination]["checkIn" := IntToString(checkIn)]
                     ["checkOut" := IntToString(checkOut)]["adultCount" := IntToString(adultCount)]
                     ["childCount" := IntToString(childCount)];
    if hotelId.Some? && hotelId.value != "" then five["hotelId" := hotelId.value] else five
  }

  /** A provider started after a save reads the saved search back: the
      destination, both dates and both counts round-trip. */
  lemma SavedSearchRestored(items: map<string, string>, destination: string, checkIn: int, checkOut: int,
                            adultCount: int, childCount: int, hotelId: Option<string>, now: int)
    ensures var r := Restore(SavedItems(items, destination, checkIn, checkOut, adultCount, childCount, hotelId), now);
      && r.destination == destination
      && r.checkIn == Num(checkIn) && r.checkOut == Num(checkOut)
      && r.adultCount == Num(adultCount) && r.childCount == Num(childCount)
  {
    var saved := SavedItems(items, destination, checkIn, checkOut, adultCount, childCount, hotelId);
    assert saved["destination"] == destination;
    assert saved["checkIn"] == IntToString(checkIn);
    assert saved["checkOut"] == IntToString(checkOut);
    assert saved["adultCount"] == IntToString(adultCount);
    assert saved["childCount"] == IntToString(childCount);
    NumberItemRestored(saved, "checkIn", checkIn, IntToString(now));
    NumberItemRestored(saved, "checkOut", checkOut, IntToString(now));
    NumberItemRestored(saved, "adultCount", adultCount, "1");
    NumberItemRestored(saved, "childCount", childCount, "1");
  }

  /** A number stored in decimal is read back as that number. */
  lemma NumberItemRestored(items: map<string, string>, key: string, n: int, fallback: string)
    requires key in items && items[key] == IntToString(n)
    ensures ParseInt(ItemOr(items, key, fallback)) == Num(n)
  {
    assert |NatToString(if n < 0 then -n else n)| > 0;
    assert ItemOr(items, key, fallback) == IntToString(n);
    ParseIntToString(n);
  }

  /** The hotel id is written under "hotelId" but read from "hotelID": saving
      one has no effect on the hotel id a new provider starts with. */
  lemma SavedHotelIdNotRestored(items: map<string, string>, destination: string, checkIn: int, checkOut: int,
                                adultCount: int, childCount: int, hotelId: string, now: int)
    requires hotelId != ""
    ensures SavedItems(items, destination, checkIn, checkOut, adultCount, childCount, Some(hotelId))["hotelId"]
            == hotelId
    ensures Restore(SavedItems(items, destination, checkIn, checkOut, adultCount, childCount, Some(hotelId)), now)
            .hotelId == ItemOr(items, "hotelID", "")
  {
    var saved := SavedItems(items, destination, checkIn, checkOut, adultCount, childCount, Some(hotelId));
    assert "hotelID" != "hotelId";
    assert ("hotelID" in saved) == ("hotelID" in items);
    assert "hotelID" in items ==> saved["hotelID"] == items["hotelID"];
  }

  /** `SearchContextProvider`: the state the pages read and the storage it
      mirrors. */
  class SearchContextProvider {
    var destination: string
    var checkIn: Number
    var checkOut: Number
    var adultCount: Number
    var childCount: Number
    var hotelId: string
    const storage: SessionStorage

    function Values(): SearchValues
      reads this
    {
      SearchValues(destination, checkIn, checkOut, adultCount, childCount, hotelId)
    }

    /** Mounting the provider: every value is read from storage. */
    constructor (storage: SessionStorage, now: int)
      ensures this.storage == storage
      ensures Values() == Restore(storage.items, now)
    {
      this.storage := storage;
      var items := storage.items;
      destination := ItemOr(items, "destination", "");
      checkIn := ParseInt(ItemOr(items, "checkIn", IntToString(now)));
      checkOut := ParseInt(ItemOr(items, "checkOut", IntToString(now)));
      adultCount := ParseInt(ItemOr(items, "adultCount", "1"));
      childCount := ParseInt(ItemOr(items, "childCount", "1"));
      hotelId := ItemOr(items, "hotelID", "");
    }

    /** `saveSearchValues`: sets the five search values, and the hotel id only
        when a non-empty one is given; then writes the same to storage. */
    method SaveSearchValues(destination: string, checkIn: int, checkOut: int, adultCount: int, childCount: int,
                            hotelId: Option<string>)
      modifies this, storage
      ensures Values() == SearchValues(destination, Num(checkIn), Num(checkOut), Num(adultCount), Num(childCount),
                                       if hotelId.Some? && hotelId.value != "" then hotelId.value else old(this.hotelId))
      ensures storage.items == SavedItems(old(storage.items), destination, checkIn, checkOut, adultCount,
                                          childCount, hotelId)
    {
      this.destination := destination;
      this.checkIn := Num(checkIn);
      this.checkOut := Num(checkOut);
      this.adultCount := Num(adultCount);
      this.childCount := Num(childCount);
      if hotelId.Some? && hotelId.value != "" {
        this.hotelId := hotelId.value;
      }

      storage.SetItem("destination", destination);
      storage.SetItem("checkIn", IntToString(checkIn));
      storage.SetItem("checkOut", IntToString(checkOut));
      storage.SetItem("adultCount", IntToString(adultCount));
      storage.SetItem("childCount", IntToString(childCount));

      if hotelId.Some? && hotelId.value != "" {
        storage.SetItem("hotelId", hotelId.value);
      }
    }
  }
}

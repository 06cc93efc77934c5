/** The hotel form of the add and edit pages: the multipart body `onSubmit`
    builds, the rule on the number of images, and deleting a stored image. */
module HotelForm {
  import opened Base
  import opened Numbers
  import opened HotelTypes
  import opened Lists
  import opened MyHotels

  /** A form-data value: text, or a file. */
  datatype FormValue = Text(text: string) | File(file: ImageFile)

  /** `HotelFormData`: the fields, the newly chosen files, and the image URLs
      of the hotel being edited (undefined when adding). */
  datatype HotelFormData = HotelFormData(fields: HotelFields, imageFiles: seq<ImageFile>, imageUrls: Option<seq<string>>)

  // ---------------------------------------------------------------------------
  // onSubmit

  /** The nine scalar entries in their fixed order, numbers in decimal. */
  function ScalarEntries(f: HotelFields): (es: seq<(string, FormValue)>)
    ensures |es| == 9
  {
    [("name", Text(f.name)), ("city", Text(f.city)), ("country", Text(f.country)),
     ("description", Text(f.description)), ("type", Text(f.hotelType)),
     ("pricePerNight", Text(IntToString(f.pricePerNight))), ("starRating", Text(IntToString(f.starRating))),
     ("adultCount", Text(IntToString(f.adultCount))), ("childCount", Text(IntToString(f.childCount)))]
  }

  /** The key `` `${key}[${index}]` ``. */
  function IndexedKey(key: string, index: nat): string
  {
    key + "[" + IntToString(index) + "]"
  }

  /** Distinct positions get distinct keys, so each element keeps its own entry. */
  lemma IndexedKeyInjective(key: string, i: nat, j: nat)
    requires IndexedKey(key, i) == IndexedKey(key, j)
    ensures i == j
  {
    var a := IndexedKey(key, i);
    assert a[|key| + 1 .. |a| - 1] == IntToString(i);
    assert a[|key| + 1 .. |a| - 1] == IntToString(j);
    ParseIntToString(i);
    ParseIntToString(j);
  }

  /** One entry per element, keyed by its position. */
  function IndexedEntries(key: string, xs: seq<string>): (es: seq<(string, FormValue)>)
    ensures |es| == |xs|
    ensures forall i :: 0 <= i < |xs| ==> es[i] == (IndexedKey(key, i), Text(xs[i]))
  {
    seq(|xs|, i requires 0 <= i < |xs| => (IndexedKey(key, i), Text(xs[i])))
  }

  function FileEntries(files: seq<ImageFile>): (es: seq<(string, FormValue)>)
    ensures |es| == |files|
    ensures forall i :: 0 <= i < |files| ==> es[i] == ("imageFiles", File(files[i]))
  {
    seq(|files|, i requires 0 <= i < |files| => ("imageFiles", File(files[i])))
  }

  /** The form body for a submission, on the edit page of `editing` or on the
      add page. */
  function FormEntries(editing: Option<Hotel>, data: HotelFormData): (e: seq<(string, FormValue)>)
    ensures |e| == (if editing.Some? then 1 else 0) + 9 + |data.fields.facilities|
                   + |OrEmpty(data.imageUrls)| + |data.imageFiles|
  {
    (if editing.Some? then [("hotelId", Text(editing.value.id))] else [])
    + ScalarEntries(data.fields)
    + IndexedEntries("facilities", data.fields.facilities)
    + IndexedEntries("imageUrls", OrEmpty(data.imageUrls))
    + FileEntries(data.imageFiles)
  }

  /** `onSubmit`: builds the body by successive appends and hands it, once, to
      the save callback; the returned body is what the callback receives. */
  method OnSubmit(hotel: Option<Hotel>, formDataJson: HotelFormData) returns (formData: seq<(string, FormValue)>)
    ensures formData == FormEntries(hotel, formDataJson)
  {
    formData := [];
    if hotel.Some? {
      formData := formData + [("hotelId", Text(hotel.value.id))];
    }
    ghost var lead := formData;
    formData := AppendScalars(formData, formDataJson.fields);
    formData := AppendIndexed(formData, "facilities", formDataJson.fields.facilities);
    ghost var beforeUrls := formData;
    if formDataJson.imageUrls.Some? {
      formData := AppendIndexed(formData, "imageUrls", formDataJson.imageUrls.value);
    } else {
      assert IndexedEntries("imageUrls", OrEmpty(formDataJson.imageUrls)) == [];
    }
    assert formData == beforeUrls + IndexedEntries("imageUrls", OrEmpty(formDataJson.imageUrls));
    formData := AppendFiles(formData, formDataJson.imageFiles);
    assert lead == (if hotel.Some? then [("hotelId", Text(hotel.value.id))] else []);
  }

  method AppendScalars(formData: seq<(string, FormValue)>, f: HotelFields) returns (r: seq<(string, FormValue)>)
    ensures r == formData + ScalarEntries(f)
  {
    r := formData;
    r := r + [("name", Text(f.name))];
    r := r + [("city", Text(f.city))];
    r := r + [("country", Text(f.country))];
    r := r + [("description", Text(f.description))];
    r := r + [("type", Text(f.hotelType))];
    r := r + [("pricePerNight", Text(IntToString(f.pricePerNight)))];
    r := r + [("starRating", Text(IntToString(f.starRating)))];
    r := r + [("adultCount", Text(IntToString(f.adultCount)))];
    r := r + [("childCount", Text(IntToString(f.childCount)))];
  }

  /** `xs.forEach((x, index) => formData.append(`${key}[${index}]`, x))`. */
  method AppendIndexed(formData: seq<(string, FormValue)>, key: string, xs: seq<string>)
    returns (r: seq<(string, FormValue)>)
    ensures r == formData + IndexedEntries(key, xs)
  {
    r := formData;
    for index := 0 to |xs|
      invariant r == formData + IndexedEntries(key, xs[..index])
    {
      assert IndexedEntries(key, xs[..index + 1])
             == IndexedEntries(key, xs[..index]) + [(IndexedKey(key, index), Text(xs[index]))];
      r := r + [(IndexedKey(key, index), Text(xs[index]))];
    }
    assert xs[..|xs|] == xs;
  }

  /** `Array.from(imageFiles).forEach(f => formData.append("imageFiles", f))`. */
  method AppendFiles(formData: seq<(string, FormValue)>, files: seq<ImageFile>) returns (r: seq<(string, FormValue)>)
    ensures r == formData + FileEntries(files)
  {
    r := formData;
    for i := 0 to |files|
      invariant r == formData + FileEntries(files[..i])
    {
      assert FileEntries(files[..i + 1]) == FileEntries(files[..i]) + [("imageFiles", File(files[i]))];
      r := r + [("imageFiles", File(files[i]))];
    }
    assert files[..|files|] == files;
  }

  /** The head of the body: `hotelId` leads exactly when editing, then the
      nine scalars in their fixed order. */
  lemma FormHead(editing: Option<Hotel>, data: HotelFormData)
    ensures var e := FormEntries(editing, data);
      var o := if editing.Some? then 1 else 0;
      && |e| >= o + 9
      && (e[0].0 == "hotelId" <==> editing.Some?)
      && (editing.Some? ==> e[0] == ("hotelId", Text(editing.value.id)))
      && e[o..o + 9] == ScalarEntries(data.fields)
  {
    var lead: seq<(string, FormValue)> := if editing.Some? then [("hotelId", Text(editing.value.id))] else [];
    var s := ScalarEntries(data.fields);
    var tail := IndexedEntries("facilities", data.fields.facilities)
                + IndexedEntries("imageUrls", OrEmpty(data.imageUrls)) + FileEntries(data.imageFiles);
    var e := FormEntries(editing, data);
    assert e == lead + s + tail;
    assert (lead + s + tail)[|lead|..|lead| + 9] == s;
    assert s[0].0 == "name";
  }

  /** The rest of the body: one `facilities[i]` entry per facility, one
      `imageUrls[i]` entry per stored URL (none when adding), and one
      `imageFiles` entry per chosen file, each group in list order. */
  lemma FormTail(editing: Option<Hotel>, data: HotelFormData)
    ensures var e := FormEntries(editing, data);
      var o := (if editing.Some? then 1 else 0) + 9;
      var p := o + |data.fields.facilities|;
      var q := p + |OrEmpty(data.imageUrls)|;
      && |e| == q + |data.imageFiles|
      && e[o..p] == IndexedEntries("facilities", data.fields.facilities)
      && e[p..q] == IndexedEntries("imageUrls", OrEmpty(data.imageUrls))
      && e[q..] == FileEntries(data.imageFiles)
  {
    var lead: seq<(string, FormValue)> := if editing.Some? then [("hotelId", Text(editing.value.id))] else [];
    var head := lead + ScalarEntries(data.fields);
    var fe := IndexedEntries("facilities", data.fields.facilities);
    var ue := IndexedEntries("imageUrls", OrEmpty(data.imageUrls));
    var fi := FileEntries(data.imageFiles);
    var e := FormEntries(editing, data);
    assert e == head + fe + ue + fi;
    SlicesOfFour(head, fe, ue, fi);
  }

  /** The four parts of a concatenation are its slices at the running
      lengths. */
  lemma SlicesOfFour<T>(a: seq<T>, b: seq<T>, c: seq<T>, d: seq<T>)
    ensures var e := a + b + c + d;
      && e[|a|..|a| + |b|] == b
      && e[|a| + |b|..|a| + |b| + |c|] == c
      && e[|a| + |b| + |c|..] == d
  {
    var e := a + b + c + d;
    assert e == (a + b + c) + d;
    assert e[|a + b + c|..] == d;
    assert e[..|a + b + c|] == a + b + c;
    assert (a + b + c)[|a + b|..] == c;
    assert (a + b)[|a|..] == b;
  }

  // ---------------------------------------------------------------------------
  // ImagesSection

  /** The `imageFiles` validate rule: the new files plus the stored URLs (none
      when undefined) must number between one and six. `None` is success. */
  function ValidateImages(fileCount: nat, existingImageUrls: Option<seq<string>>): (r: Option<string>)
    ensures var total := fileCount + |OrEmpty(existingImageUrls)|;
      && (total == 0 <==> r == Some("At least one image should be added"))
      && (total > 6 <==> r == Some("Total number of images cannot be more than 6"))
      && (r.None? <==> 1 <= total <= 6)
  {
    var totalLength := fileCount + (if existingImageUrls.Some? then |existingImageUrls.value| else 0);
    if totalLength == 0 then Some("At least one image should be added")
    else if totalLength > 6 then Some("Total number of images cannot be more than 6")
    else None
  }

  /** `handleDelete`: every occurrence of the URL goes, the others stay in
      order. */
  function HandleDelete(existingImageUrls: seq<string>, imageUrl: string): (r: seq<string>)
    ensures imageUrl !in r
    ensures forall x :: multiset(r)[x] == if x == imageUrl then 0 else multiset(existingImageUrls)[x]
    ensures imageUrl !in existingImageUrls ==> r == existingImageUrls
  {
    WithoutCounts(existingImageUrls, imageUrl);
    if imageUrl in existingImageUrls then Without(existingImageUrls, imageUrl)
    else
      WithoutAbsent(existingImageUrls, imageUrl);
      Without(existingImageUrls, imageUrl)
  }

  /** Deleting from two runs of URLs deletes from each: the URLs that stay
      keep their relative order. */
  lemma HandleDeleteConcat(a: seq<string>, b: seq<string>, imageUrl: string)
    ensures HandleDelete(a + b, imageUrl) == HandleDelete(a, imageUrl) + HandleDelete(b, imageUrl)
  {
    WithoutConcat(a, b, imageUrl);
  }

  /** Deleting a URL stored once removes it from its place and closes the gap:
      the URLs before and after it stay as they were. */
  lemma DeleteOnlyCopy(urls: seq<string>, i: nat)
    requires i < |urls| && multiset(urls)[urls[i]] == 1
    ensures HandleDelete(urls, urls[i]) == urls[..i] + urls[i + 1..]
  {
    var u, pre, post := urls[i], urls[..i], urls[i + 1..];
    assert urls == pre + [u] + post;
    OnlyCopyAbsentAround(pre, u, post);
    WithoutOnlyCopy(pre, u, post);
  }

  lemma OnlyCopyAbsentAround(pre: seq<string>, u: string, post: seq<string>)
    requires multiset(pre + [u] + post)[u] == 1
    ensures u !in pre && u !in post
  {
    assert multiset(pre + [u] + post) == multiset(pre) + multiset{u} + multiset(post);
  }

  /** A form the add page accepts never trips the server's file-count limit:
      with no stored URLs, at most six files get through. */
  lemma AcceptedAddWithinServerLimit(files: seq<ImageFile>)
    requires ValidateImages(|files|, None).None?
    requires forall j :: 0 <= j < |files| ==> files[j].size <= MaxFileSize
    ensures LimitError(files, Some(MaxCreateFiles)).None?
  {
  }
}

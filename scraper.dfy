/**
  The one-off scraper: for each popular photo listed by the photo API it
  fetches the full photo, turns it into a document and writes it to the
  `photos` collection under the MD5 hex digest of the photo's id.
 */
module Scraper {
  import opened Wrappers
  import opened Documents
  import opened Firestore
  import opened Codec
  import opened Models

  /** A photo's location as the photo API returns it; the point is passed on untouched. */
  datatype RawLocation = RawLocation(city: Option<string>, country: Option<string>, position: Value)

  /** A photo's user as the photo API returns it: a name among other attributes. */
  datatype RawUser = RawUser(name: string, otherAttributes: Fields)

  /** The photo API's full photo: only the attributes the scraper reads. */
  datatype RawPhoto = RawPhoto(
    id: string,
    likes: int,
    location: RawLocation,
    exif: Exif,
    tagTitles: seq<string>,   // the `title` of each of `photo.tags`, in order
    createdAt: string,
    urls: PhotoUrls,
    user: RawUser)

  /** The collection the scraper writes to. */
  const PhotosCollection: string := "photos"

  /** The document id: the MD5 hex digest of the photo's id. */
  function DocumentId(p: RawPhoto, x: Externals): string {
    x.md5HexDigest(p.id)
  }

  /** The photo's id alone decides its document id. */
  lemma DocumentIdOfSameId(p: RawPhoto, q: RawPhoto, x: Externals)
    requires p.id == q.id
    ensures DocumentId(p, x) == DocumentId(q, x)
  {
  }

  /** `{tag: True for tag in titles}`: the titles inserted one after the other, each mapped to true. */
  function Tags(titles: seq<string>): Fields {
    if titles == [] then map[]
    else Tags(titles[..|titles| - 1])[titles[|titles| - 1] := VBool(true)]
  }

  /** The tag map's keys are exactly the titles, each mapped to true. */
  lemma {:induction false} TagsKeys(titles: seq<string>)
    ensures forall t :: t in Tags(titles) <==> t in titles
    ensures forall t | t in Tags(titles) :: Tags(titles)[t] == VBool(true)
  {
    if titles != [] {
      var init := titles[..|titles| - 1];
      TagsKeys(init);
      assert titles == init + [titles[|titles| - 1]];
    }
  }

  /** Order and repetition of the titles do not matter: the same set of titles gives the same tags. */
  lemma SameTitlesSameTags(a: seq<string>, b: seq<string>)
    requires forall t :: t in a <==> t in b
    ensures Tags(a) == Tags(b)
  {
    TagsKeys(a);
    TagsKeys(b);
  }

  /** The `location` sub-map: city, country and point, copied unchanged. */
  function RawLocationDict(l: RawLocation): Fields {
    map["city" := OptStr(l.city), "country" := OptStr(l.country), "position" := l.position]
  }

  /** The keys of the scraped document. */
  const DataKeys: set<string> :=
    {"id", "provider", "likes", "location", "exif", "tags", "created", "urls", "user"}

  /**
    The document written for a photo; it cannot be built when the creation
    date does not parse.
   */
  function ScrapedData(p: RawPhoto, x: Externals): Result<Fields, CodecError> {
    match x.parse(p.createdAt)
    case None => Err(ParserError)
    case Some(created) =>
      Ok(map[
        "id" := VStr(p.id),
        "provider" := VStr("unsplash"),
        "likes" := VInt(p.likes),
        "location" := VMap(RawLocationDict(p.location)),
        "exif" := VMap(ExifDict(p.exif)),
        "tags" := VMap(Tags(p.tagTitles)),
        "created" := VTime(created),
        "urls" := VMap(PhotoUrlsDict(p.urls)),
        "user" := VMap(map["name" := VStr(p.user.name)])])
  }

  /** The scraped document has exactly the nine keys, with id, provider, likes and date as stated. */
  lemma ScrapedDataScalars(p: RawPhoto, x: Externals)
    requires x.parse(p.createdAt).Some?
    ensures ScrapedData(p, x).value.Keys == DataKeys
    ensures ScrapedData(p, x).value["id"] == VStr(p.id)
    ensures ScrapedData(p, x).value["provider"] == VStr("unsplash")
    ensures ScrapedData(p, x).value["likes"] == VInt(p.likes)
    ensures ScrapedData(p, x).value["created"] == VTime(x.parse(p.createdAt).value)
  {
  }

  /** The location and camera sub-maps copy every source field, absent ones as null. */
  lemma ScrapedDataCopies(p: RawPhoto, x: Externals)
    requires x.parse(p.createdAt).Some?
    ensures ScrapedData(p, x).value["location"] == VMap(RawLocationDict(p.location))
    ensures RawLocationDict(p.location)["position"] == p.location.position
    ensures ScrapedData(p, x).value["exif"] == VMap(ExifDict(p.exif))
    ensures ParseExif(ExifDict(p.exif)) == Ok(p.exif)
  {
    ExifDictRoundTrip(p.exif);
  }

  /** The url sub-map has exactly the five url keys and the user sub-map only the name. */
  lemma ScrapedDataUrlsAndUser(p: RawPhoto, x: Externals)
    requires x.parse(p.createdAt).Some?
    ensures ScrapedData(p, x).value["urls"] == VMap(PhotoUrlsDict(p.urls))
    ensures PhotoUrlsDict(p.urls).Keys == UrlKeys
    ensures ParsePhotoUrls(PhotoUrlsDict(p.urls)) == Ok(p.urls)
    ensures ScrapedData(p, x).value["user"] == VMap(map["name" := VStr(p.user.name)])
  {
    PhotoUrlsDictRoundTrip(p.urls);
  }

  /** The tag sub-map holds each of the photo's titles, once, as true. */
  lemma ScrapedDataTags(p: RawPhoto, x: Externals)
    requires x.parse(p.createdAt).Some?
    ensures ScrapedData(p, x).value["tags"].VMap?
    ensures forall t :: t in ScrapedData(p, x).value["tags"].fields <==> t in p.tagTitles
    ensures forall t | t in ScrapedData(p, x).value["tags"].fields :: ScrapedData(p, x).value["tags"].fields[t] == VBool(true)
  {
    TagsKeys(p.tagTitles);
  }

  /**
    The scraped document is not a valid photo record: it keys the photo's
    id `id` where the record requires `raw_id`.
   */
  lemma ScrapedDataIsNotAPhoto(p: RawPhoto, x: Externals)
    requires x.parse(p.createdAt).Some?
    ensures ParsePhoto(ScrapedData(p, x).value).Err?
  {
    PhotoFieldsRequired(ScrapedData(p, x).value, "raw_id");
  }

  /** Why the scrape stopped. */
  datatype ScrapeError =
    | FetchFailed(id: string)      // the photo API refused the full photo
    | BadDate(id: string)          // the creation date did not parse
    | WriteRefused(id: string)     // the store refused the write

  /**
    The scraper's loop: the listing's ids (from `get_photos(per_page=1,
    order_by='popular')`) are fetched one at a time, each photo's document
    being written under its document id, overwriting any document there.
    The first error ends the run with the writes made so far kept.
    `written` lists the writes.
   */
  method ScrapePopular(store: DocumentStore, listed: seq<string>,
                       getPhoto: string -> Result<RawPhoto, ApiClientError>, x: Externals)
    returns (r: Outcome<ScrapeError>, ghost written: seq<Snapshot>)
    modifies store
    ensures |written| <= |listed|
    ensures forall i | 0 <= i < |written| ::
      getPhoto(listed[i]).Ok? && ScrapedData(getPhoto(listed[i]).value, x).Ok? &&
      written[i] == Snapshot(DocumentId(getPhoto(listed[i]).value, x), ScrapedData(getPhoto(listed[i]).value, x).value)
    ensures store.data == SetEach(old(store.data), PhotosCollection, written)
    ensures r.Pass? <==> |written| == |listed|
    ensures r.Fail? ==> r.error.id == listed[|written|]
    ensures r.Fail? && r.error.FetchFailed? ==> getPhoto(listed[|written|]).Err?
    ensures r.Fail? && r.error.BadDate? ==>
      getPhoto(listed[|written|]).Ok? && x.parse(getPhoto(listed[|written|]).value.createdAt).None?
    ensures r.Fail? && r.error.WriteRefused? ==>
      getPhoto(listed[|written|]).Ok? && ScrapedData(getPhoto(listed[|written|]).value, x).Ok?
  {
    written := [];
    for i := 0 to |listed|
      invariant |written| == i
      invariant forall j | 0 <= j < i ::
        getPhoto(listed[j]).Ok? && ScrapedData(getPhoto(listed[j]).value, x).Ok? &&
        written[j] == Snapshot(DocumentId(getPhoto(listed[j]).value, x), ScrapedData(getPhoto(listed[j]).value, x).value)
      invariant store.data == SetEach(old(store.data), PhotosCollection, written)
    {
      var fetched := getPhoto(listed[i]);
      if fetched.Err? {
        return Fail(FetchFailed(listed[i])), written;
      }
      var photo := fetched.value;
      var documentId := DocumentId(photo, x);
      var data := ScrapedData(photo, x);
      if data.Err? {
        return Fail(BadDate(listed[i])), written;
      }
      var added := store.AddDocument(PhotosCollection, Some(documentId), data.value);
      if added.Err? {
        return Fail(WriteRefused(listed[i])), written;
      }
      var entry := Snapshot(documentId, data.value);
      SetEachAppend(old(store.data), PhotosCollection, written, entry);
      written := written + [entry];
    }
    r := Pass;
  }
}

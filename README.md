# scout-data, modelled in Dafny

scout-data is a worker that harvests popular photos from a photo API and
stores them in a document store (Firestore). This project models its core:

- `data_service.py`: the ingestion cycle, the load and dump hooks of the
  JSON codec, collection export and import, the geohash backfill and the
  bounded random wait.
- `models.py`: the pydantic record schema.
- `scraper.py`: the one-off scraper that maps a raw photo to a document.

The store is modelled as a map from collection name to document id to
fields. The photo API, the date parser, `isoformat` and MD5 are
uninterpreted functions.

Modules, one per file:

- `Wrappers` (wrappers.dfy): `Option`, `Result` and `Outcome`.
- `Documents` (documents.dfy):
  - the value domain: JSON-like values plus timestamps and geographic points;
  - the store as a value;
  - `SetEach`, a sequence of whole-document writes;
  - `LastWins`, the map built by writing entries in order;
  - the lemmas that relate the two.
- `Firestore` (firestore.dfy): the class `DocumentStore`. It holds the store
  in a field. Its methods are the four store calls the service makes:
  - `AddDocument`, which is `set`. It may be refused with an API error.
  - `GetDocuments`
  - `GetDocument`
  - `AddFieldToDocument`
- `Codec` (codec.dfy):
  - `load_scout_data_types` as a method with a loop;
  - the `object_hook` walk `json.load` makes over a decoded tree (`Load`);
  - `dump_scout_data_types`, and the `default` walk `json.dump` makes (`Dump`).
- `Models` (models.dfy): the five pydantic models as datatypes, their
  construction from a field map, and `Photo.dict()`.
- `DataService` (data_service.dfy): the class `DataService`. The waits it
  makes are recorded in a field, and it uses the store object. It covers the
  coordinate filter, one turn of the cycle, a bounded run of turns,
  `download_docs`, `upload_docs` and `copy_geo_hash`.
- `Scraper` (scraper.py → scraper.dfy): the per-photo document, the tag map
  and the write loop.

Where the intended design and the code differ, the model follows the code:

- **Ingestion writes get fresh ids.** The cycle writes each photo with
  `document_id=None`, so every write draws a store-generated id (modelled
  as one the collection does not hold). It is not an upsert
  under a content hash. Re-ingesting a page therefore adds new documents:
  `SetEachFreshGrows` shows that the collection grows by one document per
  photo.
- **Store errors are retried.** An API error raised by a store write inside
  the cycle's `try` is caught like a feed error. The same page is retried
  after a one-hour wait, and the documents already written stay. A retried
  page can therefore be stored twice.
- **The export does not round-trip every record.** The dump hook handles
  only timestamps. Exporting a collection that holds a geographic point
  fails (`PointBlocksExport`), and so does exporting any photo the cycle
  wrote (`ExportOfIngestedPhotoFails`).
  - Export followed by import is proved to be the identity on documents
    whose only timestamps sit under `created` and that have no `position`
    key (`ExportThenImport`), given `parse(isoformat(t)) == t`. Other
    documents are not claimed to fail; some of them do
    (`DocumentNamedCreatedBlocksImport`, `CreatedObjectBlocksLoad`).
  - The load hook is driven by key names and also runs on the file's outer
    object. A document whose id is `created` therefore breaks the import
    (`DocumentNamedCreatedBlocksImport`).
- **Scraped documents do not match the schema.** The scraper keys the
  photo's id as `id`, while the `Photo` schema requires `raw_id`
  (`ScrapedDataIsNotAPhoto`).

## Model

| member | source | states |
|---|---|---|
| Documents.LastWinsKeys | data_service.py:72-75 | the map built from a listing has a key exactly for each listed id |
| Documents.LastWinsValue | data_service.py:72-75 | an id's value in the map is the data of its last listing, so a later duplicate overwrites an earlier one |
| Documents.SetEachIsOverwrite | data_service.py:82-85 | writing entries one by one with `set` equals overwriting the collection with the entries' last-write-wins map; no write leaves the store as it was |
| Documents.SetEachTwice | scraper.py:43 | writing the same documents a second time under the same ids leaves the store as the first writes left it |
| Documents.SetEachKeys | provider.py:46-49 | after the writes, a document exists exactly under the old ids and the written ids |
| Documents.SetEachIsMerge | data_service.py:82-85 | a non-empty sequence of writes replaces the collection by its old documents merged with the entries' last-write-wins map |
| Documents.SetEachDocs | data_service.py:82-85 | after a sequence of writes the collection holds its old documents overridden by the entries' last-write-wins map |
| Documents.SetEachOthers | data_service.py:82-85 | writes to one collection leave every other collection as it was |
| Documents.LastWinsSize | data_service.py:72-75 | entries with distinct ids build a map with one key per entry |
| Documents.SetEachFreshGrows | data_service.py:56-62 | writes under fresh, distinct ids keep every old document unchanged, hold each written document's data, and grow the collection by exactly one per write |
| Documents.FreshIdExists | provider.py:46-49 | some id is unused in any finite collection, so an auto-id write can always draw one |
| Firestore.DocumentStore.AddDocument | provider.py:46-49 | with an id, the document there is replaced whole; without one, it is stored under an id the collection did not have; a refused write changes nothing |
| Firestore.DocumentStore.GetDocuments | data_service.py:73-74 | lists each document of the collection exactly once, with its data |
| Firestore.DocumentStore.GetDocument | data_service.py:91-95 | returns the document exactly when one exists under the id, else nothing |
| Firestore.DocumentStore.AddFieldToDocument | data_service.py:99-103 | merges the field into the existing document and keeps its other fields; returns false and changes nothing when there is no such document |
| Codec.LoadScoutDataTypes | data_service.py:14-20 | succeeds exactly when `created` parses and `position` has both coordinates; keeps the key set; replaces only `created` (with the parsed timestamp) and `position` (with a point); an error names one key's failing conversion |
| Codec.Dump | data_service.py:77 | the dump succeeds exactly when the tree holds no point; its output is plain JSON; a failure is a TypeError |
| Codec.DumpKeepsJson | data_service.py:77 | a tree that is already plain JSON is dumped unchanged |
| Codec.DumpThenLoad | data_service.py:76-81 | when ISO text parses back to its timestamp, dumping and then loading a portable tree gives it back |
| Codec.DumpThenLoadList | data_service.py:76-81 | a list of portable values is dumped and loaded back element by element |
| Codec.DumpThenLoadFields | data_service.py:14-26 | an object's `created` timestamp is dumped as its ISO text and parsed back by the load hook; every other value comes back by itself |
| Codec.CreatedObjectBlocksLoad | data_service.py:16-17 | an object whose `created` value is itself an object cannot be loaded, because the hook hands that object to the date parser |
| Codec.CreatedTextComesBackAsTimestamp | data_service.py:14-17 | a `created` text that parses is dumped as is and loaded as its timestamp, so text becomes a timestamp on import |
| Models.NestedErrorPath | models.py:41-46 | a nested model's error is reported at a path that starts with the field's key, followed by the path inside the nested model |
| Models.ExifDictRoundTrip | models.py:7-13 | building an `Exif` from its `dict()` gives it back |
| Models.LocationDictRoundTrip | models.py:16-19 | building a `Location` from its `dict()` gives it back |
| Models.PhotoUrlsDictRoundTrip | models.py:25-30 | building `PhotoUrls` from its `dict()` gives it back |
| Models.PhotoDictScalars | models.py:38-44 | the five plain fields of a photo's `dict()` validate to the photo's values |
| Models.PhotoDictModels | models.py:41-46 | the four nested models of a photo's `dict()` validate to the photo's models |
| Models.PhotoDictRoundTrip | models.py:37-46 | building a `Photo` from its own `dict()` gives it back |
| Models.PhotoFieldsRequired | models.py:37-46 | without any one of the nine fields a photo cannot be built |
| Models.PhotoLocationErrorPath | models.py:37-41 | a photo with valid leading fields and an invalid location fails at `location` followed by the location's own error path, such as `location.position` |
| Models.PhotoValidIff | models.py:37-46 | a photo is built exactly when each of its nine fields validates |
| Models.ExifAllOptional | models.py:7-13 | a map that is empty, or whose every value is null, builds an `Exif` with every field None |
| Models.ExifIsoIsInteger | models.py:11 | a present, non-null `iso` that is not an integer makes `Exif` fail |
| Models.LocationPositionRequired | models.py:16-19 | a location is built only when `position` holds a point, so a missing key or a value of another kind (such as the latitude/longitude object of an export file) fails; city and country may be absent |
| Models.PhotoUrlsRequired | models.py:25-30 | each of the five url keys is required as a string |
| Models.UserNameRequired | models.py:33-34 | a user needs a string `name` |
| DataService.WithCoordinatesKeeps | data_service.py:44-50 | the filter keeps no more photos than the page has; the kept photos all have both coordinates and come from the page; every page photo with both coordinates is kept |
| DataService.WithCoordinatesConcat | data_service.py:41-51 | filtering two pages run together gives the first page's kept photos followed by the second's, so the filter goes photo by photo and keeps source order |
| DataService.DataService.WaitForRandomSeconds | data_service.py:29-32 | the wait is drawn from [min, max], both ends included, and is recorded |
| DataService.DataService.GetDataFromPhotoProvider | data_service.py:41-51 | one feed call, whose answer may depend on how many calls came before; a feed error gives no list; otherwise the result is exactly the page's photos with both coordinates, in order (`WithCoordinates`) |
| DataService.DataService.StorePhotos | data_service.py:56-62 | the i-th write holds the i-th document (a kept photo's `dict()`, as the cycle passes them) under a fresh, distinct id; writing stops at the first refused write; the store is the old store plus exactly those writes |
| DataService.DataService.ExecuteCycleStep | data_service.py:53-69 | a feed error writes nothing, keeps the page and waits exactly 3600 s; a refused write keeps the page and waits exactly 3600 s with earlier writes kept; a complete page adds one fresh document per kept photo, moves to the next page and waits 600 to 1800 s; every turn makes one feed call and one wait, moves on only after a successful fetch, and keeps every stored photo and every other collection |
| DataService.DataService.RunCycle | data_service.py:54-69 | over a run of turns each turn stays on its page or moves to the next, and a failed fetch retries the same page, whose next fetch may succeed (`PagesAdvance`, turn i using feed call i); one wait per turn; stored photos are never lost or changed and no other collection is touched (`KeepsDocuments`) |
| DataService.PagesAdvanceAppend | data_service.py:63-69 | a turn that stays on its page, or moves on only after a successful fetch, extends a run in which the pages advance properly |
| DataService.FreshWritesKeepDocuments | data_service.py:56-62 | writes under fresh ids keep every existing document of the collection unchanged and leave every other collection as it was |
| DataService.DataService.DownloadDocs | data_service.py:71-77 | the file content is the dump of the collection's id-to-data map, or the TypeError the dump raised |
| DataService.DataService.UploadDocs | data_service.py:79-85 | an undecodable file or a non-object file writes nothing; every write puts an entry of the decoded object under its own key; on success the collection is overwritten by the file's documents; for an object file a failure names an entry not yet written that is either not an object (`NotADocument`) or an object the store refused (`WriteRefused`) |
| DataService.DataService.WriteDocuments | data_service.py:82-85 | each entry is written under its key at most once; an entry that is not an object, or a write the store refuses, stops the loop and is named in the error, and that entry was not written; on success every entry was a document and the collection equals old documents overwritten by the entries |
| DataService.DataService.CopyGeoHash | data_service.py:87-104 | spots documents gain `geohash` equal to the geo document's `g` exactly for the updated ids, which appear once each and have a geo document holding `g`; no other collection changes; one wait of 0 to 3 s per update; on success every spots id with a geo document was updated, so each such geo document held `g`; a failure names a geo document without `g` |
| DataService.DataService.BackfillEach | data_service.py:88-104 | the same as `CopyGeoHash` for a given list of distinct spots ids |
| DataService.DataService.BackfillDocument | data_service.py:89-104 | no geo document: no write and no wait; a geo document without `g`: error and no write; otherwise `g` is merged into the spots document as `geohash`, then one wait of 0 to 3 s; a spots id with no document leaves the spots collection as it was |
| DataService.PointBlocksExport | data_service.py:23-26 | a collection with a point anywhere in a document cannot be exported |
| DataService.ExportOfIngestedPhotoFails | data_service.py:77 | a collection holding a photo's `dict()` cannot be exported |
| DataService.ExportThenImport | data_service.py:71-85 | export then import gives the collection back when its documents are portable and no document is named `created` or `position` |
| DataService.DocumentNamedCreatedBlocksImport | data_service.py:81 | an exported collection with a document named `created` cannot be imported |
| Scraper.DocumentIdOfSameId | scraper.py:11 | photos with the same id get the same document id |
| Scraper.TagsKeys | scraper.py:12 | the tag map's keys are exactly the titles, each mapped to true |
| Scraper.SameTitlesSameTags | scraper.py:12 | title lists with the same titles, in any order and with any repeats, give the same tag map |
| Scraper.ScrapedDataScalars | scraper.py:13-31 | the document has exactly the nine keys, `id` is the photo's id, `provider` is `unsplash`, `likes` is the photo's likes and `created` is the parsed date |
| Scraper.ScrapedDataCopies | scraper.py:17-30 | location and exif sub-maps copy every source field, absent ones as null, and the point unchanged |
| Scraper.ScrapedDataUrlsAndUser | scraper.py:32-41 | `urls` has exactly the five url keys with the photo's urls; `user` holds only the name |
| Scraper.ScrapedDataTags | scraper.py:12-30 | the `tags` value maps exactly the photo's titles to true |
| Scraper.ScrapedDataIsNotAPhoto | scraper.py:14 | a scraped document is not a valid `Photo` record, because `raw_id` is missing |
| Scraper.ScrapePopular | scraper.py:9-43 | the i-th write is the i-th listed photo's document under its document id; the first error ends the run, naming that photo, with earlier writes kept; `FetchFailed` means the fetch failed, `BadDate` that the creation date did not parse, `WriteRefused` that the document was built and the store refused it |

## Left out

- Firestore.DocumentStore.AddDocument: the client's auto-id is random and
  never checked against the ids in use. The model assumes it is new to the
  collection, so an id collision, which would overwrite a document, is
  assumed away. `SetEachFreshGrows` and the cycle's "one new document per
  photo" rest on this assumption.

- Sleeping, `random` and logging: a wait is a recorded duration chosen
  nondeterministically in range.
- File I/O and JSON text: the JSON text layout (`indent`, `sort_keys`) is not
  modelled. A file is modelled by the tree that `json.dump` would write and
  `json.load` would read back.
- `dateutil.parse`, `isoformat`, `GeoPoint`'s constructor and MD5:
  - They are uninterpreted. `parse(isoformat(t)) == t` is only a hypothesis
    of the round-trip lemmas.
  - A point's coordinates are opaque values; only null versus present
    matters. Floating point is not modelled.
- The photo API and the store client: they are abstract.
  - The feed is a function from the call's index and the page query to photos or an API error. Its answers are otherwise unconstrained, so nothing says when a failing page recovers.
  - Store refusals are a nondeterministic API error on writes only.
  - The shape of listed documents (`doc['id']`, `doc['data']`) is folded
    into `Snapshot`.
  - The `not geo_doc` test is modelled as "no such document".
- Authentication and credential files (`provider.py`), `main.py` and the
  `constants.py` collection names: constants.py is not part of this model.
  The names are constructor parameters, with the two spots collections
  assumed distinct.
- DataService.DataService.RunCycle: the program's `while True` never ends.
  The model runs a given number of turns and makes no claim about
  termination.
- DataService.DataService.WaitForRandomSeconds: it requires `min <= max`.
  `randint` raises otherwise, and every call in the code passes ordered
  bounds.
- Dict iteration order: the store's listing order and the order of a decoded
  file's keys are left to the model's choice (any order).
- Models.ParsePhoto: pydantic v1 semantics are modelled, where a field declared `str = None` accepts an explicit None. A `ValidationError` carries only the path of the first failing field in declaration order, while pydantic collects every failing field into one error.
- pydantic coercion: a value of the wrong type is rejected rather than
  converted (for example, a numeric string for `likes`). Construction of the
  raw Unsplash objects is not modelled, and the scraper reads their
  attributes as given.
- Scraper.ScrapePopular: the listing `get_photos(per_page=1,
  order_by='popular')` is passed in as the list of ids. The generator
  fetches each photo lazily just before it is written, and the model
  fetches at the same point.
- Errors raised by the store for a non-dict document body are modelled as a
  distinct error (`NotADocument`) instead of the client's exception.

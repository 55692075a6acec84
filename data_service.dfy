/**
  The data service: the ingestion cycle that pages through the photo feed
  and writes every located photo to the store, the export and import of a
  collection through the codec, the geohash backfill, and the bounded
  random wait that spaces the calls out. Time is modelled by recording
  every wait instead of sleeping.
 */
module DataService {
  import opened Wrappers
  import opened Documents
  import opened Firestore
  import opened Codec
  import opened Models

  /** The arguments of the feed call `get_photos(order_by=..., per_page=..., page=...)`. */
  datatype PageQuery = PageQuery(orderBy: string, perPage: nat, page: int)

  /** The query the cycle sends for page `pageNumber`: popular photos, fifteen to a page. */
  function PageFor(pageNumber: int): PageQuery {
    PageQuery("popular", 15, pageNumber)
  }

  /**
    The photo feed: the photos of a page, or the API error it raised, for
    the n-th call made to it. The answer may differ from call to call, so
    a page the feed failed on (a rate limit, a network error) may succeed
    when asked again.
   */
  type PhotoSource = (nat, PageQuery) -> Result<seq<Photo>, ApiClientError>

  /** Both coordinates of the photo's point are present (not None). */
  predicate HasCoordinates(p: Photo) {
    p.location.position.longitude != VNull && p.location.position.latitude != VNull
  }

  /** The photos that have both coordinates, in their original order. */
  function WithCoordinates(s: seq<Photo>): seq<Photo> {
    if s == [] then []
    else WithCoordinates(s[..|s| - 1]) + if HasCoordinates(s[|s| - 1]) then [s[|s| - 1]] else []
  }

  /**
    The filter keeps exactly the photos with both coordinates: each kept
    photo has both and comes from the page, and each page photo with both
    is kept.
   */
  lemma {:induction false} WithCoordinatesKeeps(s: seq<Photo>)
    ensures |WithCoordinates(s)| <= |s|
    ensures forall i | 0 <= i < |WithCoordinates(s)| :: HasCoordinates(WithCoordinates(s)[i]) && WithCoordinates(s)[i] in s
    ensures forall p | p in s && HasCoordinates(p) :: p in WithCoordinates(s)
  {
    if s != [] {
      var init, last := s[..|s| - 1], s[|s| - 1];
      WithCoordinatesKeeps(init);
      assert forall p | p in s :: p in init || p == last;
      assert forall p | p in init :: p in s;
    }
  }

  /**
    The filter works photo by photo, keeping source order: filtering a
    concatenation is concatenating the filtered parts.
   */
  lemma {:induction false} WithCoordinatesConcat(a: seq<Photo>, b: seq<Photo>)
    ensures WithCoordinates(a + b) == WithCoordinates(a) + WithCoordinates(b)
  {
    if b == [] {
      assert a + b == a;
    } else {
      var init, last := b[..|b| - 1], b[|b| - 1];
      assert (a + b)[..|a + b| - 1] == a + init;
      assert (a + b)[|a + b| - 1] == last;
      WithCoordinatesConcat(a, init);
    }
  }

  /** `photo.dict()` of each photo, in order. */
  function PhotoDicts(photos: seq<Photo>): seq<Fields> {
    seq(|photos|, i requires 0 <= i < |photos| => PhotoDict(photos[i]))
  }

  /** The export file's object: document id to the document's fields. */
  function DocsValue(c: Collection): Value {
    VMap(map id | id in c :: VMap(c[id]))
  }

  /** The documents an imported file's object describes: its entries whose value is an object. */
  function FileDocuments(top: Fields): Collection {
    map id | id in top && top[id].VMap? :: top[id].fields
  }

  /** Taking one more object entry out of the pending keys adds exactly its document. */
  lemma FileDocumentsStep(top: Fields, todo: set<string>, key: string)
    requires key in todo && key in top && top[key].VMap?
    ensures FileDocuments(top - (todo - {key})) == FileDocuments(top - todo)[key := top[key].fields]
  {
  }

  /** Why an import stopped. */
  datatype UploadError =
    | Unreadable          // the file's JSON could not be decoded through the hook
    | NotAnObject         // the file does not hold one object
    | NotADocument(id: string)   // the entry under an id is not an object
    | WriteRefused(id: string)   // the store refused to write an entry

  /** Why the geohash backfill stopped: a geo document without a `g` field. */
  datatype BackfillError = MissingGeohash(id: string)

  /** The spots documents after the backfill has run for the ids in `done`. */
  function Backfilled(spots: Collection, geo: Collection, done: seq<string>): Collection {
    map id | id in spots ::
      if id in done && id in geo && "g" in geo[id] then spots[id] + map["geohash" := geo[id]["g"]] else spots[id]
  }

  class DataService {
    const store: DocumentStore
    const source: PhotoSource
    const externals: Externals
    /** The collection names: photos, spots, and the spots' geohash documents. */
    const photosRef: string
    const spotsRef: string
    const spotsGeoRef: string
    /** Every wait the service has made, in seconds, oldest first. */
    var waits: seq<int>
    /** How many calls the service has made to the feed. */
    var fetches: nat

    /** The two spots collections are distinct. */
    predicate Valid() {
      spotsRef != spotsGeoRef
    }

    constructor (store: DocumentStore, source: PhotoSource, externals: Externals,
                 photosRef: string, spotsRef: string, spotsGeoRef: string)
      requires spotsRef != spotsGeoRef
      ensures Valid()
      ensures this.store == store && this.source == source && this.externals == externals
      ensures this.photosRef == photosRef && this.spotsRef == spotsRef && this.spotsGeoRef == spotsGeoRef
      ensures waits == [] && fetches == 0
    {
      this.store := store;
      this.source := source;
      this.externals := externals;
      this.photosRef := photosRef;
      this.spotsRef := spotsRef;
      this.spotsGeoRef := spotsGeoRef;
      waits := [];
      fetches := 0;
    }

    /** `wait_for_random_seconds`: waits a whole number of seconds drawn from [min, max], both ends included. */
    method WaitForRandomSeconds(min: int := 0, max: int := 3600) returns (seconds: int)
      requires min <= max
      modifies this`waits
      ensures min <= seconds <= max
      ensures waits == old(waits) + [seconds]
    {
      seconds :| min <= seconds <= max;
      waits := waits + [seconds];
    }

    /**
      `_get_data_from_photo_provider`: fetches one page, then keeps the
      photos whose point has both coordinates. A feed error leaves no list.
     */
    method GetDataFromPhotoProvider(pageNumber: int) returns (r: Result<seq<Photo>, ApiClientError>)
      modifies this`fetches
      ensures fetches == old(fetches) + 1
      ensures source(old(fetches), PageFor(pageNumber)).Err? ==> r.Err?
      ensures source(old(fetches), PageFor(pageNumber)).Ok? ==>
        r == Ok(WithCoordinates(source(old(fetches), PageFor(pageNumber)).value))
    {
      var page := source(fetches, PageFor(pageNumber));
      fetches := fetches + 1;
      if page.Err? {
        return Err(page.error);
      }
      var all := page.value;
      var photos: seq<Photo> := [];
      for i := 0 to |all|
        invariant photos == WithCoordinates(all[..i])
      {
        assert all[..i + 1][..i] == all[..i];
        var photo := all[i];
        if photo.location.position.longitude == VNull || photo.location.position.latitude == VNull {
          continue;
        }
        photos := photos + [photo];
      }
      assert all[..|all|] == all;
      r := Ok(photos);
    }

    /**
      The write loop of one turn: adds each document to the photos
      collection under a store-drawn id, stopping at the first write the
      store refuses. `written` lists the documents added; `complete` says
      whether every document was added.
     */
    method StorePhotos(docs: seq<Fields>) returns (complete: bool, ghost written: seq<Snapshot>)
      modifies store
      ensures complete <==> |written| == |docs|
      ensures |written| <= |docs|
      ensures FreshEntries(written, Docs(old(store.data), photosRef).Keys)
      ensures forall i | 0 <= i < |written| :: written[i].data == docs[i]
      ensures store.data == SetEach(old(store.data), photosRef, written)
    {
      written := [];
      var i := 0;
      while i < |docs|
        invariant 0 <= i <= |docs| && |written| == i
        invariant FreshEntries(written, Docs(old(store.data), photosRef).Keys)
        invariant forall j | 0 <= j < i :: written[j].data == docs[j]
        invariant store.data == SetEach(old(store.data), photosRef, written)
      {
        var added := store.AddDocument(photosRef, None, docs[i]);
        if added.Err? {
          return false, written;
        }
        var entry := Snapshot(added.value, docs[i]);
        AppendFreshWrite(old(store.data), photosRef, written, entry);
        SetEachAppend(old(store.data), photosRef, written, entry);
        written := written + [entry];
        i := i + 1;
      }
      complete := true;
    }

    /**
      One turn of `execute_scout_data_generation_cycle`'s loop: fetch the
      page and add each photo's `dict()` under a store-drawn id. An API
      error from the feed, or from any write, ends the turn at once with a
      one-hour wait and the same page next; the documents already added
      stay. A turn without error moves to the next page and waits from
      10 to 30 minutes. `written` lists the documents this turn added.
     */
    method ExecuteCycleStep(pageNumber: int) returns (next: int, ghost written: seq<Snapshot>)
      modifies this`waits, this`fetches, store
      ensures fetches == old(fetches) + 1
      ensures |waits| == |old(waits)| + 1
      ensures next == pageNumber || (next == pageNumber + 1 && source(old(fetches), PageFor(pageNumber)).Ok?)
      ensures KeepsDocuments(old(store.data), store.data, photosRef)
      ensures source(old(fetches), PageFor(pageNumber)).Err? ==>
        next == pageNumber && written == [] && store.data == old(store.data) && waits == old(waits) + [3600]
      ensures source(old(fetches), PageFor(pageNumber)).Ok? ==>
        var docs := PhotoDicts(WithCoordinates(source(old(fetches), PageFor(pageNumber)).value));
        |written| <= |docs| &&
        FreshEntries(written, Docs(old(store.data), photosRef).Keys) &&
        (forall i | 0 <= i < |written| :: written[i].data == docs[i]) &&
        store.data == SetEach(old(store.data), photosRef, written) &&
        (|written| < |docs| ==> next == pageNumber && waits == old(waits) + [3600]) &&
        (|written| == |docs| ==>
          next == pageNumber + 1 && |waits| == |old(waits)| + 1 && waits[..|old(waits)|] == old(waits) &&
          600 <= waits[|old(waits)|] <= 1800)
    {
      var fetched := GetDataFromPhotoProvider(pageNumber);
      if fetched.Err? {
        written := [];
        var _ := WaitForRandomSeconds(min := 3600);
        return pageNumber, written;
      }
      var complete;
      complete, written := StorePhotos(PhotoDicts(fetched.value));
      FreshWritesKeepDocuments(old(store.data), photosRef, written);
      if !complete {
        var _ := WaitForRandomSeconds(min := 3600);
        return pageNumber, written;
      }
      var seconds := WaitForRandomSeconds(min := 600, max := 1800);
      assert waits[|old(waits)|] == seconds;
      next := pageNumber + 1;
    }

    /**
      `steps` turns of the cycle, which in the program never ends.
      `attempts` lists the page of each turn and the page after the last:
      each turn stays on its page or moves to the next one, and a page the
      feed fails on is tried again. Documents already in the store are kept
      and no other collection is touched.
     */
    method RunCycle(pageNumber: int, steps: nat) returns (final: int, ghost attempts: seq<int>)
      modifies this`waits, this`fetches, store
      ensures |attempts| == steps + 1 && attempts[0] == pageNumber && attempts[steps] == final
      ensures fetches == old(fetches) + steps
      ensures PagesAdvance(source, old(fetches), attempts)
      ensures |waits| == |old(waits)| + steps
      ensures KeepsDocuments(old(store.data), store.data, photosRef)
    {
      final := pageNumber;
      attempts := [pageNumber];
      for n := 0 to steps
        invariant |attempts| == n + 1 && attempts[0] == pageNumber && attempts[n] == final
        invariant fetches == old(fetches) + n
        invariant PagesAdvance(source, old(fetches), attempts)
        invariant |waits| == |old(waits)| + n
        invariant KeepsDocuments(old(store.data), store.data, photosRef)
      {
        ghost var before := store.data;
        ghost var written;
        final, written := ExecuteCycleStep(final);
        KeepsDocumentsTransitive(old(store.data), before, store.data, photosRef);
        PagesAdvanceAppend(source, old(fetches), attempts, final);
        attempts := attempts + [final];
      }
    }

    /**
      `download_docs`: lists the collection, gathers the documents into one
      object keyed by id (a later listing of an id overwriting an earlier
      one) and writes it with the codec. The result is the file's content,
      or the type error the writer raised.
     */
    method DownloadDocs(collectionId: string) returns (r: Result<Value, CodecError>)
      ensures r == Dump(DocsValue(Docs(store.data, collectionId)), externals)
    {
      var docs := store.GetDocuments(collectionId);
      var data: Collection := map[];
      for i := 0 to |docs|
        invariant data == LastWins(docs[..i])
      {
        assert docs[..i + 1][..i] == docs[..i];
        data := data[docs[i].id := docs[i].data];
      }
      assert docs[..|docs|] == docs;
      r := Dump(DocsValue(data), externals);
    }

    /**
      `upload_docs`: decodes the file through the hook, then writes every
      entry of the object as the document under its key. A file that does
      not decode, or that holds no object, writes nothing.
     */
    method UploadDocs(collectionId: string, file: Value) returns (r: Outcome<UploadError>, ghost written: seq<Snapshot>)
      modifies store
      ensures store.data == SetEach(old(store.data), collectionId, written)
      ensures Load(file, externals).None? ==> r == Fail(Unreadable) && written == []
      ensures Load(file, externals).Some? && !Load(file, externals).value.VMap? ==> r == Fail(NotAnObject) && written == []
      ensures Load(file, externals).Some? && Load(file, externals).value.VMap? ==>
        FreshEntries(written, {}) &&
        (forall i | 0 <= i < |written| :: written[i].id in Load(file, externals).value.fields &&
           Load(file, externals).value.fields[written[i].id] == VMap(written[i].data))
      ensures r.Pass? ==>
        Load(file, externals).Some? && Load(file, externals).value.VMap? &&
        (forall id | id in Load(file, externals).value.fields :: Load(file, externals).value.fields[id].VMap?) &&
        store.data == Overwrite(old(store.data), collectionId, FileDocuments(Load(file, externals).value.fields))
      ensures r.Fail? && Load(file, externals).Some? && Load(file, externals).value.VMap? ==>
        var top := Load(file, externals).value.fields;
        (r.error.NotADocument? || r.error.WriteRefused?) && r.error.id in top && r.error.id !in Ids(written) &&
        (r.error.NotADocument? ==> !top[r.error.id].VMap?) &&
        (r.error.WriteRefused? ==> top[r.error.id].VMap?)
    {
      var loaded := Load(file, externals);
      if loaded.None? {
        return Fail(Unreadable), [];
      }
      if !loaded.value.VMap? {
        return Fail(NotAnObject), [];
      }
      r, written := WriteDocuments(collectionId, loaded.value.fields);
    }

    /**
      The write loop of `upload_docs`: each entry of `top`, in an order the
      object's iteration chooses, is written as the document under its key,
      replacing whatever was there. It stops at the first entry that is not
      an object or that the store refuses, keeping the writes already made.
      `written` lists the writes.
     */
    method WriteDocuments(collectionId: string, top: Fields) returns (r: Outcome<UploadError>, ghost written: seq<Snapshot>)
      modifies store
      ensures store.data == SetEach(old(store.data), collectionId, written)
      ensures FreshEntries(written, {})
      ensures forall i | 0 <= i < |written| :: written[i].id in top && top[written[i].id] == VMap(written[i].data)
      ensures r.Fail? ==> r.error.NotADocument? || r.error.WriteRefused?
      ensures r.Fail? ==> r.error.id in top && r.error.id !in Ids(written)
      ensures r.Fail? && r.error.NotADocument? ==> !top[r.error.id].VMap?
      ensures r.Fail? && r.error.WriteRefused? ==> top[r.error.id].VMap?
      ensures r.Pass? ==>
        (forall id | id in top :: top[id].VMap?) &&
        store.data == Overwrite(old(store.data), collectionId, FileDocuments(top))
    {
      written := [];
      var todo := top.Keys;
      while todo != {}
        invariant todo <= top.Keys
        invariant FreshEntries(written, todo)
        invariant forall i | 0 <= i < |written| :: written[i].id in top && top[written[i].id] == VMap(written[i].data)
        invariant forall id | id in top.Keys - todo :: top[id].VMap?
        invariant LastWins(written) == FileDocuments(top - todo)
        invariant store.data == SetEach(old(store.data), collectionId, written)
        decreases todo
      {
        var key :| key in todo;
        if !top[key].VMap? {
          return Fail(NotADocument(key)), written;
        }
        var added := store.AddDocument(collectionId, Some(key), top[key].fields);
        if added.Err? {
          return Fail(WriteRefused(key)), written;
        }
        var entry := Snapshot(key, top[key].fields);
        assert key !in Ids(written);
        FreshEntriesAppend(written, todo - {key}, entry);
        SetEachAppend(old(store.data), collectionId, written, entry);
        FileDocumentsStep(top, todo, key);
        written := written + [entry];
        todo := todo - {key};
      }
      FreshEntriesEmpty(written, todo);
      SetEachIsOverwrite(old(store.data), collectionId, written);
      assert top - todo == top;
      r := Pass;
    }

    /**
      `copy_geo_hash`: for each spots document, looks up the geo document
      with the same id. Without one the document is skipped, with no write
      and no wait; otherwise the geo document's `g` is merged into the spots
      document as `geohash`, followed by a wait of at most 3 seconds. A geo
      document lacking `g` stops the run. `updated` lists the ids written.
     */
    method CopyGeoHash() returns (r: Outcome<BackfillError>, ghost updated: seq<string>)
      requires Valid()
      modifies store, this`waits
      ensures forall c | c != spotsRef :: Docs(store.data, c) == Docs(old(store.data), c)
      ensures Docs(store.data, spotsRef) ==
        Backfilled(Docs(old(store.data), spotsRef), Docs(old(store.data), spotsGeoRef), updated)
      ensures forall i | 0 <= i < |updated| ::
        updated[i] in Docs(old(store.data), spotsRef) && updated[i] in Docs(old(store.data), spotsGeoRef) &&
        "g" in Docs(old(store.data), spotsGeoRef)[updated[i]]
      ensures forall i, j | 0 <= i < j < |updated| :: updated[i] != updated[j]
      ensures ShortWaitsAfter(old(waits), waits, |updated|)
      ensures r.Pass? ==>
        forall id | id in Docs(old(store.data), spotsRef) && id in Docs(old(store.data), spotsGeoRef) :: id in updated
      ensures r.Fail? ==>
        r.error.id in Docs(old(store.data), spotsRef) && r.error.id in Docs(old(store.data), spotsGeoRef) &&
        "g" !in Docs(old(store.data), spotsGeoRef)[r.error.id]
    {
      var docs := store.GetDocuments(spotsRef);
      LastWinsKeys(docs);
      r, updated := BackfillEach(Ids(docs));
      if r.Pass? {
        forall id | id in Docs(old(store.data), spotsRef) && id in Docs(old(store.data), spotsGeoRef)
          ensures id in updated
        {
          assert id in Ids(docs);
        }
      }
    }

    /**
      The loop of `copy_geo_hash` over the listed spots ids: each id, in
      order, goes through the per-document step until one fails.
     */
    method BackfillEach(ids: seq<string>) returns (r: Outcome<BackfillError>, ghost updated: seq<string>)
      requires Valid()
      requires forall i | 0 <= i < |ids| :: ids[i] in Docs(store.data, spotsRef)
      requires forall i, j | 0 <= i < j < |ids| :: ids[i] != ids[j]
      modifies store, this`waits
      ensures forall c | c != spotsRef :: Docs(store.data, c) == Docs(old(store.data), c)
      ensures Docs(store.data, spotsRef) ==
        Backfilled(Docs(old(store.data), spotsRef), Docs(old(store.data), spotsGeoRef), updated)
      ensures forall i | 0 <= i < |updated| ::
        updated[i] in Docs(old(store.data), spotsRef) && updated[i] in Docs(old(store.data), spotsGeoRef) &&
        "g" in Docs(old(store.data), spotsGeoRef)[updated[i]]
      ensures forall i, j | 0 <= i < j < |updated| :: updated[i] != updated[j]
      ensures ShortWaitsAfter(old(waits), waits, |updated|)
      ensures r.Pass? ==> forall i | 0 <= i < |ids| && ids[i] in Docs(old(store.data), spotsGeoRef) :: ids[i] in updated
      ensures r.Fail? ==>
        r.error.id in Docs(old(store.data), spotsRef) && r.error.id in Docs(old(store.data), spotsGeoRef) &&
        "g" !in Docs(old(store.data), spotsGeoRef)[r.error.id]
    {
      ghost var spots := Docs(store.data, spotsRef);
      ghost var geo := Docs(store.data, spotsGeoRef);
      updated := [];
      assert Backfilled(spots, geo, updated) == spots;
      for i := 0 to |ids|
        invariant forall c | c != spotsRef :: Docs(store.data, c) == Docs(old(store.data), c)
        invariant Docs(store.data, spotsRef) == Backfilled(spots, geo, updated)
        invariant BackfillProgress(ids, i, spots, geo, updated)
        invariant ShortWaitsAfter(old(waits), waits, |updated|)
      {
        var id := ids[i];
        assert Docs(store.data, spotsGeoRef) == geo;
        ghost var before := waits;
        var step, wrote := BackfillDocument(id);
        if step.Fail? {
          return step, updated;
        }
        if wrote {
          ShortWaitsStep(old(waits), before, waits, |updated|);
          BackfilledStep(spots, geo, updated, id);
          BackfillProgressWrite(ids, i, spots, geo, updated);
          updated := updated + [id];
        } else {
          BackfillProgressSkip(ids, i, spots, geo, updated);
        }
      }
      r := Pass;
    }

    /**
      The body of `copy_geo_hash`'s loop for the spots document `id`:
      without a geo document nothing happens; a geo document without `g`
      is an error; otherwise `g` is merged into the spots document as
      `geohash` and a wait of at most 3 seconds follows. `wrote` says
      whether the merge was made.
     */
    method BackfillDocument(id: string) returns (r: Outcome<BackfillError>, wrote: bool)
      requires Valid()
      modifies store, this`waits
      ensures forall c | c != spotsRef :: Docs(store.data, c) == Docs(old(store.data), c)
      ensures wrote <==> id in Docs(old(store.data), spotsGeoRef) && "g" in Docs(old(store.data), spotsGeoRef)[id]
      ensures r.Fail? <==> id in Docs(old(store.data), spotsGeoRef) && "g" !in Docs(old(store.data), spotsGeoRef)[id]
      ensures r.Fail? ==> r.error == MissingGeohash(id)
      ensures !wrote ==> store.data == old(store.data) && waits == old(waits)
      ensures id !in Docs(old(store.data), spotsRef) ==> Docs(store.data, spotsRef) == Docs(old(store.data), spotsRef)
      ensures wrote && id in Docs(old(store.data), spotsRef) ==>
        Docs(store.data, spotsRef) == Docs(old(store.data), spotsRef)[id :=
          Docs(old(store.data), spotsRef)[id] + map["geohash" := Docs(old(store.data), spotsGeoRef)[id]["g"]]]
      ensures wrote ==> |waits| == |old(waits)| + 1 && waits[..|old(waits)|] == old(waits) && 0 <= waits[|old(waits)|] <= 3
    {
      var geoDoc := store.GetDocument(spotsGeoRef, id);
      if geoDoc.None? {
        return Pass, false;
      }
      if "g" !in geoDoc.value {
        return Fail(MissingGeohash(id)), false;
      }
      var _ := store.AddFieldToDocument(spotsRef, id, map["geohash" := geoDoc.value["g"]]);
      var seconds := WaitForRandomSeconds(max := 3);
      assert waits[|old(waits)|] == seconds;
      r, wrote := Pass, true;
    }
  }

  /**
    Each turn in `attempts` stays on its page or moves to the next one,
    and stays whenever the feed fails on its page. Turn i makes feed call
    `start + i`.
   */
  predicate PagesAdvance(source: PhotoSource, start: nat, attempts: seq<int>) {
    forall i | 0 <= i < |attempts| - 1 ::
      (attempts[i + 1] == attempts[i] || attempts[i + 1] == attempts[i] + 1) &&
      (source(start + i, PageFor(attempts[i])).Err? ==> attempts[i + 1] == attempts[i])
  }

  /** One more turn that behaves as a turn must extends the run. */
  lemma PagesAdvanceAppend(source: PhotoSource, start: nat, attempts: seq<int>, next: int)
    requires PagesAdvance(source, start, attempts) && |attempts| > 0
    requires var last := attempts[|attempts| - 1];
      (next == last || next == last + 1) && (source(start + |attempts| - 1, PageFor(last)).Err? ==> next == last)
    ensures PagesAdvance(source, start, attempts + [next])
  {
    var longer := attempts + [next];
    assert forall i | 0 <= i < |attempts| :: longer[i] == attempts[i];
  }

  /** Every document of `c` in `before` is still there in `after`, unchanged, and no other collection differs. */
  ghost predicate KeepsDocuments(before: Store, after: Store, c: string) {
    (forall id | id in Docs(before, c) :: id in Docs(after, c) && Docs(after, c)[id] == Docs(before, c)[id]) &&
    (forall d | d != c :: Docs(after, d) == Docs(before, d))
  }

  lemma KeepsDocumentsTransitive(a: Store, b: Store, c: Store, name: string)
    requires KeepsDocuments(a, b, name) && KeepsDocuments(b, c, name)
    ensures KeepsDocuments(a, c, name)
  {
  }

  /** Writes under fresh ids keep every document. */
  lemma FreshWritesKeepDocuments(s: Store, c: string, entries: seq<Snapshot>)
    requires FreshEntries(entries, Docs(s, c).Keys)
    ensures KeepsDocuments(s, SetEach(s, c, entries), c)
  {
    SetEachFreshGrows(s, c, entries);
    forall d | d != c ensures Docs(SetEach(s, c, entries), d) == Docs(s, d) {
      SetEachOthers(s, c, entries, d);
    }
  }

  /** `after` is `before` followed by `n` waits of at most 3 seconds each. */
  predicate ShortWaitsAfter(before: seq<int>, after: seq<int>, n: nat) {
    |after| == |before| + n && after[..|before|] == before &&
    forall k | |before| <= k < |after| :: 0 <= after[k] <= 3
  }

  /** One more short wait extends the run of short waits. */
  lemma ShortWaitsStep(start: seq<int>, before: seq<int>, after: seq<int>, n: nat)
    requires ShortWaitsAfter(start, before, n)
    requires |after| == |before| + 1 && after[..|before|] == before && 0 <= after[|before|] <= 3
    ensures ShortWaitsAfter(start, after, n + 1)
  {
    assert forall k | 0 <= k < |before| :: after[k] == before[k];
  }

  /**
    After the first `i` of `ids`: `updated` lists, without repeats and in
    order, those ids that have both a spots and a geo document, the geo
    document holding `g`, and no other.
   */
  ghost predicate BackfillProgress(ids: seq<string>, i: nat, spots: Collection, geo: Collection, updated: seq<string>)
    requires i <= |ids|
  {
    (forall k | 0 <= k < |updated| :: updated[k] in spots && updated[k] in geo && "g" in geo[updated[k]] && updated[k] in ids[..i]) &&
    (forall k, l | 0 <= k < l < |updated| :: updated[k] != updated[l]) &&
    (forall j | 0 <= j < i && ids[j] in geo :: ids[j] in updated)
  }

  /** Writing the next id extends the progress. */
  lemma BackfillProgressWrite(ids: seq<string>, i: nat, spots: Collection, geo: Collection, updated: seq<string>)
    requires i < |ids| && BackfillProgress(ids, i, spots, geo, updated)
    requires forall j, k | 0 <= j < k < |ids| :: ids[j] != ids[k]
    requires ids[i] in spots && ids[i] in geo && "g" in geo[ids[i]]
    ensures ids[i] !in updated
    ensures BackfillProgress(ids, i + 1, spots, geo, updated + [ids[i]])
  {
    assert ids[i] !in ids[..i];
    assert ids[..i + 1] == ids[..i] + [ids[i]];
  }

  /** Skipping the next id, which has no geo document, keeps the progress. */
  lemma BackfillProgressSkip(ids: seq<string>, i: nat, spots: Collection, geo: Collection, updated: seq<string>)
    requires i < |ids| && BackfillProgress(ids, i, spots, geo, updated)
    requires ids[i] !in geo
    ensures BackfillProgress(ids, i + 1, spots, geo, updated)
  {
    assert ids[..i + 1] == ids[..i] + [ids[i]];
  }

  /** Backfilling one more id changes exactly that spots document. */
  lemma BackfilledStep(spots: Collection, geo: Collection, done: seq<string>, id: string)
    requires id in spots && id in geo && "g" in geo[id] && id !in done
    ensures Backfilled(spots, geo, done + [id]) ==
      Backfilled(spots, geo, done)[id := spots[id] + map["geohash" := geo[id]["g"]]]
  {
  }

  /** A document holding a geographic point anywhere makes the export fail. */
  lemma PointBlocksExport(c: Collection, id: string, key: string, x: Externals)
    requires id in c && key in c[id] && HasGeoPoint(c[id][key])
    ensures Dump(DocsValue(c), x).Err?
  {
    assert HasGeoPoint(VMap(c[id]));
    assert DocsValue(c).fields[id] == VMap(c[id]);
  }

  /** Every photo the cycle writes holds its point, so a photos collection holding one cannot be exported. */
  lemma ExportOfIngestedPhotoFails(c: Collection, id: string, p: Photo, x: Externals)
    requires id in c && c[id] == PhotoDict(p)
    ensures Dump(DocsValue(c), x).Err?
  {
    var location := VMap(LocationDict(p.location));
    assert LocationDict(p.location)["position"] == VGeo(p.location.position);
    assert HasGeoPoint(location);
    PointBlocksExport(c, id, "location", x);
  }

  /**
    Export followed by import gives back the collection when its documents
    are portable and no document is named `created` or `position` (the
    hook also runs on the file's outer object), provided that a
    timestamp's ISO text parses back to it.
   */
  lemma ExportThenImport(c: Collection, x: Externals)
    requires forall t :: x.parse(x.isoformat(t)) == Some(t)
    requires forall id | id in c :: Portable(VMap(c[id]))
    requires "created" !in c && "position" !in c
    ensures Dump(DocsValue(c), x).Ok?
    ensures Load(Dump(DocsValue(c), x).value, x) == Some(DocsValue(c))
    ensures FileDocuments(DocsValue(c).fields) == c
  {
    assert Portable(DocsValue(c));
    DumpThenLoad(DocsValue(c), x);
  }

  /**
    A document named `created` cannot be imported: the hook, run on the
    file's outer object, hands that document to the date parser.
   */
  lemma DocumentNamedCreatedBlocksImport(c: Collection, x: Externals)
    requires "created" in c && Dump(DocsValue(c), x).Ok?
    ensures Load(Dump(DocsValue(c), x).value, x) == None
  {
    var m := DocsValue(c).fields;
    var dumped := DumpFields(m, x);
    assert Dump(DocsValue(c), x) == Ok(VMap(dumped));
    assert m["created"] == VMap(c["created"]);
    DumpedObjectIsObject(c["created"], x);
    CreatedObjectBlocksLoad(dumped, x);
  }

  /** The writer turns an object into an object. */
  lemma DumpedObjectIsObject(m: Fields, x: Externals)
    requires Dump(VMap(m), x).Ok?
    ensures Dump(VMap(m), x).value.VMap?
  {
  }
}

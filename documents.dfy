/**
  The value domain of the document store: the field values a stored
  document can hold, documents as field maps, collections as maps from
  document id to document, and the store as a map from collection id to
  collection. Also the pure meaning of the store's write operations.
 */
module Documents {
  import opened Wrappers

  /** The error the provider clients raise when a call is refused. */
  datatype ApiClientError = ApiClientError

  /** A timestamp. Opaque: calendar arithmetic and time zones are not modelled. */
  datatype DateTime = DateTime(stamp: int)

  /**
    A field value: the JSON-native kinds, plus the two store-native kinds
    that JSON cannot hold, a timestamp and a geographic point.
   */
  datatype Value =
    | VNull
    | VBool(b: bool)
    | VInt(i: int)
    | VFloat(x: real)
    | VStr(s: string)
    | VList(items: seq<Value>)
    | VMap(fields: map<string, Value>)
    | VTime(time: DateTime)
    | VGeo(point: GeoPoint)

  /**
    A geographic point. Its coordinates are kept as opaque values: the
    program only ever asks whether one of them is None (VNull).
   */
  datatype GeoPoint = GeoPoint(latitude: Value, longitude: Value)

  type Fields = map<string, Value>
  type Collection = map<string, Fields>
  type Store = map<string, Collection>

  /** One listed document: its id and its field map. */
  datatype Snapshot = Snapshot(id: string, data: Fields)

  /**
    Routines of foreign libraries, left uninterpreted: date parsing
    (None when the text is not a date), ISO-8601 rendering, and the MD5
    hex digest of a string's UTF-8 bytes.
   */
  datatype Externals = Externals(
    parse: string -> Option<DateTime>,
    isoformat: DateTime -> string,
    md5HexDigest: string -> string)

  /** The documents of collection `c`; a collection never written is empty. */
  function Docs(s: Store, c: string): Collection {
    if c in s then s[c] else map[]
  }

  /** `document(id).set(data)`: replaces the whole document, touching nothing else. */
  function SetDocument(s: Store, c: string, id: string, data: Fields): Store {
    s[c := Docs(s, c)[id := data]]
  }

  /** Replaces every document of `c` named in `docs`, keeping the others; no documents, no change. */
  function Overwrite(s: Store, c: string, docs: Collection): Store {
    if docs == map[] then s else s[c := Docs(s, c) + docs]
  }

  /** The ids of a list of snapshots, in order. */
  function Ids(entries: seq<Snapshot>): (ids: seq<string>)
    ensures |ids| == |entries|
    ensures forall i | 0 <= i < |entries| :: ids[i] == entries[i].id
  {
    if entries == [] then [] else Ids(entries[..|entries| - 1]) + [entries[|entries| - 1].id]
  }

  /** Position of the last entry whose id is `id`. */
  predicate IsLastWith(entries: seq<Snapshot>, i: int, id: string) {
    0 <= i < |entries| && entries[i].id == id &&
    forall j | i < j < |entries| :: entries[j].id != id
  }

  /**
    The map built by storing the entries one after the other under their
    ids, a later entry with the same id overwriting an earlier one.
   */
  function LastWins(entries: seq<Snapshot>): Collection {
    if entries == [] then map[]
    else
      var last := entries[|entries| - 1];
      LastWins(entries[..|entries| - 1])[last.id := last.data]
  }

  /** Exactly the listed ids are keys of the last-write-wins map. */
  lemma {:induction false} LastWinsKeys(entries: seq<Snapshot>)
    ensures forall id :: id in LastWins(entries) <==> id in Ids(entries)
  {
    if entries != [] {
      var init := entries[..|entries| - 1];
      LastWinsKeys(init);
      assert Ids(entries) == Ids(init) + [entries[|entries| - 1].id];
    }
  }

  /** Under each id the last-write-wins map holds the data of the last entry with that id. */
  lemma {:induction false} LastWinsValue(entries: seq<Snapshot>, i: int)
    requires 0 <= i < |entries| && IsLastWith(entries, i, entries[i].id)
    ensures entries[i].id in LastWins(entries)
    ensures LastWins(entries)[entries[i].id] == entries[i].data
  {
    if i < |entries| - 1 {
      var init := entries[..|entries| - 1];
      assert init[i] == entries[i];
      LastWinsValue(init, i);
    }
  }

  /** Writing the entries one after the other into collection `c` with `SetDocument`. */
  function SetEach(s: Store, c: string, entries: seq<Snapshot>): Store {
    if entries == [] then s
    else
      var last := entries[|entries| - 1];
      SetDocument(SetEach(s, c, entries[..|entries| - 1]), c, last.id, last.data)
  }

  /** Updating a merge is merging the updated right-hand side. */
  lemma MergeThenUpdate<K, V>(a: map<K, V>, b: map<K, V>, k: K, v: V)
    ensures (a + b)[k := v] == a + b[k := v]
  {
  }

  /** Merging maps with disjoint keys keeps the left-hand entries and adds up the sizes. */
  lemma DisjointMerge<K, V>(a: map<K, V>, b: map<K, V>)
    requires forall k | k in b :: k !in a
    ensures |a + b| == |a| + |b|
    ensures forall k | k in a :: k in a + b && (a + b)[k] == a[k]
  {
    assert (a + b).Keys == a.Keys + b.Keys;
    assert a.Keys * b.Keys == {};
  }

  /** Replacing a collection twice keeps only the second replacement. */
  lemma ReplaceTwice(s: Store, c: string, first: Collection, second: Collection)
    ensures s[c := first][c := second] == s[c := second]
  {
  }

  /** A non-empty sequence of writes merges the entries' last-write-wins map into the collection. */
  lemma {:induction false} SetEachIsMerge(s: Store, c: string, entries: seq<Snapshot>)
    requires entries != []
    ensures SetEach(s, c, entries) == s[c := Docs(s, c) + LastWins(entries)]
  {
    var init, last := entries[..|entries| - 1], entries[|entries| - 1];
    var merged := Docs(s, c) + LastWins(init);
    var before := SetEach(s, c, init);
    assert Docs(before, c) == merged && before[c := merged[last.id := last.data]] == s[c := merged[last.id := last.data]] by {
      if init == [] {
        assert merged == Docs(s, c);
        assert before == s;
      } else {
        SetEachIsMerge(s, c, init);
        ReplaceTwice(s, c, merged, merged[last.id := last.data]);
      }
    }
    assert SetEach(s, c, entries) == before[c := merged[last.id := last.data]];
    assert LastWins(entries) == LastWins(init)[last.id := last.data];
    MergeThenUpdate(Docs(s, c), LastWins(init), last.id, last.data);
  }

  /** Writes to `c` leave every other collection as it was. */
  lemma SetEachOthers(s: Store, c: string, entries: seq<Snapshot>, d: string)
    requires d != c
    ensures Docs(SetEach(s, c, entries), d) == Docs(s, d)
  {
    if entries != [] {
      SetEachIsMerge(s, c, entries);
    }
  }

  /** A sequence of writes is one overwrite by the last-write-wins map of the entries. */
  lemma SetEachIsOverwrite(s: Store, c: string, entries: seq<Snapshot>)
    ensures SetEach(s, c, entries) == Overwrite(s, c, LastWins(entries))
  {
    if entries != [] {
      SetEachIsMerge(s, c, entries);
      assert entries[|entries| - 1].id in LastWins(entries);
    }
  }

  /** Writing the same documents twice leaves the store as after writing them once. */
  lemma SetEachTwice(s: Store, c: string, entries: seq<Snapshot>)
    ensures SetEach(SetEach(s, c, entries), c, entries) == SetEach(s, c, entries)
  {
    var once := SetEach(s, c, entries);
    SetEachIsOverwrite(s, c, entries);
    SetEachIsOverwrite(once, c, entries);
    assert Docs(once, c) + LastWins(entries) == Docs(once, c);
  }

  /** Entries with pairwise distinct ids, none of them among `keys`. */
  predicate FreshEntries(entries: seq<Snapshot>, keys: set<string>) {
    (forall i | 0 <= i < |entries| :: entries[i].id !in keys) &&
    (forall i, j | 0 <= i < j < |entries| :: entries[i].id != entries[j].id)
  }

  /** An entry whose id is new to both `keys` and the entries keeps them fresh. */
  lemma FreshEntriesAppend(entries: seq<Snapshot>, keys: set<string>, e: Snapshot)
    requires FreshEntries(entries, keys) && e.id !in keys && e.id !in Ids(entries)
    ensures FreshEntries(entries + [e], keys)
  {
    assert forall i | 0 <= i < |entries| :: Ids(entries)[i] == entries[i].id;
  }

  /** Fresh for a set of keys means fresh for any smaller one. */
  lemma FreshEntriesEmpty(entries: seq<Snapshot>, keys: set<string>)
    requires FreshEntries(entries, keys)
    ensures FreshEntries(entries, {})
  {
  }

  /** One more write extends both the write sequence and the last-write-wins map by that write. */
  lemma SetEachAppend(s: Store, c: string, written: seq<Snapshot>, e: Snapshot)
    ensures SetEach(s, c, written + [e]) == SetDocument(SetEach(s, c, written), c, e.id, e.data)
    ensures LastWins(written + [e]) == LastWins(written)[e.id := e.data]
  {
    assert (written + [e])[..|written|] == written;
  }

  /** A write under an id the collection lacks keeps the writes fresh. */
  lemma AppendFreshWrite(s: Store, c: string, written: seq<Snapshot>, e: Snapshot)
    requires FreshEntries(written, Docs(s, c).Keys)
    requires e.id !in Docs(SetEach(s, c, written), c)
    ensures FreshEntries(written + [e], Docs(s, c).Keys)
  {
    SetEachKeys(s, c, written);
    FreshEntriesAppend(written, Docs(s, c).Keys, e);
  }

  /** After the writes, a document exists exactly under the old ids and the written ones. */
  lemma {:induction false} SetEachKeys(s: Store, c: string, entries: seq<Snapshot>)
    ensures forall id :: id in Docs(SetEach(s, c, entries), c) <==> id in Docs(s, c) || id in Ids(entries)
  {
    if entries != [] {
      var init := entries[..|entries| - 1];
      SetEachKeys(s, c, init);
      assert Ids(entries) == Ids(init) + [entries[|entries| - 1].id];
    }
  }

  /** Entries with distinct ids give a map with one key per entry. */
  lemma {:induction false} LastWinsSize(entries: seq<Snapshot>)
    requires FreshEntries(entries, {})
    ensures |LastWins(entries)| == |entries|
  {
    if entries != [] {
      var init, last := entries[..|entries| - 1], entries[|entries| - 1];
      assert FreshEntries(init, {}) by {
        forall i | 0 <= i < |init| ensures init[i] == entries[i] { }
      }
      LastWinsSize(init);
      LastWinsKeys(init);
      assert last.id !in Ids(init) by {
        forall i | 0 <= i < |init| ensures Ids(init)[i] != last.id {
          assert init[i] == entries[i];
        }
      }
    }
  }

  /** After the writes the collection holds its old documents merged with the entries' last-write-wins map. */
  lemma SetEachDocs(s: Store, c: string, entries: seq<Snapshot>)
    ensures Docs(SetEach(s, c, entries), c) == Docs(s, c) + LastWins(entries)
  {
    if entries == [] {
      assert Docs(s, c) + LastWins(entries) == Docs(s, c);
    } else {
      SetEachIsMerge(s, c, entries);
    }
  }

  /** Fresh entries neither collide with the collection nor with each other. */
  lemma FreshEntriesDisjoint(s: Store, c: string, entries: seq<Snapshot>)
    requires FreshEntries(entries, Docs(s, c).Keys)
    ensures forall id | id in LastWins(entries) :: id !in Docs(s, c)
    ensures |LastWins(entries)| == |entries|
  {
    LastWinsKeys(entries);
    forall id | id in LastWins(entries) ensures id !in Docs(s, c) {
      var i :| 0 <= i < |entries| && Ids(entries)[i] == id;
    }
    LastWinsSize(entries);
  }

  /** Each of distinct entries is found, with its data, after the writes. */
  lemma SetEachHoldsEntries(s: Store, c: string, entries: seq<Snapshot>)
    requires FreshEntries(entries, {})
    ensures forall i | 0 <= i < |entries| :: entries[i].id in Docs(SetEach(s, c, entries), c) && Docs(SetEach(s, c, entries), c)[entries[i].id] == entries[i].data
  {
    SetEachDocs(s, c, entries);
    forall i | 0 <= i < |entries|
      ensures entries[i].id in LastWins(entries) && LastWins(entries)[entries[i].id] == entries[i].data
    {
      LastWinsValue(entries, i);
    }
  }

  /**
    Inserting documents under fresh ids keeps every existing document and
    grows the collection by exactly one document per entry.
   */
  lemma SetEachFreshGrows(s: Store, c: string, entries: seq<Snapshot>)
    requires FreshEntries(entries, Docs(s, c).Keys)
    ensures |Docs(SetEach(s, c, entries), c)| == |Docs(s, c)| + |entries|
    ensures forall id | id in Docs(s, c) :: id in Docs(SetEach(s, c, entries), c) && Docs(SetEach(s, c, entries), c)[id] == Docs(s, c)[id]
    ensures forall i | 0 <= i < |entries| :: entries[i].id in Docs(SetEach(s, c, entries), c) && Docs(SetEach(s, c, entries), c)[entries[i].id] == entries[i].data
  {
    SetEachDocs(s, c, entries);
    FreshEntriesDisjoint(s, c, entries);
    DisjointMerge(Docs(s, c), LastWins(entries));
    SetEachHoldsEntries(s, c, entries);
  }

  /** The longest string in a finite set is no longer than the result. */
  ghost function MaxLength(keys: set<string>): (n: nat)
    ensures forall k | k in keys :: |k| <= n
    decreases keys
  {
    if keys == {} then 0
    else
      var k :| k in keys;
      var rest := MaxLength(keys - {k});
      if |k| > rest then |k| else rest
  }

  /** A finite set of ids always leaves an id free, so auto-ids can always be drawn. */
  lemma FreshIdExists(keys: set<string>)
    ensures exists id: string :: id !in keys
  {
    var id := seq(MaxLength(keys) + 1, _ => 'x');
    assert id !in keys;
  }
}

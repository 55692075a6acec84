/**
  The hooks that carry store-native values through the export file:
  `load_scout_data_types`, the object hook of the JSON reader, and
  `dump_scout_data_types`, the fallback of the JSON writer, together with
  the tree walks the JSON library makes around them. A JSON document is
  represented by the `Value` it parses to; its text layout is not modelled.
 */
module Codec {
  import opened Wrappers
  import opened Documents

  /** The Python exception a hook raises. */
  datatype CodecError = TypeError | KeyError(key: string) | ParserError

  /** `parse(value)`: a non-string is a type error, a string that is no date a parser error. */
  function ParseCreated(v: Value, x: Externals): Result<Value, CodecError> {
    match v
    case VStr(text) =>
      (match x.parse(text)
       case Some(t) => Ok(VTime(t))
       case None => Err(ParserError))
    case _ => Err(TypeError)
  }

  /** `GeoPoint(value['latitude'], value['longitude'])`, the latitude looked up first. */
  function BuildPosition(v: Value): Result<Value, CodecError> {
    match v
    case VMap(m) =>
      if "latitude" !in m then Err(KeyError("latitude"))
      else if "longitude" !in m then Err(KeyError("longitude"))
      else Ok(VGeo(GeoPoint(m["latitude"], m["longitude"])))
    case _ => Err(TypeError)
  }

  /** The value `load_scout_data_types` leaves under `key` in place of `v`. */
  function ConvertField(key: string, v: Value, x: Externals): Result<Value, CodecError> {
    if key == "created" then ParseCreated(v, x)
    else if key == "position" then BuildPosition(v)
    else Ok(v)
  }

  /** Every key of the dict converts without raising. */
  predicate Convertible(d: Fields, x: Externals) {
    forall k | k in d :: ConvertField(k, d[k], x).Ok?
  }

  /** What the hook makes of one dict, a raised exception collapsed to None. */
  function LoadDict(d: Fields, x: Externals): Option<Fields> {
    if Convertible(d, x) then Some(map k | k in d :: ConvertField(k, d[k], x).value) else None
  }

  /**
    `load_scout_data_types`: rewrites the dict key by key in the order the
    dict is traversed (left open here), replacing the value under `created`
    by the parsed timestamp and the value under `position` by a point, and
    stopping at the first key whose conversion raises.
   */
  method LoadScoutDataTypes(jsonDict: Fields, x: Externals) returns (r: Result<Fields, CodecError>)
    ensures r.Ok? <==> Convertible(jsonDict, x)
    ensures r.Ok? ==> r.value.Keys == jsonDict.Keys
    ensures r.Ok? ==> forall k | k in jsonDict && k != "created" && k != "position" :: r.value[k] == jsonDict[k]
    ensures r.Ok? && "created" in jsonDict ==>
      jsonDict["created"].VStr? && x.parse(jsonDict["created"].s).Some? &&
      r.value["created"] == VTime(x.parse(jsonDict["created"].s).value)
    ensures r.Ok? && "position" in jsonDict ==>
      jsonDict["position"].VMap? &&
      "latitude" in jsonDict["position"].fields && "longitude" in jsonDict["position"].fields &&
      r.value["position"] == VGeo(GeoPoint(jsonDict["position"].fields["latitude"], jsonDict["position"].fields["longitude"]))
    ensures r.Ok? ==> LoadDict(jsonDict, x) == Some(r.value)
    ensures r.Err? ==> exists k | k in jsonDict :: ConvertField(k, jsonDict[k], x) == Err(r.error)
  {
    var out := jsonDict;
    var todo := jsonDict.Keys;
    while todo != {}
      invariant todo <= jsonDict.Keys && out.Keys == jsonDict.Keys
      invariant forall k | k in todo :: out[k] == jsonDict[k]
      invariant forall k | k in jsonDict && k !in todo ::
        ConvertField(k, jsonDict[k], x).Ok? && out[k] == ConvertField(k, jsonDict[k], x).value
      decreases todo
    {
      var key :| key in todo;
      var converted := ConvertField(key, out[key], x);
      if converted.Err? {
        return Err(converted.error);
      }
      out := out[key := converted.value];
      todo := todo - {key};
    }
    assert out == map k | k in jsonDict :: ConvertField(k, jsonDict[k], x).value;
    r := Ok(out);
  }

  /**
    `json.load(file, object_hook=load_scout_data_types)` applied to the
    parsed tree: the hook runs on every object, inner objects first, and any
    exception aborts the whole load.
   */
  function Load(v: Value, x: Externals): Option<Value>
    decreases v, 1
  {
    match v
    case VList(s) =>
      if forall i | 0 <= i < |s| :: Load(s[i], x).Some? then Some(VList(LoadItems(s, x))) else None
    case VMap(m) =>
      if forall k | k in m :: Load(m[k], x).Some?
      then
        (match LoadDict(LoadFields(m, x), x)
         case Some(d) => Some(VMap(d))
         case None => None)
      else None
    case _ => Some(v)
  }

  /**
    An object whose `created` entry is itself an object cannot be loaded:
    the hook hands that object to the date parser.
   */
  lemma CreatedObjectBlocksLoad(m: Fields, x: Externals)
    requires "created" in m && m["created"].VMap?
    ensures Load(VMap(m), x) == None
  {
    if forall k | k in m :: Load(m[k], x).Some? {
      var loaded := LoadFields(m, x);
      assert Load(m["created"], x).value.VMap?;
      assert loaded["created"].VMap?;
      assert ConvertField("created", loaded["created"], x) == Err(TypeError);
    }
  }

  /** The loaded elements of a list whose elements all load. */
  function LoadItems(s: seq<Value>, x: Externals): seq<Value>
    requires forall i | 0 <= i < |s| :: Load(s[i], x).Some?
    decreases VList(s), 0
  {
    seq(|s|, i requires 0 <= i < |s| => Load(s[i], x).value)
  }

  /** The loaded values of an object whose values all load, before the hook runs on it. */
  function LoadFields(m: Fields, x: Externals): Fields
    requires forall k | k in m :: Load(m[k], x).Some?
    decreases VMap(m), 0
  {
    map k | k in m :: Load(m[k], x).value
  }

  /**
    `dump_scout_data_types`, the fallback the JSON writer calls for a value
    it cannot write: a timestamp becomes its ISO-8601 text, and every other
    value, a geographic point included, raises a type error.
   */
  function DumpScoutDataTypes(o: Value, x: Externals): Result<Value, CodecError> {
    if o.VTime? then Ok(VStr(x.isoformat(o.time))) else Err(TypeError)
  }

  /** The value holds a geographic point somewhere. */
  predicate HasGeoPoint(v: Value) {
    match v
    case VGeo(_) => true
    case VList(s) => exists i | 0 <= i < |s| :: HasGeoPoint(s[i])
    case VMap(m) => exists k | k in m :: HasGeoPoint(m[k])
    case _ => false
  }

  /** The value is JSON-native all the way down: no timestamp, no point. */
  predicate IsJson(v: Value) {
    match v
    case VTime(_) => false
    case VGeo(_) => false
    case VList(s) => forall i | 0 <= i < |s| :: IsJson(s[i])
    case VMap(m) => forall k | k in m :: IsJson(m[k])
    case _ => true
  }

  /**
    `json.dump(data, file, default=dump_scout_data_types)` as a tree walk:
    the native values are written as they are and the fallback is called
    for the others. It succeeds exactly when no geographic point occurs,
    and then yields a JSON-native tree.
   */
  function Dump(v: Value, x: Externals): (r: Result<Value, CodecError>)
    ensures r.Ok? <==> !HasGeoPoint(v)
    ensures r.Ok? ==> IsJson(r.value)
    ensures r.Err? ==> r.error == TypeError
    decreases v, 1
  {
    match v
    case VTime(_) => DumpScoutDataTypes(v, x)
    case VGeo(_) => DumpScoutDataTypes(v, x)
    case VList(s) =>
      if forall i | 0 <= i < |s| :: Dump(s[i], x).Ok? then Ok(VList(DumpItems(s, x))) else Err(TypeError)
    case VMap(m) =>
      if forall k | k in m :: Dump(m[k], x).Ok? then Ok(VMap(DumpFields(m, x))) else Err(TypeError)
    case _ => Ok(v)
  }

  /** The written elements of a list whose elements can all be written. */
  function DumpItems(s: seq<Value>, x: Externals): seq<Value>
    requires forall i | 0 <= i < |s| :: Dump(s[i], x).Ok?
    decreases VList(s), 0
  {
    seq(|s|, i requires 0 <= i < |s| => Dump(s[i], x).value)
  }

  /** The written values of an object whose values can all be written. */
  function DumpFields(m: Fields, x: Externals): Fields
    requires forall k | k in m :: Dump(m[k], x).Ok?
    decreases VMap(m), 0
  {
    map k | k in m :: Dump(m[k], x).value
  }

  /** The writer leaves a JSON-native value as it is. */
  lemma {:induction false} DumpKeepsJson(v: Value, x: Externals)
    requires IsJson(v)
    ensures Dump(v, x) == Ok(v)
  {
    match v
    case VList(s) =>
      forall i | 0 <= i < |s| ensures Dump(s[i], x) == Ok(s[i]) {
        DumpKeepsJson(s[i], x);
      }
      assert DumpItems(s, x) == s;
    case VMap(m) =>
      forall k | k in m ensures Dump(m[k], x) == Ok(m[k]) {
        DumpKeepsJson(m[k], x);
      }
      assert DumpFields(m, x) == m;
    case _ =>
  }

  /**
    The values the name-driven codec carries through a file unchanged:
    every timestamp stands directly under a `created` key, every `created`
    key holds a timestamp, and there is neither a `position` key nor a
    geographic point.
   */
  predicate Portable(v: Value) {
    match v
    case VTime(_) => false
    case VGeo(_) => false
    case VList(s) => forall i | 0 <= i < |s| :: Portable(s[i])
    case VMap(m) =>
      "position" !in m &&
      forall k | k in m :: if k == "created" then m[k].VTime? else Portable(m[k])
    case _ => true
  }

  /**
    Writing a portable value and reading it back gives the value again,
    provided that parsing the ISO text of a timestamp gives that timestamp
    (an assumption about the date library, not something shown here).
   */
  lemma {:induction false} DumpThenLoad(v: Value, x: Externals)
    requires forall t :: x.parse(x.isoformat(t)) == Some(t)
    requires Portable(v)
    ensures Dump(v, x).Ok? && Load(Dump(v, x).value, x) == Some(v)
    decreases v, 1
  {
    match v
    case VList(s) => DumpThenLoadList(s, x);
    case VMap(m) => DumpThenLoadFields(m, x);
    case _ =>
  }

  /** `DumpThenLoad` for a list: each element comes back. */
  lemma {:induction false} DumpThenLoadList(s: seq<Value>, x: Externals)
    requires forall t :: x.parse(x.isoformat(t)) == Some(t)
    requires Portable(VList(s))
    ensures Dump(VList(s), x).Ok? && Load(Dump(VList(s), x).value, x) == Some(VList(s))
    decreases VList(s), 0
  {
    forall i | 0 <= i < |s| ensures Dump(s[i], x).Ok? && Load(Dump(s[i], x).value, x) == Some(s[i]) {
      DumpThenLoad(s[i], x);
    }
    var dumped := DumpItems(s, x);
    assert Dump(VList(s), x) == Ok(VList(dumped));
    assert forall i | 0 <= i < |dumped| :: Load(dumped[i], x) == Some(s[i]);
    assert LoadItems(dumped, x) == s;
  }

  /**
    `DumpThenLoad` for an object: the timestamp under `created` is written
    as its ISO text, every other value comes back by itself, and the hook
    parses the text back.
   */
  lemma {:induction false} DumpThenLoadFields(m: Fields, x: Externals)
    requires forall t :: x.parse(x.isoformat(t)) == Some(t)
    requires Portable(VMap(m))
    ensures Dump(VMap(m), x).Ok? && Load(Dump(VMap(m), x).value, x) == Some(VMap(m))
    decreases VMap(m), 0
  {
    forall k | k in m
      ensures Dump(m[k], x).Ok?
      ensures Load(Dump(m[k], x).value, x) == Some(if k == "created" then VStr(x.isoformat(m[k].time)) else m[k])
    {
      if k != "created" {
        DumpThenLoad(m[k], x);
      }
    }
    var dumped := DumpFields(m, x);
    assert Dump(VMap(m), x) == Ok(VMap(dumped));
    var loaded := LoadFields(dumped, x);
    assert forall k | k in m :: loaded[k] == if k == "created" then VStr(x.isoformat(m[k].time)) else m[k];
    HookRestoresCreated(loaded, m, x);
  }

  /** On an object whose `created` text is a timestamp's ISO text, the hook gives back the object with the timestamp. */
  lemma HookRestoresCreated(loaded: Fields, m: Fields, x: Externals)
    requires forall t :: x.parse(x.isoformat(t)) == Some(t)
    requires "position" !in m && ("created" in m ==> m["created"].VTime?)
    requires loaded.Keys == m.Keys
    requires forall k | k in m :: loaded[k] == if k == "created" then VStr(x.isoformat(m[k].time)) else m[k]
    ensures LoadDict(loaded, x) == Some(m)
  {
    assert forall k | k in loaded :: ConvertField(k, loaded[k], x) == Ok(m[k]);
    assert (map k | k in loaded :: ConvertField(k, loaded[k], x).value) == m;
  }

  /**
    The decode is driven by names: a text field that happens to be called
    `created` comes back from the file as a timestamp.
   */
  lemma CreatedTextComesBackAsTimestamp(text: string, t: DateTime, x: Externals)
    requires x.parse(text) == Some(t)
    ensures Dump(VMap(map["created" := VStr(text)]), x) == Ok(VMap(map["created" := VStr(text)]))
    ensures Load(VMap(map["created" := VStr(text)]), x) == Some(VMap(map["created" := VTime(t)]))
  {
    var m := map["created" := VStr(text)];
    DumpKeepsJson(VMap(m), x);
    assert LoadFields(m, x) == m;
    assert (map k | k in m :: ConvertField(k, m[k], x).value) == map["created" := VTime(t)];
  }
}

/**
  The record schema: the validated models a photo is built from, with the
  check a model makes when it is constructed from a field map (a required
  field must be present and of its kind; an optional one may be missing or
  None and then defaults to None; unknown keys are ignored) and the field
  map `dict()` gives back.
 */
module Models {
  import opened Wrappers
  import opened Documents

  datatype Exif = Exif(
    aperture: Option<string>,
    exposureTime: Option<string>,
    focalLength: Option<string>,
    iso: Option<int>,
    make: Option<string>,
    model: Option<string>)

  datatype Location = Location(city: Option<string>, country: Option<string>, position: GeoPoint)

  datatype PhotoUrls = PhotoUrls(full: string, raw: string, regular: string, small: string, thumb: string)

  datatype User = User(name: string)

  datatype Photo = Photo(
    rawId: string,
    provider: string,
    likes: int,
    location: Location,
    exif: Exif,
    tags: Fields,
    created: DateTime,
    urls: PhotoUrls,
    user: User)

  /** Construction failed at the field with this path (the first bad field in declaration order). */
  datatype ValidationError = ValidationError(loc: seq<string>)

  function AsStr(v: Value): Option<string> {
    if v.VStr? then Some(v.s) else None
  }

  function AsInt(v: Value): Option<int> {
    if v.VInt? then Some(v.i) else None
  }

  function AsDict(v: Value): Option<Fields> {
    if v.VMap? then Some(v.fields) else None
  }

  function AsDateTime(v: Value): Option<DateTime> {
    if v.VTime? then Some(v.time) else None
  }

  function AsGeoPoint(v: Value): Option<GeoPoint> {
    if v.VGeo? then Some(v.point) else None
  }

  /** A field declared without a default: it must be present and readable (None is not). */
  function Required<T>(m: Fields, key: string, read: Value -> Option<T>): Result<T, ValidationError> {
    if key in m && read(m[key]).Some? then Ok(read(m[key]).value) else Err(ValidationError([key]))
  }

  /** A field declared `= None`: missing or None gives None, anything else must be readable. */
  function Optional<T>(m: Fields, key: string, read: Value -> Option<T>): Result<Option<T>, ValidationError> {
    if key !in m || m[key] == VNull then Ok(None)
    else if read(m[key]).Some? then Ok(Some(read(m[key]).value))
    else Err(ValidationError([key]))
  }

  /** A field whose type is another model: it must hold a dict that validates as that model. */
  function Nested<T>(m: Fields, key: string, build: Fields -> Result<T, ValidationError>): Result<T, ValidationError> {
    if key !in m || !m[key].VMap? then Err(ValidationError([key]))
    else
      match build(m[key].fields)
      case Ok(t) => Ok(t)
      case Err(e) => Err(ValidationError([key] + e.loc))
  }

  /**
    A nested model's error is reported under the field's key: the path
    starts with the key, followed by the path inside the nested model.
   */
  lemma NestedErrorPath<T>(m: Fields, key: string, build: Fields -> Result<T, ValidationError>)
    ensures Nested(m, key, build).Err? ==>
      |Nested(m, key, build).error.loc| >= 1 && Nested(m, key, build).error.loc[0] == key
    ensures key in m && m[key].VMap? && build(m[key].fields).Err? ==>
      Nested(m, key, build) == Err(ValidationError([key] + build(m[key].fields).error.loc))
  {
  }

  function ParseExif(m: Fields): Result<Exif, ValidationError> {
    var aperture :- Optional(m, "aperture", AsStr);
    var exposureTime :- Optional(m, "exposure_time", AsStr);
    var focalLength :- Optional(m, "focal_length", AsStr);
    var iso :- Optional(m, "iso", AsInt);
    var make :- Optional(m, "make", AsStr);
    var model :- Optional(m, "model", AsStr);
    Ok(Exif(aperture, exposureTime, focalLength, iso, make, model))
  }

  function ParseLocation(m: Fields): Result<Location, ValidationError> {
    var city :- Optional(m, "city", AsStr);
    var country :- Optional(m, "country", AsStr);
    var position :- Required(m, "position", AsGeoPoint);
    Ok(Location(city, country, position))
  }

  function ParsePhotoUrls(m: Fields): Result<PhotoUrls, ValidationError> {
    var full :- Required(m, "full", AsStr);
    var raw :- Required(m, "raw", AsStr);
    var regular :- Required(m, "regular", AsStr);
    var small :- Required(m, "small", AsStr);
    var thumb :- Required(m, "thumb", AsStr);
    Ok(PhotoUrls(full, raw, regular, small, thumb))
  }

  function ParseUser(m: Fields): Result<User, ValidationError> {
    var name :- Required(m, "name", AsStr);
    Ok(User(name))
  }

  /** `Photo(**fields)`. */
  function ParsePhoto(m: Fields): Result<Photo, ValidationError> {
    var rawId :- Required(m, "raw_id", AsStr);
    var provider :- Required(m, "provider", AsStr);
    var likes :- Required(m, "likes", AsInt);
    var location :- Nested(m, "location", ParseLocation);
    var exif :- Nested(m, "exif", ParseExif);
    var tags :- Required(m, "tags", AsDict);
    var created :- Required(m, "created", AsDateTime);
    var urls :- Nested(m, "urls", ParsePhotoUrls);
    var user :- Nested(m, "user", ParseUser);
    Ok(Photo(rawId, provider, likes, location, exif, tags, created, urls, user))
  }

  /** The fields a photo cannot be built without. */
  const PhotoRequired: set<string> :=
    {"raw_id", "provider", "likes", "location", "exif", "tags", "created", "urls", "user"}

  const UrlKeys: set<string> := {"full", "raw", "regular", "small", "thumb"}

  function OptStr(o: Option<string>): Value {
    match o
    case Some(s) => VStr(s)
    case None => VNull
  }

  function OptInt(o: Option<int>): Value {
    match o
    case Some(i) => VInt(i)
    case None => VNull
  }

  function ExifDict(e: Exif): Fields {
    map["aperture" := OptStr(e.aperture), "exposure_time" := OptStr(e.exposureTime),
        "focal_length" := OptStr(e.focalLength), "iso" := OptInt(e.iso),
        "make" := OptStr(e.make), "model" := OptStr(e.model)]
  }

  function LocationDict(l: Location): Fields {
    map["city" := OptStr(l.city), "country" := OptStr(l.country), "position" := VGeo(l.position)]
  }

  function PhotoUrlsDict(u: PhotoUrls): Fields {
    map["full" := VStr(u.full), "raw" := VStr(u.raw), "regular" := VStr(u.regular),
        "small" := VStr(u.small), "thumb" := VStr(u.thumb)]
  }

  /** `photo.dict()`: the model as nested field maps; the point, timestamp and tag dict kept as they are. */
  function PhotoDict(p: Photo): Fields {
    map["raw_id" := VStr(p.rawId), "provider" := VStr(p.provider), "likes" := VInt(p.likes),
        "location" := VMap(LocationDict(p.location)), "exif" := VMap(ExifDict(p.exif)),
        "tags" := VMap(p.tags), "created" := VTime(p.created),
        "urls" := VMap(PhotoUrlsDict(p.urls)), "user" := VMap(map["name" := VStr(p.user.name)])]
  }

  lemma ExifDictRoundTrip(e: Exif)
    ensures ParseExif(ExifDict(e)) == Ok(e)
  {
    var m := ExifDict(e);
    OptStrReadsBack(m, "aperture", e.aperture);
    OptStrReadsBack(m, "exposure_time", e.exposureTime);
    OptStrReadsBack(m, "focal_length", e.focalLength);
    OptStrReadsBack(m, "make", e.make);
    OptStrReadsBack(m, "model", e.model);
    assert Optional(m, "iso", AsInt) == Ok(e.iso);
  }

  /** An optional string written with `OptStr` reads back as itself. */
  lemma OptStrReadsBack(m: Fields, key: string, o: Option<string>)
    requires key in m && m[key] == OptStr(o)
    ensures Optional(m, key, AsStr) == Ok(o)
  {
  }

  lemma LocationDictRoundTrip(l: Location)
    ensures ParseLocation(LocationDict(l)) == Ok(l)
  {
  }

  lemma PhotoUrlsDictRoundTrip(u: PhotoUrls)
    ensures ParsePhotoUrls(PhotoUrlsDict(u)) == Ok(u)
  {
  }

  lemma PhotoDictScalars(p: Photo)
    ensures Required(PhotoDict(p), "raw_id", AsStr) == Ok(p.rawId)
    ensures Required(PhotoDict(p), "provider", AsStr) == Ok(p.provider)
    ensures Required(PhotoDict(p), "likes", AsInt) == Ok(p.likes)
    ensures Required(PhotoDict(p), "tags", AsDict) == Ok(p.tags)
    ensures Required(PhotoDict(p), "created", AsDateTime) == Ok(p.created)
  {
  }

  lemma PhotoDictLocation(p: Photo)
    ensures Nested(PhotoDict(p), "location", ParseLocation) == Ok(p.location)
  {
    LocationDictRoundTrip(p.location);
  }

  lemma PhotoDictExif(p: Photo)
    ensures Nested(PhotoDict(p), "exif", ParseExif) == Ok(p.exif)
  {
    ExifDictRoundTrip(p.exif);
  }

  lemma PhotoDictUrls(p: Photo)
    ensures Nested(PhotoDict(p), "urls", ParsePhotoUrls) == Ok(p.urls)
  {
    PhotoUrlsDictRoundTrip(p.urls);
  }

  lemma PhotoDictModels(p: Photo)
    ensures Nested(PhotoDict(p), "location", ParseLocation) == Ok(p.location)
    ensures Nested(PhotoDict(p), "exif", ParseExif) == Ok(p.exif)
    ensures Nested(PhotoDict(p), "urls", ParsePhotoUrls) == Ok(p.urls)
    ensures Nested(PhotoDict(p), "user", ParseUser) == Ok(p.user)
  {
    PhotoDictLocation(p);
    PhotoDictExif(p);
    PhotoDictUrls(p);
  }

  /** Building a photo from its own `dict()` gives the photo back. */
  lemma PhotoDictRoundTrip(p: Photo)
    ensures ParsePhoto(PhotoDict(p)) == Ok(p)
  {
    PhotoDictScalars(p);
    PhotoDictModels(p);
  }

  /** Every one of the photo's nine fields is required: without it construction fails. */
  lemma PhotoFieldsRequired(m: Fields, key: string)
    requires key in PhotoRequired && key !in m
    ensures ParsePhoto(m).Err?
  {
  }

  /**
    A photo whose plain leading fields are valid but whose location is
    invalid fails with the location's error path under `location`, e.g.
    `location.position` for a location without a point.
   */
  lemma PhotoLocationErrorPath(m: Fields)
    requires "raw_id" in m && m["raw_id"].VStr? && "provider" in m && m["provider"].VStr?
    requires "likes" in m && m["likes"].VInt?
    requires "location" in m && m["location"].VMap? && ParseLocation(m["location"].fields).Err?
    ensures ParsePhoto(m) == Err(ValidationError(["location"] + ParseLocation(m["location"].fields).error.loc))
  {
  }

  /** A photo is built exactly when each of its fields validates. */
  lemma PhotoValidIff(m: Fields)
    ensures ParsePhoto(m).Ok? <==>
      m.Keys >= PhotoRequired &&
      m["raw_id"].VStr? && m["provider"].VStr? && m["likes"].VInt? &&
      m["location"].VMap? && ParseLocation(m["location"].fields).Ok? &&
      m["exif"].VMap? && ParseExif(m["exif"].fields).Ok? &&
      m["tags"].VMap? && m["created"].VTime? &&
      m["urls"].VMap? && ParsePhotoUrls(m["urls"].fields).Ok? &&
      m["user"].VMap? && ParseUser(m["user"].fields).Ok?
  {
  }

  /** Every Exif field is optional: an empty or all-None dict gives an Exif of Nones. */
  lemma ExifAllOptional(m: Fields)
    requires forall k | k in m :: m[k] == VNull
    ensures ParseExif(m) == Ok(Exif(None, None, None, None, None, None))
  {
  }

  /** The Exif `iso` field holds an integer: a value of another kind is refused. */
  lemma ExifIsoIsInteger(m: Fields)
    requires "iso" in m && m["iso"] != VNull && !m["iso"].VInt?
    ensures ParseExif(m).Err?
  {
  }

  /** A location needs a point; its city and country may be missing. */
  lemma LocationPositionRequired(m: Fields)
    ensures ParseLocation(m).Ok? ==> "position" in m && m["position"].VGeo?
    ensures "position" !in m ==> ParseLocation(m).Err?
    ensures "city" !in m && "country" !in m && "position" in m && m["position"].VGeo? ==>
      ParseLocation(m) == Ok(Location(None, None, m["position"].point))
  {
  }

  /** All five URLs are required strings. */
  lemma PhotoUrlsRequired(m: Fields)
    ensures ParsePhotoUrls(m).Ok? <==> forall k | k in UrlKeys :: k in m && m[k].VStr?
  {
  }

  /** A user needs a name. */
  lemma UserNameRequired(m: Fields)
    ensures ParseUser(m).Ok? <==> "name" in m && m["name"].VStr?
  {
  }
}

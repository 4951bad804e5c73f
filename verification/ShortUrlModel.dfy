/**
 * The `ShortUrl` collection: the record and visit shapes, the schema's
 * `required`/`trim`/`default` rules, and the unique index on `shortcode`,
 * which makes the collection a map keyed by shortcode whose insert fails
 * on a duplicate key.
 */
module ShortUrlModel {
  import opened Wrappers
  import opened Text
  import opened MetaTagsUtil

  /** One recorded redirect. Only the timestamp is always present. */
  datatype Visit = Visit(
    timestamp: int,
    country: Option<string>,
    city: Option<string>,
    referrer: Option<string>,
    deviceType: Option<string>,
    browser: Option<string>,
    os: Option<string>,
    platform: Option<string>,
    ip: Option<string>)

  /** A stored short URL. `createdAt`/`updatedAt` and `_id` are left out. */
  datatype ShortUrlRecord = ShortUrlRecord(
    shortcode: string,
    domain: string,
    deviceId: string,
    originalUrl: string,
    clicks: int,
    metaTags: MetaTags,
    visits: seq<Visit>)

  /** The collection, keyed by the unique shortcode. */
  type Store = map<string, ShortUrlRecord>

  /** The fields given to `new ShortUrl({...})`; any may be missing. */
  datatype NewShortUrl = NewShortUrl(
    shortcode: Option<string>,
    domain: Option<string>,
    deviceId: Option<string>,
    originalUrl: Option<string>,
    metaTags: MetaTags)

  /** The four required paths of the schema. */
  datatype RequiredPath = ShortcodePath | DomainPath | DeviceIdPath | OriginalUrlPath

  /** Why `save()` rejects a new record: the paths that failed `required`,
    * or an E11000 duplicate key on the unique `shortcode` index. */
  datatype SaveError = ValidationFailed(paths: set<RequiredPath>) | DuplicateKey(shortcode: string)

  /** A record as the schema admits it: the four required strings are
    * non-empty and carry no surrounding whitespace. */
  predicate WellFormed(r: ShortUrlRecord) {
    && r.shortcode != "" && IsTrimmed(r.shortcode)
    && r.domain != "" && IsTrimmed(r.domain)
    && r.deviceId != "" && IsTrimmed(r.deviceId)
    && r.originalUrl != "" && IsTrimmed(r.originalUrl)
  }

  /** The counter agrees with the visit log. */
  predicate ClicksMatchVisits(r: ShortUrlRecord) {
    r.clicks == |r.visits|
  }

  /** Every record is stored under its own shortcode, is well formed and
    * has as many clicks as visits. */
  predicate Consistent(store: Store) {
    forall k :: k in store ==>
      store[k].shortcode == k && WellFormed(store[k]) && ClicksMatchVisits(store[k])
  }

  /** A `required: true, trim: true` string path after casting: the trimmed
    * value, or `None` when it is missing or trims to the empty string
    * (the trim setter runs on assignment, before validation). */
  function RequiredTrimmed(v: Option<string>): (r: Option<string>)
    ensures r.Some? <==> v.Some? && Trim(v.value) != ""
    ensures r.Some? ==> r.value == Trim(v.value) && r.value != "" && IsTrimmed(r.value)
  {
    if v.Some? && Trim(v.value) != "" then Some(Trim(v.value)) else None
  }

  /** The value given for a required path. */
  function Given(f: NewShortUrl, p: RequiredPath): (v: Option<string>)
    ensures p == ShortcodePath ==> v == f.shortcode
    ensures p == DomainPath ==> v == f.domain
    ensures p == DeviceIdPath ==> v == f.deviceId
    ensures p == OriginalUrlPath ==> v == f.originalUrl
  {
    match p
    case ShortcodePath => f.shortcode
    case DomainPath => f.domain
    case DeviceIdPath => f.deviceId
    case OriginalUrlPath => f.originalUrl
  }

  /** The paths `required` rejects: those whose value is absent or
    * consists only of whitespace. */
  function MissingPaths(f: NewShortUrl): (paths: set<RequiredPath>)
    ensures forall p :: p in paths <==> Given(f, p).None? || AllSpace(Given(f, p).value)
    ensures forall p :: p in paths <==> RequiredTrimmed(Given(f, p)).None?
  {
    var paths := set p: RequiredPath | RequiredTrimmed(Given(f, p)).None?;
    forall p: RequiredPath | Given(f, p).Some? {
      TrimEmptyIffAllSpace(Given(f, p).value);
    }
    paths
  }

  /** No path is missing exactly when all four required values are given
    * and non-blank. */
  lemma NoMissingPaths(f: NewShortUrl)
    ensures MissingPaths(f) == {} <==>
              && RequiredTrimmed(f.shortcode).Some? && RequiredTrimmed(f.domain).Some?
              && RequiredTrimmed(f.deviceId).Some? && RequiredTrimmed(f.originalUrl).Some?
  {
    assert Given(f, ShortcodePath) == f.shortcode && Given(f, DomainPath) == f.domain;
    assert Given(f, DeviceIdPath) == f.deviceId && Given(f, OriginalUrlPath) == f.originalUrl;
  }

  /** Casting and validating a new document: it fails exactly when a
    * required path is missing or blank; otherwise the strings are trimmed,
    * `clicks` defaults to 0 and `visits` to the empty array. */
  function Build(f: NewShortUrl): (r: Result<ShortUrlRecord, SaveError>)
    ensures r.Failure? <==> MissingPaths(f) != {}
    ensures r.Failure? ==> r.error == ValidationFailed(MissingPaths(f))
    ensures r.Success? ==> f.shortcode.Some? && f.domain.Some? && f.deviceId.Some? && f.originalUrl.Some?
    ensures r.Success? ==>
              && r.value.shortcode == Trim(f.shortcode.value)
              && r.value.domain == Trim(f.domain.value)
              && r.value.deviceId == Trim(f.deviceId.value)
              && r.value.originalUrl == Trim(f.originalUrl.value)
              && r.value.metaTags == f.metaTags
              && r.value.clicks == 0 && r.value.visits == []
              && WellFormed(r.value) && ClicksMatchVisits(r.value)
  {
    NoMissingPaths(f);
    match (RequiredTrimmed(f.shortcode), RequiredTrimmed(f.domain),
           RequiredTrimmed(f.deviceId), RequiredTrimmed(f.originalUrl))
    case (Some(shortcode), Some(domain), Some(deviceId), Some(originalUrl)) =>
      Success(ShortUrlRecord(shortcode, domain, deviceId, originalUrl, 0, f.metaTags, []))
    case _ =>
      Failure(ValidationFailed(MissingPaths(f)))
  }

  /** A successful `save()` of a new document: the collection after the
    * insert, and the record as stored. */
  datatype Saved = Saved(store: Store, record: ShortUrlRecord)

  /** `save()` of a new document: validation first, then the unique index. */
  function Insert(store: Store, f: NewShortUrl): (r: Result<Saved, SaveError>)
    ensures Build(f).Failure? ==> r == Failure(Build(f).error)
    ensures Build(f).Success? && Build(f).value.shortcode in store ==>
              r == Failure(DuplicateKey(Build(f).value.shortcode))
    ensures r.Success? <==> Build(f).Success? && Build(f).value.shortcode !in store
    ensures r.Success? ==>
              && r.value.record == Build(f).value
              && r.value.store.Keys == store.Keys + {r.value.record.shortcode}
              && r.value.store[r.value.record.shortcode] == r.value.record
              && (forall k :: k in store ==> r.value.store[k] == store[k])
  {
    match Build(f)
    case Failure(e) => Failure(e)
    case Success(rec) =>
      if rec.shortcode in store then Failure(DuplicateKey(rec.shortcode))
      else Success(Saved(store[rec.shortcode := rec], rec))
  }

  /** `findOne({ shortcode })` */
  function Find(store: Store, shortcode: string): (r: Option<ShortUrlRecord>)
    ensures r.Some? <==> shortcode in store
    ensures r.Some? ==> r.value == store[shortcode]
  {
    if shortcode in store then Some(store[shortcode]) else None
  }

  /** A new record starts with no clicks and no visits, so inserting keeps
    * the collection consistent. */
  lemma InsertKeepsConsistent(store: Store, f: NewShortUrl)
    requires Consistent(store)
    requires Insert(store, f).Success?
    ensures Consistent(Insert(store, f).value.store)
  {
    var s := Insert(store, f).value;
    forall k | k in s.store
      ensures s.store[k].shortcode == k && WellFormed(s.store[k]) && ClicksMatchVisits(s.store[k])
    {
      if k !in store {
        assert k == s.record.shortcode;
      }
    }
  }

  /** The unique index: once a shortcode is stored, every later insert
    * that trims to the same shortcode fails, and the collection keeps
    * exactly one record for it. */
  lemma ShortcodeStaysUnique(store: Store, f: NewShortUrl, g: NewShortUrl)
    requires Insert(store, f).Success?
    requires Build(g).Success? && Build(g).value.shortcode == Build(f).value.shortcode
    ensures Insert(Insert(store, f).value.store, g) == Failure(DuplicateKey(Build(f).value.shortcode))
  {
  }
}

/**
 * The request handlers: redirect-and-record, creation and listing. The
 * collection is a `Store` value passed in and returned; the foreign calls
 * (user-agent parsing, geo lookup, URL validation, the random code, the
 * page fetch, the outcome of `save()`) are parameters.
 */
module ShortUrlController {
  import opened Wrappers
  import opened Text
  import opened MetaTagsUtil
  import opened ShortUrlModel

  // =====================================================================
  // Request inspection

  /** A request header: missing, a single string, or repeated values. */
  datatype HeaderValue = Absent | Single(text: string) | Repeated(values: seq<string>)

  /** `getClientIp`: the first entry of a string `X-Forwarded-For`,
    * trimmed; otherwise the socket's remote address, or `""`. */
  function ClientIp(forwardedFor: HeaderValue, remoteAddress: Option<string>): (ip: string)
    ensures forwardedFor.Single? ==> ip == Trim(FirstField(forwardedFor.text, ','))
    ensures forwardedFor.Single? ==> IsTrimmed(ip) && ',' !in ip
    ensures !forwardedFor.Single? && Truthy(remoteAddress) ==> ip == remoteAddress.value
    ensures !forwardedFor.Single? && !Truthy(remoteAddress) ==> ip == ""
  {
    match forwardedFor
    case Single(text) =>
      var first := FirstField(text, ',');
      TrimKeepsAbsence(first, ',');
      Trim(first)
    case _ => OrElse(remoteAddress, "")
  }

  /** The IPv6 prefix of an IPv4-mapped address. */
  const MappedPrefix := "::ffff:"

  /** An address starting with `::ffff:` loses exactly that prefix; any
    * other address is unchanged. */
  function StripMappedIpv4(ip: string): (r: string)
    ensures StartsWith(ip, MappedPrefix) ==> r == ip[|MappedPrefix|..]
    ensures !StartsWith(ip, MappedPrefix) ==> r == ip
  {
    if ip != "" && StartsWith(ip, MappedPrefix) then ReplaceFirst(ip, MappedPrefix, "") else ip
  }

  /** What the user-agent parser reports; every part may be missing. */
  datatype UserAgent = UserAgent(
    browserName: Option<string>,
    browserVersion: Option<string>,
    osName: Option<string>,
    osVersion: Option<string>,
    deviceType: Option<string>)

  /** What the geo database reports for an address it knows. */
  datatype Geo = Geo(country: Option<string>, city: Option<string>)

  /** The platform: `iOS` or `Android` for a mobile device, `Desktop`
    * for every other device type, including a missing one. */
  function Platform(deviceType: Option<string>, osName: Option<string>): (p: string)
    ensures p == "iOS" <==> deviceType == Some("mobile") && osName == Some("iOS")
    ensures p == "Android" <==> deviceType == Some("mobile") && osName != Some("iOS")
    ensures p == "Desktop" <==> deviceType != Some("mobile")
  {
    if deviceType == Some("mobile") then
      if osName == Some("iOS") then "iOS" else "Android"
    else "Desktop"
  }

  /** The country or city the lookup found, when it found one. */
  function GeoField(geo: Option<Geo>, city: bool): (r: Option<string>)
    ensures geo.None? ==> r.None?
    ensures geo.Some? ==> r == if city then geo.value.city else geo.value.country
  {
    match geo
    case None => None
    case Some(g) => if city then g.city else g.country
  }

  const ProductionEnv := "production"

  /** The visit recorded for one redirect. Every field is set; missing or
    * empty inputs fall back to `Unknown`, `Direct` and `desktop`; browser
    * and os are `name version`; the address is kept only in production. */
  function BuildVisit(now: int, ua: UserAgent, geo: Option<Geo>, referer: Option<string>,
                      ip: string, nodeEnv: Option<string>): (v: Visit)
    ensures v.timestamp == now
    ensures v.country.Some? && v.city.Some? && v.referrer.Some? && v.deviceType.Some?
    ensures v.browser.Some? && v.os.Some? && v.platform.Some? && v.ip.Some?
    ensures Truthy(GeoField(geo, false)) ==> v.country == GeoField(geo, false)
    ensures !Truthy(GeoField(geo, false)) ==> v.country == Some("Unknown")
    ensures Truthy(GeoField(geo, true)) ==> v.city == GeoField(geo, true)
    ensures !Truthy(GeoField(geo, true)) ==> v.city == Some("Unknown")
    ensures Truthy(referer) ==> v.referrer == referer
    ensures !Truthy(referer) ==> v.referrer == Some("Direct")
    ensures Truthy(ua.deviceType) ==> v.deviceType == ua.deviceType
    ensures !Truthy(ua.deviceType) ==> v.deviceType == Some("desktop")
    ensures v.browser.value == OrElse(ua.browserName, "Unknown") + " " + OrElse(ua.browserVersion, "")
    ensures v.os.value == OrElse(ua.osName, "Unknown") + " " + OrElse(ua.osVersion, "")
    ensures v.platform == Some(Platform(ua.deviceType, ua.osName))
    ensures nodeEnv == Some(ProductionEnv) ==> v.ip == Some(ip)
    ensures nodeEnv != Some(ProductionEnv) ==> v.ip == Some("localhost")
  {
    Visit(
      now,
      Some(OrElse(GeoField(geo, false), "Unknown")),
      Some(OrElse(GeoField(geo, true), "Unknown")),
      Some(OrElse(referer, "Direct")),
      Some(OrElse(ua.deviceType, "desktop")),
      Some(OrElse(ua.browserName, "Unknown") + " " + OrElse(ua.browserVersion, "")),
      Some(OrElse(ua.osName, "Unknown") + " " + OrElse(ua.osVersion, "")),
      Some(Platform(ua.deviceType, ua.osName)),
      Some(if nodeEnv == Some(ProductionEnv) then ip else "localhost"))
  }

  // =====================================================================
  // Redirect and record

  /** The headers and socket data the redirect reads. */
  datatype VisitRequest = VisitRequest(
    forwardedFor: HeaderValue,
    remoteAddress: Option<string>,
    userAgent: Option<string>,
    referer: Option<string>)

  /** The visit a request produces: the client address with any mapped
    * prefix removed, geo-located, with the parsed user agent. */
  function VisitFor(req: VisitRequest, nodeEnv: Option<string>, now: int,
                    parseUserAgent: Option<string> -> UserAgent,
                    lookupGeo: string -> Option<Geo>): (v: Visit)
    ensures var ip := StripMappedIpv4(ClientIp(req.forwardedFor, req.remoteAddress));
            var ua := parseUserAgent(req.userAgent);
            && v.timestamp == now
            && v.country == Some(OrElse(GeoField(lookupGeo(ip), false), "Unknown"))
            && v.city == Some(OrElse(GeoField(lookupGeo(ip), true), "Unknown"))
            && v.referrer == Some(OrElse(req.referer, "Direct"))
            && v.deviceType == Some(OrElse(ua.deviceType, "desktop"))
            && v.browser == Some(OrElse(ua.browserName, "Unknown") + " " + OrElse(ua.browserVersion, ""))
            && v.os == Some(OrElse(ua.osName, "Unknown") + " " + OrElse(ua.osVersion, ""))
            && v.platform == Some(Platform(ua.deviceType, ua.osName))
            && v.ip == Some(if nodeEnv == Some(ProductionEnv) then ip else "localhost")
  {
    var ip := StripMappedIpv4(ClientIp(req.forwardedFor, req.remoteAddress));
    BuildVisit(now, parseUserAgent(req.userAgent), lookupGeo(ip), req.referer, ip, nodeEnv)
  }

  /** `after` is `before` with `v` appended to its visits and one more
    * click; nothing else differs. */
  predicate OneVisitRecorded(before: ShortUrlRecord, after: ShortUrlRecord, v: Visit) {
    && after.visits == before.visits + [v]
    && after.clicks == before.clicks + 1
    && after.shortcode == before.shortcode
    && after.domain == before.domain
    && after.deviceId == before.deviceId
    && after.originalUrl == before.originalUrl
    && after.metaTags == before.metaTags
  }

  /** A loaded record, which the handler changes in place before saving. */
  class ShortUrlDocument {
    var shortcode: string
    var domain: string
    var deviceId: string
    var originalUrl: string
    var clicks: int
    var metaTags: MetaTags
    var visits: seq<Visit>

    /** The document's current contents. */
    function Value(): ShortUrlRecord
      reads this
    {
      ShortUrlRecord(shortcode, domain, deviceId, originalUrl, clicks, metaTags, visits)
    }

    /** `findOne` hydrates a document from a stored record. */
    constructor Load(rec: ShortUrlRecord)
      ensures Value() == rec
    {
      shortcode := rec.shortcode;
      domain := rec.domain;
      deviceId := rec.deviceId;
      originalUrl := rec.originalUrl;
      clicks := rec.clicks;
      metaTags := rec.metaTags;
      visits := rec.visits;
    }

    /** `visits.push(visit); clicks += 1`. */
    method RecordVisit(visit: Visit)
      modifies this
      ensures visits == old(visits) + [visit]
      ensures clicks == old(clicks) + 1
      ensures OneVisitRecorded(old(Value()), Value(), visit)
      ensures old(clicks) == |old(visits)| ==> clicks == |visits|
    {
      visits := visits + [visit];
      clicks := clicks + 1;
    }
  }

  /** The redirect handler's answer. */
  datatype RedirectResponse = Redirect(location: string) | NotFound | ServerError

  function RedirectStatus(r: RedirectResponse): (status: int)
    ensures r.Redirect? <==> status == 302
    ensures r.NotFound? <==> status == 404
    ensures r.ServerError? <==> status == 500
  {
    match r
    case Redirect(_) => 302
    case NotFound => 404
    case ServerError => 500
  }

  /** `redirectToOriginalUrl`: an unknown shortcode is a 404 and changes
    * nothing; a known one gets exactly one visit appended and one more
    * click, every other record and field is untouched, and the client is
    * sent to the original URL. A failed `save()` is a 500 and changes
    * nothing. */
  method RedirectToOriginalUrl(store: Store, shortcode: string, req: VisitRequest,
                               nodeEnv: Option<string>, now: int,
                               parseUserAgent: Option<string> -> UserAgent,
                               lookupGeo: string -> Option<Geo>,
                               saveSucceeds: bool)
    returns (res: RedirectResponse, store': Store)
    ensures RedirectStatus(res) == 404 <==> shortcode !in store
    ensures RedirectStatus(res) == 500 <==> shortcode in store && !saveSucceeds
    ensures shortcode !in store ==> res == NotFound && store' == store
    ensures shortcode in store && !saveSucceeds ==> res == ServerError && store' == store
    ensures shortcode in store && saveSucceeds ==>
              && res == Redirect(store[shortcode].originalUrl)
              && store'.Keys == store.Keys
              && (forall k :: k in store && k != shortcode ==> store'[k] == store[k])
              && OneVisitRecorded(store[shortcode], store'[shortcode],
                                  VisitFor(req, nodeEnv, now, parseUserAgent, lookupGeo))
    ensures Consistent(store) ==> Consistent(store')
  {
    var found := Find(store, shortcode);
    if found.None? {
      return NotFound, store;
    }
    var doc := new ShortUrlDocument.Load(found.value);

    var ip := ClientIp(req.forwardedFor, req.remoteAddress);
    if ip != "" && StartsWith(ip, MappedPrefix) {
      ip := ReplaceFirst(ip, MappedPrefix, "");
    }
    assert ip == StripMappedIpv4(ClientIp(req.forwardedFor, req.remoteAddress));
    var geo := lookupGeo(ip);
    var visit := BuildVisit(now, parseUserAgent(req.userAgent), geo, req.referer, ip, nodeEnv);
    assert visit == VisitFor(req, nodeEnv, now, parseUserAgent, lookupGeo);

    doc.RecordVisit(visit);
    if !saveSucceeds {
      return ServerError, store;
    }
    store' := store[shortcode := doc.Value()];
    if Consistent(store) {
      RecordingKeepsConsistent(store, shortcode, doc.Value(), visit);
    }
    res := Redirect(doc.originalUrl);
  }

  /** Recording a visit keeps the collection consistent: clicks stay equal
    * to the number of visits. */
  lemma RecordingKeepsConsistent(store: Store, shortcode: string, after: ShortUrlRecord, v: Visit)
    requires Consistent(store) && shortcode in store
    requires OneVisitRecorded(store[shortcode], after, v)
    ensures Consistent(store[shortcode := after])
  {
  }

  // =====================================================================
  // Creation

  /** The parts of the creation request the handler reads. */
  datatype CreateRequest = CreateRequest(
    hasValidationErrors: bool,
    deviceId: Option<string>,
    originalUrl: string,
    protocol: string,
    host: Option<string>)

  /** The outcomes of the foreign calls made during creation: the
    * `isValidUrl` verdict, the 6-character random code, whether the
    * pre-check query found a document, and the page fetch. */
  datatype CreateEnv = CreateEnv(
    urlIsValid: bool,
    code: string,
    existingFound: bool,
    fetched: FetchOutcome)

  /** The public fields of a created link. */
  datatype CreatedLink = CreatedLink(
    shortcode: string,
    originalUrl: string,
    shortUrl: string,
    metaTags: MetaTags)

  datatype CreateResponse =
    | ValidationErrors
    | DeviceIdRequired
    | InvalidUrlFormat
    | ShortcodeInUse
    | Created(link: CreatedLink)
    | CreateFailed

  function CreateStatus(r: CreateResponse): (status: int)
    ensures status == 400 <==> r.ValidationErrors? || r.DeviceIdRequired? || r.InvalidUrlFormat?
    ensures status == 409 <==> r.ShortcodeInUse?
    ensures status == 201 <==> r.Created?
    ensures status == 500 <==> r.CreateFailed?
  {
    match r
    case ValidationErrors => 400
    case DeviceIdRequired => 400
    case InvalidUrlFormat => 400
    case ShortcodeInUse => 409
    case Created(_) => 201
    case CreateFailed => 500
  }

  /** The fixed platform prefix of every stored shortcode. */
  const ShortcodePrefix := "smi.to"

  /** `${req.protocol}://${req.get('host')}`; a missing host prints as
    * `undefined`. */
  function RequestDomain(protocol: string, host: Option<string>): (d: string)
    ensures StartsWith(d, protocol + "://")
    ensures host.Some? ==> d[|protocol| + 3..] == host.value
    ensures host.None? ==> d[|protocol| + 3..] == "undefined"
  {
    var d := protocol + "://" + host.GetOr("undefined");
    StartsWithConcat(protocol + "://", host.GetOr("undefined"));
    d
  }

  /** `${domain}/${shortcode}` */
  function ShortUrlOf(domain: string, shortcode: string): (u: string)
    ensures StartsWith(u, domain + "/") && u[|domain| + 1..] == shortcode
  {
    StartsWithConcat(domain + "/", shortcode);
    domain + "/" + shortcode
  }

  /** The document the handler asks the collection to save. */
  function NewDocument(req: CreateRequest, env: CreateEnv): (f: NewShortUrl)
    ensures f.shortcode == Some(ShortcodePrefix + env.code)
    ensures f.domain == Some(RequestDomain(req.protocol, req.host))
    ensures f.deviceId == req.deviceId && f.originalUrl == Some(req.originalUrl)
    ensures f.metaTags == FetchMetaTags(req.originalUrl, env.fetched)
  {
    NewShortUrl(
      Some(ShortcodePrefix + env.code),
      Some(RequestDomain(req.protocol, req.host)),
      req.deviceId,
      Some(req.originalUrl),
      FetchMetaTags(req.originalUrl, env.fetched))
  }

  datatype CreateOutcome = CreateOutcome(response: CreateResponse, store: Store)

  /** `createShortUrl`: the guards in order, then the save. */
  function CreateShortUrl(store: Store, req: CreateRequest, env: CreateEnv): (out: CreateOutcome)
    ensures CreateStatus(out.response) != 201 ==> out.store == store
    ensures out.response == ValidationErrors <==> req.hasValidationErrors
    ensures out.response == DeviceIdRequired <==>
              !req.hasValidationErrors && !Truthy(req.deviceId)
    ensures out.response == InvalidUrlFormat <==>
              !req.hasValidationErrors && Truthy(req.deviceId) && !env.urlIsValid
    ensures out.response == ShortcodeInUse <==>
              !req.hasValidationErrors && Truthy(req.deviceId) && env.urlIsValid && env.existingFound
    ensures CreateStatus(out.response) == 400 <==>
              req.hasValidationErrors || !Truthy(req.deviceId) || !env.urlIsValid
    ensures out.response.Created? <==>
              && !req.hasValidationErrors && Truthy(req.deviceId) && env.urlIsValid && !env.existingFound
              && Insert(store, NewDocument(req, env)).Success?
    ensures out.response.Created? ==>
              var sc := out.response.link.shortcode;
              && sc == Trim(ShortcodePrefix + env.code)
              && sc !in store
              && out.store.Keys == store.Keys + {sc}
              && (forall k :: k in store ==> out.store[k] == store[k])
              && out.store[sc].clicks == 0 && out.store[sc].visits == []
              && out.store[sc].originalUrl == Trim(req.originalUrl) == out.response.link.originalUrl
              && out.store[sc].deviceId == Trim(req.deviceId.value)
              && out.store[sc].domain == Trim(RequestDomain(req.protocol, req.host))
              && out.store[sc].metaTags == FetchMetaTags(req.originalUrl, env.fetched)
                 == out.response.link.metaTags
              && out.response.link.shortUrl == ShortUrlOf(out.store[sc].domain, sc)
  {
    if req.hasValidationErrors then CreateOutcome(ValidationErrors, store)
    else if !Truthy(req.deviceId) then CreateOutcome(DeviceIdRequired, store)
    else if !env.urlIsValid then CreateOutcome(InvalidUrlFormat, store)
    else if env.existingFound then CreateOutcome(ShortcodeInUse, store)
    else
      match Insert(store, NewDocument(req, env))
      case Failure(_) => CreateOutcome(CreateFailed, store)
      case Success(saved) =>
        var rec := saved.record;
        CreateOutcome(
          Created(CreatedLink(rec.shortcode, rec.originalUrl,
                              ShortUrlOf(rec.domain, rec.shortcode), rec.metaTags)),
          saved.store)
  }

  /** The characters `nanoid` draws from. */
  predicate IsUrlSafe(c: char) {
    ('A' <= c <= 'Z') || ('a' <= c <= 'z') || ('0' <= c <= '9') || c == '_' || c == '-'
  }

  /** With a code of six URL-safe characters, the stored shortcode is
    * `smi.to` followed by the code, and the short URL is the domain, a
    * slash and that shortcode. */
  lemma CreatedShortcodeIsPrefixedCode(store: Store, req: CreateRequest, env: CreateEnv)
    requires |env.code| == 6 && forall i :: 0 <= i < 6 ==> IsUrlSafe(env.code[i])
    requires CreateShortUrl(store, req, env).response.Created?
    ensures var out := CreateShortUrl(store, req, env);
            && out.response.link.shortcode == ShortcodePrefix + env.code
            && out.response.link.shortUrl
               == Trim(RequestDomain(req.protocol, req.host)) + "/" + ShortcodePrefix + env.code
  {
    var s := ShortcodePrefix + env.code;
    assert s[0] == 's' && s[|s| - 1] == env.code[5];
    TrimUnchanged(s);
  }

  /** The composed shortcode and domain always pass `required`: only the
    * device id and the original URL from the request can be missing. */
  lemma NewDocumentMissesOnlyRequestFields(req: CreateRequest, env: CreateEnv)
    ensures MissingPaths(NewDocument(req, env)) <= {DeviceIdPath, OriginalUrlPath}
  {
    var f := NewDocument(req, env);
    var sc := ShortcodePrefix + env.code;
    var d := RequestDomain(req.protocol, req.host);
    assert sc[0] == 's' && !IsSpace(sc[0]);
    assert d[|req.protocol|] == ':' && !IsSpace(d[|req.protocol|]);
    assert ShortcodePath !in MissingPaths(f);
    assert DomainPath !in MissingPaths(f);
  }

  /** A protocol and host without surrounding whitespace are stored as the
    * domain unchanged, so the short URL starts with
    * `${req.protocol}://${req.get('host')}/`. */
  lemma RequestDomainKeptAsIs(protocol: string, host: Option<string>)
    requires protocol != "" && !IsSpace(protocol[0])
    requires host.Some? ==> host.value != "" && !IsSpace(host.value[|host.value| - 1])
    ensures Trim(RequestDomain(protocol, host)) == RequestDomain(protocol, host)
  {
    var d := RequestDomain(protocol, host);
    assert d[0] == protocol[0];
    if host.Some? {
      assert d[|d| - 1] == host.value[|host.value| - 1];
    } else {
      assert d[|d| - 1] == 'd';
    }
    TrimUnchanged(d);
  }

  /** A created short URL resolves: the collection holds a consistent
    * record under the returned shortcode whose original URL is the one
    * the response reports, so a redirect to that shortcode leads there. */
  lemma CreatedLinkResolves(store: Store, req: CreateRequest, env: CreateEnv)
    requires Consistent(store)
    requires CreateShortUrl(store, req, env).response.Created?
    ensures var out := CreateShortUrl(store, req, env);
            && Consistent(out.store)
            && Find(out.store, out.response.link.shortcode).Some?
            && Find(out.store, out.response.link.shortcode).value.originalUrl
               == out.response.link.originalUrl
  {
    InsertKeepsConsistent(store, NewDocument(req, env));
  }

  // =====================================================================
  // Listing

  /** One entry of the listing. */
  datatype LinkView = LinkView(
    shortcode: string,
    originalUrl: string,
    shortUrl: string,
    clicks: int,
    metaTags: MetaTags,
    visits: seq<Visit>)

  datatype Pagination = Pagination(total: nat, page: int, pages: nat, limit: int)

  datatype Listing = Listing(links: seq<LinkView>, pagination: Pagination)

  /** The public view of a record: its fields without `domain` and
    * `deviceId`, plus the composed short URL. */
  function ViewOf(r: ShortUrlRecord): (v: LinkView)
    ensures v.shortcode == r.shortcode && v.originalUrl == r.originalUrl
    ensures v.shortUrl == r.domain + "/" + r.shortcode
    ensures v.clicks == r.clicks && v.metaTags == r.metaTags && v.visits == r.visits
  {
    LinkView(r.shortcode, r.originalUrl, ShortUrlOf(r.domain, r.shortcode), r.clicks, r.metaTags, r.visits)
  }

  /** The `links.map(...)` step: one view per record, in order. */
  function Views(w: seq<ShortUrlRecord>): (r: seq<LinkView>)
    ensures |r| == |w|
    ensures forall i :: 0 <= i < |w| ==> r[i] == ViewOf(w[i])
  {
    if w == [] then [] else [ViewOf(w[0])] + Views(w[1..])
  }

  /** `parseInt(param) || default`: a missing, unparsable (`NaN`) or zero
    * value gives the default. */
  function QueryNumber(parsed: Option<int>, default: int): (n: int)
    ensures parsed.None? || parsed.value == 0 ==> n == default
    ensures parsed.Some? && parsed.value != 0 ==> n == parsed.value
  {
    if parsed.Some? && parsed.value != 0 then parsed.value else default
  }

  /** `pages` pages of `limit` records hold `total` records, and one
    * page fewer would not. */
  predicate PagesCover(total: nat, limit: nat, pages: nat) {
    pages * limit >= total && (pages > 0 ==> (pages - 1) * limit < total)
  }

  /** `Math.ceil(total / limit)` on exact integers: the number of
    * `limit`-record pages needed, counted page by page. */
  function CeilDiv(total: nat, limit: nat): (pages: nat)
    requires limit > 0
    ensures PagesCover(total, limit, pages)
    decreases total
  {
    if total == 0 then 0
    else if total <= limit then 1
    else
      var rest := CeilDiv(total - limit, limit);
      assert (rest + 1) * limit == rest * limit + limit;
      rest + 1
  }

  /** `r` is `s` with some elements dropped and the others kept in order. */
  predicate IsSubsequence(r: seq<ShortUrlRecord>, s: seq<ShortUrlRecord>)
    decreases |s|
  {
    if r == [] then true
    else if s == [] then false
    else (r[0] == s[0] && IsSubsequence(r[1..], s[1..])) || IsSubsequence(r, s[1..])
  }

  /** The device filter `{ deviceId }`: every record, or those of the
    * given device, each as often as stored, in stored order. */
  function FilterByDevice(docs: seq<ShortUrlRecord>, deviceId: Option<string>): (r: seq<ShortUrlRecord>)
    ensures |r| <= |docs|
    ensures forall x :: x in r <==> x in docs && (!Truthy(deviceId) || x.deviceId == deviceId.value)
    ensures forall x :: multiset(r)[x] ==
              if !Truthy(deviceId) || x.deviceId == deviceId.value then multiset(docs)[x] else 0
    ensures IsSubsequence(r, docs)
  {
    if docs == [] then []
    else
      var rest := FilterByDevice(docs[1..], deviceId);
      assert forall x :: x in docs <==> x == docs[0] || x in docs[1..];
      assert docs == [docs[0]] + docs[1..];
      assert multiset(docs) == multiset{docs[0]} + multiset(docs[1..]);
      if !Truthy(deviceId) || docs[0].deviceId == deviceId.value then
        var r := [docs[0]] + rest;
        assert r[1..] == rest;
        r
      else rest
  }

  /** Ordered by clicks, most clicked first. */
  predicate ByClicksDesc(s: seq<ShortUrlRecord>) {
    forall i, j :: 0 <= i < j < |s| ==> s[i].clicks >= s[j].clicks
  }

  /** Inserts `x` before the first record with no more clicks than it. */
  function InsertByClicks(x: ShortUrlRecord, s: seq<ShortUrlRecord>): (r: seq<ShortUrlRecord>)
    requires ByClicksDesc(s)
    ensures ByClicksDesc(r)
    ensures |r| == |s| + 1
    ensures multiset(r) == multiset(s) + multiset{x}
    ensures r[0] == x || (s != [] && r[0] == s[0])
  {
    if s == [] || s[0].clicks <= x.clicks then [x] + s
    else
      var rest := InsertByClicks(x, s[1..]);
      assert s == [s[0]] + s[1..];
      [s[0]] + rest
  }

  /** `.sort({ clicks: -1 })`: a permutation of the records, most clicked
    * first (ties keep their collection order). */
  function SortByClicks(s: seq<ShortUrlRecord>): (r: seq<ShortUrlRecord>)
    ensures ByClicksDesc(r)
    ensures |r| == |s|
    ensures multiset(r) == multiset(s)
  {
    if s == [] then []
    else
      assert s == [s[0]] + s[1..];
      InsertByClicks(s[0], SortByClicks(s[1..]))
  }

  /** The matching records in the order the query returns them. */
  function Ranked(docs: seq<ShortUrlRecord>, deviceId: Option<string>): (r: seq<ShortUrlRecord>)
    ensures ByClicksDesc(r)
    ensures |r| == |FilterByDevice(docs, deviceId)|
    ensures multiset(r) == multiset(FilterByDevice(docs, deviceId))
    ensures forall x :: x in r <==> x in docs && (!Truthy(deviceId) || x.deviceId == deviceId.value)
  {
    var filtered := FilterByDevice(docs, deviceId);
    var r := SortByClicks(filtered);
    assert forall x :: x in r <==> x in multiset(filtered);
    r
  }

  /** `.skip(skip).limit(limit)` */
  function Window(s: seq<ShortUrlRecord>, skip: nat, limit: nat): (w: seq<ShortUrlRecord>)
    ensures |w| <= limit
    ensures forall i :: 0 <= i < |w| ==> skip + i < |s| && w[i] == s[skip + i]
    ensures |w| == if skip >= |s| then 0 else if skip + limit <= |s| then limit else |s| - skip
  {
    if skip >= |s| then []
    else if skip + limit <= |s| then s[skip..skip + limit]
    else s[skip..]
  }

  /** The number of records before page `page`. */
  function PageStart(page: int, limit: int): (skip: nat)
    requires page >= 1 && limit >= 1
    ensures skip + limit == page * limit
  {
    (page - 1) * limit
  }

  /** Page `page` of `limit` links over the ranked records, with the
    * pagination block describing the whole ranking. */
  function PageOf(ranked: seq<ShortUrlRecord>, page: int, limit: int): (r: Listing)
    requires page >= 1 && limit >= 1
    ensures r.pagination.total == |ranked| && r.pagination.page == page && r.pagination.limit == limit
    ensures PagesCover(|ranked|, limit, r.pagination.pages)
    ensures |r.links| <= limit
    ensures forall i :: 0 <= i < |r.links| ==>
              PageStart(page, limit) + i < |ranked| && r.links[i] == ViewOf(ranked[PageStart(page, limit) + i])
    ensures PageStart(page, limit) < |ranked| ==> |r.links| == Min(limit, |ranked| - PageStart(page, limit))
  {
    var shown := Window(ranked, PageStart(page, limit), limit);
    Listing(Views(shown), Pagination(|ranked|, page, CeilDiv(|ranked|, limit), limit))
  }

  function Min(a: int, b: int): (m: int)
    ensures m <= a && m <= b && (m == a || m == b)
  {
    if a <= b then a else b
  }

  /** `getAllShortUrls` over the collection's documents in their stored
    * order: the device filter, the ranking, then the requested page. */
  function ListShortUrls(docs: seq<ShortUrlRecord>, deviceId: Option<string>,
                         pageParam: Option<int>, limitParam: Option<int>): (r: Listing)
    requires pageParam.Some? ==> pageParam.value >= 0
    requires limitParam.Some? ==> limitParam.value >= 0
    ensures r.pagination.page == QueryNumber(pageParam, 1) >= 1
    ensures r.pagination.limit == QueryNumber(limitParam, 100) >= 1
    ensures r.pagination.total == |FilterByDevice(docs, deviceId)|
    ensures PagesCover(r.pagination.total, r.pagination.limit, r.pagination.pages)
    ensures |r.links| <= r.pagination.limit
    ensures r == PageOf(Ranked(docs, deviceId), r.pagination.page, r.pagination.limit)
  {
    PageOf(Ranked(docs, deviceId), QueryNumber(pageParam, 1), QueryNumber(limitParam, 100))
  }

  /** Links on a page of a ranking by clicks come most clicked first. */
  lemma PageIsOrdered(ranked: seq<ShortUrlRecord>, page: int, limit: int)
    requires page >= 1 && limit >= 1
    requires ByClicksDesc(ranked)
    ensures var links := PageOf(ranked, page, limit).links;
            forall i, j :: 0 <= i < j < |links| ==> links[i].clicks >= links[j].clicks
  {
    var links := PageOf(ranked, page, limit).links;
    var skip := PageStart(page, limit);
    forall i, j | 0 <= i < j < |links|
      ensures links[i].clicks >= links[j].clicks
    {
      assert links[i].clicks == ranked[skip + i].clicks;
      assert links[j].clicks == ranked[skip + j].clicks;
    }
  }

  /** Every link of a page is the view of one of the ranked records. */
  lemma PageDrawsFromRanking(ranked: seq<ShortUrlRecord>, page: int, limit: int)
    requires page >= 1 && limit >= 1
    ensures var links := PageOf(ranked, page, limit).links;
            forall i :: 0 <= i < |links| ==> exists d :: d in ranked && links[i] == ViewOf(d)
  {
    var links := PageOf(ranked, page, limit).links;
    forall i | 0 <= i < |links|
      ensures exists d :: d in ranked && links[i] == ViewOf(d)
    {
      var d := ranked[PageStart(page, limit) + i];
      assert d in ranked;
    }
  }

  /** Every listed link is the view of a stored record of the requesting
    * device (of any device when no device is given). */
  lemma ListingIsFiltered(docs: seq<ShortUrlRecord>, deviceId: Option<string>,
                          pageParam: Option<int>, limitParam: Option<int>)
    requires pageParam.Some? ==> pageParam.value >= 0
    requires limitParam.Some? ==> limitParam.value >= 0
    ensures var links := ListShortUrls(docs, deviceId, pageParam, limitParam).links;
            forall i :: 0 <= i < |links| ==>
              exists d :: d in docs && links[i] == ViewOf(d)
                          && (!Truthy(deviceId) || d.deviceId == deviceId.value)
  {
    var ranked := Ranked(docs, deviceId);
    var links := PageOf(ranked, QueryNumber(pageParam, 1), QueryNumber(limitParam, 100)).links;
    PageDrawsFromRanking(ranked, QueryNumber(pageParam, 1), QueryNumber(limitParam, 100));
    forall i | 0 <= i < |links|
      ensures exists d :: d in docs && links[i] == ViewOf(d)
                          && (!Truthy(deviceId) || d.deviceId == deviceId.value)
    {
      var d :| d in ranked && links[i] == ViewOf(d);
    }
  }

  /** The listed links come most clicked first. */
  lemma ListingIsOrdered(docs: seq<ShortUrlRecord>, deviceId: Option<string>,
                         pageParam: Option<int>, limitParam: Option<int>)
    requires pageParam.Some? ==> pageParam.value >= 0
    requires limitParam.Some? ==> limitParam.value >= 0
    ensures var links := ListShortUrls(docs, deviceId, pageParam, limitParam).links;
            forall i, j :: 0 <= i < j < |links| ==> links[i].clicks >= links[j].clicks
  {
    PageIsOrdered(Ranked(docs, deviceId), QueryNumber(pageParam, 1), QueryNumber(limitParam, 100));
  }

  /** A record before the end of the collection lies on a counted page. */
  lemma PageWithinCount(total: nat, limit: nat, pages: nat, page: int, i: nat)
    requires page >= 1 && limit >= 1
    requires PageStart(page, limit) <= i < total
    requires PagesCover(total, limit, pages)
    ensures page <= pages
  {
  }

  /** Pagination covers the ranking: the record at position `i`, for `i`
    * among the `limit` positions where page `page` starts, is shown on
    * that page, which is a counted page, at position `i` minus the start. */
  lemma EveryRecordOnOnePage(ranked: seq<ShortUrlRecord>, limit: int, page: int, i: nat)
    requires page >= 1 && limit >= 1
    requires PageStart(page, limit) <= i < PageStart(page, limit) + limit
    requires i < |ranked|
    ensures var p := PageOf(ranked, page, limit);
            && page <= p.pagination.pages
            && i - PageStart(page, limit) < |p.links|
            && p.links[i - PageStart(page, limit)] == ViewOf(ranked[i])
  {
    var p := PageOf(ranked, page, limit);
    PageWithinCount(|ranked|, limit, p.pagination.pages, page, i);
  }

  /** The same for the listing handler: the matching record ranked `i`
    * is on the requested page when `i` is among that page's positions. */
  lemma EveryMatchListed(docs: seq<ShortUrlRecord>, deviceId: Option<string>,
                         limit: int, page: int, i: nat)
    requires page >= 1 && limit >= 1
    requires PageStart(page, limit) <= i < PageStart(page, limit) + limit
    requires i < |FilterByDevice(docs, deviceId)|
    ensures var p := ListShortUrls(docs, deviceId, Some(page), Some(limit));
            && page <= p.pagination.pages
            && i - PageStart(page, limit) < |p.links|
            && p.links[i - PageStart(page, limit)] == ViewOf(Ranked(docs, deviceId)[i])
  {
    EveryRecordOnOnePage(Ranked(docs, deviceId), limit, page, i);
  }
}

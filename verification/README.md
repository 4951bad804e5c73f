# URL shortener core in Dafny

A model of the deterministic rules inside a small Express/Mongoose URL
shortener: how a redirect derives and records a visit, how creation decides
between 400/409/201/500 and composes the stored shortcode and public short
URL, how the listing filters, ranks and paginates, how page meta tags are
post-processed, and what the `ShortUrl` collection accepts.

Modules:

- `Wrappers` — `Option` and `Result`.
- `Text` — the JavaScript string operations the code relies on: `trim()`
  with JavaScript's whitespace set, `startsWith`, `split(',')[0]`,
  `indexOf`, `replace` of the first occurrence, truthiness of an optional
  string and `a || b`.
- `MetaTagsUtil` — `fetchMetaTags` as pure functions over a fetch outcome
  and the attribute values already extracted from the page: the failure
  paths, the fallback chains, the origin of the target URL and the
  relative-to-absolute rewriting of favicon and og:image.
- `ShortUrlModel` — the `ShortUrl` record and `Visit` shape, the schema's
  required/trim rules and defaults (`clicks = 0`, `visits = []`), and the
  collection as a map keyed by shortcode whose insert enforces the unique
  index. `Consistent` is the collection invariant: every record is keyed by
  its shortcode, its required fields are non-empty and trimmed, and
  `clicks` equals the number of visits.
- `ShortUrlController` — the three handlers. The redirect loads a
  `ShortUrlDocument` (a class whose `visits` and `clicks` fields are updated
  in place), appends the visit, bumps `clicks` and saves; creation and
  listing are functions of the collection and the request.

The foreign calls are inputs: the user-agent parser and the geo lookup are
function-typed parameters, and the `isValidUrl` verdict, the six-character
`nanoid` code, the pre-check lookup result, the page fetch, the success of
`save()`, the clock and `NODE_ENV` are values passed in.

Where the service's documented behaviour and the code differ, the model
follows the code: the 409 pre-check in `createShortUrl` queries a field
named `requestString` that the schema does not have, so it is modelled only
as an opaque "existing found" input and uniqueness rests on the insert into
the collection; and a meta-tag value counts as absolute whenever it starts
with the four letters `http` (so `httpicon.png` is left as it is).

## Model

| member | source | states |
|---|---|---|
| Text.Trim | src/models/ShortUrl.ts:50 | The result is no longer than the input and has no leading or trailing whitespace |
| Text.TrimRemovesOnlySpace | src/models/ShortUrl.ts:50 | Trimming only removes whitespace: the input is the result with all-whitespace padding on both sides |
| Text.TrimUnchanged | src/models/ShortUrl.ts:50 | A string without surrounding whitespace is left as it is |
| Text.TrimIdempotent | src/models/ShortUrl.ts:50 | Trimming twice is trimming once |
| Text.TrimEmptyIffAllSpace | src/models/ShortUrl.ts:46-66 | A string trims to empty exactly when it is all whitespace |
| Text.TrimKeepsAbsence | src/controllers/shortUrl.controller.ts:13 | Trimming cannot introduce a character the input lacks |
| Text.FirstField | src/controllers/shortUrl.controller.ts:13 | `split(sep)[0]`: a prefix of the input without the separator, ending at the first separator or the end |
| Text.IndexOf | src/controllers/shortUrl.controller.ts:212 | `indexOf`: -1 when the pattern occurs nowhere, otherwise a position where it occurs with no earlier occurrence |
| Text.ReplaceFirst | src/controllers/shortUrl.controller.ts:212 | `replace` with a string pattern: the first occurrence of the pattern is replaced, everything before and after it kept; with no occurrence the string is unchanged |
| Text.OrElse | src/controllers/shortUrl.controller.ts:220-226 | `value \|\| default`: a present non-empty value wins, otherwise the default |
| Text.StartsWithIsPrefix | src/utils/meta-tags.ts:48-49 | `startsWith(p)` holds exactly when the string is `p` followed by its remainder |
| Text.StartsWithConcat | src/utils/meta-tags.ts:48-49 | A string always starts with any of its prefixes |
| MetaTagsUtil.FindChar | src/utils/meta-tags.ts:44 | The first position of a character, or the length when absent |
| MetaTagsUtil.HostEnd | src/utils/meta-tags.ts:44 | The host ends at the first `/`, `?` or `#`, or at the end |
| MetaTagsUtil.SplitUrl | src/utils/meta-tags.ts:44 | A parsed URL has a non-empty host containing no `/`, `?` or `#` |
| MetaTagsUtil.BaseUrl | src/utils/meta-tags.ts:45 | `${protocol}//${host}`: the protocol, then `//`, then exactly the host |
| MetaTagsUtil.SplitUrlParts | src/utils/meta-tags.ts:44-45 | A parsed URL is `protocol` (scheme plus `:`) + `//` + a non-empty host + a rest that starts with `/`, `?` or `#` or is empty |
| MetaTagsUtil.BaseUrlIsOrigin | src/utils/meta-tags.ts:44-45 | `baseUrl` is a prefix of the URL and only the path, query and fragment follow it |
| MetaTagsUtil.FindCharAt | src/utils/meta-tags.ts:44 | The first occurrence of a character is found at the position before which it does not occur |
| MetaTagsUtil.HostEndAt | src/utils/meta-tags.ts:44 | The host ends at the first delimiter position |
| MetaTagsUtil.SplitAt | src/utils/meta-tags.ts:44-45 | A URL with scheme length and host length as given splits into exactly those protocol, host and rest |
| MetaTagsUtil.SplitExample | src/utils/meta-tags.ts:44-45 | `https://example.com/page` parses to protocol `https:`, host `example.com` and rest `/page` |
| MetaTagsUtil.Or | src/utils/meta-tags.ts:30-40 | JavaScript `a \|\| b` on optional strings: a non-empty first operand wins, otherwise the second |
| MetaTagsUtil.Extract | src/utils/meta-tags.ts:29-41 | Title is the first `<title>` text when non-empty, else og:title; description is the meta description when non-empty, else og:description; og:image is taken as is; favicon is the icon href, else the shortcut-icon href, else `/favicon.ico`, and is always present and non-empty |
| MetaTagsUtil.Absolutize | src/utils/meta-tags.ts:48-51 | An empty value or one starting with `http` is unchanged; a value starting with `/` becomes `baseUrl + value`; any other becomes `baseUrl + "/" + value` |
| MetaTagsUtil.AbsolutizeField | src/utils/meta-tags.ts:55-59 | An absent field stays absent; a present one is rewritten as `Absolutize` says |
| MetaTagsUtil.FetchMetaTags | src/utils/meta-tags.ts:11-67 | A thrown fetch, a non-ok status, an empty body or an unparsable URL give the empty result; otherwise the extracted tags with favicon and og:image made absolute against the target's origin |
| MetaTagsUtil.SuccessHasAbsoluteFavicon | src/utils/meta-tags.ts:37-52 | On the success path the favicon is present and either starts with `http` or with the target's origin |
| MetaTagsUtil.AbsolutizeIdempotent | src/utils/meta-tags.ts:48 | For an `http` origin, rewriting an already rewritten value changes nothing |
| MetaTagsUtil.RootRelativeFavicon | src/utils/meta-tags.ts:48-50 | On the success path a favicon href starting with `/` becomes the target's origin followed by the href |
| MetaTagsUtil.RootRelativeFaviconExample | src/utils/meta-tags.ts:48-51 | `/fav.ico` on `https://example.com/page` becomes `https://example.com/fav.ico` |
| ShortUrlModel.RequiredTrimmed | src/models/ShortUrl.ts:46-66 | A required trimmed string is accepted exactly when present and non-empty after trimming, and is stored trimmed |
| ShortUrlModel.MissingPaths | src/models/ShortUrl.ts:46-66 | A path is reported missing exactly when its value is absent or consists only of whitespace (and so when the required trimmed string is not accepted) |
| ShortUrlModel.NoMissingPaths | src/models/ShortUrl.ts:46-66 | No path is missing exactly when all four required values are accepted |
| ShortUrlModel.Build | src/models/ShortUrl.ts:44-84 | Validation fails exactly when a required path is missing and reports those paths; a built record has the four fields trimmed, the given meta tags, `clicks = 0`, no visits, and is well formed with `clicks` equal to the number of visits |
| ShortUrlModel.Insert | src/models/ShortUrl.ts:49 | Insert succeeds exactly when the document validates and its shortcode is new; a validation failure or a duplicate key leaves the collection unchanged; on success exactly one key is added and every other record is unchanged |
| ShortUrlModel.Find | src/controllers/shortUrl.controller.ts:191 | `findOne({ shortcode })` finds a record exactly when the shortcode is a key, and returns that record |
| ShortUrlModel.InsertKeepsConsistent | src/models/ShortUrl.ts:68-78 | Inserting into a consistent collection keeps it consistent |
| ShortUrlModel.ShortcodeStaysUnique | src/models/ShortUrl.ts:49 | A second insert with a shortcode already stored fails with a duplicate key |
| ShortUrlController.ClientIp | src/controllers/shortUrl.controller.ts:10-15 | A string `X-Forwarded-For` gives its first comma-separated entry trimmed (no comma, no surrounding whitespace); otherwise the remote address, or `""` when that is absent or empty |
| ShortUrlController.StripMappedIpv4 | src/controllers/shortUrl.controller.ts:211-213 | An address starting with `::ffff:` loses exactly that prefix; any other is unchanged |
| ShortUrlController.GeoField | src/controllers/shortUrl.controller.ts:221-222 | `geo?.country` / `geo?.city`: absent without a lookup result, otherwise the chosen field |
| ShortUrlController.Platform | src/controllers/shortUrl.controller.ts:227-232 | `iOS` iff mobile with OS `iOS`; `Android` iff mobile with any other OS; `Desktop` iff the device type is not `mobile` (including absent) |
| ShortUrlController.BuildVisit | src/controllers/shortUrl.controller.ts:219-234 | Every visit field is set; country and city fall back to `Unknown`, referrer to `Direct`, device type to `desktop`; browser and os are `name\|Unknown` + space + `version\|''`; the address is kept only when `NODE_ENV` is `production`, else `localhost` |
| ShortUrlController.VisitFor | src/controllers/shortUrl.controller.ts:201-234 | The visit of a request: its address is the client address with the `::ffff:` prefix removed, its country and city come from the geo lookup of that address, its device type and platform from the user-agent parse, its browser and os as the parsed name (or `Unknown`), a space, then the parsed version (or empty), its referrer from the header, and its timestamp is the clock |
| ShortUrlController.ShortUrlDocument.Load | src/controllers/shortUrl.controller.ts:191 | The loaded document holds exactly the stored record |
| ShortUrlController.ShortUrlDocument.RecordVisit | src/controllers/shortUrl.controller.ts:237-238 | Exactly one visit is appended at the end, clicks goes up by exactly one, nothing else changes, and `clicks` equal to the number of visits is preserved |
| ShortUrlController.RedirectToOriginalUrl | src/controllers/shortUrl.controller.ts:184-249 | Status 404 exactly for an unknown shortcode and the collection is unchanged; status 500 exactly when a known record's save fails, and unchanged; otherwise a redirect to the stored original URL, the same keys, other records untouched, the record gains exactly the visit derived from the request and one click, and consistency is preserved |
| ShortUrlController.RedirectStatus | src/controllers/shortUrl.controller.ts:194-248 | The status of a redirect answer: 302 for a redirect, 404 for not found, 500 for a server error |
| ShortUrlController.RecordingKeepsConsistent | src/controllers/shortUrl.controller.ts:237-239 | Recording one visit and one click keeps the collection consistent |
| ShortUrlController.ShortUrlOf | src/controllers/shortUrl.controller.ts:85 | The short URL is the domain, a slash, then the shortcode |
| ShortUrlController.RequestDomain | src/controllers/shortUrl.controller.ts:43 | `${req.protocol}://${req.get('host')}`: the protocol, `://`, then the host, or the text `undefined` when there is no host header |
| ShortUrlController.RequestDomainKeptAsIs | src/controllers/shortUrl.controller.ts:43 | A domain whose protocol does not begin with whitespace and whose host does not end with it is stored exactly as composed (trimming leaves it unchanged) |
| ShortUrlController.NewDocument | src/controllers/shortUrl.controller.ts:69-75 | The document handed to the model: shortcode `smi.to` + code, the request domain, the device id, the original URL and the fetched meta tags |
| ShortUrlController.NewDocumentMissesOnlyRequestFields | src/controllers/shortUrl.controller.ts:69-75 | Only the device id or the original URL can be missing from that document; the shortcode and domain are always present and non-blank |
| ShortUrlController.CreateStatus | src/controllers/shortUrl.controller.ts:17-97 | The status of a create answer: 400, 409, 201 or 500 according to its kind |
| ShortUrlController.CreateShortUrl | src/controllers/shortUrl.controller.ts:17-97 | Guards in order: validation errors, then missing device id (400), then invalid URL (400), then an existing match (409); every non-201 answer leaves the collection unchanged; 201 exactly when all guards pass and the insert succeeds, and then the stored shortcode is the trimmed `smi.to` + code, new, the stored domain is the trimmed request domain, added alone, with `clicks = 0`, no visits, trimmed original URL and device id, the fetched meta tags, and `shortUrl = domain/shortcode` |
| ShortUrlController.CreatedShortcodeIsPrefixedCode | src/controllers/shortUrl.controller.ts:53-55 | For a six-character URL-safe code the stored shortcode is exactly `smi.to` + code and the short URL is the trimmed `${protocol}://${host}`, a slash, then `smi.to` + code |
| ShortUrlController.CreatedLinkResolves | src/controllers/shortUrl.controller.ts:69-89 | After a 201 the collection stays consistent and the returned shortcode finds a record with the returned original URL |
| ShortUrlController.Views | src/controllers/shortUrl.controller.ts:129-138 | One link view per record, in order |
| ShortUrlController.ViewOf | src/controllers/shortUrl.controller.ts:129-138 | A link view carries the record's shortcode, original URL, clicks, meta tags and visits, and its short URL is the domain, a slash, then the shortcode |
| ShortUrlController.QueryNumber | src/controllers/shortUrl.controller.ts:106-107 | A missing, unparsable or zero parameter gives the default; any other value is used |
| ShortUrlController.CeilDiv | src/controllers/shortUrl.controller.ts:142 | `pages` pages of `limit` hold `total` records and one page fewer would not (integer ceiling) |
| ShortUrlController.FilterByDevice | src/controllers/shortUrl.controller.ts:110-116 | Keeps exactly the records of the given device, or all when no device id is given: each kept record as many times as it is stored, in the stored order |
| ShortUrlController.InsertByClicks | src/controllers/shortUrl.controller.ts:120 | Inserting into a list ranked by clicks keeps it ranked and adds exactly the one record |
| ShortUrlController.SortByClicks | src/controllers/shortUrl.controller.ts:120 | `sort({ clicks: -1 })`: a permutation of the input, most clicked first |
| ShortUrlController.Ranked | src/controllers/shortUrl.controller.ts:119-120 | The matching records, most clicked first: a permutation of the filtered records, holding exactly the records of the device |
| ShortUrlController.Window | src/controllers/shortUrl.controller.ts:121-122 | `skip(skip).limit(limit)`: at most `limit` consecutive records starting at `skip`, as many as remain |
| ShortUrlController.PageStart | src/controllers/shortUrl.controller.ts:108 | `(page - 1) * limit`: the skip plus one page reaches the end of the requested page |
| ShortUrlController.PageOf | src/controllers/shortUrl.controller.ts:108-144 | At most `limit` links, the i-th being the view of ranked record `(page-1)*limit + i`, as many as remain; pagination reports the total, page, limit and the ceiling page count |
| ShortUrlController.ListShortUrls | src/controllers/shortUrl.controller.ts:100-153 | Page and limit are the parameters or their defaults 1 and 100, total is the number of matching records, pages is the ceiling of total over limit, and at most `limit` links are returned |
| ShortUrlController.PageIsOrdered | src/controllers/shortUrl.controller.ts:120-122 | A page of a ranking by clicks is itself ordered by clicks |
| ShortUrlController.PageDrawsFromRanking | src/controllers/shortUrl.controller.ts:121-122 | Every link on a page is the view of a ranked record |
| ShortUrlController.ListingIsFiltered | src/controllers/shortUrl.controller.ts:110-122 | Every listed link is the view of a stored record of the requesting device |
| ShortUrlController.ListingIsOrdered | src/controllers/shortUrl.controller.ts:119-122 | Listed links come most clicked first |
| ShortUrlController.PageWithinCount | src/controllers/shortUrl.controller.ts:142 | A page that starts before the end of the records is within the page count |
| ShortUrlController.EveryRecordOnOnePage | src/controllers/shortUrl.controller.ts:108-142 | Each ranked record is shown on the page whose range holds its position, at its offset in that page, and that page is counted |
| ShortUrlController.EveryMatchListed | src/controllers/shortUrl.controller.ts:106-144 | The same for the listing handler: each matching record appears on the requested page that covers its rank |

## Left out

- HTTP and database I/O: Express request/response objects, the MongoDB connection, process start-up, routing and middleware (helmet, cors, morgan, the error handler). Only status codes and payload fields are modelled.
- `src/middleware/validation.ts` is not part of this model; its rules are never attached to the routes, so the validation outcome is a plain boolean input.
- `getShortUrl` (lookup by MongoDB `_id`): the model keys records by shortcode and has no document ids.
- The foreign calls `isValidUrl`, `nanoid`, `UAParser`, `geoip.lookup`, `node-fetch` and `cheerio` are inputs, not code; the HTML parsing itself is not modelled.
- `_id`, `createdAt`, `updatedAt` and the visit timestamp's `Date` type: timestamps are a plain integer input.
- MetaTagsUtil.SplitUrl: a simplified reading of `new URL(...)` — scheme up to the first `:`, then `//`, then the host up to `/`, `?` or `#`; userinfo, port normalisation, case folding and other WHATWG URL parsing rules are not modelled.
- ShortUrlController.CeilDiv: `Math.ceil` over floating-point division is modelled as exact integer ceiling.
- ShortUrlController.ListShortUrls: negative `page` or `limit` values (which `parseInt` can produce) are excluded by precondition, because the database driver's treatment of a negative skip or limit is outside the model.
- ShortUrlController.SortByClicks: MongoDB does not specify the order of records with equal clicks; the model fixes one such order, and the contract promises only a permutation ordered by clicks, which holds for any tie order.
- ShortUrlController.ClientIp: a repeated `X-Forwarded-For` given as an array falls through to the remote address, as in the code; a header array for `x-device-id` is not modelled (it is a single optional string).
- ShortUrlController.CreateShortUrl: the outcome of the `requestString` pre-check is an input (`existingFound`); Mongoose's query-filter casting, which decides it, is not modelled. Database errors other than validation and duplicate key are not modelled apart from a failed save on redirect.
- ShortUrlController.RedirectToOriginalUrl: the shortcode lookup is by exact key; Mongoose query casting is not modelled.
- Concurrency: racing redirects or creations; one request at a time is modelled.
- Logging with `console.log` / `console.error`.

/**
 * Page-metadata enrichment (`fetchMetaTags`). The HTTP fetch and the HTML
 * parser are outside the model: their outcome is a `FetchOutcome` that
 * carries the attribute values the CSS selectors would extract. What is
 * modelled is everything the function does with them: the failure paths,
 * the fallback chains and the rewriting of relative references.
 */
module MetaTagsUtil {
  import opened Wrappers
  import opened Text

  /** The metadata snapshot; every field is optional. */
  datatype MetaTags = MetaTags(
    title: Option<string>,
    description: Option<string>,
    favicon: Option<string>,
    ogImage: Option<string>)

  /** `{}`: what every failure collapses to. */
  const NoMetaTags := MetaTags(None, None, None, None)

  /** The values the page's selectors yield. `firstTitleText` is the text of
    * the first `<title>` (empty when there is none); the rest are the
    * attribute values, absent when the element or attribute is. */
  datatype PageTags = PageTags(
    firstTitleText: string,
    ogTitle: Option<string>,
    metaDescription: Option<string>,
    ogDescription: Option<string>,
    ogImage: Option<string>,
    iconHref: Option<string>,
    shortcutIconHref: Option<string>)

  /** What the fetch produced: an exception (network error, unreadable body)
    * or a response with its `ok` flag, its body text and the parsed tags. */
  datatype FetchOutcome =
    | FetchThrew
    | Fetched(ok: bool, html: string, page: PageTags)

  /** The default favicon path, used when the page declares no icon. */
  const DefaultFavicon := "/favicon.ico"

  // ---------------------------------------------------------------------
  // `new URL(url)`: the parts the enricher reads

  /** `protocol` is the scheme with its colon (`https:`), `host` the
    * authority, `rest` the path, query and fragment. */
  datatype UrlParts = UrlParts(protocol: string, host: string, rest: string)

  predicate IsSchemeChar(c: char) {
    ('a' <= c <= 'z') || ('A' <= c <= 'Z') || ('0' <= c <= '9') || c == '+' || c == '-' || c == '.'
  }

  predicate EndsHost(c: char) {
    c == '/' || c == '?' || c == '#'
  }

  /** No character of `s` could end a host. */
  predicate NoHostEnd(s: string) {
    '/' !in s && '?' !in s && '#' !in s
  }

  /** Position of the first `c` in `s`, or `|s|`. */
  function FindChar(s: string, c: char): (i: nat)
    ensures i <= |s|
    ensures c !in s[..i]
    ensures i < |s| ==> s[i] == c
  {
    if s == [] || s[0] == c then 0 else 1 + FindChar(s[1..], c)
  }

  /** Position where the authority ends: the first `/`, `?` or `#`, or `|s|`. */
  function HostEnd(s: string): (i: nat)
    ensures i <= |s|
    ensures NoHostEnd(s[..i])
    ensures i < |s| ==> EndsHost(s[i])
  {
    if s == [] || EndsHost(s[0]) then 0 else 1 + HostEnd(s[1..])
  }

  /** Splits an absolute hierarchical URL `scheme://host/rest`; `None` is a
    * string `new URL` would reject. */
  function SplitUrl(url: string): (r: Option<UrlParts>)
    ensures r.Some? ==> r.value.host != [] && NoHostEnd(r.value.host)
  {
    var i := FindChar(url, ':');
    if i == 0 || i == |url| || !IsSchemeChar(url[0]) || !StartsWith(url[i + 1..], "//") then None
    else
      var auth := url[i + 3..];
      var j := HostEnd(auth);
      if j == 0 then None
      else Some(UrlParts(url[..i + 1], auth[..j], auth[j..]))
  }

  /** What a successful split means: the URL is exactly protocol, `//`,
    * host and rest; the protocol is the scheme up to its first colon; the
    * host is non-empty and stops at the first `/`, `?` or `#`. */
  lemma SplitUrlParts(url: string)
    requires SplitUrl(url).Some?
    ensures var p := SplitUrl(url).value;
            && url == p.protocol + "//" + p.host + p.rest
            && |p.protocol| >= 2 && p.protocol[|p.protocol| - 1] == ':'
            && ':' !in p.protocol[..|p.protocol| - 1]
            && p.host != [] && NoHostEnd(p.host)
            && (p.rest == [] || EndsHost(p.rest[0]))
  {
    var i := FindChar(url, ':');
    var auth := url[i + 3..];
    var j := HostEnd(auth);
    assert url[i + 1..i + 3] == url[i + 1..][..2] == "//";
    assert auth == auth[..j] + auth[j..];
    assert url == url[..i + 1] + url[i + 1..i + 3] + auth;
    assert url[..i + 1][..i] == url[..i];
  }

  /** `${protocol}//${host}` */
  function BaseUrl(p: UrlParts): (b: string)
    ensures StartsWith(b, p.protocol + "//") && b[|p.protocol| + 2..] == p.host
  {
    var b := p.protocol + "//" + p.host;
    StartsWithConcat(p.protocol + "//", p.host);
    b
  }

  /** The base keeps the scheme and host of the URL and drops exactly its
    * path, query and fragment. */
  lemma BaseUrlIsOrigin(url: string)
    requires SplitUrl(url).Some?
    ensures var p := SplitUrl(url).value;
            StartsWith(url, BaseUrl(p)) && url[|BaseUrl(p)|..] == p.rest
            && (p.rest == [] || EndsHost(p.rest[0]))
  {
    var p := SplitUrl(url).value;
    SplitUrlParts(url);
    assert url == BaseUrl(p) + p.rest;
  }

  // ---------------------------------------------------------------------
  // The fallback chains

  /** `a || b` where both sides may be `undefined`. */
  function Or(a: Option<string>, b: Option<string>): (r: Option<string>)
    ensures Truthy(a) ==> r == a
    ensures !Truthy(a) ==> r == b
  {
    if Truthy(a) then a else b
  }

  /** The tags before rewriting: title and description fall back to their
    * Open Graph forms, the favicon to `/favicon.ico`. */
  function Extract(page: PageTags): (m: MetaTags)
    ensures page.firstTitleText != "" ==> m.title == Some(page.firstTitleText)
    ensures page.firstTitleText == "" ==> m.title == page.ogTitle
    ensures Truthy(page.metaDescription) ==> m.description == page.metaDescription
    ensures !Truthy(page.metaDescription) ==> m.description == page.ogDescription
    ensures m.ogImage == page.ogImage
    ensures m.favicon.Some? && m.favicon.value != ""
    ensures m.favicon.value == (if Truthy(page.iconHref) then page.iconHref.value
                                else if Truthy(page.shortcutIconHref) then page.shortcutIconHref.value
                                else DefaultFavicon)
  {
    MetaTags(
      Or(Some(page.firstTitleText), page.ogTitle),
      Or(page.metaDescription, page.ogDescription),
      Some(OrElse(Or(page.iconHref, page.shortcutIconHref), DefaultFavicon)),
      page.ogImage)
  }

  // ---------------------------------------------------------------------
  // Relative references made absolute

  /** A reference made absolute against `base`: one already starting with
    * `http` (or empty) is kept; a root-relative one is appended to the base;
    * any other gets a `/` between base and reference. */
  function Absolutize(base: string, v: string): (r: string)
    ensures v == "" || StartsWith(v, "http") ==> r == v
    ensures v != "" && !StartsWith(v, "http") ==>
              StartsWith(r, base) && StartsWith(r[|base|..], "/")
              && (r[|base|..] == v || r[|base|..] == "/" + v)
              && (r[|base|..] == v <==> v[0] == '/')
  {
    if v == "" || StartsWith(v, "http") then v
    else if StartsWith(v, "/") then base + v
    else
      assert (base + "/" + v)[|base|..] == "/" + v;
      base + "/" + v
  }

  /** The same rewrite on a field that may be absent: absent stays absent. */
  function AbsolutizeField(base: string, o: Option<string>): (r: Option<string>)
    ensures o.None? <==> r.None?
    ensures o.Some? ==> r == Some(Absolutize(base, o.value))
  {
    if Truthy(o) then Some(Absolutize(base, o.value)) else o
  }

  /** `fetchMetaTags(url)`: any failure gives `{}`; otherwise the extracted
    * tags with favicon and og:image made absolute against the URL's base. */
  function FetchMetaTags(url: string, outcome: FetchOutcome): (m: MetaTags)
    ensures outcome.FetchThrew? ==> m == NoMetaTags
    ensures outcome.Fetched? && (!outcome.ok || outcome.html == "") ==> m == NoMetaTags
    ensures SplitUrl(url).None? ==> m == NoMetaTags
    ensures outcome.Fetched? && outcome.ok && outcome.html != "" && SplitUrl(url).Some? ==>
              var base := BaseUrl(SplitUrl(url).value);
              var e := Extract(outcome.page);
              m == e.(favicon := AbsolutizeField(base, e.favicon),
                      ogImage := AbsolutizeField(base, e.ogImage))
  {
    match outcome
    case FetchThrew => NoMetaTags
    case Fetched(ok, html, page) =>
      if !ok || html == "" then NoMetaTags
      else
        var e := Extract(page);
        match SplitUrl(url)
        case None => NoMetaTags
        case Some(parts) =>
          var base := BaseUrl(parts);
          e.(favicon := AbsolutizeField(base, e.favicon),
             ogImage := AbsolutizeField(base, e.ogImage))
  }

  /** On success the favicon is always present and absolute: it starts with
    * `http` or with the target's base. */
  lemma SuccessHasAbsoluteFavicon(url: string, ok: bool, html: string, page: PageTags)
    requires ok && html != "" && SplitUrl(url).Some?
    ensures var m := FetchMetaTags(url, Fetched(ok, html, page));
            m.favicon.Some? && m.favicon.value != ""
            && (StartsWith(m.favicon.value, "http")
                || StartsWith(m.favicon.value, BaseUrl(SplitUrl(url).value)))
  {
    var e := Extract(page);
    var base := BaseUrl(SplitUrl(url).value);
    var f := e.favicon.value;
    assert AbsolutizeField(base, e.favicon) == Some(Absolutize(base, f));
  }

  /** For an `http`/`https` target the rewrite is idempotent. */
  lemma AbsolutizeIdempotent(base: string, v: string)
    requires StartsWith(base, "http")
    ensures Absolutize(base, Absolutize(base, v)) == Absolutize(base, v)
  {
    var r := Absolutize(base, v);
    if v != "" && !StartsWith(v, "http") {
      assert r[..|base|] == base;
      assert r[..4] == base[..4];
    }
  }

  /** `FindChar` is the first occurrence. */
  lemma {:induction false} FindCharAt(s: string, c: char, i: nat)
    requires i <= |s| && c !in s[..i] && (i < |s| ==> s[i] == c)
    ensures FindChar(s, c) == i
  {
    if i > 0 {
      assert s[0] == s[..i][0];
      assert s[1..][..i - 1] == s[..i][1..];
      FindCharAt(s[1..], c, i - 1);
    }
  }

  /** `HostEnd` is the first `/`, `?` or `#`. */
  lemma {:induction false} HostEndAt(s: string, i: nat)
    requires i <= |s| && NoHostEnd(s[..i]) && (i < |s| ==> EndsHost(s[i]))
    ensures HostEnd(s) == i
  {
    if i > 0 {
      assert s[0] == s[..i][0];
      assert s[1..][..i - 1] == s[..i][1..];
      HostEndAt(s[1..], i - 1);
    }
  }

  /** The split a URL gets when its first colon is at `i` and its host is
    * the `h` characters after the `//`. */
  lemma SplitAt(url: string, i: nat, h: nat)
    requires i < |url| && url[i] == ':' && ':' !in url[..i]
    requires i > 0 && IsSchemeChar(url[0]) && StartsWith(url[i + 1..], "//")
    requires 0 < h && i + 3 + h <= |url|
    requires NoHostEnd(url[i + 3..i + 3 + h])
    requires i + 3 + h < |url| ==> EndsHost(url[i + 3 + h])
    ensures SplitUrl(url) == Some(UrlParts(url[..i + 1], url[i + 3..i + 3 + h], url[i + 3 + h..]))
  {
    FindCharAt(url, ':', i);
    var auth := url[i + 3..];
    assert auth[..h] == url[i + 3..i + 3 + h];
    HostEndAt(auth, h);
    assert auth[..h] == url[i + 3..i + 3 + h] && auth[h..] == url[i + 3 + h..];
  }

  /** The scheme of the example URL: `https` then its first colon. */
  lemma ExampleScheme(url: string)
    requires url == "https://example.com/page"
    ensures ':' !in url[..5] && url[5] == ':'
    ensures IsSchemeChar(url[0]) && StartsWith(url[6..], "//")
  {
    assert url[..5] == "https";
    assert url[6..][..2] == "//";
  }

  /** The host of the example URL: `example.com`, ended by `/`. */
  lemma ExampleHost(url: string)
    requires url == "https://example.com/page"
    ensures NoHostEnd(url[8..19]) && EndsHost(url[19])
  {
    assert url[8..19] == "example.com";
  }

  /** Proof helper for `SplitExample`: the literal slices of the example
    * URL, kept apart so that the solver unrolls the literal only here. */
  lemma ExampleSlices(url: string)
    requires url == "https://example.com/page"
    ensures url[..6] == "https:" && url[8..19] == "example.com" && url[19..] == "/page"
  {
  }

  /** `https://example.com/page` splits into `https:`, `example.com` and
    * `/page`. */
  lemma SplitExample(url: string)
    requires url == "https://example.com/page"
    ensures SplitUrl(url) == Some(UrlParts("https:", "example.com", "/page"))
  {
    ExampleScheme(url);
    ExampleHost(url);
    SplitAt(url, 5, 11);
    ExampleSlices(url);
  }

  /** A root-relative favicon is appended to the target's origin. */
  lemma RootRelativeFavicon(url: string, page: PageTags, v: string)
    requires SplitUrl(url).Some?
    requires page.iconHref == Some(v) && v != "" && v[0] == '/'
    ensures FetchMetaTags(url, Fetched(true, "<html>", page)).favicon
            == Some(BaseUrl(SplitUrl(url).value) + v)
  {
    var base := BaseUrl(SplitUrl(url).value);
    assert Extract(page).favicon == Some(v);
    assert !StartsWith(v, "http") by {
      if |v| >= 4 { assert v[..4][0] == '/'; }
    }
    assert Absolutize(base, v) == base + v;
  }

  /** The origin of the example URL. */
  lemma ExampleBase(url: string)
    requires url == "https://example.com/page"
    ensures SplitUrl(url).Some? && BaseUrl(SplitUrl(url).value) == "https://example.com"
  {
    SplitExample(url);
  }

  /** Proof helper for `RootRelativeFaviconExample`: the literal join,
    * kept apart so that the solver unrolls the literals only here. */
  lemma ExampleFaviconJoin()
    ensures "https://example.com" + "/fav.ico" == "https://example.com/fav.ico"
  {
  }

  /** A root-relative favicon on `https://example.com/page` becomes
    * `https://example.com/fav.ico`. */
  lemma RootRelativeFaviconExample(url: string, page: PageTags)
    requires url == "https://example.com/page"
    requires page.iconHref == Some("/fav.ico")
    ensures FetchMetaTags(url, Fetched(true, "<html>", page)).favicon == Some("https://example.com/fav.ico")
  {
    ExampleBase(url);
    RootRelativeFavicon(url, page, "/fav.ico");
    ExampleFaviconJoin();
  }
}
